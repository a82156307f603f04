/**
  From world coordinates to chunks, and from a piece to the points it adds.
 */
module Placement {
  import opened Bits
  import opened Life
  import opened RegistryModel
  import opened Runs

  // ----- worldToChunkLocal -----

  /** Go's integer division: towards zero. */
  function GoDiv(a: int, b: int): int
    requires b > 0
  {
    if a >= 0 then a / b else -(-a / b)
  }

  /** Go's remainder: it has the sign of the dividend. */
  function GoMod(a: int, b: int): int
    requires b > 0
  {
    a - b * GoDiv(a, b)
  }

  /** The floor, out of a division that truncates. */
  method WorldToChunkLocal(abs: int) returns (chunk: int, local: uint8)
    ensures abs == 64 * chunk + local && local < 64
    ensures chunk == abs / 64 && local == abs % 64
  {
    chunk := GoDiv(abs, SIZE);
    var rem := GoMod(abs, SIZE);
    if abs < 0 && rem != 0 {
      chunk := chunk - 1;
      rem := rem + SIZE;
    }
    local := rem;
  }

  /** A coordinate has one chunk and one local offset, and they have it. */
  lemma SplitUnique(abs: int, chunk: int, local: nat)
    requires local < 64
    ensures abs == 64 * chunk + local <==> chunk == abs / 64 && local == abs % 64
  {
  }

  /** Without the adjustment, the truncated quotient names the wrong chunk for
      exactly the negative coordinates that no chunk starts at. */
  lemma TruncationNeedsAdjusting(abs: int)
    ensures GoDiv(abs, 64) == abs / 64 && GoMod(abs, 64) == abs % 64 <==> abs >= 0 || abs % 64 == 0
  {
  }

  // ----- Pieces -----

  function Translate(root: Point, c: Point): Point
  {
    Point(root.x + c.x, root.y + c.y)
  }

  ghost function Translated(root: Point, cells: seq<Point>): iset<Point>
  {
    iset i | 0 <= i < |cells| :: Translate(root, cells[i])
  }

  /** The spawn loop of a placement. */
  ghost function PlaceAll(s: State, root: Point, cells: seq<Point>, loadFails: set<ChunkID>): State
  {
    if |cells| == 0 then s
    else
      var t, p := PlaceAll(s, root, cells[..|cells| - 1], loadFails), Translate(root, cells[|cells| - 1]);
      SpawnOne(t, p, ChunkOf(p) in loadFails)
  }

  lemma TranslatedOneMore(root: Point, cells: seq<Point>)
    requires |cells| > 0
    ensures var n := |cells| - 1;
      Translated(root, cells) == Translated(root, cells[..n]) + iset{Translate(root, cells[n])}
  {
    var n := |cells| - 1;
    forall i | 0 <= i < n
      ensures cells[..n][i] == cells[i]
    {
    }
  }

  /** In coordinates: the points whose offset from `root` is listed. */
  lemma TranslatedAt(root: Point, cells: seq<Point>, q: Point)
    ensures q in Translated(root, cells)
      <==> exists i :: 0 <= i < |cells| && q.x - root.x == cells[i].x && q.y - root.y == cells[i].y
  {
    if q in Translated(root, cells) {
      var i :| 0 <= i < |cells| && q == Translate(root, cells[i]);
      assert q.x - root.x == cells[i].x;
    }
    if i :| 0 <= i < |cells| && q.x - root.x == cells[i].x && q.y - root.y == cells[i].y {
      assert q == Translate(root, cells[i]);
    }
  }

  /** Placing a piece adds exactly its cells to the world: a point is live afterwards
      exactly if it was before or its offset from the root is one of the piece's. */
  lemma PlaceAddsCells(s: State, root: Point, cells: seq<Point>, loadFails: set<ChunkID>)
    requires Inv(s)
    ensures Inv(PlaceAll(s, root, cells, loadFails))
    ensures forall q :: q in Denote(PlaceAll(s, root, cells, loadFails)) <==>
        q in Denote(s)
        || exists i :: 0 <= i < |cells| && q.x - root.x == cells[i].x && q.y - root.y == cells[i].y
  {
    PlaceAddsTranslated(s, root, cells, loadFails);
    hide Inv, Denote, PlaceAll, Translated;
    forall q
      ensures q in Translated(root, cells)
        <==> exists i :: 0 <= i < |cells| && q.x - root.x == cells[i].x && q.y - root.y == cells[i].y
    {
      TranslatedAt(root, cells, q);
    }
  }

  lemma {:induction false} PlaceAddsTranslated(s: State, root: Point, cells: seq<Point>, loadFails: set<ChunkID>)
    requires Inv(s)
    ensures Inv(PlaceAll(s, root, cells, loadFails))
    ensures Denote(PlaceAll(s, root, cells, loadFails)) == Denote(s) + Translated(root, cells)
  {
    hide Inv, Denote, SpawnOne, Translated;
    if |cells| == 0 {
      NothingTranslated(root);
      assert cells == [];
    } else {
      var n := |cells| - 1;
      PlaceAddsTranslated(s, root, cells[..n], loadFails);
      var p := Translate(root, cells[n]);
      SpawnAddsOnePoint(PlaceAll(s, root, cells[..n], loadFails), p, ChunkOf(p) in loadFails);
      TranslatedOneMore(root, cells);
      var before := Translated(root, cells[..n]);
      assert (Denote(s) + before) + iset{p} == Denote(s) + (before + iset{p});
    }
  }

  lemma NothingTranslated(root: Point)
    ensures Translated(root, []) == iset{}
  {
  }

  /** The order of the cells, and repeats among them, do not matter. */
  lemma PlaceAnyOrder(s: State, root: Point, a: seq<Point>, b: seq<Point>, loadFails: set<ChunkID>)
    requires Inv(s) && forall c :: c in a <==> c in b
    ensures Denote(PlaceAll(s, root, a, loadFails)) == Denote(PlaceAll(s, root, b, loadFails))
  {
    hide Inv, Denote, PlaceAll;
    PlaceAddsTranslated(s, root, a, loadFails);
    PlaceAddsTranslated(s, root, b, loadFails);
    forall p
      ensures p in Translated(root, a) <==> p in Translated(root, b)
    {
      SameCells(root, a, b, p);
      SameCells(root, b, a, p);
    }
  }

  lemma SameCells(root: Point, a: seq<Point>, b: seq<Point>, p: Point)
    requires forall c :: c in a ==> c in b
    ensures p in Translated(root, a) ==> p in Translated(root, b)
  {
    if p in Translated(root, a) {
      var i :| 0 <= i < |a| && p == Translate(root, a[i]);
      assert a[i] in b;
      var j :| 0 <= j < |b| && b[j] == a[i];
    }
  }

  // ----- ValidateCustomCells -----

  const MAX_CUSTOM_DIM := 99
  const MAX_CUSTOM_CELLS := 10000

  datatype Validated = Accepted(cells: seq<Point>) | Rejected(code: string)

  predicate InGrid(c: Point)
  {
    0 <= c.x <= MAX_CUSTOM_DIM && 0 <= c.y <= MAX_CUSTOM_DIM
  }

  /** The list with every repeat of an earlier element left out. */
  function Distinct(s: seq<Point>): seq<Point>
  {
    if |s| == 0 then []
    else
      var d := Distinct(s[..|s| - 1]);
      if s[|s| - 1] in d then d else d + [s[|s| - 1]]
  }

  ghost predicate NoRepeats(s: seq<Point>)
  {
    forall i, j :: 0 <= i < j < |s| ==> s[i] != s[j]
  }

  /** `at` lists, in order, where in `s` the elements of `d` come first. */
  ghost predicate FirstAt(s: seq<Point>, d: seq<Point>, at: seq<nat>)
  {
    && |at| == |d|
    && (forall i :: 0 <= i < |at| ==> at[i] < |s| && s[at[i]] == d[i] && forall k :: 0 <= k < at[i] ==> s[k] != d[i])
    && (forall i, j :: 0 <= i < j < |at| ==> at[i] < at[j])
  }

  /** Distinct is the subsequence of first occurrences: same elements, none twice,
      in the order they first appear. */
  lemma {:induction false} DistinctMeaning(s: seq<Point>)
    ensures NoRepeats(Distinct(s))
    ensures forall c :: c in Distinct(s) <==> c in s
    ensures exists at: seq<nat> :: FirstAt(s, Distinct(s), at)
  {
    if |s| == 0 {
      assert FirstAt(s, Distinct(s), []);
    } else {
      var n := |s| - 1;
      DistinctMeaning(s[..n]);
      var d := Distinct(s[..n]);
      assert s == s[..n] + [s[n]];
      var at: seq<nat> :| FirstAt(s[..n], d, at);
      if s[n] in d {
        FirstAtGrows(s, d, at);
      } else {
        FirstAtAppends(s, d, at);
      }
    }
  }

  lemma FirstAtGrows(s: seq<Point>, d: seq<Point>, at: seq<nat>)
    requires |s| > 0 && FirstAt(s[..|s| - 1], d, at)
    ensures FirstAt(s, d, at)
  {
    var t := s[..|s| - 1];
    assert forall k :: 0 <= k < |t| ==> t[k] == s[k];
    forall i | 0 <= i < |at|
      ensures at[i] < |s| && s[at[i]] == d[i] && forall k :: 0 <= k < at[i] ==> s[k] != d[i]
    {
      assert t[at[i]] == d[i];
    }
  }

  lemma FirstAtAppends(s: seq<Point>, d: seq<Point>, at: seq<nat>)
    requires |s| > 0 && FirstAt(s[..|s| - 1], d, at) && s[|s| - 1] !in d
    requires forall c :: c in d <==> c in s[..|s| - 1]
    ensures FirstAt(s, d + [s[|s| - 1]], at + [|s| - 1])
  {
    FirstAtGrows(s, d, at);
    var n := |s| - 1;
    var t := s[..n];
    forall k | 0 <= k < n
      ensures s[k] != s[n]
    {
      assert t[k] in t;
    }
  }

  function Cell(c: Point): int
  {
    100 * c.y + c.x
  }

  ghost function Range(n: nat): set<int>
  {
    if n == 0 then {} else Range(n - 1) + {n - 1}
  }

  lemma {:induction false} RangeSize(n: nat)
    ensures |Range(n)| == n
    ensures forall i :: i in Range(n) <==> 0 <= i < n
  {
    if n > 0 {
      RangeSize(n - 1);
    }
  }

  lemma SubsetSize<T>(a: set<T>, b: set<T>)
    requires a <= b
    ensures |a| <= |b|
  {
    assert b == a + (b - a);
  }

  ghost function Codes(s: seq<Point>): set<int>
  {
    set i | 0 <= i < |s| :: Cell(s[i])
  }

  lemma {:induction false} CodesSize(s: seq<Point>)
    requires NoRepeats(s) && forall c :: c in s ==> InGrid(c)
    ensures |Codes(s)| == |s|
  {
    if |s| > 0 {
      var n := |s| - 1;
      CodesSize(s[..n]);
      forall k | 0 <= k < n
        ensures Cell(s[k]) != Cell(s[n]) && s[..n][k] == s[k]
      {
        assert s[k] in s && s[n] in s;
      }
      assert Codes(s) == Codes(s[..n]) + {Cell(s[n])};
    }
  }

  /** Pigeonhole: no more distinct cells than the grid has places. */
  lemma GridHolds(s: seq<Point>)
    requires NoRepeats(s) && forall c :: c in s ==> 0 <= c.x < 100 && 0 <= c.y < 100
    ensures |s| <= 10000
  {
    CodesSize(s);
    RangeSize(10000);
    forall k | 0 <= k < |s|
      ensures 0 <= Cell(s[k]) < 10000
    {
      assert s[k] in s;
    }
    SubsetSize(Codes(s), Range(10000));
  }

  /** Every place of the grid, row by row. */
  function FullGrid(): (s: seq<Point>)
    ensures |s| == 10000
  {
    seq(10000, k => Point(k % 100, k / 100))
  }

  /** The bound is reached: all 10000 places at once are a list without repeats on the
      grid, of which nothing is dropped. */
  lemma FullGridStands()
    ensures forall c :: c in FullGrid() <==> 0 <= c.x < 100 && 0 <= c.y < 100
    ensures Distinct(FullGrid()) == FullGrid() && |FullGrid()| == 10000
  {
    var s := FullGrid();
    forall c: Point | 0 <= c.x < 100 && 0 <= c.y < 100
      ensures c in s
    {
      assert s[100 * c.y + c.x] == c;
    }
    forall i, j | 0 <= i < j < |s|
      ensures s[i] != s[j]
    {
      assert i == 100 * s[i].y + s[i].x && j == 100 * s[j].y + s[j].x;
    }
    hide FullGrid;
    DistinctIsAll(s);
  }

  /** Nothing is dropped from a list without repeats. */
  lemma {:induction false} DistinctIsAll(s: seq<Point>)
    requires NoRepeats(s)
    ensures Distinct(s) == s
  {
    if |s| > 0 {
      var n := |s| - 1;
      DistinctIsAll(s[..n]);
      assert s == s[..n] + [s[n]];
      assert forall k :: 0 <= k < n ==> s[..n][k] == s[k] != s[n];
    }
  }

  /** Fails on the empty list and on a cell off the 100 by 100 grid, and on nothing else:
      the size check can never be the reason. */
  method ValidateCustomCells(cells: seq<Point>) returns (r: Validated)
    ensures r == if cells == [] then Rejected("EMPTY_PIECE")
                 else if exists c :: c in cells && !(0 <= c.x < 100 && 0 <= c.y < 100) then Rejected("OUT_OF_BOUNDS")
                 else Accepted(Distinct(cells))
  {
    if |cells| == 0 {
      return Rejected("EMPTY_PIECE");
    }
    var seen: set<Point> := {};
    var out: seq<Point> := [];
    for i := 0 to |cells|
      invariant out == Distinct(cells[..i]) && seen == set c | c in out
      invariant forall c :: c in cells[..i] ==> InGrid(c)
    {
      var c := cells[i];
      if c.x < 0 || c.x > MAX_CUSTOM_DIM || c.y < 0 || c.y > MAX_CUSTOM_DIM {
        assert c in cells && !InGrid(c);
        return Rejected("OUT_OF_BOUNDS");
      }
      assert cells[..i + 1][..i] == cells[..i];
      assert cells[..i + 1] == cells[..i] + [c];
      if c in seen {
        continue;
      }
      seen := seen + {c};
      out := out + [c];
    }
    assert cells[..|cells|] == cells;
    DistinctMeaning(cells);
    GridHolds(out);
    r := if |out| > MAX_CUSTOM_CELLS then Rejected("TOO_MANY_CELLS") else Accepted(out);
  }
}
