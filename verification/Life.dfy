/**
  The specification: Conway's Life on a set of integer points, and the chunk
  geometry (64x64 squares) that lets a map of bitset rows stand for such a set.
 */
module Life {
  import opened Bits

  datatype Point = Point(x: int, y: int)

  /** One if the point is in the set, else zero. */
  ghost function Has(S: iset<Point>, x: int, y: int): nat
  {
    if Point(x, y) in S then 1 else 0
  }

  /** The number of live Moore neighbours of a point. */
  ghost function Near(S: iset<Point>, x: int, y: int): (n: nat)
    ensures n <= 8
  {
    Has(S, x - 1, y - 1) + Has(S, x, y - 1) + Has(S, x + 1, y - 1) +
    Has(S, x - 1, y) + Has(S, x + 1, y) +
    Has(S, x - 1, y + 1) + Has(S, x, y + 1) + Has(S, x + 1, y + 1)
  }

  /** Born on three, survives on two or three. */
  ghost predicate LiveNext(S: iset<Point>, p: Point)
  {
    Near(S, p.x, p.y) == 3 || (Near(S, p.x, p.y) == 2 && p in S)
  }

  /** One generation. */
  ghost function Next(S: iset<Point>): iset<Point>
  {
    iset p: Point | LiveNext(S, p)
  }

  /** `n` generations. */
  ghost function NextN(S: iset<Point>, n: nat): iset<Point>
  {
    if n == 0 then S else NextN(Next(S), n - 1)
  }

  predicate Adjacent(p: Point, q: Point)
  {
    p != q && -1 <= p.x - q.x <= 1 && -1 <= p.y - q.y <= 1
  }

  /** A new point adds one to the count of its neighbours and of nothing else. */
  lemma NearInsert(S: iset<Point>, q: Point, x: int, y: int)
    requires q !in S
    ensures Near(S + iset{q}, x, y) == Near(S, x, y) + (if Adjacent(Point(x, y), q) then 1 else 0)
  {
    var T := S + iset{q};
    forall a, b
      ensures Has(T, a, b) == Has(S, a, b) + (if q == Point(a, b) then 1 else 0)
    {
    }
    hide Has;
    assert q == Point(q.x, q.y);
  }

  ghost function Points(N: set<Point>): iset<Point>
  {
    iset q: Point | q in N
  }

  lemma {:induction false} NearIsSize(N: set<Point>, p: Point)
    requires forall q :: q in N ==> q != p && -1 <= q.x - p.x <= 1 && -1 <= q.y - p.y <= 1
    ensures Near(Points(N), p.x, p.y) == |N|
    decreases |N|
  {
    if N != {} {
      var q :| q in N;
      NearIsSize(N - {q}, p);
      NearInsert(Points(N - {q}), q, p.x, p.y);
      assert Points(N) == Points(N - {q}) + iset{q};
      assert p == Point(p.x, p.y);
      hide Near;
    }
  }

  /** The rule, by the size of the set of live neighbours: born on three, survives on two
      or three. */
  lemma NextMeaning(S: iset<Point>, p: Point, N: set<Point>)
    requires forall q :: q in N <==> q in S && q != p && -1 <= q.x - p.x <= 1 && -1 <= q.y - p.y <= 1
    ensures p in Next(S) <==> |N| == 3 || (|N| == 2 && p in S)
  {
    NearIsSize(N, p);
    forall x, y | -1 <= x - p.x <= 1 && -1 <= y - p.y <= 1 && Point(x, y) != p
      ensures Has(S, x, y) == Has(Points(N), x, y)
    {
    }
    assert Near(S, p.x, p.y) == Near(Points(N), p.x, p.y);
  }

  /** The next state of a point depends on the 3x3 square around it only. */
  lemma NextIsLocal(S: iset<Point>, T: iset<Point>, p: Point)
    requires forall q: Point :: -1 <= p.x - q.x <= 1 && -1 <= p.y - q.y <= 1 ==> (q in S <==> q in T)
    ensures p in Next(S) <==> p in Next(T)
  {
    forall x, y | -1 <= p.x - x <= 1 && -1 <= p.y - y <= 1
      ensures Has(S, x, y) == Has(T, x, y)
    {
      assert Point(x, y) in S <==> Point(x, y) in T;
    }
    assert Near(S, p.x, p.y) == Near(T, p.x, p.y);
    assert p in S <==> p in T;
  }

  /** Nothing is born far from every live cell. */
  lemma NothingFromNothing(S: iset<Point>, p: Point)
    requires forall q: Point :: -1 <= p.x - q.x <= 1 && -1 <= p.y - q.y <= 1 ==> q !in S
    ensures p !in Next(S)
  {
  }

  // ----- Chunk geometry -----

  const SIZE: nat := 64

  datatype ChunkID = ChunkID(X: int, Y: int)

  /** `[ChunkSize]uint64`: a Go array is a value, so this is one too. */
  type Rows = s: seq<uint64> | |s| == 64 witness Zeros(64)

  function Zeros(n: nat): (s: seq<uint64>)
    ensures |s| == n && forall i :: 0 <= i < n ==> s[i] == 0
  {
    if n == 0 then [] else [0] + Zeros(n - 1)
  }

  const NO_ROWS: Rows := Zeros(64)

  lemma NoRowsDark()
    ensures forall x: nat, y: nat :: y < 64 ==> !Lit(NO_ROWS, x, y)
  {
    forall x: nat
      ensures !Bit(0, x)
    {
      BitOfZero(x);
    }
  }

  function ChunkOf(p: Point): ChunkID
  {
    ChunkID(p.x / 64, p.y / 64)
  }

  function WorldPoint(id: ChunkID, x: int, y: int): Point
  {
    Point(64 * id.X + x, 64 * id.Y + y)
  }

  predicate Lit(rows: Rows, x: nat, y: nat)
    requires y < 64
  {
    Bit(rows[y], x)
  }

  /** The world points one chunk's rows make alive. */
  ghost function Cells(id: ChunkID, rows: Rows): iset<Point>
  {
    iset p: Point | ChunkOf(p) == id && Lit(rows, p.x % 64, p.y % 64)
  }

  /** The world points a map of chunks makes alive: what the registry denotes. */
  ghost function World(m: map<ChunkID, Rows>): iset<Point>
  {
    iset p: Point | ChunkOf(p) in m && Lit(m[ChunkOf(p)], p.x % 64, p.y % 64)
  }

  lemma WorldInsert(m: map<ChunkID, Rows>, id: ChunkID, rows: Rows)
    requires id !in m
    ensures World(m[id := rows]) == World(m) + Cells(id, rows)
    ensures World(m) !! Cells(id, rows)
  {
  }

  /** `n` cells of row `y` starting at `x`, packed into a word. */
  ghost function Pack(W: iset<Point>, x: int, y: int, n: nat): (r: nat)
    decreases n
  {
    if n == 0 then 0 else Has(W, x, y) + 2 * Pack(W, x + 1, y, n - 1)
  }

  lemma {:induction false} PackBits(W: iset<Point>, x: int, y: int, n: nat)
    ensures Pack(W, x, y, n) < Pow2(n)
    ensures forall k: nat :: Bit(Pack(W, x, y, n), k) <==> k < n && Point(x + k, y) in W
    decreases n
  {
    var r := Pack(W, x, y, n);
    if n > 0 {
      PackBits(W, x + 1, y, n - 1);
    }
    forall k: nat
      ensures Bit(r, k) <==> k < n && Point(x + k, y) in W
    {
      if n == 0 {
        BitOfZero(k);
      } else if k > 0 {
        assert Bit(r, k) == Bit(Pack(W, x + 1, y, n - 1), k - 1);
        assert Point(x + 1 + (k - 1), y) == Point(x + k, y);
      }
    }
  }

  ghost function PackWord(W: iset<Point>, x: int, y: int): (r: uint64)
    ensures forall k: nat :: Bit(r, k) <==> k < 64 && Point(x + k, y) in W
  {
    PackBits(W, x, y, 64);
    Pow2Word();
    Pack(W, x, y, 64)
  }

  /** The rows chunk `id` must hold to show exactly the part of `W` inside it. */
  ghost function RowsAt(id: ChunkID, W: iset<Point>): (r: Rows)
    ensures forall x: nat, y: nat :: y < 64 ==>
        (Lit(r, x, y) <==> x < 64 && WorldPoint(id, x, y) in W)
  {
    var r := seq<uint64>(64, y => PackWord(W, 64 * id.X, 64 * id.Y + y));
    assert forall x: nat, y: nat :: y < 64 ==> (Lit(r, x, y) <==> x < 64 && WorldPoint(id, x, y) in W) by {
      forall x: nat, y: nat | y < 64
        ensures Lit(r, x, y) <==> x < 64 && WorldPoint(id, x, y) in W
      {
        assert r[y] == PackWord(W, 64 * id.X, 64 * id.Y + y);
        assert Bit(r[y], x) <==> x < 64 && Point(64 * id.X + x, 64 * id.Y + y) in W;
      }
    }
    r
  }

  /** Rows are determined by their lit cells. */
  lemma RowsEqual(a: Rows, b: Rows)
    requires forall x: nat, y: nat :: x < 64 && y < 64 ==> (Lit(a, x, y) <==> Lit(b, x, y))
    ensures a == b
  {
    forall y | 0 <= y < 64
      ensures a[y] == b[y]
    {
      forall x | 0 <= x < 64
        ensures Bit(a[y], x) <==> Bit(b[y], x)
      {
        assert Lit(a, x, y) <==> Lit(b, x, y);
      }
      WordsEqual(a[y], b[y]);
    }
  }

  /** Reading back a chunk's part of the world it denotes gives its rows. */
  lemma RowsAtWorld(m: map<ChunkID, Rows>, id: ChunkID)
    ensures RowsAt(id, World(m)) == if id in m then m[id] else NO_ROWS
  {
    var r := if id in m then m[id] else NO_ROWS;
    forall x: nat, y: nat | x < 64 && y < 64
      ensures Lit(RowsAt(id, World(m)), x, y) <==> Lit(r, x, y)
    {
      var p := WorldPoint(id, x, y);
      assert ChunkOf(p) == id && p.x % 64 == x && p.y % 64 == y;
      BitOfZero(x);
    }
    RowsEqual(RowsAt(id, World(m)), r);
  }
}
