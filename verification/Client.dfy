/**
  The browser's side: a sparse map from live cells to colours, its own prediction of
  the next generation, and reconciliation with the server's chunk snapshots.
 */
module Client {
  import opened Bits
  import opened Life
  import opened Chunks
  import opened Storage

  type Color = string

  /** The map key of a cell. */
  function CellKey(p: Point): string
  {
    Decimal(p.x) + ("," + Decimal(p.y))
  }

  /** Distinct cells have distinct keys. */
  lemma CellKeyInjective(p: Point, q: Point)
    requires CellKey(p) == CellKey(q)
    ensures p == q
  {
    DecimalLacks(p.x, ',');
    DecimalLacks(q.x, ',');
    SplitAt(Decimal(p.x), Decimal(p.y), Decimal(q.x), Decimal(q.y), ',');
    DecimalInjective(p.x, q.x);
    DecimalInjective(p.y, q.y);
  }

  /** Sliced at its comma, as the handlers do, a key gives the cell's x, then its y. */
  lemma CellKeyReads(p: Point)
    ensures var key := CellKey(p);
      var i := IndexIn(key, ',');
      i < |key| && IntValue(key[..i]) == p.x && IntValue(key[i + 1..]) == p.y
  {
    PairReads(p.x, p.y, ',');
  }

  ghost function Live(cells: map<Point, Color>): iset<Point>
  {
    iset p: Point | p in cells
  }

  // ----- Counting -----

  const DIRS: seq<(int, int)> := [(-1, -1), (0, -1), (1, -1), (-1, 0), (1, 0), (-1, 1), (0, 1), (1, 1)]

  function CountAt(counts: map<Point, nat>, p: Point): nat
  {
    if p in counts then counts[p] else 0
  }

  /** `p` is one of the first `k` neighbours of `q` in DIRS order. */
  ghost predicate Told(p: Point, q: Point, k: nat)
    requires k <= 8
  {
    exists i :: 0 <= i < k && p == Point(q.x + DIRS[i].0, q.y + DIRS[i].1)
  }

  lemma ToldAll(p: Point, q: Point)
    ensures Told(p, q, 8) <==> Adjacent(p, q)
  {
    if Adjacent(p, q) {
      var k := 3 * (p.y - q.y + 1) + (p.x - q.x + 1);
      var i := if k > 4 then k - 1 else k;
      assert p == Point(q.x + DIRS[i].0, q.y + DIRS[i].1);
    }
  }

  lemma ToldOneMore(p: Point, q: Point, k: nat)
    requires k < 8
    ensures Told(p, q, k + 1) <==> Told(p, q, k) || p == Point(q.x + DIRS[k].0, q.y + DIRS[k].1)
    ensures p == Point(q.x + DIRS[k].0, q.y + DIRS[k].1) ==> !Told(p, q, k)
  {
  }

  /** Every key in the map was counted at least once, and counts are neighbour
      counts of `S`. */
  ghost predicate Counts(counts: map<Point, nat>, S: iset<Point>)
  {
    forall p: Point :: CountAt(counts, p) == Near(S, p.x, p.y) && (p in counts ==> counts[p] > 0)
  }

  /** The inner loop: one live cell tells its eight neighbours. */
  method Tell(before: map<Point, nat>, q: Point, ghost S: iset<Point>) returns (counts: map<Point, nat>)
    requires Counts(before, S) && q !in S
    ensures Counts(counts, S + iset{q})
  {
    counts := before;
    hide Near, Told;
    assert forall p: Point :: !Told(p, q, 0) by {
      ToldNone(q);
    }
    for k := 0 to 8
      invariant forall p: Point ::
          CountAt(counts, p) == Near(S, p.x, p.y) + (if Told(p, q, k) then 1 else 0) && (p in counts ==> counts[p] > 0)
    {
      var nk := Point(q.x + DIRS[k].0, q.y + DIRS[k].1);
      counts := counts[nk := CountAt(counts, nk) + 1];
      forall p: Point
        ensures Told(p, q, k + 1) <==> Told(p, q, k) || p == nk
        ensures p == nk ==> !Told(p, q, k)
      {
        ToldOneMore(p, q, k);
      }
    }
    forall p: Point
      ensures CountAt(counts, p) == Near(S + iset{q}, p.x, p.y)
    {
      ToldAll(p, q);
      NearInsert(S, q, p.x, p.y);
      assert p == Point(p.x, p.y);
    }
  }

  lemma ToldNone(q: Point)
    ensures forall p: Point :: !Told(p, q, 0)
  {
  }

  predicate Survives(counts: map<Point, nat>, cells: map<Point, Color>, p: Point)
  {
    CountAt(counts, p) == 3 || (CountAt(counts, p) == 2 && p in cells)
  }

  /** The second loop of localTick: a surviving cell keeps its colour, a newborn takes the
      blend of its parents. */
  method Select(counts: map<Point, nat>, cells: map<Point, Color>, blend: Point -> Color)
    returns (next: map<Point, Color>)
    ensures forall p :: p in next <==> p in counts && Survives(counts, cells, p)
    ensures forall p :: p in next ==> next[p] == if p in cells then cells[p] else blend(p)
  {
    hide Survives;
    next := map[];
    var todo := counts.Keys;
    while todo != {}
      invariant todo <= counts.Keys
      invariant forall p :: p in next <==> p in counts && p !in todo && Survives(counts, cells, p)
      invariant forall p :: p in next ==> next[p] == if p in cells then cells[p] else blend(p)
      decreases |todo|
    {
      var p :| p in todo;
      todo := todo - {p};
      if Survives(counts, cells, p) {
        if p in cells {
          next := next[p := cells[p]];
        } else {
          next := next[p := blend(p)];
        }
      }
    }
  }

  lemma NearNothing(x: int, y: int)
    ensures Near(iset{}, x, y) == 0
  {
  }

  /** Whoever survives by the counts is alive in the next generation. */
  lemma SurvivorsAreNext(counts: map<Point, nat>, cells: map<Point, Color>, next: map<Point, Color>)
    requires Counts(counts, Live(cells))
    requires forall p :: p in next <==> p in counts && Survives(counts, cells, p)
    ensures Live(next) == Next(Live(cells))
  {
    hide Near;
    forall p: Point
      ensures p in next <==> p in Next(Live(cells))
    {
      assert CountAt(counts, p) == Near(Live(cells), p.x, p.y);
    }
  }

  // ----- Reconciliation -----

  /** The points a list of offsets names, for the chunk at `id`. */
  function Sent(id: ChunkID, offsets: seq<uint16>): set<Point>
  {
    set i | 0 <= i < |offsets| :: WorldPoint(id, offsets[i] % 64, offsets[i] / 64)
  }

  /** A snapshot names exactly the chunk's live cells, at their world coordinates. */
  lemma SnapshotNamesCells(id: ChunkID, rows: Rows)
    ensures forall p: Point :: p in Sent(id, Encode(rows)) <==> p in Cells(id, rows)
  {
    EncodeMeaning(rows);
    hide Encode, Sent, Cells, Lit;
    forall p: Point
      ensures p in Sent(id, Encode(rows)) <==> p in Cells(id, rows)
    {
      var v: uint16 := 64 * (p.y % 64) + p.x % 64;
      assert v % 64 == p.x % 64 && v / 64 == p.y % 64;
      NamedByOffset(id, Encode(rows), p);
      CellsMeaning(id, rows, p);
    }
  }

  lemma CellsMeaning(id: ChunkID, rows: Rows, p: Point)
    ensures p in Cells(id, rows) <==> ChunkOf(p) == id && Lit(rows, p.x % 64, p.y % 64)
  {
  }

  /** Offsets inside the chunk name the point they are the offset of. */
  lemma NamedByOffset(id: ChunkID, s: seq<uint16>, p: Point)
    requires forall v :: v in s ==> v < 4096
    ensures p in Sent(id, s) <==> ChunkOf(p) == id && (64 * (p.y % 64) + p.x % 64) in s
  {
    if ChunkOf(p) == id && (64 * (p.y % 64) + p.x % 64) in s {
      var i :| 0 <= i < |s| && s[i] == 64 * (p.y % 64) + p.x % 64;
      assert p == WorldPoint(id, s[i] % 64, s[i] / 64);
    }
    if p in Sent(id, s) {
      var i :| 0 <= i < |s| && p == WorldPoint(id, s[i] % 64, s[i] / 64);
      assert s[i] in s;
      assert ChunkOf(p) == id && p.x % 64 == s[i] % 64 && p.y % 64 == s[i] / 64;
    }
  }

  class Viewport {
    var localCells: map<Point, Color>

    constructor ()
      ensures localCells == map[]
    {
      localCells := map[];
    }

    /** One local prediction step; `blend` stands for the averaged neighbour colour. */
    method LocalTick(blend: Point -> Color)
      modifies this
      ensures Live(localCells) == Next(Live(old(localCells)))
      ensures forall p :: p in localCells && p in old(localCells) ==> localCells[p] == old(localCells)[p]
      ensures forall p :: p in localCells && p !in old(localCells) ==> localCells[p] == blend(p)
    {
      var counts := CountAll();
      hide Counts, Survives, Next, Live;
      var next := Select(counts, localCells, blend);
      SurvivorsAreNext(counts, localCells, next);
      localCells := next;
    }

    /** The counting loop of localTick. */
    method CountAll() returns (counts: map<Point, nat>)
      ensures Counts(counts, Live(localCells))
    {
      counts := map[];
      var todo := localCells.Keys;
      ghost var done: iset<Point> := iset{};
      forall p: Point
        ensures Near(iset{}, p.x, p.y) == 0
      {
        NearNothing(p.x, p.y);
      }
      while todo != {}
        invariant todo <= localCells.Keys
        invariant forall p :: p in done <==> p in localCells && p !in todo
        invariant Counts(counts, done)
        decreases |todo|
      {
        hide Counts;
        var q :| q in todo;
        todo := todo - {q};
        counts := Tell(counts, q, done);
        done := done + iset{q};
      }
      assert done == Live(localCells);
    }

    /** A CHUNK_STATE message: the chunk's square is replaced by what the server
        sent, cells that were there already keep their colour. */
    method ReconcileChunk(id: ChunkID, cells: seq<uint16>, random: Point -> Color)
      modifies this
      ensures forall p :: p in localCells <==> p in Sent(id, cells) || (p in old(localCells) && ChunkOf(p) != id)
      ensures forall p :: p in localCells ==>
          if p in Sent(id, cells) && !(p in old(localCells) && ChunkOf(p) == id) then localCells[p] == random(p)
          else localCells[p] == old(localCells)[p]
    {
      var existing := Lift(id);
      for i := 0 to |cells|
        invariant forall p :: p in localCells <==>
            p in Sent(id, cells[..i]) || (p in old(localCells) && ChunkOf(p) != id)
        invariant forall p :: p in localCells ==>
            (localCells[p] == if p in Sent(id, cells[..i]) && p !in existing then random(p) else old(localCells)[p])
      {
        var p := WorldPoint(id, cells[i] % 64, cells[i] / 64);
        SentOneMore(id, cells, i);
        localCells := localCells[p := if p in existing then existing[p] else random(p)];
      }
      assert cells[..|cells|] == cells;
    }

    /** Takes the cells inside the chunk's square out of the map. */
    method Lift(id: ChunkID) returns (existing: map<Point, Color>)
      modifies this
      ensures forall p :: p in localCells <==> p in old(localCells) && ChunkOf(p) != id
      ensures forall p :: p in localCells ==> localCells[p] == old(localCells)[p]
      ensures forall p :: p in existing <==> p in old(localCells) && ChunkOf(p) == id
      ensures forall p :: p in existing ==> existing[p] == old(localCells)[p]
    {
      existing := map[];
      var baseX, baseY := 64 * id.X, 64 * id.Y;
      var maxX, maxY := baseX + 64, baseY + 64;
      var todo := localCells.Keys;
      while todo != {}
        invariant todo <= old(localCells).Keys
        invariant forall p :: p in localCells <==> p in old(localCells) && (p in todo || ChunkOf(p) != id)
        invariant forall p :: p in localCells ==> localCells[p] == old(localCells)[p]
        invariant forall p :: p in existing <==> p in old(localCells) && p !in todo && ChunkOf(p) == id
        invariant forall p :: p in existing ==> existing[p] == old(localCells)[p]
        decreases |todo|
      {
        var p :| p in todo;
        todo := todo - {p};
        InsideIsChunk(id, p);
        if p.x >= baseX && p.x < maxX && p.y >= baseY && p.y < maxY {
          existing := existing[p := localCells[p]];
          localCells := localCells - {p};
        }
      }
    }
  }

  lemma InsideIsChunk(id: ChunkID, p: Point)
    ensures ChunkOf(p) == id <==> 64 * id.X <= p.x < 64 * id.X + 64 && 64 * id.Y <= p.y < 64 * id.Y + 64
  {
  }

  lemma SentOneMore(id: ChunkID, cells: seq<uint16>, i: nat)
    requires i < |cells|
    ensures Sent(id, cells[..i + 1]) == Sent(id, cells[..i]) + {WorldPoint(id, cells[i] % 64, cells[i] / 64)}
  {
    var a, b := cells[..i], cells[..i + 1];
    forall p
      ensures p in Sent(id, b) <==> p in Sent(id, a) || p == WorldPoint(id, cells[i] % 64, cells[i] / 64)
    {
      if p in Sent(id, a) {
        var k :| 0 <= k < |a| && p == WorldPoint(id, a[k] % 64, a[k] / 64);
        assert b[k] == a[k];
      }
      assert b[i] == cells[i];
    }
  }
}
