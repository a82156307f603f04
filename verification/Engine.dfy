/**
  One chunk, one generation: scatter neighbour counts into a reused 66x66 byte
  buffer, apply the rule, clear the buffer.
 */
module Engine {
  import opened Bits
  import opened Life

  const SLOTS: nat := 66 * 66

  /** The cells of `rows` placed with their (0,0) at (offX, offY) of the padded plane. */
  ghost function Stamp(rows: Rows, offX: int, offY: int): iset<Point>
  {
    iset p: Point | 0 <= p.x - offX < 64 && 0 <= p.y - offY < 64 && Lit(rows, p.x - offX, p.y - offY)
  }

  /** The first `n` rows of the stamp. */
  ghost function StampBelow(rows: Rows, offX: int, offY: int, n: nat): iset<Point>
  {
    iset p: Point | p in Stamp(rows, offX, offY) && p.y - offY < n
  }

  /** One word's cells on line `y`. */
  ghost function StampWord(row: nat, offX: int, y: int): iset<Point>
  {
    iset p: Point | p.y == y && 0 <= p.x - offX < 64 && Bit(row, p.x - offX)
  }

  /** Every slot, border included, holds the neighbour count of its padded point. */
  ghost predicate Counted(c: seq<uint8>, S: iset<Point>)
  {
    |c| == SLOTS && forall i :: 0 <= i < SLOTS ==> c[i] as int == Near(S, i % 66, i / 66)
  }

  /** One if slot `i` is a neighbour of `q` that the walk has passed. */
  ghost function Bumped(i: nat, q: Point, passed: bool): nat
  {
    if Adjacent(Point(i % 66, i / 66), q) && passed then 1 else 0
  }

  /** The 3x3 increment of addToScratch around one live cell. */
  method Bump(counts: array<uint8>, padX: int, padY: int, ghost S: iset<Point>)
    requires counts.Length == SLOTS && Counted(counts[..], S)
    requires Point(padX, padY) !in S
    modifies counts
    ensures Counted(counts[..], S + iset{Point(padX, padY)})
  {
    ghost var q := Point(padX, padY);
    for dy := -1 to 2
      invariant forall i :: 0 <= i < SLOTS ==> 
          counts[i] as int == Near(S, i % 66, i / 66) + Bumped(i, q, i / 66 < padY + dy)
    {
      var ny := padY + dy;
      if ny < 0 || ny >= 66 {
        continue;
      }
      var base := ny * 66;
      for dx := -1 to 2
        invariant forall i :: 0 <= i < SLOTS ==> 
            counts[i] as int == Near(S, i % 66, i / 66) +
              Bumped(i, q, i / 66 < ny || (i / 66 == ny && i % 66 < padX + dx))
      {
        if dx == 0 && dy == 0 {
          continue;
        }
        var nx := padX + dx;
        if nx >= 0 && nx < 66 {
          assert (base + nx) % 66 == nx && (base + nx) / 66 == ny;
          counts[base + nx] := counts[base + nx] + 1;
        }
      }
    }
    forall i | 0 <= i < SLOTS
      ensures counts[i] as int == Near(S + iset{q}, i % 66, i / 66)
    {
      NearInsert(S, q, i % 66, i / 66);
    }
  }

  /** The `for row != 0` loop: one Bump per set bit, lowest first. */
  method AddWord(counts: array<uint8>, word: uint64, offX: int, padY: int, ghost S: iset<Point>)
    requires counts.Length == SLOTS && Counted(counts[..], S)
    requires forall p :: p in StampWord(word, offX, padY) ==> p !in S
    modifies counts
    ensures Counted(counts[..], S + StampWord(word, offX, padY))
  {
    hide Near, Counted;
    var row := word;
    ghost var done := S;
    while row != 0
      invariant Within(row, word)
      invariant done == WordDone(S, word, row, offX, padY)
      invariant Counted(counts[..], done)
      decreases OnesCount(row)
    {
      var localX := TrailingZeros(row);
      WordStep(S, word, row, localX, offX, padY);
      Bump(counts, offX + localX, padY, done);
      done := done + iset{Point(offX + localX, padY)};
      row := ClearBit(row, localX);
    }
    StampWordZero(offX, padY);
    assert done == S + StampWord(word, offX, padY);
  }

  ghost predicate Within(row: nat, word: nat)
  {
    forall k: nat :: Bit(row, k) ==> Bit(word, k)
  }

  /** The cells counted so far when the bits in `row` are still to come. */
  ghost function WordDone(S: iset<Point>, word: nat, row: nat, offX: int, y: int): iset<Point>
  {
    S + (StampWord(word, offX, y) - StampWord(row, offX, y))
  }

  lemma WordStep(S: iset<Point>, word: uint64, row: uint64, x: nat, offX: int, y: int)
    requires x < 64 && Bit(row, x) && Within(row, word)
    requires forall p :: p in StampWord(word, offX, y) ==> p !in S
    ensures Point(offX + x, y) !in WordDone(S, word, row, offX, y)
    ensures WordDone(S, word, ClearBit(row, x), offX, y) == WordDone(S, word, row, offX, y) + iset{Point(offX + x, y)}
    ensures Within(ClearBit(row, x), word)
    ensures OnesCount(ClearBit(row, x)) < OnesCount(row)
  {
    hide ClearBit, OnesCount, Bit;
    ClearBitCount(row, x);
    var q := Point(offX + x, y);
    assert q in StampWord(row, offX, y) && q in StampWord(word, offX, y);
    assert StampWord(ClearBit(row, x), offX, y) == StampWord(row, offX, y) - iset{q};
  }

  /** Adds the contribution of a bitset placed at (offX, offY); slots outside the
      buffer are skipped. No byte ever passes 8. */
  method AddToScratch(counts: array<uint8>, rows: Rows, offX: int, offY: int, ghost S: iset<Point>)
    requires counts.Length == SLOTS && Counted(counts[..], S)
    requires forall p :: p in Stamp(rows, offX, offY) ==> p !in S
    modifies counts
    ensures Counted(counts[..], S + Stamp(rows, offX, offY))
  {
    hide Near, Counted;
    ghost var done := S;
    for localY := 0 to 64
      invariant done == S + StampBelow(rows, offX, offY, localY)
      invariant Counted(counts[..], done)
    {
      var row := rows[localY];
      StampStep(rows, offX, offY, localY);
      if row == 0 {
        continue;
      }
      AddWord(counts, row, offX, offY + localY, done);
      done := done + StampWord(row, offX, offY + localY);
    }
    assert done == S + Stamp(rows, offX, offY);
  }

  lemma StampStep(rows: Rows, offX: int, offY: int, y: nat)
    requires y < 64
    ensures StampBelow(rows, offX, offY, y + 1) == StampBelow(rows, offX, offY, y) + StampWord(rows[y], offX, offY + y)
    ensures rows[y] == 0 ==> StampBelow(rows, offX, offY, y + 1) == StampBelow(rows, offX, offY, y)
  {
    StampWordZero(offX, offY + y);
  }

  lemma StampWordZero(offX: int, y: int)
    ensures StampWord(0, offX, y) == iset{}
  {
    forall p: Point | 0 <= p.x - offX
      ensures !Bit(0, p.x - offX)
    {
      BitOfZero(p.x - offX);
    }
  }

  /** A set of world points seen from chunk `id`'s padded buffer. */
  ghost function Pad(id: ChunkID, W: iset<Point>): iset<Point>
  {
    iset p: Point | WorldPoint(id, p.x - 1, p.y - 1) in W
  }

  lemma StampIsPad(id: ChunkID, nid: ChunkID, rows: Rows)
    ensures Stamp(rows, 1 + (nid.X - id.X) * 64, 1 + (nid.Y - id.Y) * 64) == Pad(id, Cells(nid, rows))
  {
    var offX, offY := 1 + (nid.X - id.X) * 64, 1 + (nid.Y - id.Y) * 64;
    forall p: Point
      ensures p in Stamp(rows, offX, offY) <==> p in Pad(id, Cells(nid, rows))
    {
      var w := WorldPoint(id, p.x - 1, p.y - 1);
      assert w.x - 64 * nid.X == p.x - offX && w.y - 64 * nid.Y == p.y - offY;
      assert 0 <= p.x - offX < 64 ==> w.x / 64 == nid.X && w.x % 64 == p.x - offX;
      assert 0 <= p.y - offY < 64 ==> w.y / 64 == nid.Y && w.y % 64 == p.y - offY;
    }
  }

  lemma NearPad(id: ChunkID, W: iset<Point>, x: int, y: int)
    ensures Near(Pad(id, W), x + 1, y + 1) == Near(W, 64 * id.X + x, 64 * id.Y + y)
  {
    forall a, b
      ensures Has(Pad(id, W), a, b) == Has(W, 64 * id.X + (a - 1), 64 * id.Y + (b - 1))
    {
    }
    hide Has, Pad;
  }

  /** What the engine sees of the world: the chunk's own cells and its halos'. */
  ghost function Seen(id: ChunkID, rows: Rows, halos: map<ChunkID, Rows>): iset<Point>
  {
    World(halos[id := rows])
  }

  lemma SeenStart(id: ChunkID, rows: Rows, halos: map<ChunkID, Rows>)
    ensures Pad(id, Seen(id, rows, halos - halos.Keys)) == iset{} + Pad(id, Cells(id, rows))
  {
    assert halos - halos.Keys == map[];
    assert Seen(id, rows, map[]) == Cells(id, rows);
  }

  /** Walking one more halo adds exactly that neighbour's cells, all of them new. */
  lemma SeenStep(id: ChunkID, rows: Rows, halos: map<ChunkID, Rows>, todo: set<ChunkID>, nid: ChunkID)
    requires id !in halos && nid in todo && todo <= halos.Keys
    ensures Pad(id, Seen(id, rows, halos - (todo - {nid})))
        == Pad(id, Seen(id, rows, halos - todo)) + Pad(id, Cells(nid, halos[nid]))
    ensures Pad(id, Seen(id, rows, halos - todo)) !! Pad(id, Cells(nid, halos[nid]))
  {
    var before: map<ChunkID, Rows> := (halos - todo)[id := rows];
    WorldInsert(before, nid, halos[nid]);
    assert (halos - (todo - {nid}))[id := rows] == before[nid := halos[nid]];
  }

  /** A worker's reusable buffer between jobs. */
  ghost predicate Clean(scratch: array<uint8>)
    reads scratch
  {
    scratch.Length == SLOTS && forall i :: 0 <= i < SLOTS ==> scratch[i] == 0
  }

  /** Next generation of one chunk from its rows and halo rows; the halo map is
      walked in any order, and the buffer is all-zero again on return. */
  method TickBitset(id: ChunkID, chunkRows: Rows, halos: map<ChunkID, Rows>, counts: array<uint8>) returns (next: Rows)
    requires id !in halos
    requires Clean(counts)
    modifies counts
    ensures next == RowsAt(id, Next(Seen(id, chunkRows, halos)))
    ensures Clean(counts)
  {
    hide RowsAt;
    assert Counted(counts[..], iset{});
    hide Near, Counted;
    StampIsPad(id, id, chunkRows);
    AddToScratch(counts, chunkRows, 1, 1, iset{});
    var todo := halos.Keys;
    SeenStart(id, chunkRows, halos);
    while todo != {}
      invariant todo <= halos.Keys
      invariant Counted(counts[..], Pad(id, Seen(id, chunkRows, halos - todo)))
    {
      var nid :| nid in todo;
      var nrows := halos[nid];
      var offX := 1 + (nid.X - id.X) * 64;
      var offY := 1 + (nid.Y - id.Y) * 64;
      ghost var S := Pad(id, Seen(id, chunkRows, halos - todo));
      StampIsPad(id, nid, nrows);
      SeenStep(id, chunkRows, halos, todo, nid);
      AddToScratch(counts, nrows, offX, offY, S);
      todo := todo - {nid};
    }
    assert halos - {} == halos;
    ghost var W := Seen(id, chunkRows, halos);
    RowsAtWorld(halos[id := chunkRows], id);
    next := ApplyRule(id, chunkRows, counts, W);
    for i := 0 to SLOTS
      invariant forall k :: 0 <= k < i ==> counts[k] == 0
    {
      counts[i] := 0;
    }
  }

  lemma SlotCount(id: ChunkID, c: seq<uint8>, W: iset<Point>, x: nat, y: nat)
    requires Counted(c, Pad(id, W)) && x < 64 && y < 64
    ensures c[(y + 1) * 66 + (x + 1)] as int == Near(W, 64 * id.X + x, 64 * id.Y + y)
  {
    var i := (y + 1) * 66 + (x + 1);
    assert i % 66 == x + 1 && i / 66 == y + 1;
    NearPad(id, W, x, y);
  }

  lemma LiveNextAt(W: iset<Point>, p: Point, n: int)
    requires n == Near(W, p.x, p.y)
    ensures p in Next(W) <==> n == 3 || (n == 2 && p in W)
  {
  }

  /** The slot of (x, y) and the source bit decide the cell's next state. */
  lemma RuleAtSlot(id: ChunkID, c: seq<uint8>, chunkRows: Rows, W: iset<Point>, x: nat, y: nat)
    requires Counted(c, Pad(id, W)) && RowsAt(id, W) == chunkRows
    requires x < 64 && y < 64
    ensures Lit(RowsAt(id, Next(W)), x, y)
        <==> c[(y + 1) * 66 + (x + 1)] == 3 || (c[(y + 1) * 66 + (x + 1)] == 2 && Bit(chunkRows[y], x))
  {
    hide Near;
    var i, p := (y + 1) * 66 + (x + 1), WorldPoint(id, x, y);
    SlotCount(id, c, W, x, y);
    LiveNextAt(W, p, c[i]);
    assert Lit(chunkRows, x, y) <==> p in W;
    assert Lit(RowsAt(id, Next(W)), x, y) <==> p in Next(W);
  }

  /** The rule loop of TickBitset. */
  method ApplyRule(id: ChunkID, chunkRows: Rows, counts: array<uint8>, ghost W: iset<Point>) returns (next: Rows)
    requires counts.Length == SLOTS && Counted(counts[..], Pad(id, W))
    requires RowsAt(id, W) == chunkRows
    ensures next == RowsAt(id, Next(W))
  {
    next := NO_ROWS;
    ghost var want := RowsAt(id, Next(W));
    for y := 0 to 64
      invariant forall k :: 0 <= k < y ==> next[k] == want[k]
    {
      var newRow := ApplyRuleRow(id, chunkRows, counts, W, y);
      next := next[y := newRow];
    }
    assert next == want;
  }

  /** Its inner loop: one output word. */
  method ApplyRuleRow(id: ChunkID, chunkRows: Rows, counts: array<uint8>, ghost W: iset<Point>, y: nat)
    returns (newRow: uint64)
    requires y < 64 && counts.Length == SLOTS && Counted(counts[..], Pad(id, W))
    requires RowsAt(id, W) == chunkRows
    ensures newRow == RowsAt(id, Next(W))[y]
  {
    hide Near, Counted, RowsAt;
    ghost var want := RowsAt(id, Next(W))[y];
    var srcRow := chunkRows[y];
    var base := (y + 1) * 66;
    newRow := 0;
    forall k: nat
      ensures !Bit(0, k)
    {
      BitOfZero(k);
    }
    for x := 0 to 64
      invariant forall k: nat :: k < 64 ==> (Bit(newRow, k) <==> k < x && Bit(want, k))
    {
      var count := counts[base + (x + 1)];
      RuleAtSlot(id, counts[..], chunkRows, W, x, y);
      assert Lit(RowsAt(id, Next(W)), x, y) <==> Bit(want, x);
      if count == 3 || (count == 2 && Bit(srcRow, x)) {
        newRow := SetBit(newRow, x);
      }
    }
    WordsEqual(newRow, want);
  }

  // ----- Which neighbours a chunk can reach -----

  /** Local coordinate `v` lies in the three-cell band next to the face in direction `d`. */
  predicate InBand(v: int, d: int)
  {
    if d == -1 then v <= 2 else if d == 1 then v >= 61 else true
  }

  ghost predicate CellNearEdge(rows: Rows, dx: int, dy: int, x: nat, y: nat)
  {
    x < 64 && y < 64 && InBand(x, dx) && InBand(y, dy) && Lit(rows, x, y)
  }

  /** What hasCellsNearEdge reports. */
  ghost predicate NearEdge(rows: Rows, dx: int, dy: int)
  {
    exists x: nat, y: nat :: CellNearEdge(rows, dx, dy, x, y)
  }

  /** In offsets: some live cell lies in the three columns next to the face, if `dx` names
      one, and in the three rows next to the face, if `dy` does. */
  lemma NearEdgeAt(rows: Rows, dx: int, dy: int)
    ensures NearEdge(rows, dx, dy) <==>
      exists x: nat, y: nat ::
        && x < 64 && y < 64 && Lit(rows, x, y)
        && (dx == -1 ==> x < 3) && (dx == 1 ==> x > 60) && (dy == -1 ==> y < 3) && (dy == 1 ==> y > 60)
  {
    hide Lit;
    if NearEdge(rows, dx, dy) {
      var x: nat, y: nat :| CellNearEdge(rows, dx, dy, x, y);
      assert Lit(rows, x, y);
    }
    if x: nat, y: nat :|
        && x < 64 && y < 64 && Lit(rows, x, y)
        && (dx == -1 ==> x < 3) && (dx == 1 ==> x > 60) && (dy == -1 ==> y < 3) && (dy == 1 ==> y > 60)
    {
      assert CellNearEdge(rows, dx, dy, x, y);
    }
  }

  method HasCellsNearEdge(rows: Rows, dx: int, dy: int) returns (found: bool)
    ensures found <==> NearEdge(rows, dx, dy)
    ensures found <==>
      exists x: nat, y: nat ::
        && x < 64 && y < 64 && Lit(rows, x, y)
        && (dx == -1 ==> x < 3) && (dx == 1 ==> x > 60) && (dy == -1 ==> y < 3) && (dy == 1 ==> y > 60)
  {
    NearEdgeAt(rows, dx, dy);
    found := FindNearEdge(rows, dx, dy);
  }

  /** The mask of the columns, and the loop over the rows. */
  method FindNearEdge(rows: Rows, dx: int, dy: int) returns (found: bool)
    ensures found <==> NearEdge(rows, dx, dy)
  {
    var xMask: uint64;
    if dx == -1 {
      xMask := Shl(1, 3) - 1;
    } else if dx == 1 {
      xMask := Shl(WORD - 1, 61);
    } else {
      xMask := WORD - 1;
    }
    assert xMask == Mask(dx);
    hide Bit, And, Shl, Mask;
    var yMin, yMax := 0, 63;
    if dy == -1 {
      yMax := 2;
    } else if dy == 1 {
      yMin := 61;
    }
    for y := yMin to yMax + 1
      invariant forall k: nat, x: nat :: k < y ==> !CellNearEdge(rows, dx, dy, x, k)
    {
      RowNearEdge(rows, dx, dy, y);
      if And(rows[y], xMask) != 0 {
        return true;
      }
    }
    return false;
  }

  lemma RowNearEdge(rows: Rows, dx: int, dy: int, y: nat)
    requires y < 64 && InBand(y, dy)
    ensures And(rows[y], Mask(dx)) != 0 <==> exists x: nat :: CellNearEdge(rows, dx, dy, x, y)
  {
    hide Mask;
    MaskBits(dx);
    WordMeetsMask(rows[y], Mask(dx));
    if And(rows[y], Mask(dx)) != 0 {
      var x: nat :| x < 64 && Bit(rows[y], x) && Bit(Mask(dx), x);
      assert CellNearEdge(rows, dx, dy, x, y);
    }
    forall x: nat | CellNearEdge(rows, dx, dy, x, y)
      ensures And(rows[y], Mask(dx)) != 0
    {
      SharedBit(rows[y], Mask(dx), x);
    }
  }

  function Mask(dx: int): uint64
  {
    if dx == -1 then Shl(1, 3) - 1 else if dx == 1 then Shl(WORD - 1, 61) else WORD - 1
  }

  lemma MaskBits(dx: int)
    ensures forall x: nat :: x < 64 ==> (Bit(Mask(dx), x) <==> InBand(x, dx))
  {
    hide Bit;
    Pow2Word();
    forall x: nat | x < 64
      ensures Bit(Mask(dx), x) <==> InBand(x, dx)
    {
      assert Shl(1, 3) == Pow2(3) == 8 by {
        ShlOne(3);
      }
      LowMask(3, x);
      LowMask(64, x);
      BitOfShl(WORD - 1, 61, x);
      if x >= 61 {
        LowMask(64, x - 61);
      }
    }
  }

  lemma WordMeetsMask(row: uint64, mask: uint64)
    ensures And(row, mask) != 0 <==> exists x: nat :: x < 64 && Bit(row, x) && Bit(mask, x)
  {
    AndBound(row, mask);
    var both: uint64 := And(row, mask);
    if both != 0 {
      var x := NonZeroHasBit(both);
      BitOfAnd(row, mask, x);
    }
    forall x: nat | Bit(row, x) && Bit(mask, x)
      ensures both != 0
    {
      SharedBit(row, mask, x);
    }
  }

  lemma SharedBit(row: uint64, mask: uint64, x: nat)
    requires Bit(row, x) && Bit(mask, x)
    ensures And(row, mask) != 0
  {
    BitOfAnd(row, mask, x);
    BitOfZero(x);
  }

  /** A chunk with no cell in its band towards `nid` cannot change any count, hence
      any cell, inside `nid`: leaving its halo out is exact. */
  lemma TrimmedHaloIsHarmless(S: iset<Point>, id: ChunkID, rows: Rows, dx: int, dy: int)
    requires -1 <= dx <= 1 && -1 <= dy <= 1 && (dx, dy) != (0, 0)
    requires !NearEdge(rows, dx, dy)
    ensures var nid := ChunkID(id.X + dx, id.Y + dy);
      && (forall w: Point :: ChunkOf(w) == nid ==> Near(S + Cells(id, rows), w.x, w.y) == Near(S, w.x, w.y))
      && RowsAt(nid, Next(S + Cells(id, rows))) == RowsAt(nid, Next(S))
  {
    var nid := ChunkID(id.X + dx, id.Y + dy);
    forall q: Point | InReach(nid, q)
      ensures q !in Cells(id, rows)
    {
      if q in Cells(id, rows) {
        ReachIsNear(id, rows, dx, dy, q);
      }
    }
    SameReachSameNext(nid, S + Cells(id, rows), S);
    forall w: Point | ChunkOf(w) == nid
      ensures Near(S + Cells(id, rows), w.x, w.y) == Near(S, w.x, w.y)
    {
      SameReachSameNear(nid, S + Cells(id, rows), S, w);
    }
  }

  lemma ReachIsNear(id: ChunkID, rows: Rows, dx: int, dy: int, q: Point)
    requires -1 <= dx <= 1 && -1 <= dy <= 1
    requires q in Cells(id, rows) && InReach(ChunkID(id.X + dx, id.Y + dy), q)
    ensures NearEdge(rows, dx, dy)
  {
    assert CellNearEdge(rows, dx, dy, q.x % 64, q.y % 64);
  }

  /** The chunk's square widened by one cell: all its next generation depends on. */
  predicate InReach(id: ChunkID, q: Point)
  {
    -1 <= q.x - 64 * id.X <= 64 && -1 <= q.y - 64 * id.Y <= 64
  }

  lemma SameReachSameNear(id: ChunkID, S: iset<Point>, T: iset<Point>, w: Point)
    requires ChunkOf(w) == id && forall q :: InReach(id, q) ==> (q in S <==> q in T)
    ensures Near(S, w.x, w.y) == Near(T, w.x, w.y)
  {
    forall x, y | -1 <= w.x - x <= 1 && -1 <= w.y - y <= 1
      ensures Has(S, x, y) == Has(T, x, y)
    {
      assert InReach(id, Point(x, y));
    }
  }

  lemma SameReachSameNext(id: ChunkID, S: iset<Point>, T: iset<Point>)
    requires forall q :: InReach(id, q) ==> (q in S <==> q in T)
    ensures RowsAt(id, Next(S)) == RowsAt(id, Next(T))
  {
    forall x: nat, y: nat | x < 64 && y < 64
      ensures Lit(RowsAt(id, Next(S)), x, y) <==> Lit(RowsAt(id, Next(T)), x, y)
    {
      var p := WorldPoint(id, x, y);
      forall q: Point | -1 <= p.x - q.x <= 1 && -1 <= p.y - q.y <= 1
        ensures q in S <==> q in T
      {
        assert InReach(id, q);
      }
      NextIsLocal(S, T, p);
    }
    RowsEqual(RowsAt(id, Next(S)), RowsAt(id, Next(T)));
  }
}
