/**
  Rounds in which a woken chunk is loaded with cells: what such a round computes, and
  exactly when it is still a generation of Life.
 */
module Loads {
  import opened Life
  import opened Chunks
  import opened Engine
  import opened Storage
  import opened RegistryModel
  import opened Refinement
  import opened PoolRace
  import Runs

  /** What a job computes when its chunk brings cells the snapshot did not have. */
  lemma JobSeesLoaded(rows: map<ChunkID, Rows>, id: ChunkID, own: Rows)
    requires id in rows ==> own == rows[id]
    ensures RowsAt(id, Next(Seen(id, own, Halos(rows, id)))) == RowsAt(id, Next(World(rows) + Cells(id, own)))
  {
    forall q | InReach(id, q)
      ensures q in Seen(id, own, Halos(rows, id)) <==> q in World(rows) + Cells(id, own)
    {
      if q in World(rows) && ChunkOf(q) != id {
        ReachFeeds(rows, id, q);
      }
    }
    SameReachSameNext(id, Seen(id, own, Halos(rows, id)), World(rows) + Cells(id, own));
  }

  /** A chunk registered by this round, with what the store holds of it. */
  ghost predicate LoadedNow(s: State, env: Env, id: ChunkID)
  {
    id in Fed(RowsOf(s)) && id !in s.active && id !in env.loadFails
  }

  ghost function LoadedAt(s: State, env: Env, id: ChunkID): iset<Point>
  {
    if LoadedNow(s, env, id) then Cells(id, Hydrate(s.store, id)) else iset{}
  }

  lemma OwnCells(rows: map<ChunkID, Rows>, id: ChunkID)
    requires id in rows
    ensures World(rows) + Cells(id, rows[id]) == World(rows)
  {
  }

  lemma NoCells(id: ChunkID)
    ensures Cells(id, NO_ROWS) == iset{}
  {
    NoRowsDark();
  }

  /** The rows a ticked chunk starts the round with. */
  lemma WokenRows(s: State, env: Env, id: ChunkID)
    requires Ticked(s, id)
    ensures var woken := Wake(s, Fed(RowsOf(s)), env.loadFails);
      && id in woken.active
      && (id in s.active ==> woken.active[id].rows == RowsOf(s)[id])
      && Denote(s) + Cells(id, woken.active[id].rows) == Denote(s) + LoadedAt(s, env, id)
  {
    var rows := RowsOf(s);
    if id in s.active {
      OwnCells(rows, id);
    }
    NoCells(id);
    hide Fed, Hydrate, Cells, World;
    assert iset{} + Denote(s) == Denote(s);
  }

  /** A round of any registry over any store, cell by cell: a ticked chunk lives on by
      the world before and the cells loaded with itself, but not those of others. */
  lemma TickAt(s: State, env: Env, p: Point)
    ensures p in Denote(Tick(s, env)) <==>
        Ticked(s, ChunkOf(p)) && LiveNext(Denote(s) + LoadedAt(s, env, ChunkOf(p)), p)
  {
    var rows, id, t := RowsOf(s), ChunkOf(p), Tick(s, env);
    var woken := Wake(s, Fed(rows), env.loadFails);
    assert p == WorldPoint(id, p.x % 64, p.y % 64);
    TickKeys(s, env);
    if Ticked(s, id) {
      WokenRows(s, env, id);
      JobSeesLoaded(rows, id, woken.active[id].rows);
      FinishHeld(woken, NextRows(rows, woken), env, id);
      LitDenotes(t, id, p.x % 64, p.y % 64);
      hide Wake, Fed, LoadedAt, Finish, Held, RowsAt, Denote, Seen;
      assert Held(t, id) == RowsAt(id, Next(Denote(s) + LoadedAt(s, env, id)));
    } else {
      AbsentIsDark(t, p);
    }
  }

  /** The loaded cells make no difference to `p`, a cell of the chunk they came with. */
  ghost predicate Harmless(s: State, env: Env, p: Point)
  {
    LoadedNow(s, env, ChunkOf(p)) ==>
      (LiveNext(Denote(s) + Cells(ChunkOf(p), Hydrate(s.store, ChunkOf(p))), p) <==> LiveNext(Denote(s), p))
  }

  lemma HarmlessAt(s: State, env: Env, p: Point)
    ensures (p in Denote(Tick(s, env)) <==> p in Next(Denote(s))) <==> Harmless(s, env, p)
  {
    TickAt(s, env, p);
    if !Ticked(s, ChunkOf(p)) {
      UntickedStaysEmpty(RowsOf(s), p);
    }
    NothingLoaded(s, env, ChunkOf(p));
    hide Tick, Denote, Hydrate, Near, Fed;
  }

  lemma NothingLoaded(s: State, env: Env, id: ChunkID)
    ensures !LoadedNow(s, env, id) ==> Denote(s) + LoadedAt(s, env, id) == Denote(s)
  {
    hide LoadedNow;
  }

  /** Whatever the store holds, a round is a generation of Life exactly if in every
      chunk it loads the rule says the same with and without the loaded cells. */
  lemma TickIsLifeIff(s: State, env: Env)
    ensures Denote(Tick(s, env)) == Next(Denote(s)) <==> forall p :: Harmless(s, env, p)
  {
    hide *;
    var A, B := Denote(Tick(s, env)), Next(Denote(s));
    forall p
      ensures (p in A <==> p in B) <==> Harmless(s, env, p)
    {
      HarmlessAt(s, env, p);
    }
  }

  // ----- A reachable round that is not -----

  /** The chunk to the left of `id`. */
  function LeftOf(id: ChunkID): ChunkID
  {
    ChunkID(id.X - 1, id.Y)
  }

  /** After the race that stored the cell (0, 9) of chunk `id`: two cells are placed to
      the left of it, and a round is run. */
  function Upper(id: ChunkID): Point
  {
    WorldPoint(LeftOf(id), 63, 8)
  }

  function Lower(id: ChunkID): Point
  {
    WorldPoint(LeftOf(id), 63, 10)
  }

  function Stored(id: ChunkID): Point
  {
    WorldPoint(id, 0, 9)
  }

  function Between(id: ChunkID): Point
  {
    WorldPoint(LeftOf(id), 63, 9)
  }

  function Pair(): Rows
  {
    Mark(Mark(NO_ROWS, 63, 8), 63, 10)
  }

  lemma PairLit(x: nat, y: nat)
    requires x < 64 && y < 64
    ensures Lit(Pair(), x, y) <==> x == 63 && (y == 8 || y == 10)
  {
    NoRowsDark();
  }

  ghost function TwoPlaced(id: ChunkID): State
  {
    Runs.Run(Spoiled(id, 0, 9), [Runs.Spawn(Upper(id), false), Runs.Spawn(Lower(id), false)])
  }

  lemma TwoPlacedIs(id: ChunkID)
    ensures TwoPlaced(id) ==
      State(map[LeftOf(id) := Entry(Pair(), 0)], Spoiled(id, 0, 9).store, 1)
  {
    var s, up, low := Spoiled(id, 0, 9), Runs.Spawn(Upper(id), false), Runs.Spawn(Lower(id), false);
    assert [up] + [low] == [up, low] && [] + [up] == [up];
    RunOne(s, [], up);
    RunOne(s, [up], low);
    FirstPlaced(id);
    SecondPlaced(id);
    hide Runs.SpawnOne, Spoiled, Mark;
  }

  lemma FirstPlaced(id: ChunkID)
    ensures Runs.SpawnOne(Spoiled(id, 0, 9), Upper(id), false)
      == State(map[LeftOf(id) := Entry(Mark(NO_ROWS, 63, 8), 0)], Spoiled(id, 0, 9).store, 1)
  {
    var none: map<ChunkID, Entry>, left := map[], LeftOf(id);
    assert ChunkOf(Upper(id)) == left && Upper(id).x % 64 == 63 && Upper(id).y % 64 == 8;
    assert {left} - none.Keys == {left};
    assert WakeActive(none, Spoiled(id, 0, 9).store, {left}, {}) == map[left := Entry(NO_ROWS, 0)];
    hide WakeActive, Mark, Saved;
  }

  lemma SecondPlaced(id: ChunkID)
    ensures var store := Spoiled(id, 0, 9).store;
      Runs.SpawnOne(State(map[LeftOf(id) := Entry(Mark(NO_ROWS, 63, 8), 0)], store, 1), Lower(id), false)
        == State(map[LeftOf(id) := Entry(Pair(), 0)], store, 1)
  {
    var rows := Mark(NO_ROWS, 63, 8);
    assert ChunkOf(Lower(id)) == LeftOf(id) && Lower(id).x % 64 == 63 && Lower(id).y % 64 == 10;
    SpawnAgain(LeftOf(id), rows, Spoiled(id, 0, 9).store, Lower(id));
    hide *;
    PairIs();
  }

  lemma PairIs()
    ensures Pair() == Mark(Mark(NO_ROWS, 63, 8), 63, 10)
  {
  }

  /** A spawn on the one registered chunk sets its bit. */
  lemma SpawnAgain(id: ChunkID, rows: Rows, store: map<ChunkID, Record>, p: Point)
    requires ChunkOf(p) == id
    ensures Runs.SpawnOne(State(map[id := Entry(rows, 0)], store, 1), p, false)
      == State(map[id := Entry(Mark(rows, p.x % 64, p.y % 64), 0)], store, 1)
  {
    var s := State(map[id := Entry(rows, 0)], store, 1);
    assert {id} - s.active.Keys == {};
    hide Mark, NewEntry;
    assert WakeActive(s.active, s.store, {id}, {}) == s.active;
  }

  lemma TwoRows(id: ChunkID)
    ensures RowsOf(TwoPlaced(id)) == map[LeftOf(id) := Pair()] && TwoPlaced(id).store == Spoiled(id, 0, 9).store
    ensures id !in TwoPlaced(id).active && LeftOf(id) in TwoPlaced(id).active
  {
    TwoPlacedIs(id);
    hide TwoPlaced, Pair, Spoiled;
  }

  lemma TwoCells(id: ChunkID, q: Point)
    ensures q in Denote(TwoPlaced(id)) <==> q == Upper(id) || q == Lower(id)
  {
    hide *;
    TwoRows(id);
    DenoteIs(TwoPlaced(id));
    AloneAt(LeftOf(id), Pair(), q);
    PairLit(q.x % 64, q.y % 64);
    PairBack(id, q);
  }

  lemma DenoteIs(s: State)
    ensures Denote(s) == World(RowsOf(s))
  {
  }

  lemma PairBack(id: ChunkID, q: Point)
    ensures q == Upper(id) || q == Lower(id) <==>
        ChunkOf(q) == LeftOf(id) && q.x % 64 == 63 && (q.y % 64 == 8 || q.y % 64 == 10)
  {
    assert q == WorldPoint(ChunkOf(q), q.x % 64, q.y % 64);
  }

  /** The pair lies on the face towards `id`. */
  lemma PairFeeds(id: ChunkID)
    ensures id in Fed(map[LeftOf(id) := Pair()])
  {
    PairLit(63, 8);
    hide Pair;
    assert CellNearEdge(Pair(), 1, 0, 63, 8);
    assert Feeds(map[LeftOf(id) := Pair()], LeftOf(id), id);
    FedMeaning(map[LeftOf(id) := Pair()], id);
  }

  /** The loaded chunk brings its stored cell. */
  lemma OneLoaded(id: ChunkID)
    ensures LoadedNow(TwoPlaced(id), QUIET, id) && LoadedAt(TwoPlaced(id), QUIET, id) == iset{Stored(id)}
  {
    TwoRows(id);
    PairFeeds(id);
    SaveThenLoad(map[], id, Mark(NO_ROWS, 0, 9), id);
    StoredCell(id);
    hide TwoPlaced, Pair, Fed, Mark, Saved, Hydrate, Cells, RowsOf;
  }

  lemma StoredCell(id: ChunkID)
    ensures Cells(id, Mark(NO_ROWS, 0, 9)) == iset{Stored(id)}
  {
    var rows := Mark(NO_ROWS, 0, 9);
    NoRowsDark();
    hide Mark;
    forall q: Point
      ensures q in Cells(id, rows) <==> q == Stored(id)
    {
      assert q == WorldPoint(ChunkOf(q), q.x % 64, q.y % 64);
    }
  }

  /** The stored cell comes alive in the round although the world before had it dead,
      and the cell between the two placed ones is not born although, with the stored
      cell, it has three neighbours: the round is a generation neither of the world
      before nor of the world with the loaded cell in it. */
  lemma LoadedMidTick(id: ChunkID)
    ensures var s := TwoPlaced(id);
      var W, t := Denote(s), Denote(Tick(s, QUIET));
      && Stored(id) in t && Stored(id) !in Next(W)
      && Between(id) !in t && Between(id) in Next(W + iset{Stored(id)})
  {
    MidTickAt(id);
    hide Tick, Denote, TwoPlaced, Near, WorldPoint;
    forall q: Point
      ensures q in Denote(TwoPlaced(id)) <==> q == Upper(id) || q == Lower(id)
    {
      TwoCells(id, q);
    }
    PairCounts(id, Denote(TwoPlaced(id)));
  }

  /** What decides about the two cells. */
  lemma MidTickAt(id: ChunkID)
    ensures var s := TwoPlaced(id);
      var W, t := Denote(s), Denote(Tick(s, QUIET));
      && (Stored(id) in t <==> LiveNext(W + iset{Stored(id)}, Stored(id)))
      && (Between(id) in t <==> LiveNext(W, Between(id)))
  {
    hide *;
    var s := TwoPlaced(id);
    OneLoaded(id);
    TwoRows(id);
    TickAt(s, QUIET, Stored(id));
    TickAt(s, QUIET, Between(id));
    WhoTicks(s, QUIET, id);
    WhoTicks(s, QUIET, LeftOf(id));
    NothingLoaded(s, QUIET, LeftOf(id));
    TheirChunks(id);
  }

  lemma WhoTicks(s: State, env: Env, id: ChunkID)
    ensures LoadedNow(s, env, id) || id in s.active ==> Ticked(s, id)
    ensures id in s.active ==> !LoadedNow(s, env, id)
  {
    hide Fed;
  }

  lemma TheirChunks(id: ChunkID)
    ensures ChunkOf(Stored(id)) == id && ChunkOf(Between(id)) == LeftOf(id)
  {
  }

  lemma PairCounts(id: ChunkID, W: iset<Point>)
    requires forall q: Point :: q in W <==> q == Upper(id) || q == Lower(id)
    ensures var p, q := Stored(id), Between(id);
      && Near(W, p.x, p.y) == 2 && Near(W + iset{p}, p.x, p.y) == 2 && p !in W
      && Near(W, q.x, q.y) == 2 && Near(W + iset{p}, q.x, q.y) == 3 && q !in W
  {
    var p, q := Stored(id), Between(id);
    NearInsert(W, p, p.x, p.y);
    NearInsert(W, p, q.x, q.y);
    assert p == Point(p.x, p.y) && q == Point(q.x, q.y);
    assert Has(W, p.x - 1, p.y - 1) == 1 && Has(W, p.x - 1, p.y + 1) == 1;
    assert Has(W, q.x, q.y - 1) == 1 && Has(W, q.x, q.y + 1) == 1;
  }
}
