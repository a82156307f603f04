/**
  The registry as a value: active chunks with their idle counters, the store and
  the active-chunks gauge; and one round of TickAll as a function of it.
 */
module RegistryModel {
  import opened Life
  import opened Engine
  import opened Storage

  const HIBERNATION_THRESHOLD: nat := 100

  datatype Entry = Entry(rows: Rows, idle: nat)

  datatype State = State(active: map<ChunkID, Entry>, store: map<ChunkID, Record>, gauge: int)

  /** What the callbacks answer during one round: who is watched, which loads and
      which saves fail. */
  datatype Env = Env(watched: set<ChunkID>, loadFails: set<ChunkID>, saveFails: set<ChunkID>)

  ghost function RowsOf(s: State): map<ChunkID, Rows>
  {
    map id | id in s.active :: s.active[id].rows
  }

  /** The points of the plane the registry holds alive. */
  ghost function Denote(s: State): iset<Point>
  {
    World(RowsOf(s))
  }

  // ----- GetOrCreate -----

  ghost function NewEntry(store: map<ChunkID, Record>, id: ChunkID, loadFails: bool): Entry
  {
    Entry(if loadFails then NO_ROWS else Hydrate(store, id), 0)
  }

  ghost function WakeActive(active: map<ChunkID, Entry>, store: map<ChunkID, Record>, ids: set<ChunkID>,
                            loadFails: set<ChunkID>): map<ChunkID, Entry>
  {
    map id | id in active.Keys + ids :: if id in active then active[id] else NewEntry(store, id, id in loadFails)
  }

  /** GetOrCreate for a whole set of chunks. */
  ghost function Wake(s: State, ids: set<ChunkID>, loadFails: set<ChunkID>): State
  {
    State(WakeActive(s.active, s.store, ids, loadFails), s.store, s.gauge + |ids - s.active.Keys|)
  }

  lemma WakeOneMore(s: State, ids: set<ChunkID>, id: ChunkID, loadFails: set<ChunkID>)
    ensures Wake(Wake(s, ids, loadFails), {id}, loadFails) == Wake(s, ids + {id}, loadFails)
  {
    WakeActiveOneMore(s.active, s.store, ids, id, loadFails);
    hide WakeActive;
    CountNew(s.active.Keys, ids, id);
  }

  lemma WakeActiveOneMore(active: map<ChunkID, Entry>, store: map<ChunkID, Record>, ids: set<ChunkID>, id: ChunkID,
                          loadFails: set<ChunkID>)
    ensures WakeActive(active, store, ids, loadFails).Keys == active.Keys + ids
    ensures WakeActive(WakeActive(active, store, ids, loadFails), store, {id}, loadFails)
        == WakeActive(active, store, ids + {id}, loadFails)
  {
    hide NewEntry;
    var m := WakeActive(active, store, ids, loadFails);
    assert m.Keys == active.Keys + ids;
    assert WakeActive(m, store, {id}, loadFails).Keys == WakeActive(active, store, ids + {id}, loadFails).Keys;
  }

  lemma CountNew(k: set<ChunkID>, ids: set<ChunkID>, id: ChunkID)
    ensures |(ids + {id}) - k| == |ids - k| + |{id} - (k + ids)|
  {
    if id in k + ids {
      assert {id} - (k + ids) == {} && (ids + {id}) - k == ids - k;
    } else {
      assert {id} - (k + ids) == {id} && (ids + {id}) - k == (ids - k) + {id};
    }
  }

  lemma WakeNone(s: State, loadFails: set<ChunkID>)
    ensures Wake(s, {}, loadFails) == s
  {
    assert {} - s.active.Keys == {};
  }

  // ----- Halo distribution -----

  predicate Neighbours(a: ChunkID, b: ChunkID)
  {
    a != b && -1 <= b.X - a.X <= 1 && -1 <= b.Y - a.Y <= 1
  }

  function Shift(id: ChunkID, dx: int, dy: int): ChunkID
  {
    ChunkID(id.X + dx, id.Y + dy)
  }

  /** Chunk `e` hands its rows to neighbour `nid` this round. */
  ghost predicate Feeds(rows: map<ChunkID, Rows>, e: ChunkID, nid: ChunkID)
  {
    e in rows && Neighbours(e, nid) && NearEdge(rows[e], nid.X - e.X, nid.Y - e.Y)
  }

  ghost function Fed(rows: map<ChunkID, Rows>): set<ChunkID>
  {
    set e, dx, dy | e in rows && -1 <= dx <= 1 && -1 <= dy <= 1 && Feeds(rows, e, Shift(e, dx, dy)) :: Shift(e, dx, dy)
  }

  lemma FedMeaning(rows: map<ChunkID, Rows>, nid: ChunkID)
    ensures nid in Fed(rows) <==> exists e :: Feeds(rows, e, nid)
  {
    if e :| Feeds(rows, e, nid) {
      var dx, dy := nid.X - e.X, nid.Y - e.Y;
      assert nid == Shift(e, dx, dy);
    }
  }

  /** In world coordinates: a chunk is handed a halo exactly if some live cell of another
      chunk lies at most three cells outside its square. */
  lemma FedInWorld(rows: map<ChunkID, Rows>, nid: ChunkID)
    ensures nid in Fed(rows) <==>
      exists q :: q in World(rows) && ChunkOf(q) != nid
                  && -3 <= q.x - 64 * nid.X <= 66 && -3 <= q.y - 64 * nid.Y <= 66
  {
    FedMeaning(rows, nid);
    hide Fed, Lit;
    if e :| Feeds(rows, e, nid) {
      var x: nat, y: nat :| CellNearEdge(rows[e], nid.X - e.X, nid.Y - e.Y, x, y);
      var q := WorldPoint(e, x, y);
      assert ChunkOf(q) == e && q.x % 64 == x && q.y % 64 == y;
      assert q in World(rows);
    }
    if q :| q in World(rows) && ChunkOf(q) != nid
            && -3 <= q.x - 64 * nid.X <= 66 && -3 <= q.y - 64 * nid.Y <= 66
    {
      var e := ChunkOf(q);
      assert CellNearEdge(rows[e], nid.X - e.X, nid.Y - e.Y, q.x % 64, q.y % 64);
      assert Feeds(rows, e, nid);
    }
  }

  ghost function Halos(rows: map<ChunkID, Rows>, nid: ChunkID): map<ChunkID, Rows>
  {
    map e | e in rows && Feeds(rows, e, nid) :: rows[e]
  }

  // ----- One job -----

  /** What a worker computes for chunk `id` from the snapshots. */
  ghost function JobRows(rows: map<ChunkID, Rows>, woken: State, id: ChunkID): Rows
    requires id in woken.active
  {
    RowsAt(id, Next(Seen(id, woken.active[id].rows, Halos(rows, id))))
  }

  function NextIdle(idle: nat, rows: Rows, watched: bool): nat
  {
    if rows == NO_ROWS && !watched then idle + 1 else 0
  }

  /** Empty, unwatched and idle for the hundredth time in a row. */
  predicate Hibernates(idle: nat, rows: Rows, watched: bool)
  {
    NextIdle(idle, rows, watched) >= HIBERNATION_THRESHOLD
  }

  ghost function Evicted(s: State, next: map<ChunkID, Rows>, done: set<ChunkID>, env: Env): set<ChunkID>
    requires s.active.Keys <= next.Keys
  {
    set id | id in s.active && id in done && Hibernates(s.active[id].idle, next[id], id in env.watched)
  }

  ghost function FinishActive(active: map<ChunkID, Entry>, next: map<ChunkID, Rows>, done: set<ChunkID>,
                              gone: set<ChunkID>, watched: set<ChunkID>): map<ChunkID, Entry>
    requires active.Keys <= next.Keys
  {
    map id | id in active && id !in gone ::
      if id in done then Entry(next[id], NextIdle(active[id].idle, next[id], id in watched)) else active[id]
  }

  ghost function FinishStore(store: map<ChunkID, Record>, next: map<ChunkID, Rows>,
                             saved: set<ChunkID>): map<ChunkID, Record>
    requires saved <= next.Keys
  {
    store + map id | id in saved :: Saved(id, next[id])
  }

  /** The state once the jobs of `done` have run, in whatever order. */
  ghost function Finish(s: State, next: map<ChunkID, Rows>, done: set<ChunkID>, env: Env): State
    requires s.active.Keys <= next.Keys
  {
    var gone := Evicted(s, next, done, env);
    State(FinishActive(s.active, next, done, gone, env.watched),
          FinishStore(s.store, next, gone - env.saveFails),
          s.gauge - |gone|)
  }

  ghost function NextRows(rows: map<ChunkID, Rows>, woken: State): map<ChunkID, Rows>
  {
    map id | id in woken.active :: JobRows(rows, woken, id)
  }

  /** One round of TickAll. */
  ghost function Tick(s: State, env: Env): State
  {
    var rows := RowsOf(s);
    var woken := Wake(s, Fed(rows), env.loadFails);
    Finish(woken, NextRows(rows, woken), woken.active.Keys, env)
  }

  lemma FinishNone(s: State, next: map<ChunkID, Rows>, env: Env)
    requires s.active.Keys <= next.Keys
    ensures Finish(s, next, {}, env) == s
  {
    assert Evicted(s, next, {}, env) == {};
  }

  /** Evictions of one more job. */
  lemma EvictedOneMore(s: State, next: map<ChunkID, Rows>, done: set<ChunkID>, id: ChunkID, env: Env)
    requires s.active.Keys <= next.Keys && id in s.active && id !in done
    ensures var t := Finish(s, next, done, env);
      && t.active.Keys == s.active.Keys - Evicted(s, next, done, env)
      && t.active.Keys <= next.Keys && id in t.active && t.active[id] == s.active[id]
      && Evicted(s, next, done + {id}, env) == Evicted(s, next, done, env) + Evicted(t, next, {id}, env)
      && Evicted(t, next, {id}, env) <= {id} && id !in Evicted(s, next, done, env)
  {
    hide NextIdle, Hibernates, Saved;
    var t := Finish(s, next, done, env);
    assert t.active.Keys == s.active.Keys - Evicted(s, next, done, env);
    assert Evicted(s, next, done + {id}, env) == Evicted(s, next, done, env) + Evicted(t, next, {id}, env);
  }

  /** One more job, whichever comes next. */
  lemma FinishOneMore(s: State, next: map<ChunkID, Rows>, done: set<ChunkID>, id: ChunkID, env: Env)
    requires s.active.Keys <= next.Keys
    requires id in s.active && id !in done
    ensures var t := Finish(s, next, done, env);
      id in t.active && t.active[id] == s.active[id] && t.active.Keys <= next.Keys &&
      Finish(t, next, {id}, env) == Finish(s, next, done + {id}, env)
  {
    hide NextIdle, Hibernates, FinishActive, FinishStore;
    EvictedOneMore(s, next, done, id, env);
    var t := Finish(s, next, done, env);
    var gone, more := Evicted(s, next, done, env), Evicted(t, next, {id}, env);
    hide Evicted;
    FinishActiveOneMore(s.active, next, done, gone, id, more, env.watched);
    FinishStoreUnion(s.store, next, gone - env.saveFails, more - env.saveFails);
    assert (gone + more) - env.saveFails == (gone - env.saveFails) + (more - env.saveFails);
  }

  lemma FinishActiveOneMore(active: map<ChunkID, Entry>, next: map<ChunkID, Rows>, done: set<ChunkID>,
                            gone: set<ChunkID>, id: ChunkID, more: set<ChunkID>, watched: set<ChunkID>)
    requires active.Keys <= next.Keys && id !in done && id !in gone && more <= {id}
    ensures FinishActive(active, next, done, gone, watched).Keys <= next.Keys
    ensures FinishActive(FinishActive(active, next, done, gone, watched), next, {id}, more, watched)
        == FinishActive(active, next, done + {id}, gone + more, watched)
  {
    hide NextIdle;
  }

  lemma FinishStoreUnion(store: map<ChunkID, Record>, next: map<ChunkID, Rows>, a: set<ChunkID>, b: set<ChunkID>)
    requires a <= next.Keys && b <= next.Keys
    ensures FinishStore(FinishStore(store, next, a), next, b) == FinishStore(store, next, a + b)
  {
    hide Saved;
  }

  // ----- The two transitions, key by key -----

  lemma WakeByKeys(s: State, t: State, id: ChunkID, loadFails: set<ChunkID>)
    requires t.active.Keys == s.active.Keys + {id} && t.store == s.store
    requires forall k :: k in s.active ==> t.active[k] == s.active[k]
    requires id !in s.active ==> t.active[id] == NewEntry(s.store, id, id in loadFails)
    requires t.gauge == s.gauge + if id in s.active then 0 else 1
    ensures t == Wake(s, {id}, loadFails)
  {
    assert {id} - s.active.Keys == if id in s.active then {} else {id};
    WakeActiveByKeys(s.active, s.store, t.active, id, loadFails);
    hide WakeActive, NewEntry;
  }

  lemma WakeActiveByKeys(a: map<ChunkID, Entry>, store: map<ChunkID, Record>, b: map<ChunkID, Entry>, id: ChunkID,
                         loadFails: set<ChunkID>)
    requires b.Keys == a.Keys + {id}
    requires forall k :: k in a ==> b[k] == a[k]
    requires id !in a ==> b[id] == NewEntry(store, id, id in loadFails)
    ensures b == WakeActive(a, store, {id}, loadFails)
  {
    hide NewEntry;
    assert b.Keys == WakeActive(a, store, {id}, loadFails).Keys;
  }

  lemma FinishByKeys(s: State, t: State, next: map<ChunkID, Rows>, id: ChunkID, env: Env)
    requires s.active.Keys <= next.Keys && id in s.active
    requires var idle, gone := s.active[id].idle, Hibernates(s.active[id].idle, next[id], id in env.watched);
      && t.active.Keys == (if gone then s.active.Keys - {id} else s.active.Keys)
      && (!gone ==> t.active[id] == Entry(next[id], NextIdle(idle, next[id], id in env.watched)))
      && t.gauge == s.gauge - (if gone then 1 else 0)
      && t.store == (if gone && id !in env.saveFails then s.store[id := Saved(id, next[id])] else s.store)
    requires forall k :: k in t.active && k != id ==> t.active[k] == s.active[k]
    ensures t == Finish(s, next, {id}, env)
  {
    hide NextIdle, Hibernates, Saved;
    var gone := Evicted(s, next, {id}, env);
    assert gone == if Hibernates(s.active[id].idle, next[id], id in env.watched) then {id} else {};
    assert t.active == FinishActive(s.active, next, {id}, gone, env.watched);
    hide FinishActive;
    assert t.store == FinishStore(s.store, next, gone - env.saveFails);
  }

  lemma FinishKeepsPending(s: State, next: map<ChunkID, Rows>, done: set<ChunkID>, id: ChunkID, env: Env)
    requires s.active.Keys <= next.Keys && id in s.active && id !in done
    ensures id in Finish(s, next, done, env).active && Finish(s, next, done, env).active[id] == s.active[id]
  {
    hide FinishStore;
  }

  // ----- The halo maps TickAll builds -----

  type HaloMaps = map<ChunkID, map<ChunkID, Rows>>

  predicate InHalo(h: HaloMaps, e: ChunkID, nid: ChunkID)
  {
    nid in h && e in h[nid]
  }

  function HaloOf(h: HaloMaps, nid: ChunkID): map<ChunkID, Rows>
  {
    if nid in h then h[nid] else map[]
  }

  /** Entries carry the snapshotted rows and no inner map is empty. */
  ghost predicate HalosSound(h: HaloMaps, rows: map<ChunkID, Rows>)
  {
    && (forall nid, e :: InHalo(h, e, nid) ==> e in rows && h[nid][e] == rows[e])
    && (forall nid :: nid in h ==> exists e :: InHalo(h, e, nid))
  }

  /** The halo maps hold what every chunk outside `todo` feeds, and nothing else. */
  ghost predicate HalosUpTo(h: HaloMaps, rows: map<ChunkID, Rows>, todo: set<ChunkID>)
  {
    HalosSound(h, rows) && forall e, nid :: InHalo(h, e, nid) <==> Feeds(rows, e, nid) && e !in todo
  }

  lemma HalosComplete(h: HaloMaps, rows: map<ChunkID, Rows>)
    requires HalosUpTo(h, rows, {})
    ensures h.Keys == Fed(rows)
    ensures forall nid :: HaloOf(h, nid) == Halos(rows, nid)
  {
    hide Feeds, Fed;
    forall nid
      ensures nid in h <==> nid in Fed(rows)
    {
      FedMeaning(rows, nid);
      if e :| Feeds(rows, e, nid) {
        assert InHalo(h, e, nid);
      }
    }
    forall nid
      ensures HaloOf(h, nid) == Halos(rows, nid)
    {
      forall e
        ensures e in HaloOf(h, nid) <==> e in Halos(rows, nid)
      {
        assert InHalo(h, e, nid) <==> Feeds(rows, e, nid);
        FeedsKey(rows, e, nid);
      }
      assert HaloOf(h, nid).Keys == Halos(rows, nid).Keys;
      assert forall e :: e in HaloOf(h, nid) ==> InHalo(h, e, nid);
    }
  }

  lemma FeedsKey(rows: map<ChunkID, Rows>, e: ChunkID, nid: ChunkID)
    ensures Feeds(rows, e, nid) ==> e in rows && e != nid
  {
  }

  const OFFSETS: seq<(int, int)> := [(-1, -1), (0, -1), (1, -1), (-1, 0), (1, 0), (-1, 1), (0, 1), (1, 1)]

  /** Where the offset from `e` to `nid` stands in OFFSETS. */
  function OffsetIndex(e: ChunkID, nid: ChunkID): int
  {
    var k := 3 * (nid.Y - e.Y + 1) + (nid.X - e.X + 1);
    if k > 4 then k - 1 else k
  }

  lemma OffsetsCover(e: ChunkID, nid: ChunkID, k: nat)
    requires k < 8
    ensures Neighbours(e, Shift(e, OFFSETS[k].0, OFFSETS[k].1))
    ensures OffsetIndex(e, Shift(e, OFFSETS[k].0, OFFSETS[k].1)) == k
    ensures Neighbours(e, nid) ==> 0 <= OffsetIndex(e, nid) < 8
    ensures Neighbours(e, nid) && OffsetIndex(e, nid) == k ==> nid == Shift(e, OFFSETS[k].0, OFFSETS[k].1)
  {
  }

  /** `e` reaches `nid`, one of its first `k` neighbours in OFFSETS order. */
  ghost predicate Handed(rows: Rows, e: ChunkID, nid: ChunkID, k: nat)
  {
    Neighbours(e, nid) && OffsetIndex(e, nid) < k && NearEdge(rows, nid.X - e.X, nid.Y - e.Y)
  }

  /** `h` is `h0` plus the rows of `e` at every neighbour they were handed to. */
  ghost predicate HandedUpTo(h: HaloMaps, h0: HaloMaps, e: ChunkID, rows: Rows, k: nat)
  {
    && (forall nid :: nid in h <==> nid in h0 || Handed(rows, e, nid, k))
    && (forall nid :: nid in h ==>
          h[nid] == if Handed(rows, e, nid, k) then HaloOf(h0, nid)[e := rows] else HaloOf(h0, nid))
  }

  lemma HandedNone(h0: HaloMaps, e: ChunkID, rows: Rows)
    ensures HandedUpTo(h0, h0, e, rows, 0)
  {
    forall nid
      ensures !Handed(rows, e, nid, 0)
    {
      OffsetsCover(e, nid, 0);
    }
  }

  /** One turn of the inner loop. */
  lemma HandedOneMore(h: HaloMaps, h0: HaloMaps, e: ChunkID, rows: Rows, k: nat)
    requires k < 8 && HandedUpTo(h, h0, e, rows, k)
    ensures var nid := Shift(e, OFFSETS[k].0, OFFSETS[k].1);
      && (NearEdge(rows, OFFSETS[k].0, OFFSETS[k].1) ==>
            HandedUpTo(h[nid := HaloOf(h, nid)[e := rows]], h0, e, rows, k + 1))
      && (!NearEdge(rows, OFFSETS[k].0, OFFSETS[k].1) ==> HandedUpTo(h, h0, e, rows, k + 1))
  {
    var n := Shift(e, OFFSETS[k].0, OFFSETS[k].1);
    var near := NearEdge(rows, OFFSETS[k].0, OFFSETS[k].1);
    forall nid
      ensures Handed(rows, e, nid, k + 1) <==> Handed(rows, e, nid, k) || (nid == n && near)
      ensures nid == n ==> !Handed(rows, e, nid, k)
    {
      OffsetsCover(e, nid, k);
    }
    hide Handed, NearEdge;
  }

  /** Having handed out one more chunk's rows to all eight neighbours. */
  lemma HandedAll(h: HaloMaps, h0: HaloMaps, rows: map<ChunkID, Rows>, todo: set<ChunkID>, e: ChunkID)
    requires e in todo && e in rows
    requires HalosUpTo(h0, rows, todo) && HandedUpTo(h, h0, e, rows[e], 8)
    ensures HalosUpTo(h, rows, todo - {e})
  {
    forall nid
      ensures Handed(rows[e], e, nid, 8) <==> Feeds(rows, e, nid)
    {
      OffsetsCover(e, nid, 0);
    }
    hide Handed, Feeds;
    forall c, nid
      ensures InHalo(h, c, nid) <==> Feeds(rows, c, nid) && c !in todo - {e}
      ensures InHalo(h, c, nid) ==> c in rows && h[nid][c] == rows[c]
    {
      assert InHalo(h0, c, nid) <==> Feeds(rows, c, nid) && c !in todo;
    }
    forall nid | nid in h
      ensures exists c :: InHalo(h, c, nid)
    {
      if Handed(rows[e], e, nid, 8) {
        assert InHalo(h, e, nid);
      } else {
        var c :| InHalo(h0, c, nid);
        assert InHalo(h, c, nid);
      }
    }
  }

  lemma HandedNothing(h: HaloMaps, rows: map<ChunkID, Rows>, todo: set<ChunkID>, e: ChunkID)
    requires HalosUpTo(h, rows, todo) && forall nid :: !Feeds(rows, e, nid)
    ensures HalosUpTo(h, rows, todo - {e})
  {
  }
}
