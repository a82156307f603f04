/**
  The registry object: GetOrCreate, PeekChunk, the worker job, hibernation and
  TickAll, each proved equal to the corresponding function of RegistryModel.
 */
module Registry {
  import opened Bits
  import opened Life
  import opened Chunks
  import opened Engine
  import opened Storage
  import opened RegistryModel
  import opened PubSub

  class ChunkState {
    const chunk: Chunk
    var idleTicks: nat

    constructor (chunk: Chunk)
      ensures this.chunk == chunk && idleTicks == 0
    {
      this.chunk := chunk;
      idleTicks := 0;
    }
  }

  datatype TickJob = TickJob(state: ChunkState, chunkRows: Rows, halos: map<ChunkID, Rows>)

  /** The calls of Broadcast a round makes: one per finished job, with the snapshot of
      what the job wrote. */
  ghost predicate Announces(calls: seq<Call>, done: set<ChunkID>, next: map<ChunkID, Rows>)
    requires done <= next.Keys
  {
    && (forall i :: 0 <= i < |calls| ==> calls[i].id in done && calls[i].cells == Encode(next[calls[i].id]))
    && (forall i, j :: 0 <= i < j < |calls| ==> calls[i].id != calls[j].id)
    && (forall id :: id in done ==> exists i :: 0 <= i < |calls| && calls[i].id == id)
  }

  /** The calls of one whole round from registry value `s`. */
  ghost predicate RoundAnnounces(calls: seq<Call>, s: State, env: Env)
  {
    var woken := Wake(s, Fed(RowsOf(s)), env.loadFails);
    Announces(calls, woken.active.Keys, NextRows(RowsOf(s), woken))
  }

  /** Which chunks a round broadcasts, in world coordinates. */
  lemma CalledInWorld(calls: seq<Call>, s: State, env: Env, id: ChunkID)
    requires RoundAnnounces(calls, s, env)
    ensures (exists i :: 0 <= i < |calls| && calls[i].id == id) <==>
      id in s.active
      || exists q :: q in Denote(s) && ChunkOf(q) != id
                     && -3 <= q.x - 64 * id.X <= 66 && -3 <= q.y - 64 * id.Y <= 66
  {
    FedInWorld(RowsOf(s), id);
    WokenKeys(s, Fed(RowsOf(s)), env.loadFails, id);
    hide Fed, Encode, Wake, NextRows, World;
  }

  lemma WokenKeys(s: State, ids: set<ChunkID>, loadFails: set<ChunkID>, id: ChunkID)
    ensures id in Wake(s, ids, loadFails).active <==> id in s.active || id in ids
  {
    hide NewEntry;
  }

  lemma NothingAnnounced(next: map<ChunkID, Rows>)
    ensures Announces([], {}, next)
  {
  }

  lemma AnnouncesOneMore(calls: seq<Call>, done: set<ChunkID>, next: map<ChunkID, Rows>, id: ChunkID)
    requires done <= next.Keys && Announces(calls, done, next) && id in next && id !in done
    ensures Announces(calls + [Call(id, Encode(next[id]))], done + {id}, next)
  {
    hide Encode;
    var more := calls + [Call(id, Encode(next[id]))];
    forall k | k in done + {id}
      ensures exists i :: 0 <= i < |more| && more[i].id == k
    {
      if k in done {
        var i :| 0 <= i < |calls| && calls[i].id == k;
        assert more[i].id == k;
      } else {
        assert more[|calls|].id == k;
      }
    }
  }

  class Registry {
    const store: RedisEngine
    /** The gateway's subscriptions, which OnTick and HasSubscribers are wired to. */
    const hub: Hub
    var chunks: map<ChunkID, ChunkState>
    var activeChunks: int

    ghost function Footprint(): set<object>
      reads this
    {
      {this, store} + chunks.Values + (set s | s in chunks.Values :: s.chunk)
    }

    ghost predicate Valid()
      reads this, Footprint()
    {
      && store.Valid()
      && forall id :: id in chunks ==> chunks[id].chunk.ID == id
    }

    ghost function View(): State
      reads this, Footprint()
    {
      State(map id | id in chunks :: Entry(chunks[id].chunk.rows, chunks[id].idleTicks), store.contents, activeChunks)
    }

    /** `env` says who is watching what. */
    ghost predicate Watching(env: Env)
      reads hub`subscribers
    {
      NoEmptySets(hub.subscribers) && env.watched == hub.subscribers.Keys
    }

    constructor (store: RedisEngine, hub: Hub)
      requires store.Valid()
      ensures Valid() && this.store == store && this.hub == hub && View() == State(map[], store.contents, 0)
    {
      this.store := store;
      this.hub := hub;
      chunks := map[];
      activeChunks := 0;
    }

    /** The hydration half of GetOrCreate, done without holding the lock. */
    method LoadOrBlank(id: ChunkID, fails: bool) returns (chunk: Chunk)
      requires store.Valid()
      ensures fresh(chunk) && chunk.ID == id && Entry(chunk.rows, 0) == NewEntry(store.contents, id, fails)
    {
      chunk := new Chunk(id);
      var loaded := store.LoadChunk(id, fails);
      if loaded.LoadedChunk? {
        chunk := loaded.chunk;
      }
    }

    /** Returns the chunk for `id`, hydrating it from the store if it is not
        registered; a failed load starts it blank. */
    method GetOrCreate(id: ChunkID, loadFails: set<ChunkID>) returns (handle: Chunk)
      requires Valid()
      modifies this`chunks, this`activeChunks
      ensures Valid() && View() == Wake(old(View()), {id}, loadFails)
      ensures id in chunks && chunks[id].chunk == handle
      ensures chunks.Keys == old(chunks.Keys) + {id}
      ensures forall k :: k in old(chunks) ==> chunks[k] == old(chunks[k])
      ensures id !in old(chunks) ==> fresh(chunks[id]) && fresh(handle)
    {
      hide Wake;
      if id in chunks {
        ghost var s := View();
        WakeByKeys(s, s, id, loadFails);
        return chunks[id].chunk;
      }
      handle := Create(id, loadFails);
    }

    /** The slow path of GetOrCreate. */
    method Create(id: ChunkID, loadFails: set<ChunkID>) returns (handle: Chunk)
      requires Valid() && id !in chunks
      modifies this`chunks, this`activeChunks
      ensures Valid() && View() == Wake(old(View()), {id}, loadFails)
      ensures id in chunks && chunks[id].chunk == handle && chunks == old(chunks)[id := chunks[id]]
      ensures fresh(chunks[id]) && fresh(handle)
    {
      hide Wake, NewEntry, Hydrate;
      ghost var s, c := View(), chunks;
      assert Shows(s, c, id) && AllFiled(c);
      hide View, Valid;
      var chunk := LoadOrBlank(id, id in loadFails);
      handle := Register(id, chunk);
      assert AllFiled(chunks);
      StillValid();
      RegisteredView(s, c, id, loadFails);
    }

    lemma StillValid()
      requires store.Valid() && AllFiled(chunks)
      ensures Valid()
    {
    }

    /** The second critical section of GetOrCreate: another caller may have
        registered the chunk in the meantime, in which case that one wins. */
    method Register(id: ChunkID, chunk: Chunk) returns (handle: Chunk)
      modifies this`chunks, this`activeChunks
      ensures id in chunks && chunks[id].chunk == handle
      ensures id in old(chunks) ==> chunks == old(chunks) && activeChunks == old(activeChunks)
      ensures id !in old(chunks) ==>
          fresh(chunks[id]) && handle == chunk && chunks[id].idleTicks == 0 &&
          chunks == old(chunks)[id := chunks[id]] && activeChunks == old(activeChunks) + 1
    {
      if id in chunks {
        return chunks[id].chunk;
      }
      var state := new ChunkState(chunk);
      chunks := chunks[id := state];
      activeChunks := activeChunks + 1;
      return chunk;
    }

    /** The snapshot a subscriber is sent; registers nothing. None is Go's nil. */
    method PeekChunk(id: ChunkID, loadFails: bool) returns (cells: seq<uint16>)
      requires Valid()
      ensures cells == if id in View().active then Encode(View().active[id].rows)
                       else if loadFails then [] else Encode(Hydrate(View().store, id))
    {
      if id in chunks {
        cells := chunks[id].chunk.Snapshot();
        return;
      }
      var loaded := store.LoadChunk(id, loadFails);
      if loaded.LoadFailed? {
        return [];
      }
      cells := loaded.chunk.Snapshot();
    }

    method Evict(id: ChunkID)
      modifies this`chunks, this`activeChunks
      ensures chunks == old(chunks) - {id} && activeChunks == old(activeChunks) - 1
    {
      chunks := chunks - {id};
      activeChunks := activeChunks - 1;
    }

    /** A failed save is logged and the chunk is evicted all the same. */
    method Hibernate(chunk: Chunk, saveFails: set<ChunkID>)
      requires store.Valid()
      modifies this`chunks, this`activeChunks, store
      ensures store.Valid() && chunks == old(chunks) - {chunk.ID} && activeChunks == old(activeChunks) - 1
      ensures store.contents ==
        if chunk.ID in saveFails then old(store.contents)
        else old(store.contents)[chunk.ID := Saved(chunk.ID, chunk.rows)]
    {
      var ok := store.SaveChunk(chunk, chunk.ID in saveFails);
      Evict(chunk.ID);
    }

    /** The idle counter moved on; if it reached the threshold the chunk is
        deregistered, uncounted and, unless the save failed, stored. */
    twostate predicate Booked(state: ChunkState, env: Env)
      reads this, store, state, state.chunk
    {
      var id, rows := state.chunk.ID, state.chunk.rows;
      var gone := Hibernates(old(state.idleTicks), rows, id in env.watched);
      && state.idleTicks == NextIdle(old(state.idleTicks), rows, id in env.watched)
      && chunks == (if gone then old(chunks) - {id} else old(chunks))
      && activeChunks == old(activeChunks) - (if gone then 1 else 0)
      && store.contents == if gone && id !in env.saveFails then old(store.contents)[id := Saved(id, rows)]
                           else old(store.contents)
    }

    /** What processJob does after SetRows: count idle ticks, hibernate at the threshold. */
    method Bookkeep(state: ChunkState, env: Env)
      requires store.Valid() && Watching(env)
      modifies this`chunks, this`activeChunks, store, state`idleTicks
      ensures store.Valid() && Booked(state, env)
    {
      var chunk := state.chunk;
      var population := chunk.PopCount();
      var hasSubs := hub.HasSubscribers(chunk.ID);
      if population == 0 && !hasSubs {
        state.idleTicks := state.idleTicks + 1;
        if state.idleTicks >= HIBERNATION_THRESHOLD {
          Hibernate(chunk, env.saveFails);
        }
      } else {
        state.idleTicks := 0;
      }
    }

    /** A job's computing half: next generation from the snapshots, written back. */
    static method Compute(job: TickJob, scratch: array<uint8>)
      requires Clean(scratch) && job.state.chunk.ID !in job.halos
      modifies job.state.chunk, scratch
      ensures Clean(scratch)
      ensures var id := job.state.chunk.ID;
        job.state.chunk.rows == RowsAt(id, Next(Seen(id, job.chunkRows, job.halos)))
    {
      hide Clean, RowsAt, Seen, Next;
      var chunk := job.state.chunk;
      var nextRows := TickBitset(chunk.ID, job.chunkRows, job.halos, scratch);
      chunk.SetRows(nextRows);
    }

    /** OnTick: the chunk's new snapshot goes to whoever watches it. */
    method Announce(chunk: Chunk)
      modifies hub`wire
      ensures Relayed(old(hub.wire), hub.wire, hub.subscribers, [Call(chunk.ID, Encode(chunk.rows))])
    {
      var cells := chunk.Snapshot();
      hub.Broadcast(chunk.ID, cells);
    }

    /** One job on one worker. */
    method ProcessJob(job: TickJob, scratch: array<uint8>, env: Env, ghost next: map<ChunkID, Rows>)
      requires Valid() && Clean(scratch) && Watching(env)
      requires var id := job.state.chunk.ID;
        && id in chunks && chunks[id] == job.state && chunks.Keys <= next.Keys
        && id !in job.halos && next[id] == RowsAt(id, Next(Seen(id, job.chunkRows, job.halos)))
      modifies this`chunks, this`activeChunks, store, job.state, job.state.chunk, scratch, hub`wire
      ensures Valid() && Clean(scratch)
      ensures var id := job.state.chunk.ID;
        Relayed(old(hub.wire), hub.wire, hub.subscribers, [Call(id, Encode(next[id]))])
      ensures View() == Finish(old(View()), next, {job.state.chunk.ID}, env)
      ensures chunks == old(chunks) || chunks == old(chunks) - {job.state.chunk.ID}
    {
      hide Finish, Hibernates, NextIdle, Saved, RowsAt, Seen, Next, Clean, Encode, Relayed;
      ghost var s, c, id := View(), chunks, job.state.chunk.ID;
      assert Shows(s, c, id) && AllFiled(c) && s.active[id].idle == job.state.idleTicks;
      hide View, Valid;
      Compute(job, scratch);
      Announce(job.state.chunk);
      assert StoreIs(s);
      Bookkeep(job.state, env);
      assert Shows(s, c, id);
      FinishedView(s, c, id, next, env);
      StillValid();
    }

    ghost predicate StoreIs(s: State)
      reads this, store
    {
      store.Valid() && store.contents == s.store && activeChunks == s.gauge
    }

    // ----- From objects to the registry's value -----

    /** `chunks[id].chunk.ID == id` throughout. */
    ghost predicate AllFiled(c: map<ChunkID, ChunkState>)
    {
      forall k :: k in c ==> c[k].chunk.ID == k
    }

    /** Entry by entry, the objects of `c` other than `id`'s still show `s`. */
    ghost predicate Shows(s: State, c: map<ChunkID, ChunkState>, id: ChunkID)
      reads c.Values, set k | k in c.Values :: k.chunk
    {
      c.Keys == s.active.Keys && forall k :: k in c && k != id ==> s.active[k] == Entry(c[k].chunk.rows, c[k].idleTicks)
    }

    lemma RegisteredView(s: State, c: map<ChunkID, ChunkState>, id: ChunkID, loadFails: set<ChunkID>)
      requires Shows(s, c, id) && id !in c
      requires id in chunks && chunks == c[id := chunks[id]] && activeChunks == s.gauge + 1 && store.contents == s.store
      requires Entry(chunks[id].chunk.rows, chunks[id].idleTicks) == NewEntry(s.store, id, id in loadFails)
      ensures View() == Wake(s, {id}, loadFails)
    {
      hide Wake, NewEntry;
      WakeByKeys(s, View(), id, loadFails);
    }

    lemma FinishedView(s: State, c: map<ChunkID, ChunkState>, id: ChunkID, next: map<ChunkID, Rows>, env: Env)
      requires Shows(s, c, id) && id in c && s.active.Keys <= next.Keys
      requires c[id].chunk.rows == next[id]
      requires c[id].idleTicks == NextIdle(s.active[id].idle, next[id], id in env.watched)
      requires var gone := Hibernates(s.active[id].idle, next[id], id in env.watched);
        && chunks == (if gone then c - {id} else c) && activeChunks == s.gauge - (if gone then 1 else 0)
        && store.contents == (if gone && id !in env.saveFails then s.store[id := Saved(id, next[id])] else s.store)
      ensures View() == Finish(s, next, {id}, env)
    {
      hide Finish, Hibernates, NextIdle, Saved;
      FinishByKeys(s, View(), next, id, env);
    }

    // ----- TickAll, phase by phase -----

    /** The first loop: copy every registered chunk's rows. */
    method SnapshotAll() returns (rowsByID: map<ChunkID, Rows>)
      requires Valid()
      ensures rowsByID == RowsOf(View())
    {
      rowsByID := map[];
      var todo := chunks.Keys;
      while todo != {}
        invariant todo <= chunks.Keys && rowsByID.Keys == chunks.Keys - todo
        invariant forall id :: id in rowsByID ==> rowsByID[id] == chunks[id].chunk.rows
      {
        var id :| id in todo;
        var rows := chunks[id].chunk.Rows();
        rowsByID := rowsByID[id := rows];
        todo := todo - {id};
      }
    }

    /** Registered chunks stay the same objects; the new ones are new objects. */
    twostate predicate Grew()
      reads this
    {
      && (forall k :: k in old(chunks) ==> k in chunks && chunks[k] == old(chunks[k]))
      && (forall k :: k in chunks && k !in old(chunks) ==> fresh(chunks[k]) && fresh(chunks[k].chunk))
    }

    /** One neighbour of one entry: skip it if no cell is near that face, else wake
        it and hand it the rows. */
    method FeedOne(e: ChunkID, rows: Rows, h: HaloMaps, k: nat, loadFails: set<ChunkID>, ghost h0: HaloMaps,
                   ghost s: State)
      returns (h': HaloMaps)
      requires k < 8 && Valid() && View() == Wake(s, h.Keys, loadFails)
      requires HandedUpTo(h, h0, e, rows, k)
      modifies this`chunks, this`activeChunks
      ensures Valid() && View() == Wake(s, h'.Keys, loadFails) && Grew()
      ensures HandedUpTo(h', h0, e, rows, k + 1)
    {
      hide Wake, NearEdge, HandedUpTo, View, Valid;
      ghost var v, f := View(), Footprint();
      var off := OFFSETS[k];
      HandedOneMore(h, h0, e, rows, k);
      h' := h;
      var near := HasCellsNearEdge(rows, off.0, off.1);
      assert Footprint() == f;
      assert View() == v;
      if near {
        var nid := Shift(e, off.0, off.1);
        var handle := GetOrCreate(nid, loadFails);
        WakeOneMore(s, h.Keys, nid, loadFails);
        h' := h[nid := HaloOf(h, nid)[e := rows]];
        assert h'.Keys == h.Keys + {nid};
      }
    }

    /** One entry of the halo loop: all eight neighbours. */
    method FeedNeighbours(e: ChunkID, rows: Rows, h0: HaloMaps, loadFails: set<ChunkID>, ghost s: State)
      returns (h: HaloMaps)
      requires Valid() && View() == Wake(s, h0.Keys, loadFails)
      modifies this`chunks, this`activeChunks
      ensures Valid() && View() == Wake(s, h.Keys, loadFails) && Grew()
      ensures HandedUpTo(h, h0, e, rows, 8)
    {
      hide Wake, HandedUpTo, View, Valid;
      h := h0;
      HandedNone(h0, e, rows);
      for k := 0 to 8
        invariant Valid() && View() == Wake(s, h.Keys, loadFails) && Grew()
        invariant HandedUpTo(h, h0, e, rows, k)
      {
        h := FeedOne(e, rows, h, k, loadFails, h0, s);
      }
    }

    /** The halo loop's body. */
    method FeedEntry(rowsByID: map<ChunkID, Rows>, id: ChunkID, ghost todo: set<ChunkID>, h: HaloMaps,
                     loadFails: set<ChunkID>, ghost s: State)
      returns (h': HaloMaps)
      requires Valid() && View() == Wake(s, h.Keys, loadFails)
      requires id in todo && todo <= rowsByID.Keys && HalosUpTo(h, rowsByID, todo)
      modifies this`chunks, this`activeChunks
      ensures Valid() && View() == Wake(s, h'.Keys, loadFails) && Grew()
      ensures HalosUpTo(h', rowsByID, todo - {id})
    {
      hide Wake, HandedUpTo, HalosUpTo, Feeds, View, Valid;
      ghost var v, f := View(), Footprint();
      var rows := rowsByID[id];
      var allZero := AllZero(rows);
      assert Footprint() == f;
      assert View() == v;
      if allZero {
        h' := h;
        ZeroFeedsNobody(rowsByID, id);
        HandedNothing(h, rowsByID, todo, id);
      } else {
        h' := FeedNeighbours(id, rows, h, loadFails, s);
        HandedAll(h', h, rowsByID, todo, id);
      }
    }

    /** The halo loop: every chunk with a cell near a face feeds that neighbour,
        which is registered for this round if it was not. */
    method DistributeHalos(rowsByID: map<ChunkID, Rows>, loadFails: set<ChunkID>) returns (h: HaloMaps)
      requires Valid()
      modifies this`chunks, this`activeChunks
      ensures Valid() && View() == Wake(old(View()), Fed(rowsByID), loadFails) && Grew()
      ensures forall nid :: HaloOf(h, nid) == Halos(rowsByID, nid)
    {
      hide Wake, NearEdge, Fed, HalosUpTo, HandedUpTo, Feeds, View, Valid, RowsOf, Halos, HaloOf;
      ghost var s := View();
      WakeNone(s, loadFails);
      h := map[];
      assert h.Keys == {};
      var todo := rowsByID.Keys;
      NobodyYet(rowsByID);
      while todo != {}
        invariant todo <= rowsByID.Keys
        invariant Valid() && View() == Wake(s, h.Keys, loadFails) && Grew()
        invariant HalosUpTo(h, rowsByID, todo)
      {
        var id :| id in todo;
        h := FeedEntry(rowsByID, id, todo, h, loadFails, s);
        todo := todo - {id};
      }
      HalosComplete(h, rowsByID);
    }

    /** The job built for one registered chunk. */
    ghost predicate JobFor(job: TickJob, id: ChunkID, rowsByID: map<ChunkID, Rows>)
      reads this, Footprint()
    {
      && id in chunks && job.state == chunks[id] && job.state.chunk.ID == id
      && job.chunkRows == chunks[id].chunk.rows
      && job.halos == Halos(rowsByID, id)
    }

    /** The second snapshot: one job per registered chunk. A chunk that was there
        before the halo loop keeps its first snapshot. */
    method CollectJobs(rowsByID: map<ChunkID, Rows>, h: HaloMaps) returns (jobs: map<ChunkID, TickJob>)
      requires Valid() && forall nid :: HaloOf(h, nid) == Halos(rowsByID, nid)
      requires forall id :: id in rowsByID && id in chunks ==> rowsByID[id] == chunks[id].chunk.rows
      ensures jobs.Keys == chunks.Keys && forall id :: id in jobs ==> JobFor(jobs[id], id, rowsByID)
    {
      hide Halos;
      jobs := map[];
      var todo := chunks.Keys;
      while todo != {}
        invariant todo <= chunks.Keys && jobs.Keys == chunks.Keys - todo
        invariant forall id :: id in jobs ==> JobFor(jobs[id], id, rowsByID)
      {
        var id :| id in todo;
        var rows: Rows;
        if id in rowsByID {
          rows := rowsByID[id];
        } else {
          rows := chunks[id].chunk.Rows();
        }
        jobs := jobs[id := TickJob(chunks[id], rows, HaloOf(h, id))];
        todo := todo - {id};
      }
    }

    /** The job of a registered chunk computes its entry of NextRows. */
    lemma JobComputesNext(job: TickJob, id: ChunkID, rowsByID: map<ChunkID, Rows>)
      requires Valid() && JobFor(job, id, rowsByID)
      ensures id in View().active && id !in job.halos && job.state.chunk.ID == id
      ensures NextRows(rowsByID, View())[id] == RowsAt(id, Next(Seen(id, job.chunkRows, job.halos)))
    {
      hide RowsAt, Seen, Next;
    }

    /** A job map whose unfinished part is still registered under the same objects. */
    ghost predicate Pending(jobs: map<ChunkID, TickJob>, todo: set<ChunkID>)
      reads this
    {
      && todo <= jobs.Keys
      && (forall id :: id in todo ==> id in chunks)
      && (forall id :: id in chunks ==> id in jobs && chunks[id] == jobs[id].state)
    }

    ghost predicate JobComputes(job: TickJob, id: ChunkID, next: map<ChunkID, Rows>)
    {
      && id in next && job.state.chunk.ID == id && id !in job.halos
      && next[id] == RowsAt(id, Next(Seen(id, job.chunkRows, job.halos)))
    }

    ghost predicate JobsCompute(jobs: map<ChunkID, TickJob>, next: map<ChunkID, Rows>)
    {
      jobs.Keys <= next.Keys && forall id :: id in jobs ==> JobComputes(jobs[id], id, next)
    }

    ghost predicate AllClean(workers: seq<array<uint8>>)
      reads workers
    {
      forall w :: w in workers ==> Clean(w)
    }

    /** One job taken off the channel by one worker. */
    method RunOne(jobs: map<ChunkID, TickJob>, id: ChunkID, scratch: array<uint8>, env: Env,
                  ghost todo: set<ChunkID>, ghost s: State, ghost next: map<ChunkID, Rows>)
      requires Valid() && Clean(scratch) && Pending(jobs, todo) && id in todo && Watching(env)
      requires s.active.Keys == jobs.Keys <= next.Keys && JobComputes(jobs[id], id, next)
      requires View() == Finish(s, next, jobs.Keys - todo, env)
      modifies this`chunks, this`activeChunks, store, jobs[id].state, jobs[id].state.chunk, scratch, hub`wire
      ensures Valid() && Clean(scratch) && Pending(jobs, todo - {id})
      ensures Relayed(old(hub.wire), hub.wire, hub.subscribers, [Call(id, Encode(next[id]))])
      ensures View() == Finish(s, next, jobs.Keys - (todo - {id}), env)
      ensures chunks.Keys <= old(chunks.Keys)
    {
      ViewKeys();
      hide Finish, View, RowsAt, Seen, Next, Valid, Clean, Encode, Relayed;
      ghost var done := jobs.Keys - todo;
      FinishOneMore(s, next, done, id, env);
      ProcessJob(jobs[id], scratch, env, next);
      assert jobs.Keys - (todo - {id}) == done + {id};
      ViewKeys();
      forall k | k in todo - {id}
        ensures k in chunks
      {
        FinishKeepsPending(s, next, done + {id}, k, env);
      }
    }

    ghost function JobObjects(jobs: map<ChunkID, TickJob>): set<object>
    {
      (set id | id in jobs :: jobs[id].state) + (set id | id in jobs :: jobs[id].state.chunk)
    }

    /** Mid-round: every job outside `todo` has run and been broadcast. */
    ghost predicate Underway(jobs: map<ChunkID, TickJob>, workers: seq<array<uint8>>, env: Env, todo: set<ChunkID>,
                             s: State, next: map<ChunkID, Rows>, wire: seq<Delivery>, calls: seq<Call>)
      reads this, Footprint(), workers, hub
    {
      && Valid() && Watching(env) && |workers| > 0 && AllClean(workers)
      && Pending(jobs, todo) && JobsCompute(jobs, next) && s.active.Keys == jobs.Keys
      && View() == Finish(s, next, jobs.Keys - todo, env)
      && Relayed(wire, hub.wire, hub.subscribers, calls) && Announces(calls, jobs.Keys - todo, next)
    }

    /** One more job, on any of the workers. */
    method RunAny(jobs: map<ChunkID, TickJob>, id: ChunkID, workers: seq<array<uint8>>, env: Env,
                  ghost todo: set<ChunkID>, ghost s: State, ghost next: map<ChunkID, Rows>)
      requires Valid() && Watching(env) && |workers| > 0 && AllClean(workers)
      requires Pending(jobs, todo) && JobsCompute(jobs, next) && s.active.Keys == jobs.Keys && id in todo
      requires View() == Finish(s, next, jobs.Keys - todo, env)
      modifies this`chunks, this`activeChunks, store, workers, JobObjects(jobs), hub`wire
      ensures Valid() && AllClean(workers) && Pending(jobs, todo - {id})
      ensures View() == Finish(s, next, jobs.Keys - (todo - {id}), env)
      ensures Relayed(old(hub.wire), hub.wire, hub.subscribers, [Call(id, Encode(next[id]))])
    {
      hide Finish, View, Valid, Clean, RowsAt, Seen, Next, Encode, Relayed;
      var w :| 0 <= w < |workers|;
      var scratch := workers[w];
      assert JobComputes(jobs[id], id, next);
      RunOne(jobs, id, scratch, env, todo, s, next);
    }

    /** The same, its broadcast added to those before it. */
    method RunNext(jobs: map<ChunkID, TickJob>, id: ChunkID, workers: seq<array<uint8>>, env: Env,
                   ghost todo: set<ChunkID>, ghost s: State, ghost next: map<ChunkID, Rows>,
                   ghost wire: seq<Delivery>, ghost calls: seq<Call>) returns (ghost calls': seq<Call>)
      requires Underway(jobs, workers, env, todo, s, next, wire, calls) && id in todo
      modifies this`chunks, this`activeChunks, store, workers, JobObjects(jobs), hub`wire
      ensures Underway(jobs, workers, env, todo - {id}, s, next, wire, calls')
    {
      hide Finish, View, Valid, AllClean, JobComputes, Encode, Relayed, Announces, Watching;
      ghost var before := hub.wire;
      RunAny(jobs, id, workers, env, todo, s, next);
      RelayedOneMore(wire, before, hub.wire, hub.subscribers, calls, Call(id, Encode(next[id])));
      AnnouncesOneMore(calls, jobs.Keys - todo, next, id);
      calls' := calls + [Call(id, Encode(next[id]))];
      assert jobs.Keys - (todo - {id}) == jobs.Keys - todo + {id};
    }

    lemma GetUnderway(jobs: map<ChunkID, TickJob>, workers: seq<array<uint8>>, env: Env, s: State,
                      next: map<ChunkID, Rows>)
      requires Valid() && |workers| > 0 && AllClean(workers) && Watching(env)
      requires Pending(jobs, jobs.Keys) && JobsCompute(jobs, next)
      requires View() == s && s.active.Keys == jobs.Keys
      ensures Underway(jobs, workers, env, jobs.Keys, s, next, hub.wire, [])
    {
      FinishNone(s, next, env);
      RelayedNone(hub.wire, hub.subscribers);
      NothingAnnounced(next);
      assert jobs.Keys - jobs.Keys == {};
      hide Finish, View, Valid, AllClean, Pending, JobComputes, Relayed, Announces;
    }

    lemma RoundDone(jobs: map<ChunkID, TickJob>, workers: seq<array<uint8>>, env: Env, s: State,
                    next: map<ChunkID, Rows>, wire: seq<Delivery>, calls: seq<Call>)
      requires Underway(jobs, workers, env, {}, s, next, wire, calls)
      ensures Valid() && AllClean(workers) && Pending(jobs, {}) && jobs.Keys <= next.Keys && s.active.Keys <= next.Keys
      ensures View() == Finish(s, next, s.active.Keys, env)
      ensures Relayed(wire, hub.wire, hub.subscribers, calls) && Announces(calls, jobs.Keys, next)
    {
      assert jobs.Keys - {} == jobs.Keys;
      hide Finish, View, Valid, AllClean, Pending, JobComputes, Relayed, Announces;
    }

    /** The fan-out, with the jobs taken in any order and each by any worker. */
    method RunJobs(jobs: map<ChunkID, TickJob>, workers: seq<array<uint8>>, env: Env, ghost s: State,
                   ghost next: map<ChunkID, Rows>)
      returns (ghost calls: seq<Call>)
      requires Valid() && |workers| > 0 && AllClean(workers) && Watching(env)
      requires Pending(jobs, jobs.Keys) && JobsCompute(jobs, next)
      requires View() == s && s.active.Keys == jobs.Keys
      modifies this`chunks, this`activeChunks, store, workers, JobObjects(jobs), hub`wire
      ensures Valid() && AllClean(workers)
      ensures View() == Finish(s, next, s.active.Keys, env)
      ensures Pending(jobs, {})
      ensures Relayed(old(hub.wire), hub.wire, hub.subscribers, calls)
      ensures jobs.Keys <= next.Keys && Announces(calls, jobs.Keys, next)
    {
      GetUnderway(jobs, workers, env, s, next);
      hide Finish, View, Valid, AllClean, Pending, JobsCompute, Relayed, Announces, Watching, JobObjects, Underway;
      calls := [];
      var todo := jobs.Keys;
      while todo != {}
        invariant Underway(jobs, workers, env, todo, s, next, old(hub.wire), calls)
      {
        var id :| id in todo;
        calls := RunNext(jobs, id, workers, env, todo, s, next, old(hub.wire), calls);
        todo := todo - {id};
      }
      RoundDone(jobs, workers, env, s, next, old(hub.wire), calls);
    }

    lemma ViewKeys()
      ensures View().active.Keys == chunks.Keys
    {
    }

    /** Everything up to the fan-out: snapshot, halos and wake-ups, second snapshot. */
    method PrepareJobs(loadFails: set<ChunkID>)
      returns (jobs: map<ChunkID, TickJob>, ghost rowsByID: map<ChunkID, Rows>)
      requires Valid()
      modifies this`chunks, this`activeChunks
      ensures Valid() && rowsByID == RowsOf(old(View())) && View() == Wake(old(View()), Fed(rowsByID), loadFails)
      ensures Pending(jobs, jobs.Keys) && View().active.Keys == jobs.Keys
      ensures JobsCompute(jobs, NextRows(rowsByID, View()))
      ensures fresh(Footprint() - old(Footprint()))
    {
      hide View, Valid, Wake, NextRows, RowsOf, Fed, Halos, HaloOf, JobFor, JobsCompute;
      ghost var s, f0 := View(), Footprint();
      var rows := SnapshotAll();
      rowsByID := rows;
      assert Footprint() == f0 && View() == s;
      var h := DistributeHalos(rows, loadFails);
      ghost var woken, f1 := View(), Footprint();
      SnapshotStillHolds(rows, s, loadFails);
      jobs := CollectJobs(rows, h);
      assert Footprint() == f1 && View() == woken;
      JobsComputeNext(jobs, rows);
    }

    /** One uncancelled round: it broadcasts the chunks that were registered, and those
        a live cell of another chunk lies within three cells of. */
    method TickAll(workers: seq<array<uint8>>, env: Env) returns (ghost calls: seq<Call>)
      requires Valid() && |workers| > 0 && AllClean(workers) && Watching(env)
      modifies Footprint(), workers, hub`wire
      ensures Valid() && AllClean(workers)
      ensures View() == Tick(old(View()), env)
      ensures Relayed(old(hub.wire), hub.wire, hub.subscribers, calls) && RoundAnnounces(calls, old(View()), env)
      ensures forall id :: (exists i :: 0 <= i < |calls| && calls[i].id == id) <==>
          id in old(View()).active
          || exists q :: q in Denote(old(View())) && ChunkOf(q) != id
                         && -3 <= q.x - 64 * id.X <= 66 && -3 <= q.y - 64 * id.Y <= 66
      ensures fresh(Footprint() - old(Footprint()))
    {
      hide View, Valid, AllClean, Wake, Finish, NextRows, Tick, RowsOf, Fed, JobsCompute, Relayed, Announces,
           RoundAnnounces, Denote;
      ghost var s := View();
      var jobs, rowsByID := PrepareJobs(env.loadFails);
      ghost var woken, f1 := View(), Footprint();
      ghost var next := NextRows(rowsByID, woken);
      calls := RunJobs(jobs, workers, env, woken, next);
      assert Footprint() <= f1;
      TickUnfold(s, env, rowsByID, woken, next, View());
      assert woken.active.Keys == jobs.Keys;
      AnnouncesUnfold(calls, s, env, rowsByID, woken, next);
      forall id
        ensures (exists i :: 0 <= i < |calls| && calls[i].id == id) <==>
          id in s.active
          || exists q :: q in Denote(s) && ChunkOf(q) != id
                         && -3 <= q.x - 64 * id.X <= 66 && -3 <= q.y - 64 * id.Y <= 66
      {
        CalledInWorld(calls, s, env, id);
      }
    }

    /** The first snapshot is still what the registered chunks hold. */
    lemma SnapshotStillHolds(rowsByID: map<ChunkID, Rows>, s: State, loadFails: set<ChunkID>)
      requires rowsByID == RowsOf(s) && View() == Wake(s, Fed(rowsByID), loadFails)
      ensures forall id :: id in rowsByID && id in chunks ==> rowsByID[id] == chunks[id].chunk.rows
    {
      hide NewEntry, Fed;
      forall id | id in rowsByID && id in chunks
        ensures rowsByID[id] == chunks[id].chunk.rows
      {
        assert View().active[id] == s.active[id];
      }
    }

    lemma AnnouncesUnfold(calls: seq<Call>, s: State, env: Env, rows: map<ChunkID, Rows>, woken: State,
                          next: map<ChunkID, Rows>)
      requires rows == RowsOf(s) && woken == Wake(s, Fed(rows), env.loadFails) && next == NextRows(rows, woken)
      requires woken.active.Keys <= next.Keys && Announces(calls, woken.active.Keys, next)
      ensures RoundAnnounces(calls, s, env)
    {
    }

    lemma TickUnfold(s: State, env: Env, rows: map<ChunkID, Rows>, woken: State, next: map<ChunkID, Rows>, t: State)
      requires rows == RowsOf(s) && woken == Wake(s, Fed(rows), env.loadFails) && next == NextRows(rows, woken)
      requires t == Finish(woken, next, woken.active.Keys, env)
      ensures t == Tick(s, env)
    {
    }

    lemma JobsComputeNext(jobs: map<ChunkID, TickJob>, rowsByID: map<ChunkID, Rows>)
      requires Valid() && jobs.Keys == chunks.Keys && forall id :: id in jobs ==> JobFor(jobs[id], id, rowsByID)
      ensures Pending(jobs, jobs.Keys) && View().active.Keys == jobs.Keys
      ensures JobsCompute(jobs, NextRows(rowsByID, View()))
    {
      hide RowsAt, Seen, Next;
      forall id | id in jobs
        ensures JobComputes(jobs[id], id, NextRows(rowsByID, View()))
      {
        JobComputesNext(jobs[id], id, rowsByID);
      }
    }
  }

  lemma NobodyYet(rows: map<ChunkID, Rows>)
    ensures HalosUpTo(map[], rows, rows.Keys)
  {
  }

  method AllZero(rows: Rows) returns (zero: bool)
    ensures zero <==> rows == NO_ROWS
  {
    for y := 0 to 64
      invariant forall k :: 0 <= k < y ==> rows[k] == 0
    {
      if rows[y] != 0 {
        return false;
      }
    }
    assert rows == NO_ROWS;
    return true;
  }

  lemma ZeroFeedsNobody(rows: map<ChunkID, Rows>, id: ChunkID)
    requires id in rows && rows[id] == NO_ROWS
    ensures forall nid :: !Feeds(rows, id, nid)
  {
    NoRowsDark();
  }
}
