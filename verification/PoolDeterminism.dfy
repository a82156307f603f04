/**
  Without spawns in between, every interleaving of the pool ends in the one state
  Finish describes: completion order and number of workers do not show.
 */
module PoolDeterminism {
  import opened Life
  import opened Storage
  import opened RegistryModel
  import Runs
  import opened WorkerPool
  import opened PoolRuns

  ghost predicate Watched(r: Round, id: ChunkID)
  {
    id in r.env.watched
  }

  /** The round evicts chunk `id`. */
  ghost predicate Goes(r: Round, id: ChunkID)
    requires id in r.start.active && id in r.next
  {
    Hibernates(r.start.active[id].idle, r.next[id], Watched(r, id))
  }

  predicate PastJudge(g: Stage)
  {
    g.Saving? || g.Evicting? || g.Finishing? || g.Done?
  }

  predicate PastSave(g: Stage)
  {
    g.Evicting? || g.Finishing? || g.Done?
  }

  /** `a` and `b` hold the same record for `id`, or neither holds one. */
  ghost predicate SameAt(a: map<ChunkID, Record>, b: map<ChunkID, Record>, id: ChunkID)
  {
    (id in a <==> id in b) && (id in a ==> a[id] == b[id])
  }

  /** Job `j`'s chunk at stage `g`: its rows and counter, whether it is still
      registered, and what the store holds for it. */
  ghost predicate CalmJob(r: Round, g: Stage, d: Data, j: nat)
    requires j < |r.ids| && j < |d.heap| && r.ids[j] in r.start.active && r.ids[j] in r.next
  {
    var id, o := r.ids[j], d.heap[j];
    var idle, next, watched := r.start.active[id].idle, r.next[id], Watched(r, id);
    && o.id == id
    && (PastWrite(g) ==> o.rows == next)
    && o.idle == (if PastJudge(g) then NextIdle(idle, next, watched) else idle)
    && (g.Counted? ==> g.empty == (next == NO_ROWS))
    && (g.Saving? || g.Evicting? ==> Goes(r, id))
    && (id in d.reg <==> StillRegistered(g) || !Goes(r, id))
    && (if PastSave(g) && Goes(r, id) && id !in r.env.saveFails then id in d.store && d.store[id] == Saved(id, next)
        else SameAt(d.store, r.start.store, id))
  }

  ghost predicate Calm(r: Round, s: Sys)
    requires GoodRound(r)
  {
    && Shaped(r, s) && |s.d.heap| == |r.ids| && s.d.handles == []
    && (forall j :: 0 <= j < |r.ids| ==> r.ids[j] in r.start.active && CalmJob(r, s.c.stage[j], s.d, j))
    && (forall id :: id in s.d.reg ==> id in r.ids)
    && (forall id :: id !in r.ids ==> SameAt(s.d.store, r.start.store, id))
  }

  lemma CalmOwnJob(r: Round, d: Data, j: nat, g: Stage)
    requires j < |r.ids| && j < |d.heap| == |d.base| && j < |d.writes| && r.ids[j] in r.start.active
    requires r.ids[j] in r.next
    requires Running(g) && CalmJob(r, g, d, j)
    ensures CalmJob(r, NextStage(r, g, d.heap[j]), WorkD(r, d, j, g), j)
  {
    hide Saved;
  }

  lemma CalmOtherJob(r: Round, d: Data, j: nat, g: Stage, i: nat, k: Stage)
    requires i < |r.ids| && i < |d.heap| && r.ids[i] in r.start.active && r.ids[i] in r.next
    requires j < |r.ids| && j < |d.heap| == |d.base| && j < |d.writes| && r.ids[j] in r.next
    requires d.heap[j].id == r.ids[j] != r.ids[i]
    requires CalmJob(r, k, d, i) && i != j
    ensures CalmJob(r, k, WorkD(r, d, j, g), i)
  {
    hide Goes, Saved;
  }

  lemma CalmRest(r: Round, d: Data, j: nat, g: Stage)
    requires j < |r.ids| && j < |d.heap| == |d.base| && j < |d.writes| && d.heap[j].id == r.ids[j] && r.ids[j] in r.next
    requires (forall id :: id in d.reg ==> id in r.ids)
    requires (forall id :: id !in r.ids ==> SameAt(d.store, r.start.store, id))
    ensures var e := WorkD(r, d, j, g);
      && |e.heap| == |d.heap| && e.handles == d.handles
      && (forall id :: id in e.reg ==> id in r.ids)
      && (forall id :: id !in r.ids ==> SameAt(e.store, r.start.store, id))
  {
    hide Saved;
  }

  lemma WorkKeepsCalm(r: Round, s: Sys, w: nat)
    requires GoodRound(r) && Calm(r, s) && Enabled(r, s, Work(w))
    ensures Calm(r, Apply(r, s, Work(w)))
  {
    var j, t := s.c.workers[w].j, Apply(r, s, Work(w));
    ApplyShaped(r, s, Work(w));
    AdvanceStage(r, s.c, w, s.d.heap[j]);
    CalmRest(r, s.d, j, s.c.stage[j]);
    hide WorkD, NextStage, AdvanceC, CalmJob, SameAt, GoodRound;
    forall i | 0 <= i < |r.ids|
      ensures CalmJob(r, t.c.stage[i], t.d, i)
    {
      assert CalmJob(r, s.c.stage[i], s.d, i);
      if i == j {
        CalmOwnJob(r, s.d, j, s.c.stage[j]);
      } else {
        if r.ids[i] == r.ids[j] {
          Distinct(r, i, j);
        }
        CalmOtherJob(r, s.d, j, s.c.stage[j], i, s.c.stage[i]);
      }
    }
  }

  lemma Distinct(r: Round, i: nat, j: nat)
    requires GoodRound(r) && i < |r.ids| && j < |r.ids| && r.ids[i] == r.ids[j]
    ensures i == j
  {
  }

  lemma StageHandover(r: Round, g: Stage, x: Stage, d: Data, j: nat)
    requires j < |r.ids| && j < |d.heap| && r.ids[j] in r.start.active && r.ids[j] in r.next && CalmJob(r, g, d, j)
    requires (g.Unsent? || g.Queued?) && (x.Queued? || x.Ticking?)
    ensures CalmJob(r, x, d, j)
  {
  }

  /** Handing a job over changes no chunk. */
  lemma MoveKeepsCalm(r: Round, s: Sys, t: Sys, j: nat, x: Stage)
    requires GoodRound(r) && Calm(r, s) && Shaped(r, t) && j < |r.ids| && t.d == s.d && t.c.stage == s.c.stage[j := x]
    requires (s.c.stage[j].Unsent? || s.c.stage[j].Queued?) && (x.Queued? || x.Ticking?)
    ensures Calm(r, t)
  {
    StageHandover(r, s.c.stage[j], x, s.d, j);
    hide CalmJob, GoodRound;
  }

  lemma StepKeepsCalm(r: Round, s: Sys, a: Action)
    requires GoodRound(r) && Barrier(s.c) && Calm(r, s) && Enabled(r, s, a) && PoolAction(a)
    ensures Calm(r, Apply(r, s, a))
  {
    ApplyShaped(r, s, a);
    hide Calm, GoodRound, WorkD;
    match a
    case Send =>
      assert s.c.stage[s.c.sent] == Unsent;
      MoveKeepsCalm(r, s, Apply(r, s, a), s.c.sent, Queued);
    case Take(w) =>
      assert s.c.stage[s.c.queue[0]] == Queued;
      MoveKeepsCalm(r, s, Apply(r, s, a), s.c.queue[0], Ticking);
    case Work(w) => WorkKeepsCalm(r, s, w);
    case Pass => PassKeepsCalm(r, s);
  }

  lemma PassKeepsCalm(r: Round, s: Sys)
    requires GoodRound(r) && Calm(r, s)
    ensures Calm(r, s.(c := s.c.(passed := true)))
  {
    hide CalmJob, GoodRound;
  }

  lemma InitCalm(r: Round, workers: nat)
    requires GoodRound(r)
    ensures Calm(r, Init(r, workers))
  {
    var s := Init(r, workers);
    InitShows(r, workers);
    forall j | 0 <= j < |r.ids|
      ensures r.ids[j] in r.start.active && r.ids[j] in r.next && CalmJob(r, s.c.stage[j], s.d, j)
    {
      InitCalmJob(r, workers, j);
    }
    hide CalmJob;
  }

  lemma InitCalmJob(r: Round, workers: nat, j: nat)
    requires GoodRound(r) && j < |r.ids|
    ensures r.ids[j] in r.start.active && r.ids[j] in r.next
    ensures CalmJob(r, Unsent, Init(r, workers).d, j)
  {
    assert r.ids[j] in r.ids;
    hide Goes;
  }

  ghost predicate NoSpawns(acts: seq<Action>)
  {
    forall i :: 0 <= i < |acts| ==> PoolAction(acts[i])
  }

  lemma {:induction false} ExecCalm(r: Round, s: Sys, acts: seq<Action>)
    requires GoodRound(r) && DataInv(r, s) && Barrier(s.c) && Calm(r, s) && Legal(r, s, acts) && NoSpawns(acts)
    ensures Calm(r, Exec(r, s, acts))
    decreases |acts|
  {
    hide DataInv, Barrier, Apply, Calm, GoodRound, Shaped, Enabled;
    if |acts| > 0 {
      assert PoolAction(acts[0]);
      StepKeepsData(r, s, acts[0]);
      StepKeepsBarrier(r, s, acts[0]);
      StepKeepsCalm(r, s, acts[0]);
      ExecCalm(r, Apply(r, s, acts[0]), acts[1..]);
    }
  }

  /** The registry as a value, read through the registry map. */
  ghost function ViewOf(d: Data): State
    requires forall id :: id in d.reg ==> d.reg[id] < |d.heap|
  {
    State(map id | id in d.reg :: Entry(d.heap[d.reg[id]].rows, d.heap[d.reg[id]].idle), d.store, d.gauge)
  }

  /** The store holds the record the round saved for `id`, or what it held before. */
  ghost predicate SavedOrSame(r: Round, store: map<ChunkID, Record>, id: ChunkID)
    requires GoodRound(r)
  {
    if id in r.start.active && Goes(r, id) && id !in r.env.saveFails
    then id in store && store[id] == Saved(id, r.next[id])
    else SameAt(store, r.start.store, id)
  }

  lemma AllDoneEntries(r: Round, s: Sys)
    requires GoodRound(r) && DataInv(r, s) && Calm(r, s) && forall j :: 0 <= j < |r.ids| ==> s.c.stage[j] == Done
    ensures forall id :: id in s.d.reg <==> id in r.start.active && !Goes(r, id)
    ensures forall id :: id in s.d.reg ==>
        (ViewOf(s.d).active[id] == Entry(r.next[id], NextIdle(r.start.active[id].idle, r.next[id], Watched(r, id))))
    ensures forall id :: SavedOrSame(r, s.d.store, id)
  {
    hide NextIdle, Goes, Saved, SameAt, Shows, JobOk;
    forall id | id in r.start.active
      ensures id in s.d.reg <==> !Goes(r, id)
      ensures id in s.d.reg ==>
        (ViewOf(s.d).active[id] == Entry(r.next[id], NextIdle(r.start.active[id].idle, r.next[id], Watched(r, id))))
      ensures SavedOrSame(r, s.d.store, id)
    {
      var j := IndexOf(r.ids, id);
      assert CalmJob(r, s.c.stage[j], s.d, j);
      if id in s.d.reg {
        var i := s.d.reg[id];
        assert s.d.heap[i].id == id && r.ids[i] == id;
        Distinct(r, i, j);
      }
    }
  }

  lemma ActiveByEntries(a: map<ChunkID, Entry>, b: map<ChunkID, Entry>, next: map<ChunkID, Rows>, gone: set<ChunkID>,
                        watched: set<ChunkID>)
    requires a.Keys <= next.Keys && gone <= a.Keys && b.Keys == a.Keys - gone
    requires forall id :: id in b ==> b[id] == Entry(next[id], NextIdle(a[id].idle, next[id], id in watched))
    ensures b == FinishActive(a, next, a.Keys, gone, watched)
    ensures |b| == |a| - |gone|
  {
    hide NextIdle;
    assert |b| == |b.Keys| && |a| == |a.Keys|;
  }

  lemma StoreByEntries(before: map<ChunkID, Record>, after: map<ChunkID, Record>, next: map<ChunkID, Rows>,
                       saved: set<ChunkID>)
    requires saved <= next.Keys
    requires forall id :: id in saved ==> id in after && after[id] == Saved(id, next[id])
    requires forall id :: id !in saved ==> SameAt(after, before, id)
    ensures after == FinishStore(before, next, saved)
  {
    hide Saved;
  }

  lemma RoundActive(r: Round, b: map<ChunkID, Entry>)
    requires GoodRound(r) && (forall id :: id in b <==> id in r.start.active && !Goes(r, id))
    requires forall id :: id in b ==>
        b[id] == Entry(r.next[id], NextIdle(r.start.active[id].idle, r.next[id], Watched(r, id)))
    ensures var gone := Evicted(r.start, r.next, r.start.active.Keys, r.env);
      && b == FinishActive(r.start.active, r.next, r.start.active.Keys, gone, r.env.watched)
      && |b| == |r.start.active| - |gone|
  {
    var gone := Evicted(r.start, r.next, r.start.active.Keys, r.env);
    GoneMeaning(r);
    hide NextIdle, Goes, Evicted, FinishActive;
    assert b.Keys == r.start.active.Keys - gone;
    ActiveByEntries(r.start.active, b, r.next, gone, r.env.watched);
  }

  lemma RoundStore(r: Round, store: map<ChunkID, Record>)
    requires GoodRound(r) && forall id :: SavedOrSame(r, store, id)
    ensures var gone := Evicted(r.start, r.next, r.start.active.Keys, r.env);
      gone <= r.next.Keys && store == FinishStore(r.start.store, r.next, gone - r.env.saveFails)
  {
    GoneMeaning(r);
    hide Goes, Saved, SameAt, Evicted, FinishStore;
    var saved := Evicted(r.start, r.next, r.start.active.Keys, r.env) - r.env.saveFails;
    forall id
      ensures id in saved ==> id in store && store[id] == Saved(id, r.next[id])
      ensures id !in saved ==> SameAt(store, r.start.store, id)
    {
      assert SavedOrSame(r, store, id);
    }
    StoreByEntries(r.start.store, store, r.next, saved);
  }

  lemma AllDoneView(r: Round, s: Sys)
    requires GoodRound(r) && DataInv(r, s) && Calm(r, s) && forall j :: 0 <= j < |r.ids| ==> s.c.stage[j] == Done
    ensures ViewOf(s.d) == Finish(r.start, r.next, r.start.active.Keys, r.env)
  {
    AllDoneEntries(r, s);
    var view := ViewOf(s.d);
    assert forall id :: id in view.active <==> id in s.d.reg;
    assert view.active.Keys == s.d.reg.Keys;
    assert s.d.gauge == |s.d.reg| == |s.d.reg.Keys| && |view.active| == |view.active.Keys|;
    hide Calm, DataInv, SavedOrSame, NextIdle, Goes, Evicted, FinishActive, FinishStore;
    RoundActive(r, view.active);
    RoundStore(r, view.store);
  }

  lemma GoneMeaning(r: Round)
    requires GoodRound(r)
    ensures forall id :: id in Evicted(r.start, r.next, r.start.active.Keys, r.env) <==>
        id in r.start.active && Goes(r, id)
  {
    hide Hibernates;
  }

  /** For every list order, every number of workers and every interleaving: once
      wg.Wait has passed, rows, idle counters, registered chunks, store and gauge
      are exactly those of Finish. */
  lemma OrderDoesNotMatter(r: Round, workers: nat, acts: seq<Action>)
    requires GoodRound(r) && Legal(r, Init(r, workers), acts) && NoSpawns(acts)
    requires Exec(r, Init(r, workers), acts).c.passed
    ensures var d := Exec(r, Init(r, workers), acts).d;
      && (forall id :: id in d.reg ==> d.reg[id] < |d.heap|)
      && ViewOf(d) == Finish(r.start, r.next, r.start.active.Keys, r.env)
  {
    InitInv(r, workers);
    InitCalm(r, workers);
    ExecInv(r, Init(r, workers), acts);
    ExecCalm(r, Init(r, workers), acts);
    AllDoneView(r, Exec(r, Init(r, workers), acts));
  }

  /** The round one tick of `s` fans out. */
  ghost function FanOut(s: State, env: Env, ids: seq<ChunkID>, capacity: nat): Round
  {
    var woken := Wake(s, Fed(RowsOf(s)), env.loadFails);
    Round(woken, ids, NextRows(RowsOf(s), woken), env, capacity)
  }

  /** What the round of one tick comes to: Tick. */
  lemma PoolComputesTick(s: State, env: Env, ids: seq<ChunkID>, capacity: nat, workers: nat, acts: seq<Action>)
    requires var r := FanOut(s, env, ids, capacity);
      && GoodRound(r) && Legal(r, Init(r, workers), acts) && NoSpawns(acts)
      && Exec(r, Init(r, workers), acts).c.passed
    ensures var d := Exec(FanOut(s, env, ids, capacity), Init(FanOut(s, env, ids, capacity), workers), acts).d;
      && (forall id :: id in d.reg ==> d.reg[id] < |d.heap|)
      && ViewOf(d) == Tick(s, env)
  {
    OrderDoesNotMatter(FanOut(s, env, ids, capacity), workers, acts);
  }

  /** The concurrent round, end to end: from any reachable registry, whatever the
      workers do, the barrier opens on the next generation. */
  lemma PoolIsLife(s: State, env: Env, ids: seq<ChunkID>, capacity: nat, workers: nat, acts: seq<Action>)
    requires Runs.Inv(s)
    requires var r := FanOut(s, env, ids, capacity);
      && GoodRound(r) && Legal(r, Init(r, workers), acts) && NoSpawns(acts)
      && Exec(r, Init(r, workers), acts).c.passed
    ensures var d := Exec(FanOut(s, env, ids, capacity), Init(FanOut(s, env, ids, capacity), workers), acts).d;
      && (forall id :: id in d.reg ==> d.reg[id] < |d.heap|)
      && Runs.Inv(ViewOf(d)) && Denote(ViewOf(d)) == Next(Denote(s))
  {
    PoolComputesTick(s, env, ids, capacity, workers, acts);
    Runs.StepRefines(s, Runs.Round(env));
    hide Next, Denote, Tick, Legal, Exec, GoodRound, FanOut, ViewOf;
  }
}
