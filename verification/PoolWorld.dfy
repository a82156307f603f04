/**
  Rounds with spawns landing in between: which chunks the registry holds when the
  barrier opens, what they hold, and what world that is.
 */
module PoolWorld {
  import opened Life
  import opened Chunks
  import opened Storage
  import opened RegistryModel
  import opened Refinement
  import opened WorkerPool
  import opened PoolRuns
  import opened PoolDeterminism
  import Runs

  // ----- Which chunks a round evicts -----

  /** The registry still has job `j`'s chunk, under the object the job was given. */
  predicate OwnRegistered(r: Round, d: Data, j: nat)
    requires j < |r.ids|
  {
    r.ids[j] in d.reg && d.reg[r.ids[j]] == j
  }

  /** A job evicts its chunk exactly when its counter gets to the threshold, and then
      the chunk's next generation is empty. */
  ghost predicate Fate(r: Round, g: Stage, d: Data, j: nat)
    requires j < |r.ids| && j < |d.heap| && r.ids[j] in r.next
  {
    var idle := d.heap[j].idle;
    && (g.Saving? || g.Evicting? ==> idle >= HIBERNATION_THRESHOLD)
    && (g.Finishing? || g.Done? ==>
          (idle >= HIBERNATION_THRESHOLD ==> r.next[r.ids[j]] == NO_ROWS) &&
          (OwnRegistered(r, d, j) <==> idle < HIBERNATION_THRESHOLD))
  }

  ghost predicate Fates(r: Round, s: Sys)
  {
    Shaped(r, s) && forall j :: 0 <= j < |r.ids| ==> Fate(r, s.c.stage[j], s.d, j)
  }

  lemma WorkOwnFate(r: Round, d: Data, j: nat, g: Stage)
    requires j < |r.ids| && j < |d.heap| == |d.base| && j < |d.writes|
    requires d.heap[j].id == r.ids[j] && r.ids[j] in r.next
    requires Running(g) && Fate(r, g, d, j) && JobOk(r, g, d, j) && (StillRegistered(g) ==> OwnRegistered(r, d, j))
    ensures Fate(r, NextStage(r, g, d.heap[j]), WorkD(r, d, j, g), j)
  {
  }

  lemma WorkOtherFate(r: Round, d: Data, j: nat, g: Stage, i: nat, k: Stage)
    requires i < |r.ids| && i < |d.heap| && r.ids[i] in r.next && Fate(r, k, d, i)
    requires j < |r.ids| && j < |d.heap| == |d.base| && j < |d.writes| && r.ids[j] in r.next
    requires d.heap[j].id == r.ids[j] != r.ids[i] && i != j
    ensures Fate(r, k, WorkD(r, d, j, g), i)
  {
    hide Saved;
  }

  lemma WorkKeepsFates(r: Round, s: Sys, w: nat)
    requires GoodRound(r) && DataInv(r, s) && Fates(r, s) && Enabled(r, s, Work(w))
    ensures Fates(r, Apply(r, s, Work(w)))
  {
    var j, t := s.c.workers[w].j, Apply(r, s, Work(w));
    ApplyShaped(r, s, Work(w));
    AdvanceStage(r, s.c, w, s.d.heap[j]);
    hide WorkD, NextStage, AdvanceC, Fate, GoodRound, Shows;
    forall i | 0 <= i < |r.ids|
      ensures Fate(r, t.c.stage[i], t.d, i)
    {
      assert Fate(r, s.c.stage[i], s.d, i);
      if i == j {
        assert JobOk(r, s.c.stage[j], s.d, j);
        WorkOwnFate(r, s.d, j, s.c.stage[j]);
      } else {
        if r.ids[i] == r.ids[j] {
          Distinct(r, i, j);
        }
        WorkOtherFate(r, s.d, j, s.c.stage[j], i, s.c.stage[i]);
      }
    }
  }

  /** Handing a job over or setting a cell decides nothing. */
  lemma FateStays(r: Round, g: Stage, d: Data, x: Stage, e: Data, j: nat)
    requires j < |r.ids| && j < |d.heap| && j < |e.heap| && r.ids[j] in r.next && Fate(r, g, d, j)
    requires x == g || x.Queued? || x.Ticking?
    requires e.heap[j].idle == d.heap[j].idle && (OwnRegistered(r, e, j) <==> OwnRegistered(r, d, j))
    ensures Fate(r, x, e, j)
  {
  }

  /** What any step but a worker's leaves of a job's chunk. */
  lemma QuietStep(r: Round, s: Sys, a: Action, j: nat)
    requires Shaped(r, s) && Enabled(r, s, a) && !a.Work? && j < |r.ids|
    ensures var t := Apply(r, s, a);
      && |t.c.stage| == |r.ids| && j < |t.d.heap|
      && (t.c.stage[j] == s.c.stage[j] || t.c.stage[j].Queued? || t.c.stage[j].Ticking?)
      && t.d.heap[j].idle == s.d.heap[j].idle && (OwnRegistered(r, t.d, j) <==> OwnRegistered(r, s.d, j))
  {
    hide Mark, NewEntry;
  }

  lemma StepKeepsFates(r: Round, s: Sys, a: Action)
    requires GoodRound(r) && DataInv(r, s) && Fates(r, s) && Enabled(r, s, a)
    ensures Fates(r, Apply(r, s, a))
  {
    if a.Work? {
      WorkKeepsFates(r, s, a.w);
    } else {
      ApplyShaped(r, s, a);
      hide Apply, Fate, GoodRound, DataInv, Enabled, OwnRegistered;
      forall j | 0 <= j < |r.ids|
        ensures Fate(r, Apply(r, s, a).c.stage[j], Apply(r, s, a).d, j)
      {
        QuietStep(r, s, a, j);
        FateStays(r, s.c.stage[j], s.d, Apply(r, s, a).c.stage[j], Apply(r, s, a).d, j);
      }
    }
  }

  lemma InitFates(r: Round, workers: nat)
    requires GoodRound(r)
    ensures Fates(r, Init(r, workers))
  {
    InitShows(r, workers);
  }

  lemma {:induction false} ExecFates(r: Round, s: Sys, acts: seq<Action>)
    requires GoodRound(r) && DataInv(r, s) && Barrier(s.c) && Fates(r, s) && Legal(r, s, acts)
    ensures Fates(r, Exec(r, s, acts))
    decreases |acts|
  {
    hide DataInv, Barrier, Apply, Fates, GoodRound, Shaped, Enabled;
    if |acts| > 0 {
      StepKeepsData(r, s, acts[0]);
      StepKeepsBarrier(r, s, acts[0]);
      StepKeepsFates(r, s, acts[0]);
      ExecFates(r, Apply(r, s, acts[0]), acts[1..]);
    }
  }

  // ----- At the barrier -----

  /** What holds once wg.Wait has passed, whatever was spawned meanwhile. */
  ghost predicate Settled(r: Round, s: Sys)
  {
    && DataInv(r, s) && Fates(r, s)
    && forall j :: 0 <= j < |r.ids| ==> s.c.stage[j] == Done
  }

  lemma RoundSettles(r: Round, workers: nat, acts: seq<Action>)
    requires GoodRound(r) && Legal(r, Init(r, workers), acts) && Exec(r, Init(r, workers), acts).c.passed
    ensures Settled(r, Exec(r, Init(r, workers), acts))
  {
    InitInv(r, workers);
    InitFates(r, workers);
    ExecInv(r, Init(r, workers), acts);
    ExecFates(r, Init(r, workers), acts);
    hide DataInv, Fates, Init, Legal, Exec;
  }

  /** With spawns landing anywhere in the round, at the barrier: a chunk of the round
      is registered, under its own object, exactly if its job did not take its counter
      to the threshold; and the object holds exactly the next generation plus the
      spawns that landed on it after its own SetRows. */
  lemma RoundWithSpawns(r: Round, workers: nat, acts: seq<Action>, j: nat, x: nat, y: nat)
    requires GoodRound(r) && Legal(r, Init(r, workers), acts)
    requires Exec(r, Init(r, workers), acts).c.passed
    requires j < |r.ids| && x < 64 && y < 64
    ensures var d := Exec(r, Init(r, workers), acts).d;
      && j < |d.heap| && d.heap[j].id == r.ids[j] && r.ids[j] in r.next
      && (OwnRegistered(r, d, j) <==> d.heap[j].idle < 100)
      && (Lit(d.heap[j].rows, x, y) <==> Lit(r.next[r.ids[j]], x, y) || Handle(j, x, y) in d.landed)
  {
    RoundSettles(r, workers, acts);
    hide Legal, Exec, Init, GoodRound;
    var s := Exec(r, Init(r, workers), acts);
    assert Shows(s.d, j);
    assert JobOk(r, s.c.stage[j], s.d, j) && Fate(r, s.c.stage[j], s.d, j);
  }

  // ----- The world at the barrier -----

  /** The cells recorded as landed on objects the registry still holds. */
  ghost function Spawned(d: Data): iset<Point>
  {
    iset p: Point | ChunkOf(p) in d.reg && Handle(d.reg[ChunkOf(p)], p.x % 64, p.y % 64) in d.landed
  }

  /** Cells loaded from the store with chunks registered during the round. */
  ghost function LoadedCells(d: Data, n: nat): iset<Point>
    requires forall id :: id in d.reg ==> d.reg[id] < |d.base|
  {
    iset p: Point | ChunkOf(p) in d.reg && d.reg[ChunkOf(p)] >= n && Lit(d.base[d.reg[ChunkOf(p)]], p.x % 64, p.y % 64)
  }

  lemma FanOutIsNext(s: State, env: Env, ids: seq<ChunkID>, capacity: nat, id: ChunkID)
    requires QuietLoads(s, env)
    ensures var r := FanOut(s, env, ids, capacity);
      && (id in r.start.active <==> id in s.active.Keys + Fed(RowsOf(s)))
      && (id in r.start.active ==> id in r.next && r.next[id] == RowsAt(id, Next(Denote(s))))
  {
    var rows := RowsOf(s);
    var woken := Wake(s, Fed(rows), env.loadFails);
    assert woken.active.Keys == s.active.Keys + Fed(rows);
    if id in woken.active {
      WakeHeld(s, env, id);
      hide Wake, Fed;
      JobIsNext(rows, id, woken.active[id].rows);
    }
  }

  /** A cell of the next generation lies in a chunk of the round. */
  lemma NextIsTicked(s: State, env: Env, ids: seq<ChunkID>, capacity: nat, p: Point)
    requires QuietLoads(s, env) && p in Next(Denote(s))
    ensures var r := FanOut(s, env, ids, capacity);
      ChunkOf(p) in r.start.active && ChunkOf(p) in r.next && r.next[ChunkOf(p)] != NO_ROWS
  {
    var id := ChunkOf(p);
    FanOutIsNext(s, env, ids, capacity, id);
    if id !in s.active.Keys + Fed(RowsOf(s)) {
      UntickedStaysEmpty(RowsOf(s), p);
    }
    assert p == WorldPoint(id, p.x % 64, p.y % 64);
    NoRowsDark();
    hide FanOut, Next, Denote, Fed;
    assert Lit(RowsAt(id, Next(Denote(s))), p.x % 64, p.y % 64);
  }

  /** No chunk with a cell in its next generation is evicted. */
  lemma LitIsKept(r: Round, t: Sys, id: ChunkID)
    requires GoodRound(r) && Settled(r, t) && id in r.start.active && id in r.next && r.next[id] != NO_ROWS
    ensures id in r.ids && OwnRegistered(r, t.d, IndexOf(r.ids, id))
  {
    hide DataInv;
    var j := IndexOf(r.ids, id);
    assert Fate(r, t.c.stage[j], t.d, j);
  }

  /** What a registered chunk shows at one point. */
  lemma ViewAt(r: Round, t: Sys, p: Point)
    requires Settled(r, t)
    ensures var id, x, y := ChunkOf(p), p.x % 64, p.y % 64;
      && (forall k :: k in t.d.reg ==> t.d.reg[k] < |t.d.heap| == |t.d.base|)
      && (p in Denote(ViewOf(t.d)) <==>
            id in t.d.reg && (Lit(t.d.base[t.d.reg[id]], x, y) || Handle(t.d.reg[id], x, y) in t.d.landed))
  {
    hide Fates, JobOk;
    var id := ChunkOf(p);
    if id in t.d.reg {
      assert Shows(t.d, t.d.reg[id]);
    }
  }

  /** An object of the round holds its chunk's next generation. */
  lemma OwnBase(r: Round, t: Sys, id: ChunkID)
    requires Settled(r, t) && id in t.d.reg && t.d.reg[id] < |r.ids|
    ensures r.ids[t.d.reg[id]] == id && id in r.next && t.d.base[t.d.reg[id]] == r.next[id]
  {
    hide Fates, Shows;
    var j := t.d.reg[id];
    assert JobOk(r, t.c.stage[j], t.d, j);
  }

  /** The registry's value when the barrier opens: the next generation, what has landed
      on the objects it holds, and whatever was loaded with chunks registered meanwhile;
      no cell of the next generation is ever evicted. */
  lemma BarrierWorld(s: State, env: Env, ids: seq<ChunkID>, capacity: nat, workers: nat, acts: seq<Action>)
    requires Runs.Inv(s)
    requires var r := FanOut(s, env, ids, capacity);
      GoodRound(r) && Legal(r, Init(r, workers), acts) && Exec(r, Init(r, workers), acts).c.passed
    ensures var d := Exec(FanOut(s, env, ids, capacity), Init(FanOut(s, env, ids, capacity), workers), acts).d;
      && (forall id :: id in d.reg ==> d.reg[id] < |d.heap| == |d.base|)
      && Denote(ViewOf(d)) == Next(Denote(s)) + Spawned(d) + LoadedCells(d, |ids|)
  {
    hide *;
    var r := FanOut(s, env, ids, capacity);
    Runs.InvIsQuiet(s, env);
    RoundSettles(r, workers, acts);
    var t := Exec(r, Init(r, workers), acts);
    WorldAt(s, env, ids, capacity, t, Point(0, 0));
    forall p
      ensures p in Denote(ViewOf(t.d)) <==> p in Next(Denote(s)) || p in Spawned(t.d) || p in LoadedCells(t.d, |ids|)
    {
      WorldAt(s, env, ids, capacity, t, p);
    }
  }

  lemma WorldAt(s: State, env: Env, ids: seq<ChunkID>, capacity: nat, t: Sys, p: Point)
    requires QuietLoads(s, env)
    requires var r := FanOut(s, env, ids, capacity); GoodRound(r) && Settled(r, t)
    ensures forall id :: id in t.d.reg ==> t.d.reg[id] < |t.d.heap| == |t.d.base|
    ensures p in Denote(ViewOf(t.d)) <==> p in Next(Denote(s)) || p in Spawned(t.d) || p in LoadedCells(t.d, |ids|)
  {
    var r, id := FanOut(s, env, ids, capacity), ChunkOf(p);
    ViewAt(r, t, p);
    assert r.ids == ids;
    assert p == WorldPoint(id, p.x % 64, p.y % 64);
    if p in Next(Denote(s)) {
      NextIsTicked(s, env, ids, capacity, p);
      LitIsKept(r, t, id);
    }
    hide FanOut, Settled, Next, Denote, ViewOf, RowsAt, QuietLoads;
    if id in t.d.reg && t.d.reg[id] < |ids| {
      OwnBase(r, t, id);
      assert id in ids;
      FanOutIsNext(s, env, ids, capacity, id);
    }
  }
}
