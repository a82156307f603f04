/**
  Whole rounds of the worker pool: what the chunks hold when the barrier opens,
  with spawns landing at any point and without.
 */
module PoolRuns {
  import opened Life
  import opened Chunks
  import opened Storage
  import opened WorkerPool

  // ----- Invariants of the data under every interleaving -----

  predicate StillRegistered(g: Stage)
  {
    !g.Finishing? && !g.Done?
  }

  /** The registry points at objects of the right chunk; a job's chunk stays
      registered under its own object until its own eviction; the gauge is the
      registry's size. */
  ghost predicate Registered(r: Round, g: seq<Stage>, d: Data)
    requires |g| == |r.ids|
  {
    && d.gauge == |d.reg|
    && (forall id :: id in d.reg ==> d.reg[id] < |d.heap| && d.heap[d.reg[id]].id == id)
    && (forall j :: 0 <= j < |g| && StillRegistered(g[j]) ==> r.ids[j] in d.reg && d.reg[r.ids[j]] == j)
    && (forall h :: h in d.handles ==> h.ref < |d.heap| && h.x < 64 && h.y < 64)
    && (forall h :: h in d.landed ==> h.ref < |d.heap|)
  }

  /** Object `o` shows what was last written to it plus the spawns landed since. */
  ghost predicate Shows(d: Data, o: nat)
    requires o < |d.heap| == |d.base|
  {
    forall x: nat, y: nat :: x < 64 && y < 64 ==>
      (Lit(d.heap[o].rows, x, y) <==> Lit(d.base[o], x, y) || Handle(o, x, y) in d.landed)
  }

  /** What job `j` has written, and what its worker knows. */
  ghost predicate JobOk(r: Round, g: Stage, d: Data, j: nat)
    requires j < |r.ids| && j < |d.base| && j < |d.writes| && r.ids[j] in r.next
  {
    && (PastWrite(g) ==> d.base[j] == r.next[r.ids[j]])
    && (g == Counted(true) || g.Saving? || g.Evicting? ==> r.next[r.ids[j]] == NO_ROWS)
    && d.writes[j] == (if PastWrite(g) then 1 else 0)
  }

  ghost predicate DataInv(r: Round, s: Sys)
  {
    && Shaped(r, s)
    && Registered(r, s.c.stage, s.d)
    && (forall o :: 0 <= o < |s.d.heap| ==> Shows(s.d, o))
    && (forall j :: 0 <= j < |r.ids| ==> JobOk(r, s.c.stage[j], s.d, j))
  }

  lemma ApplyShaped(r: Round, s: Sys, a: Action)
    requires Shaped(r, s) && Enabled(r, s, a)
    ensures Shaped(r, Apply(r, s, a))
  {
  }

  /** Moving jobs on without touching the registry map. */
  lemma RegisteredMoves(r: Round, g: seq<Stage>, d: Data, g': seq<Stage>, d': Data)
    requires |g| == |g'| == |r.ids| && Registered(r, g, d)
    requires d'.reg == d.reg && d'.gauge == d.gauge && d'.handles == d.handles && d'.landed <= d.landed
    requires |d'.heap| == |d.heap| && forall o :: 0 <= o < |d.heap| ==> d'.heap[o].id == d.heap[o].id
    requires forall i :: 0 <= i < |g| && StillRegistered(g'[i]) ==> StillRegistered(g[i])
    ensures Registered(r, g', d')
  {
  }

  lemma EvictRegistered(r: Round, g: seq<Stage>, d: Data, j: nat)
    requires GoodRound(r) && |g| == |r.ids| && Registered(r, g, d) && j < |g| && g[j].Evicting?
    ensures Registered(r, g[j := Finishing], d.(reg := d.reg - {r.ids[j]}, gauge := d.gauge - 1))
  {
    RemoveOne(d.reg, r.ids[j]);
    assert forall i :: 0 <= i < |r.ids| && i != j ==> r.ids[i] != r.ids[j];
  }

  /** What a section other than the eviction leaves alone. */
  lemma WorkFrame(r: Round, d: Data, j: nat, g: Stage)
    requires j < |d.heap| == |d.base| && j < |d.writes| && d.heap[j].id in r.next && !g.Evicting?
    ensures var e := WorkD(r, d, j, g);
      && e.reg == d.reg && e.gauge == d.gauge && e.handles == d.handles && e.landed <= d.landed
      && |e.heap| == |d.heap| && forall o :: 0 <= o < |d.heap| ==> e.heap[o].id == d.heap[o].id
  {
  }

  lemma WorkEvicts(r: Round, d: Data, j: nat)
    requires j < |d.heap| == |d.base| && j < |d.writes| && d.heap[j].id in r.next
    ensures WorkD(r, d, j, Evicting) == d.(reg := d.reg - {d.heap[j].id}, gauge := d.gauge - 1)
  {
  }

  lemma AdvanceStage(r: Round, c: Control, w: nat, o: Obj)
    requires w < |c.workers| && c.workers[w].Busy? && c.workers[w].j < |c.stage| && Running(c.stage[c.workers[w].j])
    ensures var j := c.workers[w].j; var g := NextStage(r, c.stage[j], o);
      && AdvanceC(c, w, g).stage == c.stage[j := g]
      && (StillRegistered(g) ==> StillRegistered(c.stage[j]))
      && (c.stage[j].Evicting? ==> g == Finishing)
  {
  }

  lemma WorkRegistered(r: Round, s: Sys, w: nat)
    requires GoodRound(r) && DataInv(r, s) && Enabled(r, s, Work(w))
    ensures Registered(r, Apply(r, s, Work(w)).c.stage, Apply(r, s, Work(w)).d)
  {
    var j := s.c.workers[w].j;
    var g := NextStage(r, s.c.stage[j], s.d.heap[j]);
    AdvanceStage(r, s.c, w, s.d.heap[j]);
    hide WorkD, NextStage, AdvanceC, Registered;
    if s.c.stage[j].Evicting? {
      EvictRegistered(r, s.c.stage, s.d, j);
      WorkEvicts(r, s.d, j);
    } else {
      WorkFrame(r, s.d, j, s.c.stage[j]);
      RegisteredMoves(r, s.c.stage, s.d, s.c.stage[j := g], WorkD(r, s.d, j, s.c.stage[j]));
    }
  }

  lemma RemoveOne(m: map<ChunkID, nat>, id: ChunkID)
    requires id in m
    ensures |m - {id}| == |m| - 1
  {
    assert (m - {id}).Keys == m.Keys - {id};
    assert |m| == |m.Keys| && |m - {id}| == |(m - {id}).Keys|;
  }

  lemma InsertOne(m: map<ChunkID, nat>, id: ChunkID, v: nat)
    requires id !in m
    ensures |m[id := v]| == |m| + 1
  {
    assert m[id := v].Keys == m.Keys + {id};
    assert |m| == |m.Keys| && |m[id := v]| == |m[id := v].Keys|;
  }

  lemma WorkShows(r: Round, d: Data, j: nat, g: Stage, o: nat)
    requires j < |d.heap| == |d.base| && j < |d.writes| && d.heap[j].id in r.next && o < |d.heap| && Shows(d, o)
    ensures Shows(WorkD(r, d, j, g), o)
  {
    if g.Ticking? {
      forall x, y
        ensures Handle(o, x, y) in WorkD(r, d, j, g).landed <==> Handle(o, x, y) in d.landed && o != j
      {
      }
    }
  }

  lemma WorkOwnJob(r: Round, d: Data, j: nat, g: Stage)
    requires j < |r.ids| && j < |d.heap| == |d.base| && j < |d.writes| && d.heap[j].id == r.ids[j] && r.ids[j] in r.next
    requires Running(g) && JobOk(r, g, d, j) && Shows(d, j)
    ensures JobOk(r, NextStage(r, g, d.heap[j]), WorkD(r, d, j, g), j)
  {
    NoRowsAreBase(d, j);
    hide Shows;
  }

  lemma WorkOtherJob(r: Round, d: Data, j: nat, g: Stage, i: nat, k: Stage)
    requires j < |r.ids| && j < |d.heap| == |d.base| && j < |d.writes| && d.heap[j].id == r.ids[j] && r.ids[j] in r.next
    requires i < |r.ids| && i < |d.base| && i < |d.writes| && r.ids[i] in r.next && i != j && JobOk(r, k, d, i)
    ensures JobOk(r, k, WorkD(r, d, j, g), i)
  {
  }

  lemma WorkContents(r: Round, s: Sys, w: nat)
    requires DataInv(r, s) && Enabled(r, s, Work(w))
    ensures var t := Apply(r, s, Work(w));
      && Shaped(r, t)
      && (forall o :: 0 <= o < |t.d.heap| ==> Shows(t.d, o))
      && (forall j :: 0 <= j < |r.ids| ==> JobOk(r, t.c.stage[j], t.d, j))
  {
    ApplyShaped(r, s, Work(w));
    var t, j := Apply(r, s, Work(w)), s.c.workers[w].j;
    AdvanceStage(r, s.c, w, s.d.heap[j]);
    hide Shows, JobOk, WorkD, NextStage, AdvanceC;
    forall o | 0 <= o < |t.d.heap|
      ensures Shows(t.d, o)
    {
      WorkShows(r, s.d, j, s.c.stage[j], o);
    }
    forall i | 0 <= i < |r.ids|
      ensures JobOk(r, t.c.stage[i], t.d, i)
    {
      if i == j {
        WorkOwnJob(r, s.d, j, s.c.stage[j]);
      } else {
        WorkOtherJob(r, s.d, j, s.c.stage[j], i, s.c.stage[i]);
      }
    }
  }

  /** An object counted empty had nothing written to it. */
  lemma NoRowsAreBase(d: Data, o: nat)
    requires o < |d.heap| == |d.base| && Shows(d, o)
    ensures d.heap[o].rows == NO_ROWS ==> d.base[o] == NO_ROWS
  {
    NoRowsDark();
    if d.heap[o].rows == NO_ROWS {
      RowsEqual(d.base[o], NO_ROWS);
    }
  }

  lemma HandleKeepsData(r: Round, s: Sys, id: ChunkID, x: nat, y: nat, fails: bool)
    requires DataInv(r, s) && x < 64 && y < 64
    ensures DataInv(r, Apply(r, s, GetHandle(id, x, y, fails)))
  {
    var t := Apply(r, s, GetHandle(id, x, y, fails));
    if id !in s.d.reg {
      InsertOne(s.d.reg, id, |s.d.heap|);
    }
    forall o | 0 <= o < |t.d.heap|
      ensures Shows(t.d, o)
    {
      if o < |s.d.heap| {
        assert Shows(s.d, o);
      }
    }
    forall i | 0 <= i < |r.ids|
      ensures JobOk(r, t.c.stage[i], t.d, i)
    {
      assert JobOk(r, s.c.stage[i], s.d, i);
    }
  }

  lemma LandKeepsData(r: Round, s: Sys, k: nat)
    requires DataInv(r, s) && Enabled(r, s, Land(k))
    ensures DataInv(r, Apply(r, s, Land(k)))
  {
    hide Mark;
    var t, h := Apply(r, s, Land(k)), s.d.handles[k];
    forall o | 0 <= o < |t.d.heap|
      ensures Shows(t.d, o)
    {
      assert Shows(s.d, o);
    }
    forall i | 0 <= i < |r.ids|
      ensures JobOk(r, t.c.stage[i], t.d, i)
    {
      assert JobOk(r, s.c.stage[i], s.d, i);
    }
  }

  lemma StepKeepsData(r: Round, s: Sys, a: Action)
    requires GoodRound(r) && DataInv(r, s) && Barrier(s.c) && Enabled(r, s, a)
    ensures DataInv(r, Apply(r, s, a))
  {
    ApplyShaped(r, s, a);
    match a
    case Send =>
      SendKeepsData(r, s);
    case Take(w) =>
      TakeKeepsData(r, s, w);
    case Work(w) =>
      WorkRegistered(r, s, w);
      WorkContents(r, s, w);
    case Pass =>
    case GetHandle(id, x, y, fails) =>
      HandleKeepsData(r, s, id, x, y, fails);
    case Land(k) =>
      LandKeepsData(r, s, k);
  }

  lemma SendKeepsData(r: Round, s: Sys)
    requires DataInv(r, s) && Barrier(s.c) && Enabled(r, s, Send)
    ensures DataInv(r, Apply(r, s, Send))
  {
    var t := Apply(r, s, Send);
    assert s.c.stage[s.c.sent] == Unsent;
    forall i | 0 <= i < |r.ids|
      ensures JobOk(r, t.c.stage[i], t.d, i)
    {
      assert JobOk(r, s.c.stage[i], s.d, i);
    }
  }

  lemma TakeKeepsData(r: Round, s: Sys, w: nat)
    requires DataInv(r, s) && Barrier(s.c) && Enabled(r, s, Take(w))
    ensures DataInv(r, Apply(r, s, Take(w)))
  {
    var t := Apply(r, s, Take(w));
    assert s.c.stage[s.c.queue[0]] == Queued;
    forall i | 0 <= i < |r.ids|
      ensures JobOk(r, t.c.stage[i], t.d, i)
    {
      assert JobOk(r, s.c.stage[i], s.d, i);
    }
  }

  // ----- Runs -----

  ghost predicate Legal(r: Round, s: Sys, acts: seq<Action>)
    decreases |acts|
  {
    |acts| > 0 ==> Shaped(r, s) && Enabled(r, s, acts[0]) && Legal(r, Apply(r, s, acts[0]), acts[1..])
  }

  ghost function Exec(r: Round, s: Sys, acts: seq<Action>): Sys
    requires Legal(r, s, acts)
    decreases |acts|
  {
    if |acts| == 0 then s else Exec(r, Apply(r, s, acts[0]), acts[1..])
  }

  function PoolSteps(acts: seq<Action>): nat
  {
    if |acts| == 0 then 0 else (if PoolAction(acts[0]) then 1 else 0) + PoolSteps(acts[1..])
  }

  lemma {:induction false} AllUnsent(g: seq<Stage>)
    requires forall j :: 0 <= j < |g| ==> g[j] == Unsent
    ensures NotDone(g) == |g| && RankSum(g) == 9 * |g|
  {
    if |g| > 0 {
      AllUnsent(g[..|g| - 1]);
    }
  }

  lemma InitBarrier(r: Round, workers: nat)
    requires GoodRound(r)
    ensures Barrier(Init(r, workers).c) && Measure(Init(r, workers).c) == 9 * |r.ids| + 1
  {
    var c := Init(r, workers).c;
    AllUnsent(c.stage);
  }

  lemma InitRegistered(r: Round, workers: nat)
    requires GoodRound(r)
    ensures Registered(r, Init(r, workers).c.stage, Init(r, workers).d)
  {
    var d := Init(r, workers).d;
    assert d.reg.Keys == r.start.active.Keys;
    assert |d.reg| == |d.reg.Keys| && |r.start.active| == |r.start.active.Keys|;
    forall j | 0 <= j < |r.ids|
      ensures r.ids[j] in d.reg && d.reg[r.ids[j]] == j
    {
      assert r.ids[j] in r.ids;
    }
  }

  lemma InitJob(r: Round, workers: nat, j: nat)
    requires GoodRound(r) && j < |r.ids|
    ensures r.ids[j] in r.start.active && r.ids[j] in r.next
    ensures var d := Init(r, workers).d; d.heap[j].id == r.ids[j] && JobOk(r, Unsent, d, j)
    ensures Shows(Init(r, workers).d, j)
  {
    assert r.ids[j] in r.ids;
    hide Lit;
  }

  lemma InitShows(r: Round, workers: nat)
    requires GoodRound(r)
    ensures var s := Init(r, workers);
      && Shaped(r, s)
      && (forall o :: 0 <= o < |s.d.heap| ==> Shows(s.d, o))
      && (forall j :: 0 <= j < |r.ids| ==> JobOk(r, s.c.stage[j], s.d, j))
  {
    var s := Init(r, workers);
    forall j | 0 <= j < |r.ids|
      ensures r.ids[j] in r.next && s.d.heap[j].id == r.ids[j] && Shows(s.d, j) && JobOk(r, Unsent, s.d, j)
    {
      InitJob(r, workers, j);
    }
    hide Shows, JobOk, GoodRound;
  }

  lemma InitInv(r: Round, workers: nat)
    requires GoodRound(r)
    ensures DataInv(r, Init(r, workers)) && Barrier(Init(r, workers).c)
    ensures Measure(Init(r, workers).c) == 9 * |r.ids| + 1
  {
    hide Init, Barrier, Registered, Shows, JobOk;
    InitBarrier(r, workers);
    InitRegistered(r, workers);
    InitShows(r, workers);
  }

  lemma {:induction false} ExecInv(r: Round, s: Sys, acts: seq<Action>)
    requires GoodRound(r) && DataInv(r, s) && Barrier(s.c) && Legal(r, s, acts)
    ensures DataInv(r, Exec(r, s, acts)) && Barrier(Exec(r, s, acts).c)
    ensures PoolSteps(acts) + Measure(Exec(r, s, acts).c) <= Measure(s.c)
    decreases |acts|
  {
    hide DataInv, Barrier, Apply, Measure, GoodRound, Shaped, Enabled;
    if |acts| > 0 {
      StepKeepsData(r, s, acts[0]);
      StepKeepsBarrier(r, s, acts[0]);
      StepsRunOut(r, s, acts[0]);
      ExecInv(r, Apply(r, s, acts[0]), acts[1..]);
    }
  }

  /** The channel never holds more than it was made for, and no worker comes or goes. */
  lemma {:induction false} ChannelBounded(r: Round, s: Sys, acts: seq<Action>)
    requires Legal(r, s, acts) && |s.c.queue| <= r.capacity
    ensures |Exec(r, s, acts).c.queue| <= r.capacity && |Exec(r, s, acts).c.workers| == |s.c.workers|
    decreases |acts|
  {
    if |acts| > 0 {
      QueueStep(r, s, acts[0]);
      hide Apply, Shaped, Enabled;
      ChannelBounded(r, Apply(r, s, acts[0]), acts[1..]);
    }
  }

  lemma QueueStep(r: Round, s: Sys, a: Action)
    requires Shaped(r, s) && Enabled(r, s, a) && |s.c.queue| <= r.capacity
    ensures |Apply(r, s, a).c.queue| <= r.capacity && |Apply(r, s, a).c.workers| == |s.c.workers|
  {
    hide WorkD, LandD, GetHandleD;
  }

  /** Barrier safety over every run: when wg.Wait has passed, every job is
      finished and has written its chunk exactly once; at no time does the channel hold
      more jobs than it has room for; and whatever spawns do, the pool takes at most nine
      steps a job, plus the passing. */
  lemma BarrierSafety(r: Round, workers: nat, acts: seq<Action>)
    requires GoodRound(r) && Legal(r, Init(r, workers), acts)
    ensures var s := Exec(r, Init(r, workers), acts);
      && |s.c.stage| == |r.ids| == |s.d.writes|
      && (s.c.passed ==> forall j :: 0 <= j < |r.ids| ==> s.c.stage[j] == Done && s.d.writes[j] == 1)
      && s.d.gauge == |s.d.reg| && |s.c.queue| <= r.capacity && |s.c.workers| == workers
    ensures PoolSteps(acts) <= 9 * |r.ids| + 1
  {
    InitInv(r, workers);
    ExecInv(r, Init(r, workers), acts);
    ChannelBounded(r, Init(r, workers), acts);
    var s := Exec(r, Init(r, workers), acts);
    forall j | 0 <= j < |r.ids|
      ensures s.d.writes[j] == if PastWrite(s.c.stage[j]) then 1 else 0
    {
      assert JobOk(r, s.c.stage[j], s.d, j);
    }
  }

  /** The hibernation race, exactly: a save keeps the store free of live cells if
      and only if no spawn landed on the chunk since its write. */
  lemma SaveStaysEmptyIff(r: Round, s: Sys, w: nat)
    requires DataInv(r, s) && Enabled(r, s, Work(w)) && s.c.stage[s.c.workers[w].j] == Saving
    requires r.ids[s.c.workers[w].j] !in r.env.saveFails
    ensures var j := s.c.workers[w].j;
      Hydrate(Apply(r, s, Work(w)).d.store, r.ids[j]) == NO_ROWS
      <==> forall x: nat, y: nat :: x < 64 && y < 64 ==> Handle(j, x, y) !in s.d.landed
  {
    var j := s.c.workers[w].j;
    var rows := s.d.heap[j].rows;
    assert Shows(s.d, j) && JobOk(r, Saving, s.d, j);
    SaveThenLoad(s.d.store, r.ids[j], rows, r.ids[j]);
    NoRowsDark();
    if forall x: nat, y: nat :: x < 64 && y < 64 ==> Handle(j, x, y) !in s.d.landed {
      RowsEqual(rows, NO_ROWS);
    }
  }
}
