/**
  The fan-out of one round as a step system: the dispatcher, the bounded job
  channel, the workers, the WaitGroup, and players' spawns landing in between.
  Each action is one lock-protected section of the source.
 */
module WorkerPool {
  import opened Life
  import opened Chunks
  import opened Storage
  import opened RegistryModel

  /** Where a job is in its life; jobs are numbered by the dispatcher's list. */
  datatype Stage =
    | Unsent
    | Queued
    | Ticking
    | Written
    | Counted(empty: bool)
    | Saving
    | Evicting
    | Finishing
    | Done

  datatype Worker = Idle | Busy(j: nat)

  /** A chunk with its bookkeeping; the first |ids| objects are the round's. */
  datatype Obj = Obj(id: ChunkID, rows: Rows, idle: nat)

  /** A spawn that has its chunk but has not set its cell yet. */
  datatype Handle = Handle(ref: nat, x: nat, y: nat)

  /** What is fixed when the fan-out starts: the woken registry, the dispatcher's
      list, what each job computes, the callbacks' answers, the channel size. */
  datatype Round = Round(start: State, ids: seq<ChunkID>, next: map<ChunkID, Rows>, env: Env, capacity: nat)

  /** Dispatcher, channel, workers, WaitGroup. */
  datatype Control = Control(sent: nat, queue: seq<nat>, workers: seq<Worker>, stage: seq<Stage>, wg: int, passed: bool)

  /** Chunk objects and registry. The last three fields are history only: the rows
      last written to each object, the spawns landed since, and writes per job. */
  datatype Data = Data(heap: seq<Obj>, reg: map<ChunkID, nat>, store: map<ChunkID, Record>, gauge: int,
                       handles: seq<Handle>, base: seq<Rows>, landed: set<Handle>, writes: seq<nat>)

  datatype Sys = Sys(c: Control, d: Data)

  datatype Action =
    | Send
    | Take(w: nat)
    | Work(w: nat)
    | Pass
    | GetHandle(id: ChunkID, x: nat, y: nat, loadFails: bool)
    | Land(h: nat)

  predicate Running(g: Stage)
  {
    !g.Unsent? && !g.Queued? && !g.Done?
  }

  predicate PastWrite(g: Stage)
  {
    !g.Unsent? && !g.Queued? && !g.Ticking?
  }

  /** The list the dispatcher ranges over: every registered chunk once, any order. */
  ghost predicate GoodRound(r: Round)
  {
    && r.capacity > 0
    && (forall i, j :: 0 <= i < j < |r.ids| ==> r.ids[i] != r.ids[j])
    && (forall id :: id in r.ids <==> id in r.start.active)
    && r.start.active.Keys <= r.next.Keys
    && r.start.gauge == |r.start.active|
  }

  // ----- Control steps -----

  function SendC(c: Control): Control
    requires c.sent < |c.stage|
  {
    c.(sent := c.sent + 1, queue := c.queue + [c.sent], stage := c.stage[c.sent := Queued])
  }

  function TakeC(c: Control, w: nat): Control
    requires w < |c.workers| && |c.queue| > 0 && c.queue[0] < |c.stage|
  {
    c.(queue := c.queue[1..], workers := c.workers[w := Busy(c.queue[0])], stage := c.stage[c.queue[0] := Ticking])
  }

  /** Worker `w` moves its job to stage `g`; Done is the deferred wg.Done. */
  function AdvanceC(c: Control, w: nat, g: Stage): Control
    requires w < |c.workers| && c.workers[w].Busy? && c.workers[w].j < |c.stage|
  {
    var d := c.(stage := c.stage[c.workers[w].j := g]);
    if g == Done then d.(workers := c.workers[w := Idle], wg := c.wg - 1) else d
  }

  // ----- One section of processJob -----

  ghost function NextStage(r: Round, g: Stage, o: Obj): Stage
    requires Running(g)
  {
    match g
    case Ticking => Written
    case Written => Counted(o.rows == NO_ROWS)
    case Counted(empty) =>
      if empty && o.id !in r.env.watched && o.idle + 1 >= HIBERNATION_THRESHOLD then Saving else Finishing
    case Saving => Evicting
    case Evicting => Finishing
    case Finishing => Done
  }

  ghost function WorkD(r: Round, d: Data, j: nat, g: Stage): Data
    requires j < |d.heap| == |d.base| && j < |d.writes| && d.heap[j].id in r.next
  {
    var o := d.heap[j];
    match g
    case Ticking =>   // TickBitset on the snapshots, then SetRows
      d.(heap := d.heap[j := o.(rows := r.next[o.id])],
         base := d.base[j := r.next[o.id]],
         landed := (set h | h in d.landed && h.ref != j),
         writes := d.writes[j := d.writes[j] + 1])
    case Counted(empty) =>   // HasSubscribers and the idle counter
      d.(heap := d.heap[j := o.(idle := if empty && o.id !in r.env.watched then o.idle + 1 else 0)])
    case Saving =>   // Persist: takes the rows as they are now
      if o.id in r.env.saveFails then d else d.(store := d.store[o.id := Saved(o.id, o.rows)])
    case Evicting =>
      d.(reg := d.reg - {o.id}, gauge := d.gauge - 1)
    case _ => d
  }

  // ----- Spawns -----

  /** GetOrCreate: finds the chunk or registers a freshly loaded one. */
  ghost function GetHandleD(d: Data, id: ChunkID, x: nat, y: nat, fails: bool): Data
  {
    if id in d.reg then d.(handles := d.handles + [Handle(d.reg[id], x, y)])
    else
      var rows := NewEntry(d.store, id, fails).rows;
      d.(heap := d.heap + [Obj(id, rows, 0)], base := d.base + [rows], reg := d.reg[id := |d.heap|],
         gauge := d.gauge + 1, handles := d.handles + [Handle(|d.heap|, x, y)])
  }

  /** AddCell on the chunk held, registered or not. */
  ghost function LandD(d: Data, k: nat): Data
    requires k < |d.handles| && d.handles[k].ref < |d.heap| && d.handles[k].x < 64 && d.handles[k].y < 64
  {
    var h := d.handles[k];
    d.(heap := d.heap[h.ref := d.heap[h.ref].(rows := Mark(d.heap[h.ref].rows, h.x, h.y))],
       landed := d.landed + {h},
       handles := d.handles[..k] + d.handles[k + 1..])
  }

  // ----- The system -----

  ghost predicate Shaped(r: Round, s: Sys)
  {
    && |s.c.stage| == |r.ids| == |s.d.writes| && |s.d.base| == |s.d.heap| && |r.ids| <= |s.d.heap|
    && (forall j :: 0 <= j < |r.ids| ==> s.d.heap[j].id == r.ids[j] && r.ids[j] in r.next)
  }

  ghost predicate Enabled(r: Round, s: Sys, a: Action)
    requires Shaped(r, s)
  {
    var c, d := s.c, s.d;
    match a
    case Send => c.sent < |r.ids| && |c.queue| < r.capacity
    case Take(w) => w < |c.workers| && c.workers[w] == Idle && |c.queue| > 0 && c.queue[0] < |r.ids|
    case Work(w) =>
      w < |c.workers| && c.workers[w].Busy? && c.workers[w].j < |r.ids| && Running(c.stage[c.workers[w].j])
    case Pass => c.sent == |r.ids| && c.wg == 0 && !c.passed
    case GetHandle(_, x, y, _) => x < 64 && y < 64
    case Land(k) => k < |d.handles| && d.handles[k].ref < |d.heap| && d.handles[k].x < 64 && d.handles[k].y < 64
  }

  ghost function Apply(r: Round, s: Sys, a: Action): Sys
    requires Shaped(r, s) && Enabled(r, s, a)
  {
    match a
    case Send => s.(c := SendC(s.c))
    case Take(w) => s.(c := TakeC(s.c, w))
    case Work(w) =>
      var j := s.c.workers[w].j;
      Sys(AdvanceC(s.c, w, NextStage(r, s.c.stage[j], s.d.heap[j])), WorkD(r, s.d, j, s.c.stage[j]))
    case Pass => s.(c := s.c.(passed := true))
    case GetHandle(id, x, y, fails) => s.(d := GetHandleD(s.d, id, x, y, fails))
    case Land(k) => s.(d := LandD(s.d, k))
  }

  function IndexOf(ids: seq<ChunkID>, id: ChunkID): (j: nat)
    requires id in ids
    ensures j < |ids| && ids[j] == id
  {
    if ids[0] == id then 0 else 1 + IndexOf(ids[1..], id)
  }

  ghost function Init(r: Round, workers: nat): Sys
    requires GoodRound(r)
  {
    var n := |r.ids|;
    Sys(Control(0, [], seq(workers, _ => Idle), seq(n, _ => Unsent), n, false),
        Data(seq(n, j requires 0 <= j < n =>
               Obj(r.ids[j], r.start.active[r.ids[j]].rows, r.start.active[r.ids[j]].idle)),
             map id | id in r.start.active :: IndexOf(r.ids, id),
             r.start.store, r.start.gauge, [],
             seq(n, j requires 0 <= j < n => r.start.active[r.ids[j]].rows), {}, seq(n, _ => 0)))
  }

  // ----- Control: the barrier -----

  function NotDone(g: seq<Stage>): nat
  {
    if |g| == 0 then 0 else NotDone(g[..|g| - 1]) + (if g[|g| - 1] == Done then 0 else 1)
  }

  /** Channel, workers and stages agree: no job is lost, duplicated or run by two,
      and the WaitGroup counts exactly the jobs not finished. */
  ghost predicate Barrier(c: Control)
  {
    && c.sent <= |c.stage|
    && (forall k :: 0 <= k < |c.queue| ==> c.queue[k] < |c.stage|)
    && (forall j :: 0 <= j < |c.stage| ==> (c.stage[j] == Unsent <==> j >= c.sent))
    && (forall j :: 0 <= j < |c.stage| ==> (c.stage[j] == Queued <==> j in c.queue))
    && (forall i, k :: 0 <= i < k < |c.queue| ==> c.queue[i] != c.queue[k])
    && (forall j :: 0 <= j < |c.stage| && Running(c.stage[j]) ==> Busy(j) in c.workers)
    && (forall w :: 0 <= w < |c.workers| && c.workers[w].Busy? ==>
          c.workers[w].j < |c.stage| && Running(c.stage[c.workers[w].j]))
    && (forall v, w :: 0 <= v < w < |c.workers| && c.workers[v].Busy? ==> c.workers[v] != c.workers[w])
    && c.wg == NotDone(c.stage)
    && (c.passed ==> forall j :: 0 <= j < |c.stage| ==> c.stage[j] == Done)
  }

  lemma {:induction false} NotDoneUpdate(g: seq<Stage>, j: nat, x: Stage)
    requires j < |g|
    ensures NotDone(g[j := x]) == NotDone(g) - (if g[j] == Done then 0 else 1) + (if x == Done then 0 else 1)
  {
    var n := |g| - 1;
    if j == n {
      assert g[j := x][..n] == g[..n];
    } else {
      assert g[j := x][..n] == g[..n][j := x];
      NotDoneUpdate(g[..n], j, x);
    }
  }

  lemma {:induction false} NotDoneZero(g: seq<Stage>)
    ensures NotDone(g) == 0 <==> forall j :: 0 <= j < |g| ==> g[j] == Done
  {
    if |g| > 0 {
      var n := |g| - 1;
      NotDoneZero(g[..n]);
      assert forall j :: 0 <= j < n ==> g[..n][j] == g[j];
    }
  }

  lemma SendKeepsBarrier(c: Control)
    requires Barrier(c) && c.sent < |c.stage|
    ensures Barrier(SendC(c))
  {
    NotDoneUpdate(c.stage, c.sent, Queued);
  }

  lemma TakeKeepsBarrier(c: Control, w: nat)
    requires Barrier(c) && w < |c.workers| && c.workers[w] == Idle && |c.queue| > 0
    ensures Barrier(TakeC(c, w))
  {
    var t, j := TakeC(c, w), c.queue[0];
    assert c.stage[j] == Queued;
    NotDoneUpdate(c.stage, j, Ticking);
    HeldAfter(c.workers, t.workers, w);
    assert t.workers[w] == Busy(j);
    forall i
      ensures i in t.queue <==> i in c.queue && i != j
    {
      assert c.queue == [j] + t.queue;
    }
  }

  lemma AdvanceKeepsBarrier(c: Control, w: nat, g: Stage)
    requires Barrier(c) && w < |c.workers| && c.workers[w].Busy? && (Running(g) || g == Done)
    ensures Barrier(AdvanceC(c, w, g))
  {
    var t, j := AdvanceC(c, w, g), c.workers[w].j;
    NotDoneUpdate(c.stage, j, g);
    HeldAfter(c.workers, t.workers, w);
    assert Busy(j) in c.workers;
  }

  /** Changing one worker leaves what the others hold. */
  lemma HeldAfter(a: seq<Worker>, b: seq<Worker>, w: nat)
    requires |a| == |b| && w < |a| && forall v :: 0 <= v < |a| && v != w ==> a[v] == b[v]
    ensures forall x: Worker :: x in a && x != a[w] ==> x in b
  {
    forall x: Worker | x in a && x != a[w]
      ensures x in b
    {
      var v :| 0 <= v < |a| && a[v] == x;
      assert b[v] == x;
    }
  }

  /** The barrier invariant survives every step; wg.Wait passes only with every
      job finished. */
  lemma StepKeepsBarrier(r: Round, s: Sys, a: Action)
    requires Shaped(r, s) && Barrier(s.c) && Enabled(r, s, a)
    ensures Barrier(Apply(r, s, a).c)
  {
    hide Barrier, SendC, TakeC, AdvanceC;
    match a
    case Send => SendKeepsBarrier(s.c);
    case Take(w) => TakeKeepsBarrier(s.c, w);
    case Work(w) => AdvanceKeepsBarrier(s.c, w, NextStage(r, s.c.stage[s.c.workers[w].j], s.d.heap[s.c.workers[w].j]));
    case Pass => PassKeepsBarrier(s.c);
    case GetHandle(_, _, _, _) =>
    case Land(_) =>
  }

  lemma PassKeepsBarrier(c: Control)
    requires Barrier(c) && c.wg == 0
    ensures Barrier(c.(passed := true))
  {
    NotDoneZero(c.stage);
  }

  // ----- Progress -----

  function Rank(g: Stage): nat
  {
    match g
    case Unsent => 9 case Queued => 8 case Ticking => 7 case Written => 6 case Counted(_) => 5
    case Saving => 4 case Evicting => 3 case Finishing => 2 case Done => 0
  }

  function RankSum(g: seq<Stage>): nat
  {
    if |g| == 0 then 0 else RankSum(g[..|g| - 1]) + Rank(g[|g| - 1])
  }

  function Measure(c: Control): nat
  {
    RankSum(c.stage) + if c.passed then 0 else 1
  }

  lemma {:induction false} RankSumUpdate(g: seq<Stage>, j: nat, x: Stage)
    requires j < |g|
    ensures RankSum(g[j := x]) == RankSum(g) - Rank(g[j]) + Rank(x)
  {
    var n := |g| - 1;
    if j == n {
      assert g[j := x][..n] == g[..n];
    } else {
      assert g[j := x][..n] == g[..n][j := x];
      RankSumUpdate(g[..n], j, x);
    }
  }

  predicate PoolAction(a: Action)
  {
    a.Send? || a.Take? || a.Work? || a.Pass?
  }

  /** Every step of the pool itself brings the round nearer its end; spawns do not
      put it off. */
  lemma StepsRunOut(r: Round, s: Sys, a: Action)
    requires Shaped(r, s) && Barrier(s.c) && Enabled(r, s, a)
    ensures PoolAction(a) ==> Measure(Apply(r, s, a).c) < Measure(s.c)
    ensures !PoolAction(a) ==> Measure(Apply(r, s, a).c) == Measure(s.c)
  {
    hide RankSum;
    var c := s.c;
    match a
    case Send => RankSumUpdate(c.stage, c.sent, Queued);
    case Take(w) => RankSumUpdate(c.stage, c.queue[0], Ticking);
    case Work(w) =>
      var j := c.workers[w].j;
      RankSumUpdate(c.stage, j, NextStage(r, c.stage[j], s.d.heap[j]));
      hide WorkD;
    case Pass =>
    case GetHandle(_, _, _, _) =>
    case Land(_) =>
  }

  /** With at least one worker and a channel that holds something, the pool is
      never stuck before the barrier opens. */
  lemma NeverStuck(r: Round, s: Sys)
    requires GoodRound(r) && Shaped(r, s) && Barrier(s.c) && |s.c.workers| > 0 && !s.c.passed
    ensures exists a :: PoolAction(a) && Enabled(r, s, a)
  {
    var c := s.c;
    if w :| 0 <= w < |c.workers| && c.workers[w].Busy? {
      assert Enabled(r, s, Work(w));
    } else if |c.queue| > 0 {
      assert c.workers[0] == Idle;
      assert Enabled(r, s, Take(0));
    } else if c.sent < |r.ids| {
      assert Enabled(r, s, Send);
    } else {
      forall j | 0 <= j < |c.stage|
        ensures c.stage[j] == Done
      {
        assert c.stage[j] != Queued && c.stage[j] != Unsent;
        assert Busy(j) !in c.workers;
      }
      NotDoneZero(c.stage);
      assert Enabled(r, s, Pass);
    }
  }
}
