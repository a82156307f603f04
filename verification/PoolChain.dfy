/**
  Rounds with spawns, one after another: when the registry a round leaves is again one
  the next round can start from, and what a whole run of such rounds denotes.
 */
module PoolChain {
  import opened Life
  import opened Chunks
  import opened Storage
  import opened RegistryModel
  import opened Refinement
  import opened WorkerPool
  import opened PoolRuns
  import opened PoolDeterminism
  import opened PoolWorld
  import opened PoolSpawns
  import Runs

  // ----- Saves -----

  /** If this step saves a chunk, no spawn has landed on it since its SetRows. */
  ghost predicate CleanSave(r: Round, s: Sys, a: Action)
    requires Shaped(r, s) && Enabled(r, s, a)
  {
    a.Work? && s.c.stage[s.c.workers[a.w].j] == Saving && r.ids[s.c.workers[a.w].j] !in r.env.saveFails ==>
      forall x: nat, y: nat :: x < 64 && y < 64 ==> Handle(s.c.workers[a.w].j, x, y) !in s.d.landed
  }

  ghost predicate CleanSaves(r: Round, s: Sys, acts: seq<Action>)
    requires Legal(r, s, acts)
    decreases |acts|
  {
    |acts| > 0 ==> CleanSave(r, s, acts[0]) && CleanSaves(r, Apply(r, s, acts[0]), acts[1..])
  }

  // ----- What every step keeps -----

  /** Records lie under their own coordinates; objects registered during the round
      have counted nothing. */
  ghost predicate Tidy(r: Round, s: Sys)
  {
    Filed(s.d.store) && forall o :: |r.ids| <= o < |s.d.heap| ==> s.d.heap[o].idle == 0
  }

  lemma StepKeepsTidy(r: Round, s: Sys, a: Action)
    requires Shaped(r, s) && Enabled(r, s, a) && Tidy(r, s)
    ensures Tidy(r, Apply(r, s, a))
  {
    hide Mark, Encode, Hydrate;
  }

  /** Nothing is stored with a cell, and nothing was loaded with one. */
  ghost predicate Bare(r: Round, s: Sys)
  {
    && StoreEmpty(s.d.store) && |s.d.base| == |s.d.heap|
    && forall o :: |r.ids| <= o < |s.d.base| ==> s.d.base[o] == NO_ROWS
  }

  /** Only a save can store a cell. */
  lemma StoreStays(r: Round, s: Sys, a: Action)
    requires Shaped(r, s) && Enabled(r, s, a)
    ensures var j := if a.Work? then s.c.workers[a.w].j else 0;
      var t := Apply(r, s, a);
      t.d.store != s.d.store ==>
        && a.Work? && s.c.stage[j] == Saving && r.ids[j] !in r.env.saveFails
        && t.d.store == s.d.store[r.ids[j] := Saved(r.ids[j], s.d.heap[j].rows)]
  {
    hide Saved, Mark, NewEntry;
  }

  lemma CleanStoreStays(r: Round, s: Sys, a: Action)
    requires DataInv(r, s) && Enabled(r, s, a) && CleanSave(r, s, a) && StoreEmpty(s.d.store)
    ensures StoreEmpty(Apply(r, s, a).d.store)
  {
    StoreStays(r, s, a);
    if Apply(r, s, a).d.store != s.d.store {
      SaveStaysEmptyIff(r, s, a.w);
    }
    hide DataInv, Enabled, Apply, Saved, Decode, CleanSave;
  }

  lemma BaseStays(r: Round, s: Sys, a: Action)
    requires Shaped(r, s) && Enabled(r, s, a) && StoreEmpty(s.d.store)
    requires forall o :: |r.ids| <= o < |s.d.base| ==> s.d.base[o] == NO_ROWS
    ensures var t := Apply(r, s, a);
      |t.d.base| == |t.d.heap| && forall o :: |r.ids| <= o < |t.d.base| ==> t.d.base[o] == NO_ROWS
  {
    hide Saved, Mark, Decode;
  }

  lemma StepKeepsBare(r: Round, s: Sys, a: Action)
    requires DataInv(r, s) && Enabled(r, s, a) && CleanSave(r, s, a) && Bare(r, s)
    ensures Bare(r, Apply(r, s, a))
  {
    CleanStoreStays(r, s, a);
    BaseStays(r, s, a);
    hide DataInv, Enabled, Apply, CleanSave, StoreEmpty;
  }

  lemma {:induction false} ExecKeeps(r: Round, s: Sys, acts: seq<Action>)
    requires GoodRound(r) && DataInv(r, s) && Barrier(s.c) && Legal(r, s, acts) && Tidy(r, s)
    ensures Tidy(r, Exec(r, s, acts))
    ensures Bare(r, s) && CleanSaves(r, s, acts) ==> Bare(r, Exec(r, s, acts))
    decreases |acts|
  {
    hide DataInv, Barrier, Apply, GoodRound, Shaped, Enabled, Tidy, Bare, CleanSave;
    if |acts| > 0 {
      StepKeepsData(r, s, acts[0]);
      StepKeepsBarrier(r, s, acts[0]);
      StepKeepsTidy(r, s, acts[0]);
      if Bare(r, s) && CleanSave(r, s, acts[0]) {
        StepKeepsBare(r, s, acts[0]);
      }
      ExecKeeps(r, Apply(r, s, acts[0]), acts[1..]);
    }
  }

  // ----- A stored cell stays stored -----

  /** Job `j` is past its save, and its chunk is stored with a cell. */
  ghost predicate Spoilt(r: Round, s: Sys, j: nat)
  {
    && |s.c.stage| == |r.ids| && j < |r.ids| && PastSave(s.c.stage[j])
    && r.ids[j] in s.d.store && Decode(s.d.store[r.ids[j]].cells) != NO_ROWS
  }

  lemma PastSaveStays(r: Round, s: Sys, a: Action, j: nat)
    requires Shaped(r, s) && Barrier(s.c) && Enabled(r, s, a) && j < |r.ids| && PastSave(s.c.stage[j])
    ensures |Apply(r, s, a).c.stage| == |r.ids| && PastSave(Apply(r, s, a).c.stage[j])
  {
    hide WorkD, GetHandleD, LandD;
    if a.Take? {
      assert s.c.stage[s.c.queue[0]] == Queued;
    }
  }

  lemma SpoiltStays(r: Round, s: Sys, a: Action, j: nat)
    requires GoodRound(r) && Shaped(r, s) && Barrier(s.c) && Enabled(r, s, a) && Spoilt(r, s, j)
    ensures Spoilt(r, Apply(r, s, a), j)
  {
    PastSaveStays(r, s, a, j);
    StoreStays(r, s, a);
    if Apply(r, s, a).d.store != s.d.store {
      var i := s.c.workers[a.w].j;
      if r.ids[i] == r.ids[j] {
        Distinct(r, i, j);
      }
    }
    hide Apply, Barrier, GoodRound, Saved, Decode;
  }

  lemma {:induction false} ExecSpoilt(r: Round, s: Sys, acts: seq<Action>, j: nat)
    requires GoodRound(r) && DataInv(r, s) && Barrier(s.c) && Legal(r, s, acts) && Spoilt(r, s, j)
    ensures Spoilt(r, Exec(r, s, acts), j)
    decreases |acts|
  {
    hide DataInv, Barrier, Apply, GoodRound, Shaped, Enabled, Spoilt;
    if |acts| > 0 {
      StepKeepsData(r, s, acts[0]);
      StepKeepsBarrier(r, s, acts[0]);
      SpoiltStays(r, s, acts[0], j);
      ExecSpoilt(r, Apply(r, s, acts[0]), acts[1..], j);
    }
  }

  /** A save that is not clean spoils its chunk. */
  lemma DirtySpoils(r: Round, s: Sys, a: Action) returns (j: nat)
    requires DataInv(r, s) && Enabled(r, s, a) && !CleanSave(r, s, a)
    ensures Spoilt(r, Apply(r, s, a), j)
  {
    j := s.c.workers[a.w].j;
    SaveStaysEmptyIff(r, s, a.w);
    AfterSave(r, s, a.w);
    hide DataInv, Enabled, Apply, CleanSave, Decode, Saved;
  }

  lemma AfterSave(r: Round, s: Sys, w: nat)
    requires Shaped(r, s) && Enabled(r, s, Work(w)) && s.c.stage[s.c.workers[w].j] == Saving
    requires r.ids[s.c.workers[w].j] !in r.env.saveFails
    ensures var t, j := Apply(r, s, Work(w)), s.c.workers[w].j;
      |t.c.stage| == |r.ids| && t.c.stage[j] == Evicting && r.ids[j] in t.d.store
  {
    hide Saved;
  }

  lemma {:induction false} EmptyMeansClean(r: Round, s: Sys, acts: seq<Action>)
    requires GoodRound(r) && DataInv(r, s) && Barrier(s.c) && Legal(r, s, acts)
    requires StoreEmpty(Exec(r, s, acts).d.store)
    ensures CleanSaves(r, s, acts)
    decreases |acts|
  {
    hide DataInv, Barrier, Apply, GoodRound, Shaped, Enabled, CleanSave, Decode;
    if |acts| > 0 {
      StepKeepsData(r, s, acts[0]);
      StepKeepsBarrier(r, s, acts[0]);
      if !CleanSave(r, s, acts[0]) {
        var j := DirtySpoils(r, s, acts[0]);
        ExecSpoilt(r, Apply(r, s, acts[0]), acts[1..], j);
      }
      EmptyMeansClean(r, Apply(r, s, acts[0]), acts[1..]);
    }
  }

  // ----- One round -----

  /** An atomic event, or a round whose worker phase players' spawns land in. */
  datatype Play =
    | Atomic(e: Runs.Event)
    | Concurrent(env: Env, ids: seq<ChunkID>, capacity: nat, workers: nat, acts: seq<Action>)

  ghost function RoundOf(s: State, p: Play): Round
    requires p.Concurrent?
  {
    FanOut(s, p.env, p.ids, p.capacity)
  }

  /** A round can be played out on `s` up to its barrier. */
  ghost predicate Playable(s: State, p: Play)
  {
    p.Concurrent? ==>
      var r := RoundOf(s, p);
      GoodRound(r) && Legal(r, Init(r, p.workers), p.acts) && Exec(r, Init(r, p.workers), p.acts).c.passed
  }

  ghost function EndOf(s: State, p: Play): Sys
    requires p.Concurrent? && Playable(s, p)
  {
    Exec(RoundOf(s, p), Init(RoundOf(s, p), p.workers), p.acts)
  }

  /** No save of the round stored a spawn that had slipped in. */
  ghost predicate Clean(s: State, p: Play)
    requires Playable(s, p)
  {
    p.Concurrent? ==> CleanSaves(RoundOf(s, p), Init(RoundOf(s, p), p.workers), p.acts)
  }

  /** The points asked for during the round that it kept. */
  ghost function KeptIn(s: State, p: Play): iset<Point>
    requires p.Concurrent? && Playable(s, p)
  {
    Kept(RoundOf(s, p), p.workers, p.acts)
  }

  lemma InitIsBare(s: State, p: Play)
    requires p.Concurrent? && Playable(s, p) && Runs.Inv(s)
    ensures var r := RoundOf(s, p); Tidy(r, Init(r, p.workers)) && Bare(r, Init(r, p.workers))
  {
    hide StoreEmpty;
  }

  /** What the registry's value is made of at the barrier. */
  lemma EndView(s: State, p: Play)
    requires p.Concurrent? && Playable(s, p) && Runs.Inv(s)
    ensures var r, t := RoundOf(s, p), EndOf(s, p);
      && Settled(r, t) && Tidy(r, t)
      && (CleanSaves(r, Init(r, p.workers), p.acts) <==> StoreEmpty(t.d.store))
      && (CleanSaves(r, Init(r, p.workers), p.acts) ==> Bare(r, t))
  {
    var r := RoundOf(s, p);
    InitIsBare(s, p);
    InitInv(r, p.workers);
    RoundSettles(r, p.workers, p.acts);
    ExecKeeps(r, Init(r, p.workers), p.acts);
    hide RoundOf, Init, DataInv, Barrier, GoodRound, Legal, Exec, CleanSaves, Settled, StoreEmpty, Tidy, Runs.Inv;
    if StoreEmpty(EndOf(s, p).d.store) {
      EmptyMeansClean(r, Init(r, p.workers), p.acts);
    }
  }

  /** Counters of what is registered are below the threshold, and the gauge counts it. */
  lemma SettledCounts(r: Round, t: Sys)
    requires Settled(r, t) && Tidy(r, t)
    ensures forall id :: id in t.d.reg ==> t.d.reg[id] < |t.d.heap|
    ensures var v := ViewOf(t.d);
      && v.gauge == |v.active| && v.store == t.d.store
      && forall id :: id in v.active ==> v.active[id].idle < HIBERNATION_THRESHOLD
  {
    hide JobOk, Shows;
    var v := ViewOf(t.d);
    assert v.active.Keys == t.d.reg.Keys;
    assert |v.active| == |v.active.Keys| && |t.d.reg| == |t.d.reg.Keys|;
    forall id | id in t.d.reg
      ensures t.d.heap[t.d.reg[id]].idle < HIBERNATION_THRESHOLD
    {
      var o := t.d.reg[id];
      if o < |r.ids| {
        assert Fate(r, t.c.stage[o], t.d, o) && OwnRegistered(r, t.d, o);
      }
    }
  }

  /** The registry a round leaves is one the next can start from exactly if no save of
      the round stored a spawn that had slipped in; and then the world is the next
      generation and the points that were asked for and kept. */
  lemma RoundChains(s: State, p: Play)
    requires p.Concurrent? && Playable(s, p) && Runs.Inv(s)
    ensures forall id :: id in EndOf(s, p).d.reg ==> EndOf(s, p).d.reg[id] < |EndOf(s, p).d.heap|
    ensures Runs.Inv(ViewOf(EndOf(s, p).d)) <==> Clean(s, p)
    ensures Clean(s, p) ==> Denote(ViewOf(EndOf(s, p).d)) == Next(Denote(s)) + KeptIn(s, p)
  {
    var r, t := RoundOf(s, p), EndOf(s, p);
    EndView(s, p);
    SettledCounts(r, t);
    WorldAfterSpawns(s, p.env, p.ids, p.capacity, p.workers, p.acts);
    hide RoundOf, DataInv, Fates, GoodRound, Legal, Exec, CleanSaves, StoreEmpty, Filed, ViewOf, Denote, Next, Init,
         FanOut;
    if Clean(s, p) {
      NothingLoaded(t.d, |p.ids|);
    }
  }

  lemma NothingLoaded(d: Data, n: nat)
    requires (forall id :: id in d.reg ==> d.reg[id] < |d.base|)
    requires forall o :: n <= o < |d.base| ==> d.base[o] == NO_ROWS
    ensures LoadedCells(d, n) == iset{}
  {
    NoRowsDark();
  }

  // ----- Runs -----

  ghost function Played(s: State, p: Play): State
    requires Runs.Inv(s) && Playable(s, p)
  {
    match p
    case Atomic(e) => Runs.Step(s, e)
    case Concurrent(_, _, _, _, _) =>
      RoundChains(s, p);
      ViewOf(EndOf(s, p).d)
  }

  /** One play of the specification: a round adds what was asked for and kept. */
  ghost function SpecPlay(W: iset<Point>, s: State, p: Play): iset<Point>
    requires Playable(s, p)
  {
    match p
    case Atomic(e) => Runs.SpecStep(W, e)
    case Concurrent(_, _, _, _, _) => Next(W) + KeptIn(s, p)
  }

  lemma PlayRefines(s: State, p: Play)
    requires Runs.Inv(s) && Playable(s, p)
    ensures Runs.Inv(Played(s, p)) <==> Clean(s, p)
    ensures Clean(s, p) ==> Denote(Played(s, p)) == SpecPlay(Denote(s), s, p)
  {
    match p
    case Atomic(e) => Runs.StepRefines(s, e);
    case Concurrent(_, _, _, _, _) =>
      RoundChains(s, p);
    hide Runs.Inv, Runs.Step, Runs.SpecStep, Denote, Next, KeptIn, ViewOf, EndOf, Playable;
  }

  /** Every play can be played out, and no round of them stored a spawn. */
  ghost predicate CleanPlays(s: State, ps: seq<Play>)
    requires Runs.Inv(s)
    decreases |ps|
  {
    |ps| > 0 ==>
      Playable(s, ps[0]) && Clean(s, ps[0]) && (PlayRefines(s, ps[0]); CleanPlays(Played(s, ps[0]), ps[1..]))
  }

  ghost function PlayAll(s: State, ps: seq<Play>): State
    requires Runs.Inv(s) && CleanPlays(s, ps)
    decreases |ps|
  {
    if |ps| == 0 then s
    else
      PlayRefines(s, ps[0]);
      PlayAll(Played(s, ps[0]), ps[1..])
  }

  ghost function SpecPlays(W: iset<Point>, s: State, ps: seq<Play>): iset<Point>
    requires Runs.Inv(s) && CleanPlays(s, ps)
    decreases |ps|
  {
    if |ps| == 0 then W
    else
      PlayRefines(s, ps[0]);
      SpecPlays(SpecPlay(W, s, ps[0]), Played(s, ps[0]), ps[1..])
  }

  /** Every run of spawns, wake-ups and rounds with spawns of their own, as long as no
      spawn slips between a count and a save: the registry stays in order and denotes
      what the set-based run does. */
  lemma {:induction false} PlaysRefine(s: State, ps: seq<Play>)
    requires Runs.Inv(s) && CleanPlays(s, ps)
    ensures Runs.Inv(PlayAll(s, ps)) && Denote(PlayAll(s, ps)) == SpecPlays(Denote(s), s, ps)
    decreases |ps|
  {
    hide Runs.Inv, Denote, Played, Playable, Clean, SpecPlay;
    if |ps| > 0 {
      PlayRefines(s, ps[0]);
      PlaysRefine(Played(s, ps[0]), ps[1..]);
    }
  }
}
