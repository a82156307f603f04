/**
  Spawns during a round, from the actions alone: which of the cells players asked for
  the registry shows when the barrier opens.
 */
module PoolSpawns {
  import opened Life
  import opened Chunks
  import opened Storage
  import opened RegistryModel
  import opened WorkerPool
  import opened PoolRuns
  import opened PoolDeterminism
  import opened PoolWorld
  import Runs

  // ----- One spawn -----

  /** The registry points at objects of the right chunk. */
  ghost predicate Points(d: Data)
  {
    forall c :: c in d.reg ==> d.reg[c] < |d.heap| && d.heap[d.reg[c]].id == c
  }

  /** Getting a handle is GetOrCreate on the registry's value, and the handle holds the
      object the registry has for the chunk, with the cell asked for. */
  lemma GetHandleIsWake(d: Data, id: ChunkID, x: nat, y: nat, fails: bool)
    requires forall k :: k in d.reg ==> d.reg[k] < |d.heap|
    ensures var e := GetHandleD(d, id, x, y, fails);
      && (forall k :: k in e.reg ==> e.reg[k] < |e.heap|)
      && id in e.reg && e.handles == d.handles + [Handle(e.reg[id], x, y)]
      && ViewOf(e) == Wake(ViewOf(d), {id}, if fails then {id} else {})
  {
    HandleView(d, id, x, y, fails);
    var loadFails := if fails then {id} else {};
    assert id in loadFails <==> fails;
    hide GetHandleD, ViewOf, Wake, NewEntry;
    WakeByKeys(ViewOf(d), ViewOf(GetHandleD(d, id, x, y, fails)), id, loadFails);
  }

  lemma HandleView(d: Data, id: ChunkID, x: nat, y: nat, fails: bool)
    requires forall k :: k in d.reg ==> d.reg[k] < |d.heap|
    ensures var e := GetHandleD(d, id, x, y, fails);
      && (forall k :: k in e.reg ==> e.reg[k] < |e.heap|)
      && id in e.reg && e.handles == d.handles + [Handle(e.reg[id], x, y)]
      && var v, w := ViewOf(d), ViewOf(e);
        && w.active.Keys == v.active.Keys + {id} && w.store == v.store
        && (forall k :: k in v.active ==> w.active[k] == v.active[k])
        && (id !in v.active ==> w.active[id] == NewEntry(v.store, id, fails))
        && w.gauge == v.gauge + if id in v.active then 0 else 1
  {
    hide Hydrate;
  }

  /** A cell landing on a chunk the registry holds is set in the registry's value, and
      adds that one point to its world. */
  lemma LandMarks(d: Data, k: nat, id: ChunkID, x: nat, y: nat)
    requires Points(d)
    requires k < |d.handles| && id in d.reg && d.handles[k] == Handle(d.reg[id], x, y) && x < 64 && y < 64
    ensures var e, v := LandD(d, k), ViewOf(d);
      && Points(e)
      && ViewOf(e) == v.(active := v.active[id := v.active[id].(rows := Mark(v.active[id].rows, x, y))])
      && Denote(ViewOf(e)) == Denote(v) + iset{WorldPoint(id, x, y)}
  {
    SplitsTo(id, x, y);
    LandSets(d, k, id, x, y);
    Runs.MarkDenotes(ViewOf(d), WorldPoint(id, x, y));
    hide Mark, LandD, Denote, WorldPoint, ChunkOf;
  }

  lemma LandSets(d: Data, k: nat, id: ChunkID, x: nat, y: nat)
    requires Points(d)
    requires k < |d.handles| && id in d.reg && d.handles[k] == Handle(d.reg[id], x, y) && x < 64 && y < 64
    ensures var e, v := LandD(d, k), ViewOf(d);
      && Points(e)
      && ViewOf(e) == v.(active := v.active[id := v.active[id].(rows := Mark(v.active[id].rows, x, y))])
  {
    hide Mark;
    var e, v := LandD(d, k), ViewOf(d);
    var after := v.active[id := v.active[id].(rows := Mark(v.active[id].rows, x, y))];
    assert ViewOf(e).active.Keys == after.Keys;
    forall c | c in d.reg
      ensures ViewOf(e).active[c] == after[c]
    {
      if c != id {
        assert d.heap[d.reg[c]].id == c && d.heap[d.reg[id]].id == id;
      }
    }
  }

  lemma PointsRight(r: Round, s: Sys)
    requires DataInv(r, s)
    ensures Points(s.d)
  {
  }

  /** A cell asked for in the worker phase and landed at once is spawnWorldCell of its
      point, whether its chunk was registered or is loaded for it. */
  lemma GetThenLand(d: Data, id: ChunkID, x: nat, y: nat, fails: bool)
    requires Points(d) && x < 64 && y < 64
    ensures var e := GetHandleD(d, id, x, y, fails);
      && Points(e) && |d.handles| < |e.handles| && e.handles[|d.handles|] == Handle(e.reg[id], x, y)
      && Points(LandD(e, |d.handles|))
      && ViewOf(LandD(e, |d.handles|)) == Runs.SpawnOne(ViewOf(d), WorldPoint(id, x, y), fails)
  {
    var e := GetHandleD(d, id, x, y, fails);
    assert Points(e);
    GetHandleIsWake(d, id, x, y, fails);
    LandPoints(e, |d.handles|);
    LandSets(e, |d.handles|, id, x, y);
    SplitsTo(id, x, y);
    hide Wake, Mark, ViewOf, LandD, GetHandleD, WorldPoint, ChunkOf;
  }

  lemma LandPoints(d: Data, k: nat)
    requires Points(d) && k < |d.handles| && d.handles[k].ref < |d.heap| && d.handles[k].x < 64 && d.handles[k].y < 64
    ensures Points(LandD(d, k))
  {
    hide Mark;
  }

  lemma SplitsTo(id: ChunkID, x: nat, y: nat)
    requires x < 64 && y < 64
    ensures var p := WorldPoint(id, x, y); ChunkOf(p) == id && p.x % 64 == x && p.y % 64 == y
  {
  }

  // ----- Runs, action by action -----

  /** The system before action `t`. */
  ghost function At(r: Round, s: Sys, acts: seq<Action>, t: nat): Sys
    requires Legal(r, s, acts) && t <= |acts|
    decreases t
  {
    if t == 0 then s else At(r, Apply(r, s, acts[0]), acts[1..], t - 1)
  }

  lemma {:induction false} AtStep(r: Round, s: Sys, acts: seq<Action>, t: nat)
    requires Legal(r, s, acts) && t < |acts|
    ensures var now := At(r, s, acts, t);
      Shaped(r, now) && Enabled(r, now, acts[t]) && At(r, s, acts, t + 1) == Apply(r, now, acts[t])
    decreases t
  {
    hide Shaped, Enabled, Apply;
    if t > 0 {
      AtStep(r, Apply(r, s, acts[0]), acts[1..], t - 1);
    }
  }

  lemma {:induction false} AtEnd(r: Round, s: Sys, acts: seq<Action>)
    requires Legal(r, s, acts)
    ensures At(r, s, acts, |acts|) == Exec(r, s, acts)
    decreases |acts|
  {
    hide Shaped, Enabled, Apply;
    if |acts| > 0 {
      AtEnd(r, Apply(r, s, acts[0]), acts[1..]);
    }
  }

  lemma {:induction false} AtInv(r: Round, s: Sys, acts: seq<Action>, t: nat)
    requires GoodRound(r) && DataInv(r, s) && Barrier(s.c) && Legal(r, s, acts) && t <= |acts|
    ensures DataInv(r, At(r, s, acts, t)) && Barrier(At(r, s, acts, t).c)
    decreases t
  {
    hide DataInv, Barrier, Apply, GoodRound, Shaped, Enabled;
    if t > 0 {
      StepKeepsData(r, s, acts[0]);
      StepKeepsBarrier(r, s, acts[0]);
      AtInv(r, Apply(r, s, acts[0]), acts[1..], t - 1);
    }
  }

  /** The GetHandle actions whose cells have not landed before action `t`, by number
      and in the order the handles are held. */
  function Open(acts: seq<Action>, t: nat): seq<nat>
    requires t <= |acts|
  {
    if t == 0 then []
    else
      var before := Open(acts, t - 1);
      match acts[t - 1]
      case GetHandle(_, _, _, _) => before + [t - 1]
      case Land(k) => if k < |before| then before[..k] + before[k + 1..] else before
      case _ => before
  }

  /** Action `u` lands the cell asked for by action `i`. */
  predicate LandsAt(acts: seq<Action>, u: nat, i: nat)
    requires u < |acts|
  {
    acts[u].Land? && acts[u].h < |Open(acts, u)| && Open(acts, u)[acts[u].h] == i
  }

  /** The object action `i` gets: the registered one, or a new one. */
  ghost function RefAt(r: Round, s: Sys, acts: seq<Action>, i: nat): nat
    requires Legal(r, s, acts) && i < |acts| && acts[i].GetHandle?
  {
    var d := At(r, s, acts, i).d;
    if acts[i].id in d.reg then d.reg[acts[i].id] else |d.heap|
  }

  /** Action `v` is the SetRows of object `o`. */
  ghost predicate WritesAt(r: Round, s: Sys, acts: seq<Action>, v: nat, o: nat)
    requires Legal(r, s, acts) && v < |acts|
  {
    acts[v].Work? &&
      var c := At(r, s, acts, v).c;
      acts[v].w < |c.workers| && c.workers[acts[v].w] == Busy(o) && o < |c.stage| && c.stage[o] == Ticking
  }

  /** The cell asked for by action `i` has landed, and not been overwritten since. */
  ghost predicate Stood(r: Round, s: Sys, acts: seq<Action>, i: nat, t: nat)
    requires Legal(r, s, acts) && i < t <= |acts| && acts[i].GetHandle?
  {
    exists u :: i < u < t && LandsAt(acts, u, i) && Untouched(r, s, acts, u, t, RefAt(r, s, acts, i))
  }

  ghost predicate Untouched(r: Round, s: Sys, acts: seq<Action>, u: nat, t: nat, o: nat)
    requires Legal(r, s, acts) && t <= |acts|
  {
    forall v :: u < v < t ==> !WritesAt(r, s, acts, v, o)
  }

  ghost function HandleOf(r: Round, s: Sys, acts: seq<Action>, i: nat): Handle
    requires Legal(r, s, acts) && i < |acts| && acts[i].GetHandle?
  {
    Handle(RefAt(r, s, acts, i), acts[i].x, acts[i].y)
  }

  /** The handles held are those of the open actions. */
  ghost predicate HandlesMatch(r: Round, s: Sys, acts: seq<Action>, t: nat)
    requires Legal(r, s, acts) && t <= |acts|
  {
    var d, open := At(r, s, acts, t).d, Open(acts, t);
    && |open| == |d.handles|
    && forall k :: 0 <= k < |open| ==>
         open[k] < t && acts[open[k]].GetHandle? && d.handles[k] == HandleOf(r, s, acts, open[k])
  }

  /** Each action got an object of the chunk it asked for. */
  ghost predicate RefsMatch(r: Round, s: Sys, acts: seq<Action>, t: nat)
    requires Legal(r, s, acts) && t <= |acts|
  {
    var d := At(r, s, acts, t).d;
    forall i :: 0 <= i < t && acts[i].GetHandle? ==>
      RefAt(r, s, acts, i) < |d.heap| && d.heap[RefAt(r, s, acts, i)].id == acts[i].id
  }

  /** What has landed on objects since their SetRows is what stands of the actions. */
  ghost predicate LandedMatch(r: Round, s: Sys, acts: seq<Action>, t: nat)
    requires Legal(r, s, acts) && t <= |acts|
  {
    forall h :: h in At(r, s, acts, t).d.landed <==> StoodFor(r, s, acts, h, t)
  }

  ghost predicate StoodFor(r: Round, s: Sys, acts: seq<Action>, h: Handle, t: nat)
    requires Legal(r, s, acts) && t <= |acts|
  {
    exists i :: 0 <= i < t && acts[i].GetHandle? && h == HandleOf(r, s, acts, i) && Stood(r, s, acts, i, t)
  }

  /** What any action does to the handles held. */
  lemma HandlesAfter(r: Round, s: Sys, a: Action)
    requires Shaped(r, s) && Enabled(r, s, a)
    ensures var d, e := s.d, Apply(r, s, a).d;
      && (a.GetHandle? ==>
            e.handles == d.handles + [Handle(if a.id in d.reg then d.reg[a.id] else |d.heap|, a.x, a.y)])
      && (a.Land? ==> a.h < |d.handles| && e.handles == d.handles[..a.h] + d.handles[a.h + 1..])
      && (!a.GetHandle? && !a.Land? ==> e.handles == d.handles)
  {
    if a.Work? {
      WorkHandles(r, s, a.w);
    }
    hide WorkD, AdvanceC, NewEntry, Mark;
  }

  lemma HandlesStep(r: Round, s: Sys, acts: seq<Action>, t: nat)
    requires Legal(r, s, acts) && t < |acts| && HandlesMatch(r, s, acts, t)
    ensures HandlesMatch(r, s, acts, t + 1)
  {
    AtStep(r, s, acts, t);
    HandlesAfter(r, At(r, s, acts, t), acts[t]);
    hide At, Legal, Apply, Enabled, Shaped, Open, HandlesMatch;
    match acts[t]
    case GetHandle(_, _, _, _) => HandleJoins(r, s, acts, t);
    case Land(_) => HandleLeaves(r, s, acts, t);
    case _ => HandlesStay(r, s, acts, t);
  }

  lemma HandleJoins(r: Round, s: Sys, acts: seq<Action>, t: nat)
    requires Legal(r, s, acts) && t < |acts| && HandlesMatch(r, s, acts, t) && acts[t].GetHandle?
    requires At(r, s, acts, t + 1).d.handles == At(r, s, acts, t).d.handles + [HandleOf(r, s, acts, t)]
    ensures HandlesMatch(r, s, acts, t + 1)
  {
    assert Open(acts, t + 1) == Open(acts, t) + [t];
    hide At, Legal, HandleOf, Open;
  }

  lemma HandleLeaves(r: Round, s: Sys, acts: seq<Action>, t: nat)
    requires Legal(r, s, acts) && t < |acts| && HandlesMatch(r, s, acts, t) && acts[t].Land?
    requires var k, d := acts[t].h, At(r, s, acts, t).d;
      k < |d.handles| && At(r, s, acts, t + 1).d.handles == d.handles[..k] + d.handles[k + 1..]
    ensures HandlesMatch(r, s, acts, t + 1)
  {
    var k := acts[t].h;
    assert Open(acts, t + 1) == Open(acts, t)[..k] + Open(acts, t)[k + 1..];
    hide At, Legal, HandleOf, Open;
  }

  lemma HandlesStay(r: Round, s: Sys, acts: seq<Action>, t: nat)
    requires Legal(r, s, acts) && t < |acts| && HandlesMatch(r, s, acts, t) && !acts[t].GetHandle? && !acts[t].Land?
    requires At(r, s, acts, t + 1).d.handles == At(r, s, acts, t).d.handles
    ensures HandlesMatch(r, s, acts, t + 1)
  {
    assert Open(acts, t + 1) == Open(acts, t);
    hide At, Legal, HandleOf, Open;
  }

  lemma WorkHandles(r: Round, s: Sys, w: nat)
    requires Shaped(r, s) && Enabled(r, s, Work(w))
    ensures var t, j := Apply(r, s, Work(w)), s.c.workers[w].j;
      && t.d.handles == s.d.handles && |t.d.heap| == |s.d.heap|
      && (forall o :: 0 <= o < |s.d.heap| ==> t.d.heap[o].id == s.d.heap[o].id)
      && (forall h :: h in t.d.landed <==> h in s.d.landed && !(s.c.stage[j] == Ticking && h.ref == j))
  {
    hide Saved, AdvanceC, NextStage;
  }

  /** Objects keep their chunk, and a new handle has one of the chunk asked for. */
  lemma IdsStay(r: Round, s: Sys, a: Action)
    requires Shaped(r, s) && Enabled(r, s, a) && Points(s.d)
    ensures var t := Apply(r, s, a);
      && |s.d.heap| <= |t.d.heap| && (forall o :: 0 <= o < |s.d.heap| ==> t.d.heap[o].id == s.d.heap[o].id)
      && (a.GetHandle? ==>
            var ref := if a.id in s.d.reg then s.d.reg[a.id] else |s.d.heap|;
            ref < |t.d.heap| && t.d.heap[ref].id == a.id)
  {
    if a.Work? {
      WorkHandles(r, s, a.w);
    }
    hide WorkD, AdvanceC, NewEntry, Mark;
  }

  lemma RefsStep(r: Round, s: Sys, acts: seq<Action>, t: nat)
    requires Legal(r, s, acts) && t < |acts| && DataInv(r, At(r, s, acts, t)) && RefsMatch(r, s, acts, t)
    ensures RefsMatch(r, s, acts, t + 1)
  {
    AtStep(r, s, acts, t);
    PointsRight(r, At(r, s, acts, t));
    IdsStay(r, At(r, s, acts, t), acts[t]);
    hide At, Legal, Apply, Enabled, Shaped, DataInv;
  }

  /** What one more action does to a cell that has landed. */
  lemma StoodStays(r: Round, s: Sys, acts: seq<Action>, i: nat, t: nat)
    requires Legal(r, s, acts) && i < t < |acts| && acts[i].GetHandle?
    ensures Stood(r, s, acts, i, t + 1) <==>
      (Stood(r, s, acts, i, t) && !WritesAt(r, s, acts, t, RefAt(r, s, acts, i))) || LandsAt(acts, t, i)
  {
    var o := RefAt(r, s, acts, i);
    hide RefAt, WritesAt, LandsAt, Legal;
    if Stood(r, s, acts, i, t + 1) {
      var u :| i < u < t + 1 && LandsAt(acts, u, i) && Untouched(r, s, acts, u, t + 1, o);
      if u < t {
        UntouchedStep(r, s, acts, u, t, o);
      }
    }
    hide Untouched;
    if Stood(r, s, acts, i, t) && !WritesAt(r, s, acts, t, o) {
      var u :| i < u < t && LandsAt(acts, u, i) && Untouched(r, s, acts, u, t, o);
      UntouchedStep(r, s, acts, u, t, o);
    }
    UntouchedAtOnce(r, s, acts, t, o);
  }

  lemma UntouchedStep(r: Round, s: Sys, acts: seq<Action>, u: nat, t: nat, o: nat)
    requires Legal(r, s, acts) && u < t < |acts|
    ensures Untouched(r, s, acts, u, t + 1, o) <==> Untouched(r, s, acts, u, t, o) && !WritesAt(r, s, acts, t, o)
  {
    hide WritesAt, Legal;
  }

  lemma UntouchedAtOnce(r: Round, s: Sys, acts: seq<Action>, u: nat, o: nat)
    requires Legal(r, s, acts) && u < |acts|
    ensures Untouched(r, s, acts, u, u + 1, o)
  {
    hide WritesAt, Legal;
  }

  lemma FreshHasNotStood(r: Round, s: Sys, acts: seq<Action>, t: nat)
    requires Legal(r, s, acts) && t < |acts| && acts[t].GetHandle?
    ensures !Stood(r, s, acts, t, t + 1)
  {
  }

  lemma StoodForStep(r: Round, s: Sys, acts: seq<Action>, h: Handle, t: nat)
    requires Legal(r, s, acts) && t < |acts|
    ensures StoodFor(r, s, acts, h, t + 1) <==>
      (StoodFor(r, s, acts, h, t) && !WritesAt(r, s, acts, t, h.ref)) || LandsNow(r, s, acts, h, t)
  {
    hide Stood, WritesAt, Legal, LandsAt, RefAt;
    forall i | 0 <= i < t && acts[i].GetHandle?
      ensures Stood(r, s, acts, i, t + 1) <==>
        (Stood(r, s, acts, i, t) && !WritesAt(r, s, acts, t, RefAt(r, s, acts, i))) || LandsAt(acts, t, i)
    {
      StoodStays(r, s, acts, i, t);
    }
    if acts[t].GetHandle? {
      FreshHasNotStood(r, s, acts, t);
    }
  }

  ghost predicate LandsNow(r: Round, s: Sys, acts: seq<Action>, h: Handle, t: nat)
    requires Legal(r, s, acts) && t < |acts|
  {
    exists i :: 0 <= i < t && acts[i].GetHandle? && h == HandleOf(r, s, acts, i) && LandsAt(acts, t, i)
  }

  lemma LandedStep(r: Round, s: Sys, acts: seq<Action>, t: nat)
    requires Legal(r, s, acts) && t < |acts| && HandlesMatch(r, s, acts, t) && LandedMatch(r, s, acts, t)
    ensures LandedMatch(r, s, acts, t + 1)
  {
    AtStep(r, s, acts, t);
    var now := At(r, s, acts, t);
    forall h: Handle {:trigger StoodFor(r, s, acts, h, t + 1)}
      ensures h in At(r, s, acts, t + 1).d.landed <==> StoodFor(r, s, acts, h, t + 1)
    {
      StoodForStep(r, s, acts, h, t);
      LandedNow(r, s, acts, h, t);
    }
  }

  lemma LandedNow(r: Round, s: Sys, acts: seq<Action>, h: Handle, t: nat)
    requires Legal(r, s, acts) && t < |acts| && HandlesMatch(r, s, acts, t)
    ensures h in At(r, s, acts, t + 1).d.landed <==>
      (h in At(r, s, acts, t).d.landed && !WritesAt(r, s, acts, t, h.ref)) || LandsNow(r, s, acts, h, t)
  {
    AtStep(r, s, acts, t);
    var now := At(r, s, acts, t);
    if acts[t].Work? {
      WorkHandles(r, now, acts[t].w);
    }
    hide At, Legal, WorkD, AdvanceC, NewEntry, Mark, NextStage, RefAt;
    if acts[t].Land? {
      var i := Open(acts, t)[acts[t].h];
      assert LandsAt(acts, t, i);
    }
  }

  lemma {:induction false} ActionsMatch(r: Round, s: Sys, acts: seq<Action>, t: nat)
    requires GoodRound(r) && DataInv(r, s) && Barrier(s.c) && Legal(r, s, acts) && t <= |acts|
    requires s.d.handles == [] && s.d.landed == {}
    ensures HandlesMatch(r, s, acts, t) && RefsMatch(r, s, acts, t) && LandedMatch(r, s, acts, t)
  {
    hide HandlesMatch, RefsMatch, LandedMatch, DataInv, Barrier, GoodRound, Legal;
    if t == 0 {
      NothingYet(r, s, acts);
    } else {
      ActionsMatch(r, s, acts, t - 1);
      AtInv(r, s, acts, t - 1);
      HandlesStep(r, s, acts, t - 1);
      RefsStep(r, s, acts, t - 1);
      LandedStep(r, s, acts, t - 1);
    }
  }

  lemma NothingYet(r: Round, s: Sys, acts: seq<Action>)
    requires Legal(r, s, acts) && s.d.handles == [] && s.d.landed == {}
    ensures HandlesMatch(r, s, acts, 0) && RefsMatch(r, s, acts, 0) && LandedMatch(r, s, acts, 0)
  {
  }

  // ----- At the barrier -----

  /** Action `i` asked for `p`, its cell landed after its object's SetRows, and the
      registry still holds that object. */
  ghost predicate KeptBy(r: Round, workers: nat, acts: seq<Action>, i: nat, p: Point)
    requires GoodRound(r) && Legal(r, Init(r, workers), acts) && i < |acts|
  {
    var s, d := Init(r, workers), Exec(r, Init(r, workers), acts).d;
    && acts[i].GetHandle?
    && p.x == 64 * acts[i].id.X + acts[i].x && p.y == 64 * acts[i].id.Y + acts[i].y
    && Stood(r, s, acts, i, |acts|)
    && acts[i].id in d.reg && d.reg[acts[i].id] == RefAt(r, s, acts, i)
  }

  ghost predicate AskedAndKept(r: Round, workers: nat, acts: seq<Action>, p: Point)
    requires GoodRound(r) && Legal(r, Init(r, workers), acts)
  {
    exists i :: 0 <= i < |acts| && KeptBy(r, workers, acts, i, p)
  }

  /** The points players asked for that the round kept. */
  ghost function Kept(r: Round, workers: nat, acts: seq<Action>): iset<Point>
    requires GoodRound(r) && Legal(r, Init(r, workers), acts)
  {
    iset p: Point | AskedAndKept(r, workers, acts, p)
  }

  /** They are exactly the spawns the registry shows. */
  lemma SpawnedIsKept(r: Round, workers: nat, acts: seq<Action>)
    requires GoodRound(r) && Legal(r, Init(r, workers), acts)
    ensures Spawned(Exec(r, Init(r, workers), acts).d) == Kept(r, workers, acts)
  {
    var s := Init(r, workers);
    InitInv(r, workers);
    InitHolds(r, workers);
    ActionsMatch(r, s, acts, |acts|);
    AtEnd(r, s, acts);
    ExecInv(r, s, acts);
    assert AtTheEnd(r, workers, acts);
    hide *;
    forall p
      ensures p in Spawned(Exec(r, s, acts).d) <==> p in Kept(r, workers, acts)
    {
      SpawnedAt(r, workers, acts, p);
    }
  }

  /** The world when the barrier opens on a round with spawns: the next generation, the
      points asked for and kept, and whatever was loaded with chunks registered meanwhile.
      What landed on an evicted object, or before its chunk's SetRows, is lost. */
  lemma WorldAfterSpawns(s: State, env: Env, ids: seq<ChunkID>, capacity: nat, workers: nat, acts: seq<Action>)
    requires Runs.Inv(s)
    requires var r := FanOut(s, env, ids, capacity);
      GoodRound(r) && Legal(r, Init(r, workers), acts) && Exec(r, Init(r, workers), acts).c.passed
    ensures var r := FanOut(s, env, ids, capacity);
      var d := Exec(r, Init(r, workers), acts).d;
      && (forall id :: id in d.reg ==> d.reg[id] < |d.heap| == |d.base|)
      && Denote(ViewOf(d)) == Next(Denote(s)) + Kept(r, workers, acts) + LoadedCells(d, |ids|)
  {
    BarrierWorld(s, env, ids, capacity, workers, acts);
    SpawnedIsKept(FanOut(s, env, ids, capacity), workers, acts);
    hide *;
  }

  lemma InitHolds(r: Round, workers: nat)
    requires GoodRound(r)
    ensures Init(r, workers).d.handles == [] && Init(r, workers).d.landed == {}
  {
  }

  /** What the registry shows spawned at the end was asked for by an action. */
  lemma ShownWasAsked(r: Round, workers: nat, acts: seq<Action>, p: Point)
    requires GoodRound(r) && Legal(r, Init(r, workers), acts)
    requires AtTheEnd(r, workers, acts) && p in Spawned(Exec(r, Init(r, workers), acts).d)
    ensures p in Kept(r, workers, acts)
  {
    var s, d, id := Init(r, workers), Exec(r, Init(r, workers), acts).d, ChunkOf(p);
    PointsRight(r, Exec(r, s, acts));
    var h := Handle(d.reg[id], p.x % 64, p.y % 64);
    hide Init, Exec, At, Legal, GoodRound, Stood, RefAt, DataInv;
    assert StoodFor(r, s, acts, h, |acts|);
    var i :| 0 <= i < |acts| && acts[i].GetHandle? && h == HandleOf(r, s, acts, i) && Stood(r, s, acts, i, |acts|);
    assert acts[i].id == id;
    assert KeptBy(r, workers, acts, i, p);
  }

  lemma AskedIsShown(r: Round, workers: nat, acts: seq<Action>, i: nat, p: Point)
    requires GoodRound(r) && Legal(r, Init(r, workers), acts) && i < |acts|
    requires AtTheEnd(r, workers, acts) && KeptBy(r, workers, acts, i, p)
    ensures p in Spawned(Exec(r, Init(r, workers), acts).d)
  {
    var s := Init(r, workers);
    SmallCell(r, s, acts, i);
    SplitsTo(acts[i].id, acts[i].x, acts[i].y);
    hide Init, Exec, At, Legal, GoodRound, Stood, RefAt, DataInv;
    assert p == WorldPoint(acts[i].id, acts[i].x, acts[i].y);
    assert StoodFor(r, s, acts, HandleOf(r, s, acts, i), |acts|);
  }

  lemma SpawnedAt(r: Round, workers: nat, acts: seq<Action>, p: Point)
    requires GoodRound(r) && Legal(r, Init(r, workers), acts) && AtTheEnd(r, workers, acts)
    ensures p in Spawned(Exec(r, Init(r, workers), acts).d) <==> p in Kept(r, workers, acts)
  {
    hide AtTheEnd, Spawned, KeptBy, GoodRound, Legal, Init, Exec;
    if p in Spawned(Exec(r, Init(r, workers), acts).d) {
      ShownWasAsked(r, workers, acts, p);
    }
    if p in Kept(r, workers, acts) {
      var i :| 0 <= i < |acts| && KeptBy(r, workers, acts, i, p);
      AskedIsShown(r, workers, acts, i, p);
    }
  }

  ghost predicate AtTheEnd(r: Round, workers: nat, acts: seq<Action>)
    requires GoodRound(r) && Legal(r, Init(r, workers), acts)
  {
    var s := Init(r, workers);
    && At(r, s, acts, |acts|) == Exec(r, s, acts) && DataInv(r, Exec(r, s, acts))
    && RefsMatch(r, s, acts, |acts|) && LandedMatch(r, s, acts, |acts|)
  }

  lemma SmallCell(r: Round, s: Sys, acts: seq<Action>, i: nat)
    requires Legal(r, s, acts) && i < |acts| && acts[i].GetHandle?
    ensures acts[i].x < 64 && acts[i].y < 64
  {
    AtStep(r, s, acts, i);
  }

  // ----- Spawns that come in time -----

  /** Action `v` is the worker counting the cells of job `j`'s chunk. */
  ghost predicate CountsAt(r: Round, s: Sys, acts: seq<Action>, v: nat, j: nat)
    requires Legal(r, s, acts) && v < |acts|
  {
    acts[v].Work? &&
      var c := At(r, s, acts, v).c;
      acts[v].w < |c.workers| && c.workers[acts[v].w] == Busy(j) && j < |c.stage| && c.stage[j] == Written
  }

  /** Job `j` counted live cells: it will not evict, and its counter starts over. */
  ghost predicate Spared(s: Sys, j: nat)
  {
    && j < |s.c.stage| && j < |s.d.heap|
    && (s.c.stage[j] == Counted(false) || ((s.c.stage[j].Finishing? || s.c.stage[j].Done?) && s.d.heap[j].idle == 0))
  }

  /** A chunk that shows a spawn is not counted empty. */
  lemma CountSpares(r: Round, s: Sys, w: nat, j: nat, x: nat, y: nat)
    requires DataInv(r, s) && Enabled(r, s, Work(w)) && s.c.workers[w] == Busy(j) && s.c.stage[j] == Written
    requires x < 64 && y < 64 && Handle(j, x, y) in s.d.landed
    ensures Spared(Apply(r, s, Work(w)), j)
  {
    assert Shows(s.d, j);
    NoRowsDark();
    hide Lit, JobOk, Registered;
  }

  lemma WorkSpares(r: Round, s: Sys, w: nat, j: nat)
    requires Shaped(r, s) && Barrier(s.c) && Enabled(r, s, Work(w)) && Spared(s, j)
    ensures Spared(Apply(r, s, Work(w)), j)
  {
    hide Saved, NotDone, Barrier;
  }

  lemma StepSpares(r: Round, s: Sys, a: Action, j: nat)
    requires Shaped(r, s) && Barrier(s.c) && Enabled(r, s, a) && Spared(s, j)
    ensures Spared(Apply(r, s, a), j)
  {
    match a
    case Send => assert s.c.stage[s.c.sent] == Unsent;
    case Take(_) => assert s.c.stage[s.c.queue[0]] == Queued;
    case Work(w) => WorkSpares(r, s, w, j);
    case _ =>
    hide WorkD, NewEntry, Mark, NotDone;
  }

  /** From then on: it stays spared, and nothing writes the chunk again. */
  lemma {:induction false} SparedOn(r: Round, s: Sys, acts: seq<Action>, v: nat, t: nat, j: nat)
    requires GoodRound(r) && DataInv(r, s) && Barrier(s.c) && Legal(r, s, acts) && v < t <= |acts|
    requires Spared(At(r, s, acts, v + 1), j)
    ensures Spared(At(r, s, acts, t), j) && Untouched(r, s, acts, v, t, j)
    decreases t
  {
    hide At, Legal, DataInv, Barrier, GoodRound, Apply, Enabled, Shaped;
    if t == v + 1 {
      hide *;
      UntouchedAtOnce(r, s, acts, v, j);
    } else {
      SparedOn(r, s, acts, v, t - 1, j);
      AtStep(r, s, acts, t - 1);
      AtInv(r, s, acts, t - 1);
      StepSpares(r, At(r, s, acts, t - 1), acts[t - 1], j);
      UntouchedStep(r, s, acts, v, t - 1, j);
    }
  }

  /** A spawn that lands between its chunk's SetRows and the count is never lost: the
      worker counts it, the chunk stays registered, and the point is among those kept. */
  lemma LandedBeforeCountIsKept(r: Round, workers: nat, acts: seq<Action>, i: nat, v: nat, p: Point)
    requires GoodRound(r) && Legal(r, Init(r, workers), acts) && Exec(r, Init(r, workers), acts).c.passed
    requires i < v < |acts| && acts[i].GetHandle?
    requires p.x == 64 * acts[i].id.X + acts[i].x && p.y == 64 * acts[i].id.Y + acts[i].y
    requires var s := Init(r, workers);
      Stood(r, s, acts, i, v) && CountsAt(r, s, acts, v, RefAt(r, s, acts, i))
    ensures p in Kept(r, workers, acts)
  {
    hide *;
    var s, j := Init(r, workers), RefAt(r, Init(r, workers), acts, i);
    InitInv(r, workers);
    InitHolds(r, workers);
    AtInv(r, s, acts, v);
    ActionsMatch(r, s, acts, v);
    SmallCell(r, s, acts, i);
    ShownAtCount(r, s, acts, i, v);
    SparedOn(r, s, acts, v, |acts|, j);
    CountIsNoWrite(r, s, acts, v, j);
    StoodOn(r, s, acts, i, v, |acts|);
    AtEnd(r, s, acts);
    RoundSettles(r, workers, acts);
    SparedIsOwn(r, Exec(r, s, acts), j);
    ActionsMatch(r, s, acts, |acts|);
    StoodIsKept(r, workers, acts, i, p);
  }

  lemma CountIsNoWrite(r: Round, s: Sys, acts: seq<Action>, v: nat, j: nat)
    requires Legal(r, s, acts) && v < |acts| && CountsAt(r, s, acts, v, j)
    ensures !WritesAt(r, s, acts, v, j)
  {
  }

  /** Standing on an object that is its chunk's to the end is being kept. */
  lemma StoodIsKept(r: Round, workers: nat, acts: seq<Action>, i: nat, p: Point)
    requires GoodRound(r) && Legal(r, Init(r, workers), acts) && i < |acts| && acts[i].GetHandle?
    requires p.x == 64 * acts[i].id.X + acts[i].x && p.y == 64 * acts[i].id.Y + acts[i].y
    requires var s := Init(r, workers);
      var t, j := Exec(r, s, acts), RefAt(r, s, acts, i);
      && At(r, s, acts, |acts|) == t && RefsMatch(r, s, acts, |acts|) && Stood(r, s, acts, i, |acts|)
      && j < |r.ids| && j < |t.d.heap| && t.d.heap[j].id == r.ids[j] && OwnRegistered(r, t.d, j)
    ensures p in Kept(r, workers, acts)
  {
    hide Init, Exec, At, Legal, GoodRound, Stood, RefAt;
    assert KeptBy(r, workers, acts, i, p);
  }

  lemma ShownAtCount(r: Round, s: Sys, acts: seq<Action>, i: nat, v: nat)
    requires Legal(r, s, acts) && i < v < |acts| && acts[i].GetHandle? && acts[i].x < 64 && acts[i].y < 64
    requires DataInv(r, At(r, s, acts, v)) && LandedMatch(r, s, acts, v)
    requires Stood(r, s, acts, i, v) && CountsAt(r, s, acts, v, RefAt(r, s, acts, i))
    ensures Spared(At(r, s, acts, v + 1), RefAt(r, s, acts, i))
  {
    AtStep(r, s, acts, v);
    hide At, Legal, RefAt, DataInv, Apply, Stood, Spared;
    var h := HandleOf(r, s, acts, i);
    assert StoodFor(r, s, acts, h, v);
    CountSpares(r, At(r, s, acts, v), acts[v].w, h.ref, h.x, h.y);
  }

  lemma StoodOn(r: Round, s: Sys, acts: seq<Action>, i: nat, v: nat, t: nat)
    requires Legal(r, s, acts) && i < v < t <= |acts| && acts[i].GetHandle?
    requires Stood(r, s, acts, i, v) && Untouched(r, s, acts, v, t, RefAt(r, s, acts, i))
    requires !WritesAt(r, s, acts, v, RefAt(r, s, acts, i))
    ensures Stood(r, s, acts, i, t)
  {
    hide Legal, RefAt, WritesAt, LandsAt;
    var o := RefAt(r, s, acts, i);
    var u :| i < u < v && LandsAt(acts, u, i) && Untouched(r, s, acts, u, v, o);
    assert Untouched(r, s, acts, u, t, o);
  }

  lemma SparedIsOwn(r: Round, t: Sys, j: nat)
    requires Settled(r, t) && Spared(t, j)
    ensures j < |r.ids| && j < |t.d.heap| && OwnRegistered(r, t.d, j) && t.d.heap[j].id == r.ids[j]
  {
    hide JobOk, Shows, Registered;
    assert Fate(r, t.c.stage[j], t.d, j);
  }
}
