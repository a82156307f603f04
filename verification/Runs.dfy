/**
  Whole runs of the registry against whole runs of the set-based specification,
  and what hibernation does along the way.
 */
module Runs {
  import opened Life
  import opened Chunks
  import opened Engine
  import opened Storage
  import opened RegistryModel
  import opened Refinement

  /** Spawn: spawnWorldCell. Touch: the GetOrCreate of a subscribe, here of any chunk,
      though the source asks for it only where something shows. Round: TickAll. */
  datatype Event =
    | Spawn(p: Point, loadFails: bool)
    | Touch(id: ChunkID, loadFails: bool)
    | Round(env: Env)

  const START: State := State(map[], map[], 0)

  ghost function TouchOne(s: State, id: ChunkID, loadFails: bool): State
  {
    Wake(s, {id}, if loadFails then {id} else {})
  }

  /** GetOrCreate, then AddCell on the chunk it returned. */
  ghost function SpawnOne(s: State, p: Point, loadFails: bool): State
  {
    var id, t := ChunkOf(p), TouchOne(s, ChunkOf(p), loadFails);
    t.(active := t.active[id := t.active[id].(rows := Mark(t.active[id].rows, p.x % 64, p.y % 64))])
  }

  ghost function Step(s: State, e: Event): State
  {
    match e
    case Spawn(p, fails) => SpawnOne(s, p, fails)
    case Touch(id, fails) => TouchOne(s, id, fails)
    case Round(env) => Tick(s, env)
  }

  ghost function Run(s: State, es: seq<Event>): State
  {
    if |es| == 0 then s else Step(Run(s, es[..|es| - 1]), es[|es| - 1])
  }

  // ----- The specification of a run: only sets of points -----

  ghost function SpecStep(W: iset<Point>, e: Event): iset<Point>
  {
    match e
    case Spawn(p, _) => W + iset{p}
    case Touch(_, _) => W
    case Round(_) => Next(W)
  }

  ghost function SpecRun(W: iset<Point>, es: seq<Event>): iset<Point>
  {
    if |es| == 0 then W else SpecStep(SpecRun(W, es[..|es| - 1]), es[|es| - 1])
  }

  // ----- The invariant -----

  ghost predicate Inv(s: State)
  {
    && StoreEmpty(s.store)
    && Filed(s.store)
    && s.gauge == |s.active|
    && forall id :: id in s.active ==> s.active[id].idle < HIBERNATION_THRESHOLD
  }

  lemma StoreEmptyHydrates(s: State, id: ChunkID)
    requires StoreEmpty(s.store)
    ensures Hydrate(s.store, id) == NO_ROWS
  {
  }

  lemma WakeKeepsInv(s: State, ids: set<ChunkID>, loadFails: set<ChunkID>)
    requires Inv(s)
    ensures Inv(Wake(s, ids, loadFails)) && Denote(Wake(s, ids, loadFails)) == Denote(s)
  {
    WakeIdle(s, ids, loadFails);
    WakeDenotes(s, ids, loadFails);
  }

  lemma WakeIdle(s: State, ids: set<ChunkID>, loadFails: set<ChunkID>)
    requires Inv(s)
    ensures Inv(Wake(s, ids, loadFails))
  {
    hide NewEntry, StoreEmpty, Filed;
    WakeSize(s, ids, loadFails);
    assert forall id :: NewEntry(s.store, id, id in loadFails).idle == 0 by { WokenIdle(s.store, loadFails); }
  }

  lemma WokenIdle(store: map<ChunkID, Record>, loadFails: set<ChunkID>)
    ensures forall id :: NewEntry(store, id, id in loadFails).idle == 0
  {
    hide Hydrate;
  }

  lemma WakeSize(s: State, ids: set<ChunkID>, loadFails: set<ChunkID>)
    ensures |Wake(s, ids, loadFails).active| == |s.active| + |ids - s.active.Keys|
  {
    hide NewEntry;
    var k := s.active.Keys;
    assert Wake(s, ids, loadFails).active.Keys == k + ids;
    assert k + ids == k + (ids - k);
    assert |k + (ids - k)| == |k| + |ids - k|;
  }

  lemma WakeDenotes(s: State, ids: set<ChunkID>, loadFails: set<ChunkID>)
    requires StoreEmpty(s.store)
    ensures Denote(Wake(s, ids, loadFails)) == Denote(s)
  {
    hide Hydrate;
    var t := Wake(s, ids, loadFails);
    forall id | id in t.active
      ensures t.active[id].rows == Held(s, id)
    {
      StoreEmptyHydrates(s, id);
    }
    forall p: Point
      ensures p in Denote(t) <==> p in Denote(s)
    {
      assert p == WorldPoint(ChunkOf(p), p.x % 64, p.y % 64);
      LitDenotes(t, ChunkOf(p), p.x % 64, p.y % 64);
      LitDenotes(s, ChunkOf(p), p.x % 64, p.y % 64);
    }
  }

  /** Only empty chunks are ever saved, so the store stays empty-valued. */
  lemma FinishStoreKeeps(s: State, next: map<ChunkID, Rows>, saved: set<ChunkID>)
    requires saved <= next.Keys && StoreEmpty(s.store) && Filed(s.store)
    requires forall id :: id in saved ==> next[id] == NO_ROWS
    ensures StoreEmpty(FinishStore(s.store, next, saved)) && Filed(FinishStore(s.store, next, saved))
  {
    DecodeEncode(NO_ROWS);
  }

  lemma FinishKeepsInv(s: State, next: map<ChunkID, Rows>, env: Env)
    requires Inv(s) && s.active.Keys <= next.Keys
    ensures Inv(Finish(s, next, s.active.Keys, env))
    ensures forall id :: id in Evicted(s, next, s.active.Keys, env) ==>
        next[id] == NO_ROWS && id !in env.watched && s.active[id].idle == HIBERNATION_THRESHOLD - 1
  {
    var gone := Evicted(s, next, s.active.Keys, env);
    var t := Finish(s, next, s.active.Keys, env);
    FinishStoreKeeps(s, next, gone - env.saveFails);
    hide FinishStore, StoreEmpty, Filed;
    assert t.active.Keys == s.active.Keys - gone;
    assert gone <= s.active.Keys;
    assert |t.active| == |t.active.Keys| && |s.active| == |s.active.Keys|;
    assert |s.active.Keys - gone| == |s.active.Keys| - |gone|;
  }

  lemma InvIsQuiet(s: State, env: Env)
    requires Inv(s)
    ensures QuietLoads(s, env)
  {
    forall id | id in Fed(RowsOf(s)) && id !in s.active && id !in env.loadFails
      ensures Hydrate(s.store, id) == NO_ROWS
    {
      StoreEmptyHydrates(s, id);
    }
  }

  /** Spawning adds exactly one point to the denoted world. */
  lemma SpawnAddsOnePoint(s: State, p: Point, loadFails: bool)
    requires Inv(s)
    ensures Inv(SpawnOne(s, p, loadFails))
    ensures Denote(SpawnOne(s, p, loadFails)) == Denote(s) + iset{p}
  {
    var id := ChunkOf(p);
    var t, u := TouchOne(s, id, loadFails), SpawnOne(s, p, loadFails);
    WakeKeepsInv(s, {id}, if loadFails then {id} else {});
    assert id in t.active;
    MarkDenotes(t, p);
    hide Wake, StoreEmpty, Filed, Denote;
    assert u.active.Keys == t.active.Keys;
    assert |u.active| == |u.active.Keys| && |t.active| == |t.active.Keys|;
  }

  /** Setting a bit of a registered chunk is inserting its point. */
  lemma MarkDenotes(t: State, p: Point)
    requires ChunkOf(p) in t.active
    ensures var e := t.active[ChunkOf(p)];
      Denote(t.(active := t.active[ChunkOf(p) := e.(rows := Mark(e.rows, p.x % 64, p.y % 64))])) == Denote(t) + iset{p}
  {
    hide Mark;
    var e := t.active[ChunkOf(p)];
    var u := t.(active := t.active[ChunkOf(p) := e.(rows := Mark(e.rows, p.x % 64, p.y % 64))]);
    forall q: Point
      ensures q in Denote(u) <==> q in Denote(t) || q == p
    {
      assert p == WorldPoint(ChunkOf(p), p.x % 64, p.y % 64);
      assert q == WorldPoint(ChunkOf(q), q.x % 64, q.y % 64);
    }
  }

  /** One step of any kind keeps the invariant and is the specification's step;
      wake-ups and hibernations never show. */
  lemma StepRefines(s: State, e: Event)
    requires Inv(s)
    ensures Inv(Step(s, e)) && Denote(Step(s, e)) == SpecStep(Denote(s), e)
  {
    match e
    case Spawn(p, fails) =>
      SpawnAddsOnePoint(s, p, fails);
    case Touch(id, fails) =>
      WakeKeepsInv(s, {id}, if fails then {id} else {});
    case Round(env) =>
      InvIsQuiet(s, env);
      TickIsLife(s, env);
      var rows := RowsOf(s);
      WakeKeepsInv(s, Fed(rows), env.loadFails);
      var woken := Wake(s, Fed(rows), env.loadFails);
      FinishKeepsInv(woken, NextRows(rows, woken), env);
  }

  /** Every run from a good state is the specification's run. */
  lemma {:induction false} RunRefines(s: State, es: seq<Event>)
    requires Inv(s)
    ensures Inv(Run(s, es)) && Denote(Run(s, es)) == SpecRun(Denote(s), es)
  {
    if |es| > 0 {
      RunRefines(s, es[..|es| - 1]);
      StepRefines(Run(s, es[..|es| - 1]), es[|es| - 1]);
    }
  }

  /** From an empty registry and an empty store: the whole system is Life. */
  lemma ServerIsLife(es: seq<Event>)
    ensures Inv(Run(START, es)) && Denote(Run(START, es)) == SpecRun(iset{}, es)
  {
    assert Denote(START) == iset{};
    RunRefines(START, es);
  }

  // ----- Restarts -----

  /** A new process over the old store. */
  function Restarted(s: State): State
  {
    State(map[], s.store, 0)
  }

  /** A restart forgets every live cell: whatever is played afterwards is played on an
      empty plane, so the world survives it exactly if there was nothing in it. */
  lemma RestartForgets(s: State, es: seq<Event>)
    requires Inv(s)
    ensures Inv(Restarted(s)) && Denote(Run(Restarted(s), es)) == SpecRun(iset{}, es)
    ensures Denote(Restarted(s)) == Denote(s) <==> Denote(s) == iset{}
  {
    assert Denote(Restarted(s)) == iset{};
    RunRefines(Restarted(s), es);
  }

  /** One placed cell is enough. */
  lemma RestartLosesCell(p: Point)
    ensures var s := Run(START, [Spawn(p, false)]);
      p in Denote(s) && p !in Denote(Restarted(s))
  {
    var es := [Spawn(p, false)];
    assert es[..0] == [];
    ServerIsLife(es);
    RestartForgets(Run(START, es), []);
  }

  // ----- Idle counters -----

  /** Chunk `id` is empty in `W` and nobody watches it. */
  ghost predicate QuietIn(W: iset<Point>, id: ChunkID, watched: set<ChunkID>)
  {
    RowsAt(id, W) == NO_ROWS && id !in watched
  }

  /** How many of the latest rounds in a row left the chunk empty and unwatched,
      read off the specification run alone. */
  ghost function QuietStreak(es: seq<Event>, id: ChunkID): nat
  {
    if |es| == 0 then 0
    else
      var before, e := es[..|es| - 1], es[|es| - 1];
      if !e.Round? then QuietStreak(before, id)
      else if QuietIn(SpecRun(iset{}, es), id, e.env.watched) then QuietStreak(before, id) + 1
      else 0
  }

  /** How many rounds the chunk has been through since it was last registered. */
  ghost function Age(es: seq<Event>, id: ChunkID): nat
  {
    if |es| == 0 then 0
    else
      var before, e := es[..|es| - 1], es[|es| - 1];
      (if id in Run(START, before).active then Age(before, id) else 0) + (if e.Round? then 1 else 0)
  }

  /** The idle counter of a registered chunk after one round. */
  lemma TickIdle(s: State, env: Env, id: ChunkID)
    requires Inv(s) && id in Tick(s, env).active
    ensures Denote(Tick(s, env)) == Next(Denote(s))
    ensures Tick(s, env).active[id].idle ==
      if QuietIn(Next(Denote(s)), id, env.watched) then (if id in s.active then s.active[id].idle else 0) + 1 else 0
  {
    InvIsQuiet(s, env);
    TickIsLife(s, env);
    TickKeys(s, env);
    TickRows(s, env, id);
    hide FinishStore, Fed, RowsAt, JobRows;
  }

  ghost function IdleOf(s: State, id: ChunkID): nat
  {
    if id in s.active then s.active[id].idle else 0
  }

  /** Spawns and wake-ups leave every counter alone; a new chunk starts at zero. */
  lemma QuietStepIdle(s: State, e: Event, id: ChunkID)
    requires !e.Round?
    ensures IdleOf(Step(s, e), id) == IdleOf(s, id)
  {
    hide Mark, Hydrate;
  }

  /** The counter is the quiet streak, cut at the chunk's registration. */
  lemma {:induction false} IdleIsQuietStreak(es: seq<Event>, id: ChunkID)
    requires id in Run(START, es).active
    ensures var q, a := QuietStreak(es, id), Age(es, id);
      Run(START, es).active[id].idle == if q < a then q else a
  {
    hide Tick, Next, Inv, Denote, QuietIn, SpawnOne, TouchOne, SpecStep;
    if |es| > 0 {
      var before, e := es[..|es| - 1], es[|es| - 1];
      var s := Run(START, before);
      ServerIsLife(es);
      ServerIsLife(before);
      if id in s.active {
        IdleIsQuietStreak(before, id);
      }
      if e.Round? {
        TickIdle(s, e.env, id);
      } else {
        QuietStepIdle(s, e, id);
      }
    }
  }

  /** A round evicts a chunk only when it is empty and unwatched and this makes a
      hundred such rounds in a row. */
  lemma EvictionIsEarned(s: State, env: Env, id: ChunkID)
    requires Inv(s) && id in s.active && id !in Tick(s, env).active
    ensures QuietIn(Next(Denote(s)), id, env.watched) && s.active[id].idle == 99
  {
    var rows := RowsOf(s);
    var woken := Wake(s, Fed(rows), env.loadFails);
    InvIsQuiet(s, env);
    WakeKeepsInv(s, Fed(rows), env.loadFails);
    FinishKeepsInv(woken, NextRows(rows, woken), env);
    JobIsNext(rows, id, rows[id]);
  }

  /** Which chunks a round leaves registered, in world coordinates: those that were, and
      those a live cell of another chunk lies within three cells of; but not those whose
      hundredth empty unwatched round in a row this was. */
  lemma TickKeysInWorld(s: State, env: Env, id: ChunkID)
    requires Inv(s)
    ensures id in Tick(s, env).active <==>
      && (id in s.active
          || exists q :: q in Denote(s) && ChunkOf(q) != id
                         && -3 <= q.x - 64 * id.X <= 66 && -3 <= q.y - 64 * id.Y <= 66)
      && !(id in s.active && s.active[id].idle == 99 && id !in env.watched
           && forall p :: ChunkOf(p) == id ==> p !in Next(Denote(s)))
  {
    FedInWorld(RowsOf(s), id);
    EmptyMeansDark(id, Next(Denote(s)));
    TickKeysExactly(s, env, id);
    hide Tick, Fed, Inv, Next, RowsAt;
  }

  lemma EmptyMeansDark(id: ChunkID, W: iset<Point>)
    ensures RowsAt(id, W) == NO_ROWS <==> forall p :: ChunkOf(p) == id ==> p !in W
  {
    hide RowsAt;
    NoRowsDark();
    forall p | ChunkOf(p) == id
      ensures p in W <==> Lit(RowsAt(id, W), p.x % 64, p.y % 64)
    {
      assert p == WorldPoint(id, p.x % 64, p.y % 64);
    }
    if forall p :: ChunkOf(p) == id ==> p !in W {
      forall x: nat, y: nat | x < 64 && y < 64
        ensures !Lit(RowsAt(id, W), x, y)
      {
        assert ChunkOf(WorldPoint(id, x, y)) == id;
      }
      RowsEqual(RowsAt(id, W), NO_ROWS);
    }
  }

  lemma TickKeysExactly(s: State, env: Env, id: ChunkID)
    requires Inv(s)
    ensures id in Tick(s, env).active <==>
      && (id in s.active || id in Fed(RowsOf(s)))
      && !(id in s.active && s.active[id].idle == 99 && id !in env.watched && RowsAt(id, Next(Denote(s))) == NO_ROWS)
  {
    var rows := RowsOf(s);
    var woken := Wake(s, Fed(rows), env.loadFails);
    TickKeys(s, env);
    if id in s.active.Keys + Fed(rows) {
      InvIsQuiet(s, env);
      WakeHeld(s, env, id);
      JobIsNext(rows, id, woken.active[id].rows);
    }
    hide Fed, RowsAt, Next, Hydrate, FinishStore, Seen, Halos;
  }

  // ----- A dead world empties the registry -----

  ghost predicate Unwatched(es: seq<Event>)
  {
    forall i :: 0 <= i < |es| ==> es[i].Round? && es[i].env.watched == {}
  }

  lemma DeadStaysDead(W: iset<Point>)
    requires W == iset{}
    ensures Next(W) == iset{}
  {
    forall p: Point
      ensures p !in Next(W)
    {
      NothingFromNothing(W, p);
    }
  }

  lemma DeadRound(s: State, env: Env)
    requires Inv(s) && Denote(s) == iset{} && env.watched == {}
    ensures Inv(Tick(s, env)) && Denote(Tick(s, env)) == iset{}
    ensures forall id :: id in Tick(s, env).active ==>
        id in s.active && Tick(s, env).active[id].idle == s.active[id].idle + 1
  {
    StepRefines(s, Round(env));
    DeadStaysDead(Denote(s));
    forall id | id in Tick(s, env).active
      ensures id in s.active && Tick(s, env).active[id].idle == s.active[id].idle + 1
    {
      DeadChunk(s, env, id);
    }
    hide Tick, Next, Inv, Denote;
  }

  /** One chunk of a dead round: it was there, and has waited one round more. */
  lemma DeadChunk(s: State, env: Env, id: ChunkID)
    requires Inv(s) && Denote(s) == iset{} && env.watched == {} && id in Tick(s, env).active
    ensures id in s.active && Tick(s, env).active[id].idle == s.active[id].idle + 1
  {
    TickKeys(s, env);
    DeadStaysDead(Denote(s));
    DeadFeedsNobody(RowsOf(s), id);
    TickIdle(s, env, id);
    DeadRows(id);
    hide Tick, Next, Fed, Inv, RowsAt, World;
  }

  lemma DeadFeedsNobody(rows: map<ChunkID, Rows>, id: ChunkID)
    requires World(rows) == iset{}
    ensures id !in Fed(rows)
  {
    FedMeaning(rows, id);
    if e :| Feeds(rows, e, id) {
      var x: nat, y: nat :| CellNearEdge(rows[e], id.X - e.X, id.Y - e.Y, x, y);
      DenoteAt(rows, e, x, y);
    }
  }

  lemma DeadRows(id: ChunkID)
    ensures RowsAt(id, iset{}) == NO_ROWS
  {
    NoRowsDark();
    RowsEqual(RowsAt(id, iset{}), NO_ROWS);
  }

  /** A dead, unwatched, unspawned world leaves an empty registry within a
      hundred rounds, and it stays empty. */
  lemma {:induction false} DeadWorldHibernates(s: State, es: seq<Event>)
    requires Inv(s) && Denote(s) == iset{} && Unwatched(es)
    ensures Inv(Run(s, es)) && Denote(Run(s, es)) == iset{}
    ensures forall id :: id in Run(s, es).active ==> Run(s, es).active[id].idle >= |es|
    ensures |es| >= 100 ==> Run(s, es).active == map[] && Run(s, es).gauge == 0
  {
    if |es| > 0 {
      DeadWorldHibernates(s, es[..|es| - 1]);
      DeadRound(Run(s, es[..|es| - 1]), es[|es| - 1].env);
    }
    assert |es| >= 100 ==> Run(s, es).active.Keys == {};
  }
}
