/**
  A reachable run of the hibernation race: a spawn slips in between the count that
  found its chunk empty and the save that follows.
 */
module PoolRace {
  import opened Life
  import opened Chunks
  import opened Storage
  import opened RegistryModel
  import opened Refinement
  import opened WorkerPool
  import opened PoolRuns
  import opened PoolDeterminism
  import Runs

  const QUIET: Env := Env({}, {}, {})

  /** A registry of one chunk. */
  function Alone(id: ChunkID, rows: Rows, idle: nat): State
  {
    State(map[id := Entry(rows, idle)], map[], 1)
  }

  /** One registered, empty chunk that has been idle for `idle` rounds. */
  function Lonely(id: ChunkID, idle: nat): State
  {
    Alone(id, NO_ROWS, idle)
  }

  /** No cell, or one far from every face: nothing is fed and nothing survives. */
  ghost predicate Dying(id: ChunkID, rows: Rows)
  {
    Fed(map[id := rows]) == {} && Next(World(map[id := rows])) == iset{}
  }

  lemma FedByNone(id: ChunkID, rows: Rows)
    requires forall x: nat, y: nat :: x < 64 && y < 64 && Lit(rows, x, y) ==> x == 10 && y == 10
    ensures Fed(map[id := rows]) == {}
  {
    forall nid
      ensures nid !in Fed(map[id := rows])
    {
      FedMeaning(map[id := rows], nid);
    }
  }

  lemma EmptyDies(id: ChunkID)
    ensures Dying(id, NO_ROWS)
  {
    NoRowsDark();
    FedByNone(id, NO_ROWS);
    Runs.DeadStaysDead(World(map[id := NO_ROWS]));
  }

  /** A lone cell inside a chunk is all the world there is. */
  lemma SingleWorld(id: ChunkID)
    ensures World(map[id := Mark(NO_ROWS, 10, 10)]) == iset{WorldPoint(id, 10, 10)}
  {
    forall q: Point
      ensures q in World(map[id := Mark(NO_ROWS, 10, 10)]) <==> q == WorldPoint(id, 10, 10)
    {
      SingleAt(id, Mark(NO_ROWS, 10, 10), q);
    }
    hide *;
  }

  lemma SingleAt(id: ChunkID, rows: Rows, q: Point)
    requires rows == Mark(NO_ROWS, 10, 10)
    ensures q in World(map[id := rows]) <==> q == WorldPoint(id, 10, 10)
  {
    AloneAt(id, rows, q);
    NoRowsDark();
    assert Lit(rows, q.x % 64, q.y % 64) <==> q.x % 64 == 10 && q.y % 64 == 10;
    SplitBack(id, q);
    hide *;
  }

  /** A world of one chunk. */
  lemma AloneAt(id: ChunkID, rows: Rows, q: Point)
    ensures q in World(map[id := rows]) <==> ChunkOf(q) == id && Lit(rows, q.x % 64, q.y % 64)
  {
    hide Lit;
  }

  lemma SplitBack(id: ChunkID, q: Point)
    ensures q == WorldPoint(id, 10, 10) <==> ChunkOf(q) == id && q.x % 64 == 10 && q.y % 64 == 10
  {
  }

  lemma SingleDies(id: ChunkID)
    ensures Dying(id, Mark(NO_ROWS, 10, 10))
  {
    var p := WorldPoint(id, 10, 10);
    NoRowsDark();
    FedByNone(id, Mark(NO_ROWS, 10, 10));
    SingleWorld(id);
    hide Mark, World, Fed, Near;
    forall q: Point
      ensures q !in Next(iset{p})
    {
      OneNeighbour(iset{p}, p, q);
    }
  }

  /** A single cell has no neighbours and is at most one neighbour itself. */
  lemma OneNeighbour(W: iset<Point>, p: Point, q: Point)
    requires forall r: Point :: r in W <==> r == p
    ensures Near(W, q.x, q.y) <= 1
  {
    assert W == iset{} + iset{p};
    NearInsert(iset{}, p, q.x, q.y);
    assert q == Point(q.x, q.y);
  }

  /** The fan-out of such a registry computes empty rows. */
  lemma AloneFanOut(id: ChunkID, rows: Rows, idle: nat)
    requires Dying(id, rows)
    ensures var r := FanOut(Alone(id, rows, idle), QUIET, [id], 1);
      r == Round(Alone(id, rows, idle), [id], map[id := NO_ROWS], QUIET, 1) && GoodRound(r)
  {
    var s := Alone(id, rows, idle);
    WakeNone(s, {});
    assert RowsOf(s) == map[id := rows];
    JobIsNext(RowsOf(s), id, rows);
    Runs.DeadRows(id);
    hide Wake, Fed, Next, RowsAt, World;
    var next := NextRows(RowsOf(s), s);
    assert next.Keys == {id};
    assert next[id] == NO_ROWS;
    assert next == map[id := NO_ROWS];
    assert |s.active| == |s.active.Keys|;
  }

  lemma TickIsFinish(s: State, env: Env, ids: seq<ChunkID>, capacity: nat)
    ensures var r := FanOut(s, env, ids, capacity);
      r.start.active.Keys == r.next.Keys && Tick(s, env) == Finish(r.start, r.next, r.start.active.Keys, env)
  {
    hide Wake, Fed, Finish, JobRows;
  }

  lemma FinishAlone(id: ChunkID, rows: Rows, idle: nat)
    requires idle + 1 < HIBERNATION_THRESHOLD
    ensures Finish(Alone(id, rows, idle), map[id := NO_ROWS], {id}, QUIET) == Lonely(id, idle + 1)
  {
    var s, next: map<ChunkID, Rows> := Alone(id, rows, idle), map[id := NO_ROWS];
    assert s.active.Keys == {id} == next.Keys;
    FinishByKeys(s, Lonely(id, idle + 1), next, id, QUIET);
    hide Finish;
  }

  lemma AloneTick(id: ChunkID, rows: Rows, idle: nat)
    requires idle + 1 < HIBERNATION_THRESHOLD && Dying(id, rows)
    ensures Tick(Alone(id, rows, idle), QUIET) == Lonely(id, idle + 1)
  {
    AloneFanOut(id, rows, idle);
    TickIsFinish(Alone(id, rows, idle), QUIET, [id], 1);
    FinishAlone(id, rows, idle);
    assert Alone(id, rows, idle).active.Keys == {id};
    hide *;
  }

  /** One cell is placed inside a chunk, dies, and the chunk is left alone. */
  function Neglect(id: ChunkID, rounds: nat): seq<Runs.Event>
  {
    if rounds == 0 then [Runs.Spawn(WorldPoint(id, 10, 10), false)] else Neglect(id, rounds - 1) + [Runs.Round(QUIET)]
  }

  lemma FirstCell(id: ChunkID)
    ensures Runs.SpawnOne(Runs.START, WorldPoint(id, 10, 10), false) == Alone(id, Mark(NO_ROWS, 10, 10), 0)
  {
    var none: map<ChunkID, Entry>, p := map[], WorldPoint(id, 10, 10);
    assert ChunkOf(p) == id && p.x % 64 == 10 && p.y % 64 == 10;
    assert {id} - none.Keys == {id};
    assert WakeActive(none, map[], {id}, {}) == map[id := Entry(NO_ROWS, 0)];
    hide WakeActive, Mark;
  }

  lemma NeglectMore(id: ChunkID, rounds: nat)
    requires rounds > 0
    ensures var s := Runs.Run(Runs.START, Neglect(id, rounds - 1));
      Runs.Run(Runs.START, Neglect(id, rounds)) == Tick(s, QUIET)
  {
    RunOne(Runs.START, Neglect(id, rounds - 1), Runs.Round(QUIET));
    hide Tick, Runs.Run;
  }

  lemma NeglectStarts(id: ChunkID)
    ensures Runs.Run(Runs.START, Neglect(id, 0)) == Alone(id, Mark(NO_ROWS, 10, 10), 0)
  {
    var spawn := Runs.Spawn(WorldPoint(id, 10, 10), false);
    FirstCell(id);
    RunOne(Runs.START, [], spawn);
    hide Runs.SpawnOne, Alone, Mark;
    assert [] + [spawn] == Neglect(id, 0);
  }

  /** What the chunk holds after so many rounds: its counter is their number. */
  lemma {:induction false} NeglectIdles(id: ChunkID, rounds: nat)
    requires 0 < rounds < HIBERNATION_THRESHOLD
    ensures Runs.Run(Runs.START, Neglect(id, rounds)) == Lonely(id, rounds)
  {
    hide *;
    NeglectMore(id, rounds);
    if rounds == 1 {
      NeglectStarts(id);
      SingleDies(id);
      AloneTick(id, Mark(NO_ROWS, 10, 10), 0);
    } else {
      NeglectIdles(id, rounds - 1);
      EmptyDies(id);
      AloneTick(id, NO_ROWS, rounds - 1);
      LonelyIs(id, rounds - 1);
    }
  }

  lemma LonelyIs(id: ChunkID, idle: nat)
    ensures Lonely(id, idle) == Alone(id, NO_ROWS, idle)
  {
  }

  lemma RunOne(s: State, es: seq<Runs.Event>, e: Runs.Event)
    ensures Runs.Run(s, es + [e]) == Runs.Step(Runs.Run(s, es), e)
  {
    hide Runs.Step;
    assert (es + [e])[..|es|] == es;
  }

  // ----- The race -----

  function Stages(g: Stage): Control
  {
    Control(1, [], [Busy(0)], [g], 1, false)
  }

  function Waiting(sent: nat, queue: seq<nat>, g: Stage): Control
  {
    Control(sent, queue, [Idle], [g], 1, false)
  }

  /** The one chunk before its job has written it. */
  function Fresh(id: ChunkID): Data
  {
    Data([Obj(id, NO_ROWS, 99)], map[id := 0], map[], 1, [], [NO_ROWS], {}, [0])
  }

  /** The same chunk afterwards. */
  function Objects(id: ChunkID, rows: Rows, idle: nat, store: map<ChunkID, Record>, handles: seq<Handle>,
                   landed: set<Handle>): Data
  {
    Data([Obj(id, rows, idle)], map[id := 0], store, 1, handles, [NO_ROWS], landed, [1])
  }

  /** The chunk saved and gone from the registry. */
  ghost function Evicted(id: ChunkID, rows: Rows, landed: set<Handle>): Data
  {
    Data([Obj(id, rows, 100)], map[], map[id := Saved(id, rows)], 0, [], [NO_ROWS], landed, [1])
  }

  /** One job, one worker: send, take, tick and count, then the spawn, then the job
      up to its end. */
  function Race(id: ChunkID, x: nat, y: nat): seq<Action>
  {
    [Send] + ([Take(0)] + ([Work(0)] + ([Work(0)] + Spoil(id, x, y))))
  }

  function Spoil(id: ChunkID, x: nat, y: nat): seq<Action>
  {
    [GetHandle(id, x, y, false)] + ([Land(0)] + ([Work(0)] + ([Work(0)] + ENDGAME)))
  }

  /** Eviction, the deferred Done, and the dispatcher past its Wait. */
  const ENDGAME: seq<Action> := [Work(0)] + ([Work(0)] + ([Pass] + []))

  ghost function RaceRound(id: ChunkID): Round
  {
    Round(Lonely(id, HIBERNATION_THRESHOLD - 1), [id], map[id := NO_ROWS], QUIET, 1)
  }

  /** One step and the rest of a run. */
  lemma ExecCons(r: Round, s: Sys, a: Action, t: Sys, rest: seq<Action>)
    requires Shaped(r, s) && Enabled(r, s, a) && Apply(r, s, a) == t && Legal(r, t, rest)
    ensures Legal(r, s, [a] + rest) && Exec(r, s, [a] + rest) == Exec(r, t, rest)
  {
    hide Shaped, Enabled, Apply;
    assert ([a] + rest)[1..] == rest;
  }

  lemma StartRace(id: ChunkID)
    ensures GoodRound(RaceRound(id)) && Init(RaceRound(id), 1) == Sys(Waiting(0, [], Unsent), Fresh(id))
  {
    EmptyDies(id);
    AloneFanOut(id, NO_ROWS, 99);
    var d := Init(RaceRound(id), 1).d;
    assert d.reg == map[id := 0];
  }

  lemma SendTake(id: ChunkID)
    ensures var r := RaceRound(id);
      var s, t := Sys(Waiting(0, [], Unsent), Fresh(id)), Sys(Waiting(1, [0], Queued), Fresh(id));
      && Shaped(r, s) && Enabled(r, s, Send) && Apply(r, s, Send) == t
      && Shaped(r, t) && Enabled(r, t, Take(0)) && Apply(r, t, Take(0)) == Sys(Stages(Ticking), Fresh(id))
  {
  }

  lemma TickCount(id: ChunkID)
    ensures var r := RaceRound(id);
      var s, t := Sys(Stages(Ticking), Fresh(id)), Sys(Stages(Written), Objects(id, NO_ROWS, 99, map[], [], {}));
      && Shaped(r, s) && Enabled(r, s, Work(0)) && Apply(r, s, Work(0)) == t
      && Shaped(r, t) && Enabled(r, t, Work(0))
      && Apply(r, t, Work(0)) == Sys(Stages(Counted(true)), Objects(id, NO_ROWS, 99, map[], [], {}))
  {
    var none: set<Handle> := set h: Handle | h in {} && h.ref != 0;
    assert none == {};
  }

  lemma Spawns(id: ChunkID, x: nat, y: nat)
    requires x < 64 && y < 64
    ensures var r, h := RaceRound(id), Handle(0, x, y);
      var s := Sys(Stages(Counted(true)), Objects(id, NO_ROWS, 99, map[], [], {}));
      var t := Sys(Stages(Counted(true)), Objects(id, NO_ROWS, 99, map[], [h], {}));
      && Shaped(r, s) && Enabled(r, s, GetHandle(id, x, y, false)) && Apply(r, s, GetHandle(id, x, y, false)) == t
      && Shaped(r, t) && Enabled(r, t, Land(0))
      && Apply(r, t, Land(0)) == Sys(Stages(Counted(true)), Objects(id, Mark(NO_ROWS, x, y), 99, map[], [], {h}))
  {
    hide Mark;
  }

  lemma Saves(id: ChunkID, rows: Rows, landed: set<Handle>)
    ensures var r := RaceRound(id);
      var s := Sys(Stages(Counted(true)), Objects(id, rows, 99, map[], [], landed));
      var t := Sys(Stages(Saving), Objects(id, rows, 100, map[], [], landed));
      && Shaped(r, s) && Enabled(r, s, Work(0)) && Apply(r, s, Work(0)) == t
      && Shaped(r, t) && Enabled(r, t, Work(0))
      && Apply(r, t, Work(0)) == Sys(Stages(Evicting), Objects(id, rows, 100, map[id := Saved(id, rows)], [], landed))
  {
    hide Saved;
  }

  lemma Ends(id: ChunkID, rows: Rows, landed: set<Handle>)
    ensures var r := RaceRound(id);
      var s := Sys(Stages(Evicting), Objects(id, rows, 100, map[id := Saved(id, rows)], [], landed));
      var t := Sys(Stages(Finishing), Evicted(id, rows, landed));
      var u := Sys(Control(1, [], [Idle], [Done], 0, false), Evicted(id, rows, landed));
      && Shaped(r, s) && Enabled(r, s, Work(0)) && Apply(r, s, Work(0)) == t
      && Shaped(r, t) && Enabled(r, t, Work(0)) && Apply(r, t, Work(0)) == u
      && Shaped(r, u) && Enabled(r, u, Pass)
      && Apply(r, u, Pass) == Sys(Control(1, [], [Idle], [Done], 0, true), Evicted(id, rows, landed))
  {
    hide Saved;
    var reg: map<ChunkID, nat> := map[id := 0];
    assert reg - {id} == map[];
  }

  lemma MarkShows(x: nat, y: nat)
    requires x < 64 && y < 64
    ensures Mark(NO_ROWS, x, y) != NO_ROWS
  {
    NoRowsDark();
    assert Lit(Mark(NO_ROWS, x, y), x, y);
  }

  /** The eight steps, put together. */
  lemma RaceRuns(id: ChunkID, x: nat, y: nat)
    requires x < 64 && y < 64
    ensures var r, rows := RaceRound(id), Mark(NO_ROWS, x, y);
      && GoodRound(r) && Legal(r, Init(r, 1), Race(id, x, y))
      && Exec(r, Init(r, 1), Race(id, x, y))
           == Sys(Control(1, [], [Idle], [Done], 0, true), Evicted(id, rows, {Handle(0, x, y)}))
  {
    var r, h, rows := RaceRound(id), Handle(0, x, y), Mark(NO_ROWS, x, y);
    var landed, saved := {h}, map[id := Saved(id, rows)];
    hide *;
    StartRace(id);
    SendTake(id);
    TickCount(id);
    Spawns(id, x, y);
    Saves(id, rows, landed);
    Ends(id, rows, landed);
    var end := Sys(Control(1, [], [Idle], [Done], 0, true), Evicted(id, rows, landed));
    var b2 := Sys(Control(1, [], [Idle], [Done], 0, false), Evicted(id, rows, landed));
    var b1 := Sys(Stages(Finishing), Evicted(id, rows, landed));
    var a9 := Sys(Stages(Evicting), Objects(id, rows, 100, saved, [], landed));
    var a8 := Sys(Stages(Saving), Objects(id, rows, 100, map[], [], landed));
    var a7 := Sys(Stages(Counted(true)), Objects(id, rows, 99, map[], [], landed));
    var a6 := Sys(Stages(Counted(true)), Objects(id, NO_ROWS, 99, map[], [h], {}));
    var a5 := Sys(Stages(Counted(true)), Objects(id, NO_ROWS, 99, map[], [], {}));
    var a4 := Sys(Stages(Written), Objects(id, NO_ROWS, 99, map[], [], {}));
    var a3 := Sys(Stages(Ticking), Fresh(id));
    var a2 := Sys(Waiting(1, [0], Queued), Fresh(id));
    var a1 := Sys(Waiting(0, [], Unsent), Fresh(id));
    ExecNone(r, end);
    ExecCons(r, b2, Pass, end, []);
    ExecCons(r, b1, Work(0), b2, [Pass] + []);
    ExecCons(r, a9, Work(0), b1, [Work(0)] + ([Pass] + []));
    ExecCons(r, a8, Work(0), a9, ENDGAME);
    ExecCons(r, a7, Work(0), a8, [Work(0)] + ENDGAME);
    ExecCons(r, a6, Land(0), a7, [Work(0)] + ([Work(0)] + ENDGAME));
    ExecCons(r, a5, GetHandle(id, x, y, false), a6, [Land(0)] + ([Work(0)] + ([Work(0)] + ENDGAME)));
    var rest := [GetHandle(id, x, y, false)] + ([Land(0)] + ([Work(0)] + ([Work(0)] + ENDGAME)));
    ExecCons(r, a4, Work(0), a5, rest);
    ExecCons(r, a3, Work(0), a4, [Work(0)] + rest);
    ExecCons(r, a2, Take(0), a3, [Work(0)] + ([Work(0)] + rest));
    ExecCons(r, a1, Send, a2, [Take(0)] + ([Work(0)] + ([Work(0)] + rest)));
    RaceIs(id, x, y);
  }

  lemma RaceIs(id: ChunkID, x: nat, y: nat)
    ensures Race(id, x, y) == [Send] + ([Take(0)] + ([Work(0)] + ([Work(0)] + Spoil(id, x, y))))
    ensures Spoil(id, x, y) == [GetHandle(id, x, y, false)] + ([Land(0)] + ([Work(0)] + ([Work(0)] + ENDGAME)))
    ensures ENDGAME == [Work(0)] + ([Work(0)] + ([Pass] + []))
  {
  }

  lemma ExecNone(r: Round, s: Sys)
    ensures Legal(r, s, []) && Exec(r, s, []) == s
  {
  }

  /** Reachable from an empty server: a cell placed in a chunk dies, the chunk is left
      alone for ninety-nine rounds, and in the hundredth a cell is placed on it after the
      count. The round ends with the chunk evicted and stored with that cell in it, so
      the store no longer holds empty chunks only. */
  lemma RaceSavesCell(id: ChunkID, x: nat, y: nat)
    requires x < 64 && y < 64
    ensures var r := FanOut(Runs.Run(Runs.START, Neglect(id, 99)), QUIET, [id], 1);
      && GoodRound(r) && Legal(r, Init(r, 1), Race(id, x, y))
      && var s := Exec(r, Init(r, 1), Race(id, x, y));
         s.c.passed && s.d.reg == map[] && ViewOf(s.d) == Spoiled(id, x, y)
    ensures Hydrate(Spoiled(id, x, y).store, id) == Mark(NO_ROWS, x, y) != NO_ROWS
  {
    NeglectIdles(id, 99);
    EmptyDies(id);
    AloneFanOut(id, NO_ROWS, 99);
    MarkShows(x, y);
    SaveThenLoad(map[], id, Mark(NO_ROWS, x, y), id);
    RaceRuns(id, x, y);
    EvictedView(id, Mark(NO_ROWS, x, y), {Handle(0, x, y)});
    hide FanOut, Alone, Race, Exec, Legal, Init, GoodRound, Runs.Run, Neglect, Saved, Mark, ViewOf;
  }

  /** Nothing registered, and one chunk stored with a cell. */
  function Spoiled(id: ChunkID, x: nat, y: nat): State
    requires x < 64 && y < 64
  {
    State(map[], map[id := Saved(id, Mark(NO_ROWS, x, y))], 0)
  }

  lemma EvictedView(id: ChunkID, rows: Rows, landed: set<Handle>)
    ensures ViewOf(Evicted(id, rows, landed)) == State(map[], map[id := Saved(id, rows)], 0)
  {
    hide Saved;
    var none: map<ChunkID, Entry> := map[];
    assert ViewOf(Evicted(id, rows, landed)).active == none;
  }
}
