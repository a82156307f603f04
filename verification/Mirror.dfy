/**
  How far the browser's picture and the server's world agree.
 */
module Mirror {
  import opened Life
  import opened Chunks
  import opened RegistryModel
  import opened Refinement
  import opened Runs
  import opened Client
  import opened Placement
  import opened PubSub
  import Registry
  import Rollback

  // ----- Reconciling chunks -----

  datatype Update = Update(id: ChunkID, rows: Rows)

  /** The live cells after a chunk's own snapshot has been received. */
  ghost function Reconciled(live: iset<Point>, u: Update): iset<Point>
  {
    Rollback.Replaced(live, u.id, Encode(u.rows))
  }

  /** Inside the chunk the picture is the server's rows, outside it is what it was. */
  lemma ReconcileShowsRows(live: iset<Point>, u: Update)
    ensures forall p: Point :: p in Reconciled(live, u) <==>
        p in Cells(u.id, u.rows) || (p in live && ChunkOf(p) != u.id)
  {
    SnapshotNamesCells(u.id, u.rows);
    hide Encode, Sent;
  }

  ghost function ReconcileAll(live: iset<Point>, us: seq<Update>): iset<Point>
  {
    if |us| == 0 then live else Reconciled(ReconcileAll(live, us[..|us| - 1]), us[|us| - 1])
  }

  /** The last snapshot received of each chunk. */
  function Latest(us: seq<Update>): map<ChunkID, Rows>
  {
    if |us| == 0 then map[] else Latest(us[..|us| - 1])[us[|us| - 1].id := us[|us| - 1].rows]
  }

  /** Snapshots received win inside their chunks; elsewhere nothing changes. */
  lemma {:induction false} ReconcileAllMeaning(live: iset<Point>, us: seq<Update>)
    ensures forall p: Point :: p in ReconcileAll(live, us) <==>
        (if ChunkOf(p) in Latest(us) then Lit(Latest(us)[ChunkOf(p)], p.x % 64, p.y % 64) else p in live)
  {
    if |us| > 0 {
      ReconcileAllMeaning(live, us[..|us| - 1]);
      ReconcileShowsRows(ReconcileAll(live, us[..|us| - 1]), us[|us| - 1]);
      hide Reconciled;
    }
  }

  ghost predicate DistinctChunks(us: seq<Update>)
  {
    forall i, j :: 0 <= i < j < |us| ==> us[i].id != us[j].id
  }

  lemma {:induction false} LatestOfDistinct(us: seq<Update>)
    requires DistinctChunks(us)
    ensures forall id, rows :: id in Latest(us) && Latest(us)[id] == rows <==> Update(id, rows) in us
  {
    if |us| > 0 {
      var n := |us| - 1;
      LatestOfDistinct(us[..n]);
      assert us == us[..n] + [us[n]];
      forall id, rows
        ensures id in Latest(us) && Latest(us)[id] == rows <==> Update(id, rows) in us
      {
        assert Update(id, rows) in us <==> Update(id, rows) in us[..n] || Update(id, rows) == us[n];
        if Update(id, rows) in us[..n] {
          var i :| 0 <= i < n && us[i] == Update(id, rows);
        }
      }
    }
  }

  /** One snapshot per chunk: the order they arrive in does not matter. */
  lemma ReconcileOrder(live: iset<Point>, us: seq<Update>, vs: seq<Update>)
    requires DistinctChunks(us) && DistinctChunks(vs) && forall u :: u in us <==> u in vs
    ensures ReconcileAll(live, us) == ReconcileAll(live, vs)
  {
    LatestOfDistinct(us);
    LatestOfDistinct(vs);
    var a, b := Latest(us), Latest(vs);
    hide Latest;
    forall id
      ensures id in a <==> id in b
      ensures id in a ==> a[id] == b[id]
    {
      if id in a {
        assert Update(id, a[id]) in us;
      }
      if id in b {
        assert Update(id, b[id]) in vs;
      }
    }
    ReconcileAllMeaning(live, us);
    ReconcileAllMeaning(live, vs);
  }

  /** Where the last snapshot of a registered chunk is what the chunk holds, the
      picture is the server's world. */
  lemma MirrorsServer(live: iset<Point>, us: seq<Update>, s: State, p: Point)
    requires ChunkOf(p) in Latest(us) && ChunkOf(p) in s.active && Latest(us)[ChunkOf(p)] == s.active[ChunkOf(p)].rows
    ensures p in ReconcileAll(live, us) <==> p in Denote(s)
  {
    ReconcileAllMeaning(live, us);
  }

  // ----- What one round broadcasts -----

  /** The snapshots a client gets out of a round's calls of Broadcast. */
  function Updates(calls: seq<Call>): (us: seq<Update>)
    ensures |us| == |calls|
    ensures forall i :: 0 <= i < |us| ==> us[i] == Update(calls[i].id, Decode(calls[i].cells))
  {
    seq(|calls|, i requires 0 <= i < |calls| => Update(calls[i].id, Decode(calls[i].cells)))
  }

  ghost predicate Mentions(us: seq<Update>, id: ChunkID)
  {
    exists u :: u in us && u.id == id
  }

  ghost predicate Called(calls: seq<Call>, id: ChunkID)
  {
    exists x :: x in calls && x.id == id
  }

  /** A client hears of exactly the calls about the chunks it watches. */
  lemma {:induction false} HeardMeaning(calls: seq<Call>, subs: Subscribers, c: ClientRef)
    ensures forall x :: x in Heard(calls, subs, c) <==> x in calls && Watches(subs, x.id, c)
  {
    if |calls| > 0 {
      var n := |calls| - 1;
      HeardMeaning(calls[..n], subs, c);
      assert calls == calls[..n] + [calls[n]];
    }
  }

  /** Each call is about a chunk that ticked and carries its part of the next world;
      every ticked chunk is called. */
  lemma CallsShowNext(calls: seq<Call>, s: State, env: Env)
    requires QuietLoads(s, env) && Registry.RoundAnnounces(calls, s, env)
    ensures forall x :: x in calls ==> x.cells == Encode(RowsAt(x.id, Next(Denote(s))))
    ensures forall id :: Ticked(s, id) ==> Called(calls, id)
    ensures forall x :: x in calls ==> Ticked(s, x.id)
  {
    var rows := RowsOf(s);
    var woken := Wake(s, Fed(rows), env.loadFails);
    var next := NextRows(rows, woken);
    WokenAreTicked(s, env);
    forall id | id in woken.active
      ensures id in next && next[id] == RowsAt(id, Next(Denote(s)))
    {
      WakeHeld(s, env, id);
      JobIsNext(rows, id, woken.active[id].rows);
    }
    hide Ticked, Encode, RowsAt, Next, Denote, Wake, Fed, NextRows, QuietLoads, JobRows;
    forall id | Ticked(s, id)
      ensures Called(calls, id)
    {
      var i :| 0 <= i < |calls| && calls[i].id == id;
      assert calls[i] in calls;
    }
  }

  lemma WokenAreTicked(s: State, env: Env)
    ensures forall id :: id in Wake(s, Fed(RowsOf(s)), env.loadFails).active <==> Ticked(s, id)
  {
    hide Fed, NewEntry;
  }

  /** The latest of snapshots that all show `W` shows `W`. */
  lemma {:induction false} LatestShows(us: seq<Update>, W: iset<Point>)
    requires forall u :: u in us ==> u.rows == RowsAt(u.id, W)
    ensures forall id :: id in Latest(us) <==> Mentions(us, id)
    ensures forall id :: id in Latest(us) ==> Latest(us)[id] == RowsAt(id, W)
  {
    hide RowsAt;
    if |us| > 0 {
      var n := |us| - 1;
      assert us == us[..n] + [us[n]];
      LatestShows(us[..n], W);
      forall id
        ensures id in Latest(us) <==> Mentions(us, id)
      {
        assert us[n] in us;
        if Mentions(us, id) && id != us[n].id {
          var u :| u in us && u.id == id;
          assert u in us[..n];
        }
        if Mentions(us[..n], id) {
          var u :| u in us[..n] && u.id == id;
          assert u in us;
        }
      }
    }
  }

  lemma UpdatesShow(calls: seq<Call>, heard: seq<Call>, W: iset<Point>)
    requires (forall x :: x in heard ==> x in calls) && forall x :: x in calls ==> x.cells == Encode(RowsAt(x.id, W))
    ensures forall u :: u in Updates(heard) ==> u.rows == RowsAt(u.id, W)
    ensures forall id :: Mentions(Updates(heard), id) <==> Called(heard, id)
  {
    hide Encode, Decode, RowsAt;
    var us := Updates(heard);
    forall u | u in us
      ensures u.rows == RowsAt(u.id, W) && Called(heard, u.id)
    {
      var i :| 0 <= i < |us| && us[i] == u;
      assert heard[i] in heard;
      DecodeEncode(RowsAt(u.id, W));
    }
    forall x | x in heard
      ensures Mentions(us, x.id)
    {
      var i :| 0 <= i < |heard| && heard[i] == x;
      assert us[i] in us;
    }
  }

  /** One round of the server, seen by one client that reconciles what it is sent: on
      every chunk that it watches and that ticked, evicted ones included, it ends with
      the server's new world; everywhere else its picture is what it was. */
  lemma RoundReachesClient(live: iset<Point>, s: State, env: Env, calls: seq<Call>, subs: Subscribers, c: ClientRef,
                           p: Point)
    requires Inv(s) && Registry.RoundAnnounces(calls, s, env)
    ensures p in ReconcileAll(live, Updates(Heard(calls, subs, c))) <==>
      if Watches(subs, ChunkOf(p), c) && Ticked(s, ChunkOf(p)) then p in Denote(Tick(s, env)) else p in live
  {
    var heard, W, id := Heard(calls, subs, c), Next(Denote(s)), ChunkOf(p);
    InvIsQuiet(s, env);
    TickIsLife(s, env);
    CallsShowNext(calls, s, env);
    HeardMeaning(calls, subs, c);
    hide *;
    UpdatesShow(calls, heard, W);
    LatestShows(Updates(heard), W);
    ReconcileAllMeaning(live, Updates(heard));
    CellOf(p, W);
    CalledAndHeard(calls, heard, subs, c, id);
    assert id in Latest(Updates(heard)) <==> Watches(subs, id, c) && Called(calls, id);
    TickedAreCalled(calls, s, id);
  }

  /** On the chunks it watches, the client then has the server's world exactly if its
      picture was dark on those that did not tick: nothing is sent about them. */
  lemma RoundMirrorsIff(live: iset<Point>, s: State, env: Env, calls: seq<Call>, subs: Subscribers, c: ClientRef)
    requires Inv(s) && Registry.RoundAnnounces(calls, s, env)
    ensures (forall p :: Watches(subs, ChunkOf(p), c) ==> ShownRight(live, s, env, calls, subs, c, p))
      <==> forall p :: Watches(subs, ChunkOf(p), c) && !Ticked(s, ChunkOf(p)) ==> p !in live
  {
    forall p | Watches(subs, ChunkOf(p), c)
      ensures ShownRight(live, s, env, calls, subs, c, p) <==> Ticked(s, ChunkOf(p)) || p !in live
    {
      RoundReachesClient(live, s, env, calls, subs, c, p);
      DarkUnlessTicked(s, env, p);
    }
    hide *;
  }

  /** After the round the client shows the server's new world at `p`. */
  ghost predicate ShownRight(live: iset<Point>, s: State, env: Env, calls: seq<Call>, subs: Subscribers, c: ClientRef,
                             p: Point)
  {
    p in ReconcileAll(live, Updates(Heard(calls, subs, c))) <==> p in Denote(Tick(s, env))
  }

  lemma DarkUnlessTicked(s: State, env: Env, p: Point)
    ensures p in Denote(Tick(s, env)) ==> Ticked(s, ChunkOf(p))
  {
    TickKeys(s, env);
    if ChunkOf(p) !in Tick(s, env).active {
      AbsentIsDark(Tick(s, env), p);
    }
    hide Tick, Fed, Denote;
  }

  lemma CalledAndHeard(calls: seq<Call>, heard: seq<Call>, subs: Subscribers, c: ClientRef, id: ChunkID)
    requires forall x :: x in heard <==> x in calls && Watches(subs, x.id, c)
    ensures Called(heard, id) <==> Called(calls, id) && Watches(subs, id, c)
  {
    if Called(calls, id) && Watches(subs, id, c) {
      var x :| x in calls && x.id == id;
      assert x in heard;
    }
    if Called(heard, id) {
      var x :| x in heard && x.id == id;
      assert x in calls;
    }
  }

  lemma TickedAreCalled(calls: seq<Call>, s: State, id: ChunkID)
    requires forall k :: Ticked(s, k) ==> Called(calls, k)
    requires forall x :: x in calls ==> Ticked(s, x.id)
    ensures Called(calls, id) <==> Ticked(s, id)
  {
    hide Ticked;
  }

  lemma CellOf(p: Point, W: iset<Point>)
    ensures Lit(RowsAt(ChunkOf(p), W), p.x % 64, p.y % 64) <==> p in W
  {
    assert p == WorldPoint(ChunkOf(p), p.x % 64, p.y % 64);
  }

  // ----- Light cone -----

  datatype Rect = Rect(x0: int, y0: int, x1: int, y1: int)

  function Shrink(r: Rect, k: nat): Rect
  {
    Rect(r.x0 + k, r.y0 + k, r.x1 - k, r.y1 - k)
  }

  predicate In(r: Rect, p: Point)
  {
    r.x0 <= p.x <= r.x1 && r.y0 <= p.y <= r.y1
  }

  ghost predicate AgreeOn(A: iset<Point>, B: iset<Point>, r: Rect)
  {
    forall p: Point :: In(r, p) ==> (p in A <==> p in B)
  }

  /** Disagreement outside a rectangle comes in by one cell a generation. */
  lemma AgreeNext(A: iset<Point>, B: iset<Point>, r: Rect)
    requires AgreeOn(A, B, r)
    ensures AgreeOn(Next(A), Next(B), Shrink(r, 1))
  {
    hide Next;
    forall p | In(Shrink(r, 1), p)
      ensures p in Next(A) <==> p in Next(B)
    {
      forall q: Point | -1 <= p.x - q.x <= 1 && -1 <= p.y - q.y <= 1
        ensures q in A <==> q in B
      {
        assert In(r, q);
      }
      NextIsLocal(A, B, p);
    }
  }

  function Rounds(es: seq<Event>): nat
  {
    if |es| == 0 then 0 else Rounds(es[..|es| - 1]) + (if es[|es| - 1].Round? then 1 else 0)
  }

  /** No spawn lands where the prediction is still good when it lands. */
  ghost predicate SpawnsOutside(es: seq<Event>, r: Rect)
  {
    forall i :: 0 <= i < |es| && es[i].Spawn? ==> !In(Shrink(r, Rounds(es[..i])), es[i].p)
  }

  lemma {:induction false} NextNLast(S: iset<Point>, n: nat)
    ensures NextN(S, n + 1) == Next(NextN(S, n))
  {
    if n > 0 {
      NextNLast(Next(S), n - 1);
    }
  }

  lemma SpecStepInCone(A: iset<Point>, B: iset<Point>, e: Event, r: Rect)
    requires AgreeOn(A, B, r) && (e.Spawn? ==> !In(r, e.p))
    ensures e.Round? ==> AgreeOn(Next(A), SpecStep(B, e), Shrink(r, 1))
    ensures !e.Round? ==> AgreeOn(A, SpecStep(B, e), r)
  {
    AgreeNext(A, B, r);
    hide Next;
  }

  lemma {:induction false} SpecCone(A: iset<Point>, B: iset<Point>, es: seq<Event>, r: Rect)
    requires AgreeOn(A, B, r) && SpawnsOutside(es, r)
    ensures AgreeOn(NextN(A, Rounds(es)), SpecRun(B, es), Shrink(r, Rounds(es)))
  {
    hide AgreeOn, Next, NextN, SpecStep;
    if |es| == 0 {
      assert NextN(A, 0) == A by { NextNNone(A); }
      assert Shrink(r, 0) == r;
    } else {
      var n := |es| - 1;
      var before := es[..n];
      forall i | 0 <= i < n
        ensures before[..i] == es[..i] && before[i] == es[i]
      {
      }
      SpecCone(A, B, before, r);
      SpecStepInCone(NextN(A, Rounds(before)), SpecRun(B, before), es[n], Shrink(r, Rounds(before)));
      NextNLast(A, Rounds(before));
      assert Shrink(Shrink(r, Rounds(before)), 1) == Shrink(r, Rounds(before) + 1);
    }
  }

  lemma NextNNone(A: iset<Point>)
    ensures NextN(A, 0) == A
  {
  }

  /** Prediction against the server itself: a client that agrees with the server on
      a rectangle and ticks as often as the server does still agrees on it shrunk by
      one cell per round, whatever is spawned further out in the meantime. */
  lemma PredictionHolds(live: iset<Point>, s: State, es: seq<Event>, r: Rect)
    requires Inv(s) && SpawnsOutside(es, r)
    requires forall p: Point :: r.x0 <= p.x <= r.x1 && r.y0 <= p.y <= r.y1 ==> (p in live <==> p in Denote(s))
    ensures var n := Rounds(es);
      forall p: Point :: r.x0 + n <= p.x <= r.x1 - n && r.y0 + n <= p.y <= r.y1 - n ==>
        (p in NextN(live, n) <==> p in Denote(Run(s, es)))
  {
    RunRefines(s, es);
    hide Inv, Denote, Run, SpecRun, NextN;
    SpecCone(live, Denote(s), es, r);
    forall p | In(Shrink(r, Rounds(es)), p)
      ensures p in NextN(live, Rounds(es)) <==> p in SpecRun(Denote(s), es)
    {
    }
  }

  /** Drawing a piece at once and having the server place it later, repeats dropped or
      not, keeps the two in agreement wherever they were. */
  lemma PlacingKeepsAgreement(live: iset<Point>, s: State, root: Point, drawn: seq<Point>, placed: seq<Point>,
                              loadFails: set<ChunkID>, r: Rect)
    requires Inv(s) && AgreeOn(live, Denote(s), r) && forall c :: c in drawn <==> c in placed
    ensures AgreeOn(live + Translated(root, drawn), Denote(PlaceAll(s, root, placed, loadFails)), r)
  {
    PlaceAddsTranslated(s, root, placed, loadFails);
    hide Inv, Denote, PlaceAll;
    forall p
      ensures p in Translated(root, drawn) <==> p in Translated(root, placed)
    {
      SameCells(root, drawn, placed, p);
      SameCells(root, placed, drawn, p);
    }
  }
}
