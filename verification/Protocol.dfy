/**
  One browser and the server over two FIFO channels: which pending entry a reply
  removes, and whether both sides agree on the subscriptions.
 */
module Protocol {
  import opened Life

  /** The socket as the browser sees it; it is opened once and never again. */
  datatype Phase = Connecting | Open | Closed

  /** Placements are numbered in the order they are made; the numbers are not sent. */
  datatype Up =
    | Placement(tag: nat)
    | Subscribe(ids: set<ChunkID>)
    | Unsubscribe(ids: set<ChunkID>)

  datatype Down =
    | Answer(tag: nat, ok: bool)
    | Picture(id: ChunkID)

  /** What shifting the queue removed. */
  datatype Shifted = Nothing | Entry(tag: nat)

  datatype Pop = Pop(removed: Shifted, answered: nat)

  /** The browser's own part; pending placements are known by their numbers. */
  datatype Browser = Browser(phase: Phase, next: nat, pending: seq<nat>, subscribed: set<ChunkID>)

  /** Browser, channels, server; the last four fields are history: placements made
      before the socket opened, while it was open and after, and all pops so far. */
  datatype Net = Net(b: Browser, up: seq<Up>, down: seq<Down>, watching: set<ChunkID>,
                     early: seq<nat>, sent: seq<nat>, late: seq<nat>, log: seq<Pop>)

  datatype Act =
    | Connect
    | Close
    | Place
    | Look(needed: set<ChunkID>)
    | Serve(ok: bool, shown: seq<ChunkID>)
    | Broadcast(id: ChunkID)
    | Deliver

  const START: Net := Net(Browser(Connecting, 0, [], {}), [], [], {}, [], [], [], [])

  // ----- Browser -----

  /** placeAt: the entry is queued whether or not the command can be sent. */
  function Queued(b: Browser): Browser
  {
    b.(next := b.next + 1, pending := b.pending + [b.next])
  }

  function PlaceSends(b: Browser): seq<Up>
  {
    if b.phase.Open? then [Placement(b.next)] else []
  }

  function ToSub(subscribed: set<ChunkID>, needed: set<ChunkID>): seq<Up>
  {
    if needed - subscribed != {} then [Subscribe(needed - subscribed)] else []
  }

  function ToUnsub(subscribed: set<ChunkID>, needed: set<ChunkID>): seq<Up>
  {
    if subscribed - needed != {} then [Unsubscribe(subscribed - needed)] else []
  }

  /** The messages updateSubscriptions sends. */
  function Diff(subscribed: set<ChunkID>, needed: set<ChunkID>): seq<Up>
  {
    ToSub(subscribed, needed) + ToUnsub(subscribed, needed)
  }

  function Looked(b: Browser, needed: set<ChunkID>): Browser
  {
    if b.phase.Open? then b.(subscribed := needed) else b
  }

  function LookSends(b: Browser, needed: set<ChunkID>): seq<Up>
  {
    if b.phase.Open? then Diff(b.subscribed, needed) else []
  }

  function Shift(pending: seq<nat>): Shifted
  {
    if |pending| == 0 then Nothing else Entry(pending[0])
  }

  /** An acknowledgement or an error shifts the queue. */
  function Popped(b: Browser): Browser
  {
    b.(pending := if |b.pending| == 0 then [] else b.pending[1..])
  }

  function PlaceOne(s: Net): Net
  {
    var t := s.(b := Queued(s.b), up := s.up + PlaceSends(s.b));
    match s.b.phase
    case Connecting => t.(early := s.early + [s.b.next])
    case Open => t.(sent := s.sent + [s.b.next])
    case Closed => t.(late := s.late + [s.b.next])
  }

  function LookAt(s: Net, needed: set<ChunkID>): Net
  {
    s.(b := Looked(s.b, needed), up := s.up + LookSends(s.b, needed))
  }

  function DeliverOne(s: Net): Net
  {
    if |s.down| == 0 then s
    else
      var t := s.(down := s.down[1..]);
      match s.down[0]
      case Picture(_) => t
      case Answer(tag, _) => t.(b := Popped(s.b), log := s.log + [Pop(Shift(s.b.pending), tag)])
  }

  // ----- Server -----

  function Pictures(ids: seq<ChunkID>): seq<Down>
  {
    if ids == [] then [] else [Picture(ids[0])] + Pictures(ids[1..])
  }

  /** The server's subscriptions once it has read `u`. */
  function After(watching: set<ChunkID>, u: Up): set<ChunkID>
  {
    match u
    case Placement(_) => watching
    case Subscribe(ids) => watching + ids
    case Unsubscribe(ids) => watching - ids
  }

  /** Route: one answer to a placement, any pictures to a subscription. */
  function ServeOne(s: Net, ok: bool, shown: seq<ChunkID>): Net
  {
    if |s.up| == 0 then s
    else
      var t := s.(up := s.up[1..], watching := After(s.watching, s.up[0]));
      match s.up[0]
      case Placement(tag) => t.(down := s.down + [Answer(tag, ok)])
      case Subscribe(_) => t.(down := s.down + Pictures(shown))
      case Unsubscribe(_) => t
  }

  function Step(s: Net, a: Act): Net
  {
    match a
    case Connect => if s.b.phase.Connecting? then s.(b := s.b.(phase := Open)) else s
    case Close => s.(b := s.b.(phase := Closed))
    case Place => PlaceOne(s)
    case Look(needed) => LookAt(s, needed)
    case Serve(ok, shown) => ServeOne(s, ok, shown)
    case Broadcast(id) => if id in s.watching then s.(down := s.down + [Picture(id)]) else s
    case Deliver => DeliverOne(s)
  }

  function Run(acts: seq<Act>): Net
  {
    if |acts| == 0 then START else Step(Run(acts[..|acts| - 1]), acts[|acts| - 1])
  }

  // ----- Replies -----

  /** The placements waiting in the upward channel, oldest first. */
  function Waiting(up: seq<Up>): seq<nat>
  {
    if |up| == 0 then []
    else Waiting(up[..|up| - 1]) + (if up[|up| - 1].Placement? then [up[|up| - 1].tag] else [])
  }

  /** The placements answered but not delivered, oldest first. */
  function Answered(down: seq<Down>): seq<nat>
  {
    if |down| == 0 then []
    else Answered(down[..|down| - 1]) + (if down[|down| - 1].Answer? then [down[|down| - 1].tag] else [])
  }

  lemma {:induction false} WaitingSplit(a: seq<Up>, b: seq<Up>)
    ensures Waiting(a + b) == Waiting(a) + Waiting(b)
  {
    if |b| == 0 {
      assert a + b == a;
    } else {
      var n := |b| - 1;
      assert (a + b)[..|a + b| - 1] == a + b[..n];
      WaitingSplit(a, b[..n]);
    }
  }

  lemma {:induction false} AnsweredSplit(a: seq<Down>, b: seq<Down>)
    ensures Answered(a + b) == Answered(a) + Answered(b)
  {
    if |b| == 0 {
      assert a + b == a;
    } else {
      var n := |b| - 1;
      assert (a + b)[..|a + b| - 1] == a + b[..n];
      AnsweredSplit(a, b[..n]);
    }
  }

  lemma {:induction false} PicturesAnswerNothing(ids: seq<ChunkID>)
    ensures Answered(Pictures(ids)) == []
  {
    if ids != [] {
      PicturesAnswerNothing(ids[1..]);
      AnsweredSplit([Picture(ids[0])], Pictures(ids[1..]));
    }
  }

  ghost predicate Ascending(s: seq<nat>, next: nat)
  {
    (forall i, j :: 0 <= i < j < |s| ==> s[i] < s[j]) && forall i :: 0 <= i < |s| ==> s[i] < next
  }

  /** All placements made, oldest first. */
  function Placed(s: Net): seq<nat>
  {
    s.early + s.sent + s.late
  }

  ghost predicate Phased(s: Net)
  {
    (s.b.phase.Connecting? ==> s.sent == []) && (!s.b.phase.Closed? ==> s.late == [])
  }

  /** Replies owed or under way are those of the placements sent and not yet popped. */
  ghost predicate Owed(s: Net)
  {
    |s.log| <= |s.sent| && Answered(s.down) + Waiting(s.up) == s.sent[|s.log|..]
  }

  /** The queue is everything placed, less one entry a pop; the i-th pop answers the
      i-th placement sent and removes the i-th placed. */
  ghost predicate Lined(s: Net)
  {
    && |s.log| <= |s.sent| <= |Placed(s)|
    && s.b.pending == Placed(s)[|s.log|..]
    && Ascending(Placed(s), s.b.next)
    && forall i :: 0 <= i < |s.log| ==> s.log[i] == Pop(Entry(Placed(s)[i]), s.sent[i])
  }

  ghost predicate Queues(s: Net)
  {
    Phased(s) && Owed(s) && Lined(s)
  }

  lemma AscendingOneMore(s: seq<nat>, next: nat)
    requires Ascending(s, next)
    ensures Ascending(s + [next], next + 1)
  {
  }

  /** What is owed grows with what is sent. */
  lemma PlaceOwed(s: Net)
    requires Owed(s)
    ensures Owed(PlaceOne(s))
  {
    var t := PlaceOne(s);
    WaitingSplit(s.up, PlaceSends(s.b));
    if s.b.phase.Open? {
      WaitingOne(Placement(s.b.next));
      hide Waiting, Answered;
      Regroup(Answered(s.down), Waiting(s.up), [s.b.next]);
      DropAppend(s.sent, |s.log|, s.b.next);
    } else {
      assert t.up == s.up;
    }
  }

  lemma Regroup(a: seq<nat>, b: seq<nat>, c: seq<nat>)
    ensures a + (b + c) == (a + b) + c
  {
  }

  lemma DropAppend(s: seq<nat>, n: nat, x: nat)
    requires n <= |s|
    ensures (s + [x])[n..] == s[n..] + [x]
  {
  }

  lemma PlacedGrows(s: Net)
    requires Phased(s)
    ensures Phased(PlaceOne(s)) && Placed(PlaceOne(s)) == Placed(s) + [s.b.next]
  {
  }

  lemma PlaceLined(s: Net)
    requires Phased(s) && Lined(s)
    ensures Lined(PlaceOne(s))
  {
    PlacedGrows(s);
    AscendingOneMore(Placed(s), s.b.next);
    DropAppend(Placed(s), |s.log|, s.b.next);
    hide Phased, Placed, Ascending;
  }

  lemma PlaceKeepsQueues(s: Net)
    requires Queues(s)
    ensures Queues(PlaceOne(s))
  {
    hide Phased, Owed, Lined;
    PlacedGrows(s);
    PlaceOwed(s);
    PlaceLined(s);
  }

  lemma LookKeepsQueues(s: Net, needed: set<ChunkID>)
    requires Queues(s)
    ensures Queues(LookAt(s, needed))
  {
    WaitingSplit(s.up, LookSends(s.b, needed));
    DiffWaitsForNothing(s.b, needed);
    hide Ascending, Waiting, Answered, LookSends;
  }

  lemma DiffWaitsForNothing(b: Browser, needed: set<ChunkID>)
    ensures Waiting(LookSends(b, needed)) == []
  {
    var more, less := needed - b.subscribed, b.subscribed - needed;
    WaitingSplit(ToSub(b.subscribed, needed), ToUnsub(b.subscribed, needed));
    WaitingOne(Subscribe(more));
    WaitingOne(Unsubscribe(less));
    WaitingNone();
    hide Waiting;
  }

  lemma WaitingOne(u: Up)
    ensures Waiting([u]) == if u.Placement? then [u.tag] else []
  {
    assert [u][..0] == [];
  }

  lemma WaitingNone()
    ensures Waiting([]) == []
  {
  }

  lemma ServeOwed(s: Net, ok: bool, shown: seq<ChunkID>)
    requires Owed(s)
    ensures Owed(ServeOne(s, ok, shown))
  {
    if |s.up| > 0 {
      WaitingHead(s.up);
      if s.up[0].Placement? {
        AnsweredSplit(s.down, [Answer(s.up[0].tag, ok)]);
        assert Answered([Answer(s.up[0].tag, ok)]) == [s.up[0].tag];
        hide Waiting, Answered;
        Regroup(Answered(s.down), [s.up[0].tag], Waiting(s.up[1..]));
      } else {
        PicturesAnswerNothing(shown);
        AnsweredSplit(s.down, Pictures(shown));
        hide Waiting, Answered;
      }
    }
  }

  lemma WaitingHead(up: seq<Up>)
    requires |up| > 0
    ensures Waiting(up) == (if up[0].Placement? then [up[0].tag] else []) + Waiting(up[1..])
  {
    assert up == [up[0]] + up[1..];
    WaitingSplit([up[0]], up[1..]);
  }

  lemma AnsweredHead(down: seq<Down>)
    requires |down| > 0
    ensures Answered(down) == (if down[0].Answer? then [down[0].tag] else []) + Answered(down[1..])
  {
    assert down == [down[0]] + down[1..];
    AnsweredSplit([down[0]], down[1..]);
  }

  lemma ServeKeepsQueues(s: Net, ok: bool, shown: seq<ChunkID>)
    requires Queues(s)
    ensures Queues(ServeOne(s, ok, shown))
  {
    ServeOwed(s, ok, shown);
    hide Owed, Ascending;
  }

  /** The next reply delivered is the oldest one owed. */
  lemma DeliverOwed(s: Net)
    requires Owed(s) && |s.down| > 0
    ensures s.down[0].Answer? ==> |s.log| < |s.sent| && s.sent[|s.log|] == s.down[0].tag
    ensures Owed(DeliverOne(s))
  {
    AnsweredHead(s.down);
    if s.down[0].Answer? {
      var n, tag := |s.log|, s.down[0].tag;
      hide Waiting, Answered;
      Regroup([tag], Answered(s.down[1..]), Waiting(s.up));
      HeadAndRest(s.sent, n, tag, Answered(s.down[1..]) + Waiting(s.up));
    }
  }

  lemma HeadAndRest(s: seq<nat>, n: nat, x: nat, rest: seq<nat>)
    requires n <= |s| && s[n..] == [x] + rest
    ensures n < |s| && s[n] == x && s[n + 1..] == rest
  {
    assert |s[n..]| == 1 + |rest|;
    assert s[n..][0] == x;
    assert s[n + 1..] == s[n..][1..];
  }

  lemma PlacedStays(s: Net)
    ensures Placed(DeliverOne(s)) == Placed(s) && DeliverOne(s).sent == s.sent
  {
  }

  lemma DeliverLined(s: Net)
    requires Lined(s) && |s.down| > 0
    requires s.down[0].Answer? ==> |s.log| < |s.sent| && s.sent[|s.log|] == s.down[0].tag
    ensures Lined(DeliverOne(s))
  {
    PlacedStays(s);
    hide Placed, Ascending;
    if s.down[0].Answer? {
      DropHead(Placed(s), |s.log|);
    }
  }

  lemma DropHead(s: seq<nat>, n: nat)
    requires n < |s|
    ensures s[n..] != [] && s[n..][0] == s[n] && s[n..][1..] == s[n + 1..]
  {
  }

  lemma DeliverKeepsQueues(s: Net)
    requires Queues(s)
    ensures Queues(DeliverOne(s))
  {
    hide Owed, Lined;
    if |s.down| > 0 {
      DeliverOwed(s);
      DeliverLined(s);
    }
  }

  lemma StepKeepsQueues(s: Net, a: Act)
    requires Queues(s)
    ensures Queues(Step(s, a))
  {
    hide Ascending, Waiting, Answered, PlaceOne, LookAt, ServeOne, DeliverOne;
    match a
    case Connect =>
    case Close =>
    case Place => PlaceKeepsQueues(s);
    case Look(needed) => LookKeepsQueues(s, needed);
    case Serve(ok, shown) => ServeKeepsQueues(s, ok, shown);
    case Broadcast(id) => PictureOwesNothing(s.down, id);
    case Deliver => DeliverKeepsQueues(s);
  }

  lemma PictureOwesNothing(down: seq<Down>, id: ChunkID)
    ensures Answered(down + [Picture(id)]) == Answered(down)
  {
    AnsweredSplit(down, [Picture(id)]);
  }

  lemma {:induction false} RunKeepsQueues(acts: seq<Act>)
    ensures Queues(Run(acts))
  {
    hide Queues, Step;
    if |acts| == 0 {
      StartQueues();
    } else {
      RunKeepsQueues(acts[..|acts| - 1]);
      StepKeepsQueues(Run(acts[..|acts| - 1]), acts[|acts| - 1]);
    }
  }

  lemma StartQueues()
    ensures Queues(START)
  {
  }

  /** In every run, each single reply removes the entry of the command it answers
      exactly when nothing was placed before the socket opened. */
  lemma RepliesMatchIff(acts: seq<Act>, i: nat)
    requires i < |Run(acts).log|
    ensures Run(acts).log[i].removed == Entry(Run(acts).log[i].answered) <==> Run(acts).early == []
  {
    var s := Run(acts);
    RunKeepsQueues(acts);
    hide Owed, Run;
    assert Placed(s)[|s.early| + i] == s.sent[i];
    assert s.log[i] == Pop(Entry(Placed(s)[i]), s.sent[i]);
  }

  lemma {:induction false} RunOneMore(acts: seq<Act>, a: Act)
    ensures Run(acts + [a]) == Step(Run(acts), a)
  {
    assert (acts + [a])[..|acts|] == acts;
  }

  /** A click while the socket is still connecting; it opens, and the browser at once
      subscribes to what is in view, of which the server has nothing to show. */
  function EarlyClick(needed: set<ChunkID>, ok: bool): seq<Act>
  {
    [Place, Connect, Look(needed), Serve(ok, [])]
  }

  lemma EarlySteps(needed: set<ChunkID>, ok: bool)
    ensures var s := Net(Browser(Open, 1, [0], {}), [], [], {}, [0], [], [], []);
      && Step(Step(START, Place), Connect) == s
      && Step(Step(s, Look(needed)), Serve(ok, [])) == s.(b := Browser(Open, 1, [0], needed), watching := needed)
  {
    assert needed - {} == needed && {} - needed == {} && {} + needed == needed;
    assert ToUnsub({}, needed) == [];
    assert Pictures([]) == [];
  }

  lemma AfterEarlyClick(needed: set<ChunkID>, ok: bool)
    ensures Run(EarlyClick(needed, ok)) == Net(Browser(Open, 1, [0], needed), [], [], needed, [0], [], [], [])
  {
    EarlySteps(needed, ok);
    assert Run([]) == START;
    hide Step, Run;
    RunOneMore([], Place);
    RunOneMore([Place], Connect);
    RunOneMore([Place] + [Connect], Look(needed));
    RunOneMore([Place] + [Connect] + [Look(needed)], Serve(ok, []));
    assert [] + [Place] == [Place];
    assert [Place] + [Connect] + [Look(needed)] + [Serve(ok, [])] == EarlyClick(needed, ok);
  }

  /** A run that gets there, whatever is in view: the reply to the next placement
      removes the early one's entry, and its own stays behind. */
  lemma EarlyClickMispairs(needed: set<ChunkID>, ok: bool)
    ensures var s := Run(EarlyClick(needed, ok) + [Place] + [Serve(ok, [])] + [Deliver]);
      s.log == [Pop(Entry(0), 1)] && s.b.pending == [1] && s.up == [] && s.down == [] && s.watching == needed
  {
    var acts := EarlyClick(needed, ok);
    AfterEarlyClick(needed, ok);
    RunOneMore(acts, Place);
    RunOneMore(acts + [Place], Serve(ok, []));
    RunOneMore(acts + [Place] + [Serve(ok, [])], Deliver);
    hide Run, EarlyClick;
  }

  /** One reply per placement sent, in order; none is left once both channels are
      drained. */
  lemma EveryPlacementAnswered(acts: seq<Act>)
    ensures var s := Run(acts);
      && |s.log| <= |s.sent| && (forall i :: 0 <= i < |s.log| ==> s.log[i].answered == s.sent[i])
      && (s.up == [] && s.down == [] ==> |s.log| == |s.sent|)
      && (s.up == [] && s.down == [] && s.early == [] && !s.b.phase.Closed? ==> s.b.pending == [])
  {
    RunKeepsQueues(acts);
    var s := Run(acts);
    if s.up == [] && s.down == [] {
      assert s.sent[|s.log|..] == [];
    }
  }

  // ----- Subscriptions -----

  /** What the server will hold once it has read the whole channel. */
  function Settled(watching: set<ChunkID>, up: seq<Up>): set<ChunkID>
    decreases |up|
  {
    if |up| == 0 then watching else Settled(After(watching, up[0]), up[1..])
  }

  lemma {:induction false} SettledSplit(w: set<ChunkID>, a: seq<Up>, b: seq<Up>)
    ensures Settled(w, a + b) == Settled(Settled(w, a), b)
    decreases |a|
  {
    if |a| == 0 {
      assert a + b == b;
    } else {
      assert (a + b)[1..] == a[1..] + b;
      SettledSplit(After(w, a[0]), a[1..], b);
    }
  }

  lemma SettledOne(w: set<ChunkID>, u: Up)
    ensures Settled(w, [u]) == After(w, u)
  {
    assert [u][1..] == [];
  }

  lemma DiffSettles(subscribed: set<ChunkID>, needed: set<ChunkID>)
    ensures Settled(subscribed, Diff(subscribed, needed)) == needed
  {
    SettledSplit(subscribed, ToSub(subscribed, needed), ToUnsub(subscribed, needed));
    SettledOne(subscribed, Subscribe(needed - subscribed));
    SettledOne(subscribed + needed, Unsubscribe(subscribed - needed));
    assert subscribed + (needed - subscribed) == subscribed + needed;
    assert (subscribed + needed) - (subscribed - needed) == needed;
  }

  lemma StepKeepsSettled(s: Net, a: Act)
    requires Settled(s.watching, s.up) == s.b.subscribed
    ensures Settled(Step(s, a).watching, Step(s, a).up) == Step(s, a).b.subscribed
  {
    match a
    case Place => SettledSplit(s.watching, s.up, PlaceSends(s.b));
    case Look(needed) =>
      SettledSplit(s.watching, s.up, LookSends(s.b, needed));
      DiffSettles(s.b.subscribed, needed);
    case _ =>
  }

  /** However scrolling, placing and delivery interleave, the server's subscriptions
      are the browser's once the upward channel is drained. */
  lemma {:induction false} SubscriptionsAgree(acts: seq<Act>)
    ensures var s := Run(acts);
      Settled(s.watching, s.up) == s.b.subscribed && (s.up == [] ==> s.watching == s.b.subscribed)
  {
    hide Step;
    if |acts| > 0 {
      SubscriptionsAgree(acts[..|acts| - 1]);
      StepKeepsSettled(Run(acts[..|acts| - 1]), acts[|acts| - 1]);
    }
  }

  /** Read by a server that holds `held`, the message changes something for every chunk
      it names, and it names one. */
  predicate Tells(held: set<ChunkID>, u: Up)
  {
    match u
    case Placement(_) => true
    case Subscribe(ids) => ids != {} && ids !! held
    case Unsubscribe(ids) => ids != {} && ids <= held
  }

  ghost predicate AllTell(watching: set<ChunkID>, up: seq<Up>)
  {
    forall i :: 0 <= i < |up| ==> Tells(Settled(watching, up[..i]), up[i])
  }

  lemma AllTellAppend(watching: set<ChunkID>, up: seq<Up>, u: Up)
    requires AllTell(watching, up) && Tells(Settled(watching, up), u)
    ensures AllTell(watching, up + [u])
  {
    hide Settled, Tells;
    var all := up + [u];
    assert up[..|up|] == up;
    forall i | 0 <= i < |all|
      ensures Tells(Settled(watching, all[..i]), all[i])
    {
      assert all[..i] == up[..i];
    }
  }

  lemma AllTellRest(watching: set<ChunkID>, up: seq<Up>)
    requires AllTell(watching, up) && |up| > 0
    ensures AllTell(After(watching, up[0]), up[1..])
  {
    hide Tells, After;
    var rest := up[1..];
    forall i | 0 <= i < |rest|
      ensures Tells(Settled(After(watching, up[0]), rest[..i]), rest[i])
    {
      assert up[..i + 1][1..] == rest[..i] && up[..i + 1][0] == up[0];
      assert Tells(Settled(watching, up[..i + 1]), up[i + 1]);
    }
  }

  lemma LookTells(s: Net, needed: set<ChunkID>)
    requires Settled(s.watching, s.up) == s.b.subscribed && AllTell(s.watching, s.up)
    ensures AllTell(s.watching, LookAt(s, needed).up)
  {
    var held, more := s.b.subscribed, ToSub(s.b.subscribed, needed);
    SettledSplit(s.watching, s.up, more);
    SettledOne(held, Subscribe(needed - held));
    hide Settled, AllTell;
    if needed - held != {} {
      AllTellAppend(s.watching, s.up, Subscribe(needed - held));
    } else {
      assert s.up + more == s.up;
    }
    assert s.up + Diff(held, needed) == s.up + more + ToUnsub(held, needed);
    assert s.up + [] == s.up;
    if held - needed != {} {
      AllTellAppend(s.watching, s.up + more, Unsubscribe(held - needed));
    } else {
      assert s.up + more + [] == s.up + more;
    }
  }

  lemma StepTells(s: Net, a: Act)
    requires Settled(s.watching, s.up) == s.b.subscribed && AllTell(s.watching, s.up)
    ensures AllTell(Step(s, a).watching, Step(s, a).up)
  {
    hide Settled, AllTell, LookAt;
    match a
    case Place =>
      if s.b.phase.Open? {
        AllTellAppend(s.watching, s.up, Placement(s.b.next));
      } else {
        assert s.up + [] == s.up;
      }
    case Look(needed) =>
      LookTells(s, needed);
      LookWatches(s, needed);
    case Serve(_, _) =>
      if |s.up| > 0 {
        AllTellRest(s.watching, s.up);
      }
    case _ =>
  }

  lemma LookWatches(s: Net, needed: set<ChunkID>)
    ensures LookAt(s, needed).watching == s.watching
  {
  }

  /** In every run, no subscription message is redundant: a Subscribe names chunks, none
      of which the server will hold when it reads the message; an Unsubscribe names
      chunks, all of which it will hold. */
  lemma {:induction false} NoRedundantMessage(acts: seq<Act>)
    ensures var s := Run(acts);
      forall i :: 0 <= i < |s.up| ==>
        var held := Settled(s.watching, s.up[..i]);
        && (s.up[i].Subscribe? ==> s.up[i].ids != {} && s.up[i].ids !! held)
        && (s.up[i].Unsubscribe? ==> s.up[i].ids != {} && s.up[i].ids <= held)
  {
    RunTells(acts);
    hide Run, Settled;
  }

  lemma {:induction false} RunTells(acts: seq<Act>)
    ensures AllTell(Run(acts).watching, Run(acts).up)
  {
    hide Step, AllTell;
    if |acts| > 0 {
      RunTells(acts[..|acts| - 1]);
      SubscriptionsAgree(acts[..|acts| - 1]);
      StepTells(Run(acts[..|acts| - 1]), acts[|acts| - 1]);
    } else {
      StartTells();
    }
  }

  lemma StartTells()
    ensures AllTell(START.watching, START.up)
  {
  }
}
