/**
  The command router: one incoming message against the limiter, the registry, the
  subscriptions and the client's connection.
 */
module Router {
  import opened Bits
  import opened Life
  import opened Chunks
  import opened Storage
  import opened RegistryModel
  import opened Refinement
  import opened Runs
  import opened Placement
  import opened PubSub
  import RL = RateLimit
  import RateLimiter
  import Registry

  // ----- Messages -----

  /** A payload that may fail to parse. */
  datatype Parsed<T> = Malformed | Payload(value: T)

  datatype PlaceShapeCommand = PlaceShapeCommand(root: Point, shape: string)

  datatype PlaceCustomCommand = PlaceCustomCommand(root: Point, cells: seq<Point>)

  datatype Incoming =
    | Spawn(at: Parsed<Point>)
    | PlaceShape(shape: Parsed<PlaceShapeCommand>)
    | PlaceCustom(custom: Parsed<PlaceCustomCommand>)
    | Subscribe(chunks: Parsed<seq<ChunkID>>)
    | Unsubscribe(chunks: Parsed<seq<ChunkID>>)
    | Ping
    | Other(kind: string)

  datatype Outgoing =
    | SpawnAck(at: Point)
    | PlaceShapeAck(shape: PlaceShapeCommand)
    | PlaceCustomAck(custom: PlaceCustomCommand)
    | Error(code: string)
    | ChunkState(id: ChunkID, cells: seq<uint16>)

  /** A reading of the clocks, and whether the limiter can be reached then. */
  datatype Instant = Instant(now: int, clock: int, down: bool)

  class Connection {
    const ref: ClientRef
    var sent: seq<Outgoing>

    constructor (ref: ClientRef)
      ensures this.ref == ref && sent == []
    {
      this.ref := ref;
      sent := [];
    }

    method WriteJSON(m: Outgoing)
      modifies this
      ensures sent == old(sent) + [m]
    {
      sent := sent + [m];
    }
  }

  // ----- Spawning through the registry -----

  lemma WakeOnlyAsks(s: State, id: ChunkID, loadFails: set<ChunkID>)
    ensures Wake(s, {id}, loadFails) == TouchOne(s, id, id in loadFails)
  {
    hide Hydrate;
    var asked := if id in loadFails then {id} else {};
    assert WakeActive(s.active, s.store, {id}, loadFails) == WakeActive(s.active, s.store, {id}, asked);
  }

  /** One chunk of a registry whose other objects still show `t` got one more cell. */
  lemma MarkedView(reg: Registry.Registry, t: State, p: Point)
    requires var id := ChunkOf(p);
      && reg.Shows(t, reg.chunks, id) && id in reg.chunks && reg.store.contents == t.store
      && reg.activeChunks == t.gauge
      && Entry(reg.chunks[id].chunk.rows, reg.chunks[id].idleTicks)
           == t.active[id].(rows := Mark(t.active[id].rows, p.x % 64, p.y % 64))
    ensures var id := ChunkOf(p);
      id in t.active && reg.View() == Marked(t, p)
  {
    hide Mark;
    var id := ChunkOf(p);
    assert reg.View().active.Keys == t.active.Keys;
  }

  ghost function Marked(t: State, p: Point): State
    requires ChunkOf(p) in t.active
  {
    var e := t.active[ChunkOf(p)];
    t.(active := t.active[ChunkOf(p) := e.(rows := Mark(e.rows, p.x % 64, p.y % 64))])
  }

  /** The registry holds this very chunk. */
  ghost predicate Holds(reg: Registry.Registry, handle: Chunk)
    reads reg, reg.chunks.Values
  {
    handle.ID in reg.chunks && reg.chunks[handle.ID].chunk == handle
  }

  lemma NotHeldIsApart(reg: Registry.Registry, handle: Chunk)
    requires reg.Valid() && !Holds(reg, handle)
    ensures handle !in reg.Footprint()
  {
    assert forall k :: k in reg.chunks ==> reg.chunks[k].chunk.ID == k;
  }

  /** ProcessSpawn on any chunk a caller holds: a registered one shows the new cell; one
      evicted meanwhile takes it, and the registry does not change. */
  method ProcessSpawn(reg: Registry.Registry, handle: Chunk, x: uint8, y: uint8, ghost p: Point)
    requires reg.Valid() && handle.ID == ChunkOf(p) && x == p.x % 64 && y == p.y % 64
    modifies handle
    ensures reg.Valid() && handle.rows == Mark(old(handle.rows), x, y)
    ensures Holds(reg, handle) ==> ChunkOf(p) in old(reg.View()).active && reg.View() == Marked(old(reg.View()), p)
    ensures !Holds(reg, handle) ==> reg.View() == old(reg.View())
  {
    hide Mark, Marked;
    ghost var held, t, f, c := Holds(reg, handle), reg.View(), reg.Footprint(), reg.chunks;
    BeforeSpawn(reg, handle, p);
    hide Registry.Registry.View, Registry.Registry.Valid, Holds;
    assert c == reg.chunks;
    handle.AddCell(x, y);
    assert reg.store.Valid();
    reg.StillValid();
    if held {
      assert reg.Shows(t, c, ChunkOf(p));
      HoldsMeans(reg, handle);
      MarkedView(reg, t, p);
    } else {
      assert reg.Footprint() == f && reg.View() == t;
    }
  }

  lemma BeforeSpawn(reg: Registry.Registry, handle: Chunk, p: Point)
    requires reg.Valid() && handle.ID == ChunkOf(p)
    ensures var t, c := reg.View(), reg.chunks;
      && reg.AllFiled(c) && reg.Shows(t, c, ChunkOf(p)) && reg.store.contents == t.store && reg.activeChunks == t.gauge
      && (Holds(reg, handle) ==>
            ChunkOf(p) in t.active && t.active[ChunkOf(p)] == Entry(handle.rows, c[ChunkOf(p)].idleTicks))
    ensures !Holds(reg, handle) ==> handle !in reg.Footprint()
  {
    if !Holds(reg, handle) {
      NotHeldIsApart(reg, handle);
    }
  }

  lemma HoldsMeans(reg: Registry.Registry, handle: Chunk)
    ensures Holds(reg, handle) <==> handle.ID in reg.chunks && reg.chunks[handle.ID].chunk == handle
  {
  }

  lemma HandleID(reg: Registry.Registry, id: ChunkID)
    requires reg.Valid() && id in reg.chunks
    ensures reg.chunks[id].chunk.ID == id
  {
  }

  method SpawnWorldCell(reg: Registry.Registry, worldX: int, worldY: int, loadFails: set<ChunkID>)
    requires reg.Valid()
    modifies reg.Footprint()
    ensures reg.Valid()
    ensures reg.View() == SpawnOne(old(reg.View()), Point(worldX, worldY), ChunkOf(Point(worldX, worldY)) in loadFails)
    ensures fresh(reg.Footprint() - old(reg.Footprint()))
  {
    hide Wake, Marked, SpawnOne, TouchOne, Registry.Registry.View, Registry.Registry.Valid;
    ghost var s, p := reg.View(), Point(worldX, worldY);
    var cx, lx := WorldToChunkLocal(worldX);
    var cy, ly := WorldToChunkLocal(worldY);
    assert ChunkID(cx, cy) == ChunkOf(p);
    var handle := reg.GetOrCreate(ChunkID(cx, cy), loadFails);
    SpawnIsMark(s, p, loadFails);
    HandleID(reg, ChunkOf(p));
    ProcessSpawn(reg, handle, lx, ly, p);
  }

  lemma SpawnIsMark(s: State, p: Point, loadFails: set<ChunkID>)
    ensures ChunkOf(p) in Wake(s, {ChunkOf(p)}, loadFails).active
    ensures Marked(Wake(s, {ChunkOf(p)}, loadFails), p) == SpawnOne(s, p, ChunkOf(p) in loadFails)
  {
    WakeOnlyAsks(s, ChunkOf(p), loadFails);
    hide NewEntry, Mark;
  }

  lemma PlaceNone(s: State, root: Point, cells: seq<Point>, loadFails: set<ChunkID>)
    ensures PlaceAll(s, root, cells[..0], loadFails) == s
  {
  }

  lemma PlaceOneMore(s: State, root: Point, cells: seq<Point>, i: nat, loadFails: set<ChunkID>)
    requires i < |cells|
    ensures var p := Translate(root, cells[i]);
      PlaceAll(s, root, cells[..i + 1], loadFails)
        == SpawnOne(PlaceAll(s, root, cells[..i], loadFails), p, ChunkOf(p) in loadFails)
  {
    hide SpawnOne;
    assert cells[..i + 1][..i] == cells[..i];
  }

  /** The registry's objects are none of the router's others. */
  lemma Apart(reg: Registry.Registry, limiter: RateLimiter.Limiter, hub: Hub, client: Connection)
    ensures limiter !in reg.Footprint() && hub !in reg.Footprint() && client !in reg.Footprint()
  {
  }

  /** The spawn loop of a placement. */
  method PlaceCells(reg: Registry.Registry, root: Point, cells: seq<Point>, loadFails: set<ChunkID>)
    requires reg.Valid()
    modifies reg.Footprint()
    ensures reg.Valid() && reg.View() == PlaceAll(old(reg.View()), root, cells, loadFails)
    ensures fresh(reg.Footprint() - old(reg.Footprint()))
    ensures Inv(old(reg.View())) ==>
        && Inv(reg.View())
        && forall q :: q in Denote(reg.View()) <==>
             q in Denote(old(reg.View()))
             || exists i :: 0 <= i < |cells| && q.x - root.x == cells[i].x && q.y - root.y == cells[i].y
  {
    hide SpawnOne, PlaceAll, Inv, Denote, Registry.Registry.View, Registry.Registry.Valid;
    if Inv(reg.View()) {
      PlaceAddsCells(reg.View(), root, cells, loadFails);
    }
    PlaceNone(reg.View(), root, cells, loadFails);
    for i := 0 to |cells|
      invariant reg.Valid() && reg.View() == PlaceAll(old(reg.View()), root, cells[..i], loadFails)
      invariant fresh(reg.Footprint() - old(reg.Footprint()))
    {
      PlaceOneMore(old(reg.View()), root, cells, i, loadFails);
      SpawnWorldCell(reg, root.x + cells[i].x, root.y + cells[i].y, loadFails);
    }
    assert cells[..|cells|] == cells;
  }

  // ----- What the limiter decides -----

  const LARGE_CUSTOM_THRESHOLD := 50
  const LARGE_CUSTOM_PENALTY := 25

  datatype Verdict = Allowed | Limited | Unavailable

  datatype Ruling = Ruling(store: RL.Store, verdict: Verdict)

  function CheckOne(store: RL.Store, player: string, t: Instant): Ruling
  {
    if t.down then Ruling(store, Unavailable)
    else
      var r := RL.RealStep(RL.LIMITS, store, RL.Mutate(player, t.now), t.clock);
      Ruling(r.store, if r.answer == 1 then Allowed else Limited)
  }

  /** One token per cell, up to the first refusal. */
  function CheckMany(store: RL.Store, player: string, time: nat -> Instant, i: nat, n: nat): Ruling
    decreases n - i
  {
    if i >= n then Ruling(store, Allowed)
    else
      var c := CheckOne(store, player, time(i));
      if c.verdict.Allowed? then CheckMany(c.store, player, time, i + 1, n) else c
  }

  function TokensWanted(cells: nat): nat
  {
    if cells > LARGE_CUSTOM_THRESHOLD then cells + LARGE_CUSTOM_PENALTY else cells
  }

  function CheckDrain(store: RL.Store, player: string, t: Instant, n: nat): Ruling
  {
    if t.down then Ruling(store, Unavailable)
    else
      var r := RL.RealStep(RL.LIMITS, store, RL.Drain(player, t.now, n), t.clock);
      Ruling(r.store, if r.answer == 0 && n > 0 then Limited else Allowed)
  }

  function ErrorFor(v: Verdict): string
  {
    if v.Limited? then "RATE_LIMITED" else "INTERNAL_ERROR"
  }

  /** A placement is refused with one code, or puts `cells` at `root` and is acknowledged. */
  datatype Decision = Refuse(code: string) | Place(root: Point, cells: seq<Point>, ack: Outgoing)

  datatype Decided = Decided(store: RL.Store, decision: Decision)

  predicate IsPlacement(msg: Incoming)
  {
    msg.Spawn? || msg.PlaceShape? || msg.PlaceCustom?
  }

  function DecideSpawn(store: RL.Store, player: string, at: Parsed<Point>, t: Instant): Decided
  {
    var c := CheckOne(store, player, t);
    Decided(c.store,
            if !c.verdict.Allowed? then Refuse(ErrorFor(c.verdict))
            else if at.Malformed? then Refuse("INVALID_PAYLOAD")
            else Place(at.value, [Point(0, 0)], SpawnAck(at.value)))
  }

  function DecideShape(store: RL.Store, catalog: map<string, seq<Point>>, player: string,
                       cmd: Parsed<PlaceShapeCommand>, time: nat -> Instant): Decided
  {
    if cmd.Malformed? then Decided(store, Refuse("INVALID_PAYLOAD"))
    else if cmd.value.shape !in catalog then Decided(store, Refuse("UNKNOWN_SHAPE"))
    else
      var cells := catalog[cmd.value.shape];
      var c := CheckMany(store, player, time, 0, |cells|);
      Decided(c.store, if c.verdict.Allowed? then Place(cmd.value.root, cells, PlaceShapeAck(cmd.value))
                       else Refuse(ErrorFor(c.verdict)))
  }

  ghost function DecideCustom(store: RL.Store, player: string, cmd: Parsed<PlaceCustomCommand>, t: Instant): Decided
  {
    if cmd.Malformed? then Decided(store, Refuse("INVALID_PAYLOAD"))
    else if cmd.value.cells == [] then Decided(store, Refuse("EMPTY_PIECE"))
    else if exists c :: c in cmd.value.cells && !InGrid(c) then Decided(store, Refuse("OUT_OF_BOUNDS"))
    else
      var cells := Distinct(cmd.value.cells);
      var c := CheckDrain(store, player, t, TokensWanted(|cells|));
      Decided(c.store, if c.verdict.Allowed? then Place(cmd.value.root, cells, PlaceCustomAck(cmd.value))
                       else Refuse(ErrorFor(c.verdict)))
  }

  ghost function Decide(store: RL.Store, catalog: map<string, seq<Point>>, player: string, msg: Incoming,
                        time: nat -> Instant): Decided
    requires IsPlacement(msg)
  {
    match msg
    case Spawn(at) => DecideSpawn(store, player, at, time(0))
    case PlaceShape(cmd) => DecideShape(store, catalog, player, cmd, time)
    case PlaceCustom(cmd) => DecideCustom(store, player, cmd, time(0))
  }

  function ReplyTo(d: Decision): Outgoing
  {
    match d
    case Refuse(code) => Error(code)
    case Place(_, _, ack) => ack
  }

  ghost function Carried(s: State, d: Decision, loadFails: set<ChunkID>): State
  {
    match d
    case Refuse(_) => s
    case Place(root, cells, _) => PlaceAll(s, root, cells, loadFails)
  }

  /** What a decision adds to the world. */
  ghost function Added(d: Decision): iset<Point>
  {
    match d
    case Refuse(_) => iset{}
    case Place(root, cells, _) => Translated(root, cells)
  }

  /** An acknowledged placement adds exactly its cells to the world, a refused one
      nothing. */
  lemma DecisionReachesWorld(s: State, d: Decision, loadFails: set<ChunkID>)
    requires Inv(s)
    ensures Inv(Carried(s, d, loadFails)) && Denote(Carried(s, d, loadFails)) == Denote(s) + Added(d)
  {
    hide Inv, Denote, PlaceAll;
    match d
    case Refuse(_) =>
    case Place(root, cells, _) => PlaceAddsTranslated(s, root, cells, loadFails);
  }

  /** The cells a message asks for: the point of a spawn; the root plus each cell of the
      catalog's shape; the root plus each cell listed, repeats included. */
  ghost predicate Requested(catalog: map<string, seq<Point>>, msg: Incoming, q: Point)
  {
    match msg
    case Spawn(Payload(p)) => q.x == p.x && q.y == p.y
    case PlaceShape(Payload(c)) => c.shape in catalog && OffsetIn(catalog[c.shape], q.x - c.root.x, q.y - c.root.y)
    case PlaceCustom(Payload(c)) => OffsetIn(c.cells, q.x - c.root.x, q.y - c.root.y)
    case _ => false
  }

  ghost predicate OffsetIn(cells: seq<Point>, x: int, y: int)
  {
    exists i :: 0 <= i < |cells| && cells[i].x == x && cells[i].y == y
  }

  /** An acknowledgement is of the message's kind and carries the payload received. */
  predicate Acknowledges(reply: Outgoing, msg: Incoming)
  {
    match msg
    case Spawn(Payload(p)) => reply == SpawnAck(p)
    case PlaceShape(Payload(c)) => reply == PlaceShapeAck(c)
    case PlaceCustom(Payload(c)) => reply == PlaceCustomAck(c)
    case _ => false
  }

  /** A placement refused with an error changes nothing. One that is not is acknowledged
      with the payload received, and adds to the world exactly the cells asked for. */
  lemma DecisionIsRequested(s: State, store: RL.Store, catalog: map<string, seq<Point>>, player: string, msg: Incoming,
                            time: nat -> Instant, loadFails: set<ChunkID>)
    requires Inv(s) && IsPlacement(msg)
    ensures var d := Decide(store, catalog, player, msg, time).decision;
      var after := Carried(s, d, loadFails);
      && Inv(after) && (d.Refuse? <==> ReplyTo(d).Error?)
      && (d.Refuse? ==> after == s)
      && (d.Place? ==>
            && Acknowledges(ReplyTo(d), msg)
            && forall q :: q in Denote(after) <==> q in Denote(s) || Requested(catalog, msg, q))
  {
    var d := Decide(store, catalog, player, msg, time).decision;
    DecisionReachesWorld(s, d, loadFails);
    if d.Place? {
      PlacedIsAcknowledged(store, catalog, player, msg, time);
    }
    hide Decide, Acknowledges, Requested, PlaceAll, Inv, Denote, Translated;
    if d.Place? {
      forall q
        ensures q in Translated(d.root, d.cells) <==> Requested(catalog, msg, q)
      {
        PlacedIsRequested(store, catalog, player, msg, time, q);
      }
    }
  }

  lemma PlacedIsAcknowledged(store: RL.Store, catalog: map<string, seq<Point>>, player: string, msg: Incoming,
                             time: nat -> Instant)
    requires IsPlacement(msg) && Decide(store, catalog, player, msg, time).decision.Place?
    ensures var ack := Decide(store, catalog, player, msg, time).decision.ack; Acknowledges(ack, msg) && !ack.Error?
  {
    hide CheckOne, CheckMany, CheckDrain, Distinct, InGrid, TokensWanted;
  }

  lemma PlacedIsRequested(store: RL.Store, catalog: map<string, seq<Point>>, player: string, msg: Incoming,
                          time: nat -> Instant, q: Point)
    requires IsPlacement(msg) && Decide(store, catalog, player, msg, time).decision.Place?
    ensures var d := Decide(store, catalog, player, msg, time).decision;
      q in Translated(d.root, d.cells) <==> Requested(catalog, msg, q)
  {
    var d := Decide(store, catalog, player, msg, time).decision;
    PlacedOffsets(store, catalog, player, msg, time, q.x - d.root.x, q.y - d.root.y);
    TranslatedIsOffset(d.root, d.cells, q);
    hide Decide, Translated, OffsetIn;
  }

  /** The root is the message's, and the cells placed have the offsets it lists. */
  lemma PlacedOffsets(store: RL.Store, catalog: map<string, seq<Point>>, player: string, msg: Incoming,
                      time: nat -> Instant, x: int, y: int)
    requires IsPlacement(msg) && Decide(store, catalog, player, msg, time).decision.Place?
    ensures var d := Decide(store, catalog, player, msg, time).decision;
      OffsetIn(d.cells, x, y) <==> Requested(catalog, msg, Point(d.root.x + x, d.root.y + y))
  {
    hide CheckOne, CheckMany, CheckDrain, Distinct, InGrid, OffsetIn, TokensWanted;
    match msg
    case Spawn(_) => OneCell(x, y);
    case PlaceShape(_) =>
    case PlaceCustom(cmd) => DistinctOffsets(cmd.value.cells, x, y);
  }

  lemma TranslatedIsOffset(root: Point, cells: seq<Point>, q: Point)
    ensures q in Translated(root, cells) <==> OffsetIn(cells, q.x - root.x, q.y - root.y)
  {
    TranslatedAt(root, cells, q);
    hide Translated;
  }

  lemma OneCell(x: int, y: int)
    ensures OffsetIn([Point(0, 0)], x, y) <==> x == 0 && y == 0
  {
    assert [Point(0, 0)][0] == Point(0, 0);
  }

  lemma DistinctOffsets(cells: seq<Point>, x: int, y: int)
    ensures OffsetIn(Distinct(cells), x, y) <==> OffsetIn(cells, x, y)
  {
    DistinctMeaning(cells);
    OffsetInByElement(Distinct(cells), x, y);
    OffsetInByElement(cells, x, y);
    hide Distinct, OffsetIn;
  }

  lemma OffsetInByElement(cells: seq<Point>, x: int, y: int)
    ensures OffsetIn(cells, x, y) <==> Point(x, y) in cells
  {
    if OffsetIn(cells, x, y) {
      var i :| 0 <= i < |cells| && cells[i].x == x && cells[i].y == y;
      assert cells[i] == Point(x, y);
    }
  }

  // ----- Subscribing -----

  function PeekedOf(store: map<ChunkID, Record>, active: map<ChunkID, Entry>, id: ChunkID, loadFails: bool): seq<uint16>
  {
    if id in active then Encode(active[id].rows) else if loadFails then [] else Encode(Hydrate(store, id))
  }

  datatype Subscribed = Subscribed(s: State, replies: seq<Outgoing>)

  ghost function SubscribeTo(s: State, ids: seq<ChunkID>, loadFails: set<ChunkID>): Subscribed
  {
    if |ids| == 0 then Subscribed(s, [])
    else
      var before, id := SubscribeTo(s, ids[..|ids| - 1], loadFails), ids[|ids| - 1];
      var cells := PeekedOf(before.s.store, before.s.active, id, id in loadFails);
      if |cells| == 0 then before
      else Subscribed(Wake(before.s, {id}, loadFails), before.replies + [ChunkState(id, cells)])
  }

  /** The snapshots a viewer of the world `W` is sent: one per chunk that shows
      anything, in the order asked. */
  ghost function Pictures(W: iset<Point>, ids: seq<ChunkID>): seq<Outgoing>
  {
    if |ids| == 0 then []
    else
      var id := ids[|ids| - 1];
      Pictures(W, ids[..|ids| - 1]) + (if RowsAt(id, W) == NO_ROWS then [] else [ChunkState(id, Encode(RowsAt(id, W)))])
  }

  lemma PeekIsPicture(s: State, id: ChunkID, loadFails: bool)
    requires Inv(s)
    ensures PeekedOf(s.store, s.active, id, loadFails) == Encode(RowsAt(id, Denote(s)))
    ensures |Encode(RowsAt(id, Denote(s)))| == 0 <==> RowsAt(id, Denote(s)) == NO_ROWS
    ensures RowsAt(id, Denote(s)) != NO_ROWS ==> id in s.active
  {
    RowsAtWorld(RowsOf(s), id);
    EncodeMeaning(RowsAt(id, Denote(s)));
    EmptyIffNoPopulation(RowsAt(id, Denote(s)));
    if id !in s.active {
      StoreEmptyHydrates(s, id);
      EmptyIffNoPopulation(NO_ROWS);
      EncodeMeaning(NO_ROWS);
    }
    hide Encode, Population, RowsAt, StoreEmpty, Filed;
  }

  /** Subscribing sends exactly the world's chunks and changes nothing. */
  lemma {:induction false} SubscribeShowsWorld(s: State, ids: seq<ChunkID>, loadFails: set<ChunkID>)
    requires Inv(s)
    ensures SubscribeTo(s, ids, loadFails) == Subscribed(s, Pictures(Denote(s), ids))
  {
    hide Inv, Denote, RowsAt, Encode, PeekedOf, Wake;
    if |ids| > 0 {
      var id := ids[|ids| - 1];
      SubscribeShowsWorld(s, ids[..|ids| - 1], loadFails);
      PeekIsPicture(s, id, id in loadFails);
      if id in s.active {
        WakeRegistered(s, id, loadFails);
      }
    }
  }

  /** The offsets list exactly the live cells of one chunk of `W`, row by row. */
  ghost predicate Pictured(W: iset<Point>, id: ChunkID, cells: seq<uint16>)
  {
    forall v: uint16 :: v in cells <==> v < 4096 && Point(64 * id.X + v % 64, 64 * id.Y + v / 64) in W
  }

  ghost predicate PicturedBy(W: iset<Point>, ids: seq<ChunkID>, o: Outgoing)
  {
    o.ChunkState? && o.id in ids && o.cells != [] && Pictured(W, o.id, o.cells)
  }

  lemma RowsArePictured(W: iset<Point>, id: ChunkID)
    ensures Pictured(W, id, Encode(RowsAt(id, W)))
    ensures RowsAt(id, W) != NO_ROWS <==> Encode(RowsAt(id, W)) != []
    ensures forall p :: p in W && ChunkOf(p) == id ==> RowsAt(id, W) != NO_ROWS
  {
    EncodeMeaning(RowsAt(id, W));
    EmptyIffNoPopulation(RowsAt(id, W));
    hide Encode, RowsAt, Population;
    forall v: uint16 | v < 4096
      ensures Lit(RowsAt(id, W), v % 64, v / 64) <==> Point(64 * id.X + v % 64, 64 * id.Y + v / 64) in W
    {
      assert WorldPoint(id, v % 64, v / 64) == Point(64 * id.X + v % 64, 64 * id.Y + v / 64);
    }
    NoRowsDark();
    forall p | p in W && ChunkOf(p) == id
      ensures RowsAt(id, W) != NO_ROWS
    {
      assert p == WorldPoint(id, p.x % 64, p.y % 64);
      assert Lit(RowsAt(id, W), p.x % 64, p.y % 64);
    }
  }

  lemma {:induction false} PicturesMeaning(W: iset<Point>, ids: seq<ChunkID>)
    ensures forall o :: o in Pictures(W, ids) ==> PicturedBy(W, ids, o)
    ensures forall p :: p in W && ChunkOf(p) in ids ==>
        exists o :: o in Pictures(W, ids) && o.ChunkState? && o.id == ChunkOf(p)
  {
    hide Pictured, RowsAt, Encode;
    if |ids| > 0 {
      var n := |ids| - 1;
      PicturesMeaning(W, ids[..n]);
      RowsArePictured(W, ids[n]);
      assert ids == ids[..n] + [ids[n]];
      forall p | p in W && ChunkOf(p) in ids
        ensures exists o :: o in Pictures(W, ids) && o.ChunkState? && o.id == ChunkOf(p)
      {
        if ChunkOf(p) == ids[n] {
          assert ChunkState(ids[n], Encode(RowsAt(ids[n], W))) in Pictures(W, ids);
        } else {
          var o :| o in Pictures(W, ids[..n]) && o.ChunkState? && o.id == ChunkOf(p);
          assert o in Pictures(W, ids);
        }
      }
    }
  }

  /** What a new subscriber is sent: pictures of chunks asked for only, each listing
      exactly the live cells of its chunk, and one of every chunk that has any. */
  lemma SubscriberSeesWorld(s: State, ids: seq<ChunkID>, loadFails: set<ChunkID>)
    requires Inv(s)
    ensures var t := SubscribeTo(s, ids, loadFails);
      && t.s == s
      && (forall o :: o in t.replies ==>
            && o.ChunkState? && o.id in ids && o.cells != []
            && forall v: uint16 :: v in o.cells <==>
                 v < 4096 && Point(64 * o.id.X + v % 64, 64 * o.id.Y + v / 64) in Denote(s))
      && (forall p :: p in Denote(s) && ChunkOf(p) in ids ==>
            exists o :: o in t.replies && o.ChunkState? && o.id == ChunkOf(p))
  {
    SubscribeShowsWorld(s, ids, loadFails);
    PicturesMeaning(Denote(s), ids);
    hide Inv, Denote, SubscribeTo, Pictures;
  }

  lemma WakeRegistered(s: State, id: ChunkID, loadFails: set<ChunkID>)
    requires id in s.active
    ensures Wake(s, {id}, loadFails) == s
  {
    assert {id} - s.active.Keys == {};
    assert s.active.Keys + {id} == s.active.Keys;
  }

  class Router {
    const limiter: RateLimiter.Limiter
    const registry: Registry.Registry
    const pubsub: Hub
    const catalog: map<string, seq<Point>>

    constructor (limiter: RateLimiter.Limiter, registry: Registry.Registry, pubsub: Hub,
                 catalog: map<string, seq<Point>>)
      ensures this.limiter == limiter && this.registry == registry && this.pubsub == pubsub && this.catalog == catalog
    {
      this.limiter := limiter;
      this.registry := registry;
      this.pubsub := pubsub;
      this.catalog := catalog;
    }

    method CheckRateLimit(player: string, t: Instant, client: Connection) returns (ok: bool)
      modifies limiter, client
      ensures var c := CheckOne(old(limiter.keys), player, t);
        && limiter.keys == c.store && ok == c.verdict.Allowed?
        && client.sent == old(client.sent) + (if ok then [] else [Error(ErrorFor(c.verdict))])
    {
      hide RL.RealStep;
      if t.down {
        client.WriteJSON(Error("INTERNAL_ERROR"));
        return false;
      }
      var allowed := limiter.AllowMutation(player, t.now, t.clock);
      if !allowed {
        client.WriteJSON(Error("RATE_LIMITED"));
        return false;
      }
      return true;
    }

    method ChargeN(player: string, client: Connection, n: nat, time: nat -> Instant) returns (ok: bool)
      modifies limiter, client
      ensures var c := CheckMany(old(limiter.keys), player, time, 0, n);
        && limiter.keys == c.store && ok == c.verdict.Allowed?
        && client.sent == old(client.sent) + (if ok then [] else [Error(ErrorFor(c.verdict))])
    {
      hide CheckOne;
      for i := 0 to n
        invariant CheckMany(limiter.keys, player, time, i, n) == CheckMany(old(limiter.keys), player, time, 0, n)
        invariant client.sent == old(client.sent)
      {
        var allowed := CheckRateLimit(player, time(i), client);
        if !allowed {
          return false;
        }
      }
      return true;
    }

    method RouteSpawn(player: string, at: Parsed<Point>, client: Connection, t: Instant, loadFails: set<ChunkID>)
      requires registry.Valid()
      modifies limiter, client, registry.Footprint()
      ensures registry.Valid() && fresh(registry.Footprint() - old(registry.Footprint()))
      ensures var d := DecideSpawn(old(limiter.keys), player, at, t);
        && limiter.keys == d.store && client.sent == old(client.sent) + [ReplyTo(d.decision)]
        && registry.View() == Carried(old(registry.View()), d.decision, loadFails)
    {
      hide CheckOne, SpawnOne, PlaceAll, Registry.Registry.View, Registry.Registry.Valid;
      Apart(registry, limiter, pubsub, client);
      ghost var s, f := registry.View(), registry.Footprint();
      var ok := CheckRateLimit(player, t, client);
      assert registry.Footprint() == f && registry.View() == s;
      if !ok {
        return;
      }
      if at.Malformed? {
        client.WriteJSON(Error("INVALID_PAYLOAD"));
        return;
      }
      CarryOne(at.value, client, loadFails);
    }

    /** Spawns one cell and acknowledges it. */
    method CarryOne(p: Point, client: Connection, loadFails: set<ChunkID>)
      requires registry.Valid()
      modifies client, registry.Footprint()
      ensures registry.Valid() && fresh(registry.Footprint() - old(registry.Footprint()))
      ensures registry.View() == PlaceAll(old(registry.View()), p, [Point(0, 0)], loadFails)
      ensures client.sent == old(client.sent) + [SpawnAck(p)]
    {
      hide PlaceAll, SpawnOne, Registry.Registry.View, Registry.Registry.Valid;
      Apart(registry, limiter, pubsub, client);
      PlaceOne(registry.View(), p, loadFails);
      SpawnWorldCell(registry, p.x, p.y, loadFails);
      client.WriteJSON(SpawnAck(p));
    }

    /** Places an admitted piece and acknowledges it. */
    method Carry(root: Point, cells: seq<Point>, ack: Outgoing, client: Connection, loadFails: set<ChunkID>)
      requires registry.Valid()
      modifies client, registry.Footprint()
      ensures registry.Valid() && fresh(registry.Footprint() - old(registry.Footprint()))
      ensures registry.View() == PlaceAll(old(registry.View()), root, cells, loadFails)
      ensures client.sent == old(client.sent) + [ack]
    {
      hide PlaceAll, Inv, Denote, Registry.Registry.View, Registry.Registry.Valid;
      Apart(registry, limiter, pubsub, client);
      PlaceCells(registry, root, cells, loadFails);
      client.WriteJSON(ack);
    }

    method RouteShape(player: string, cmd: Parsed<PlaceShapeCommand>, client: Connection, time: nat -> Instant,
                      loadFails: set<ChunkID>)
      requires registry.Valid()
      modifies limiter, client, registry.Footprint()
      ensures registry.Valid() && fresh(registry.Footprint() - old(registry.Footprint()))
      ensures var d := DecideShape(old(limiter.keys), catalog, player, cmd, time);
        && limiter.keys == d.store && client.sent == old(client.sent) + [ReplyTo(d.decision)]
        && registry.View() == Carried(old(registry.View()), d.decision, loadFails)
    {
      hide CheckMany, PlaceAll, Registry.Registry.View, Registry.Registry.Valid;
      Apart(registry, limiter, pubsub, client);
      ghost var s, f := registry.View(), registry.Footprint();
      if cmd.Malformed? {
        client.WriteJSON(Error("INVALID_PAYLOAD"));
        return;
      }
      if cmd.value.shape !in catalog {
        client.WriteJSON(Error("UNKNOWN_SHAPE"));
        return;
      }
      var cells := catalog[cmd.value.shape];
      var ok := ChargeN(player, client, |cells|, time);
      assert registry.Footprint() == f && registry.View() == s;
      if !ok {
        return;
      }
      Carry(cmd.value.root, cells, PlaceShapeAck(cmd.value), client, loadFails);
    }

    /** The penalty of a custom piece; an answer of zero tokens is a refusal. */
    method Drain(player: string, t: Instant, wanted: nat, client: Connection) returns (ok: bool)
      modifies limiter, client
      ensures var c := CheckDrain(old(limiter.keys), player, t, wanted);
        && limiter.keys == c.store && ok == c.verdict.Allowed?
        && client.sent == old(client.sent) + (if ok then [] else [Error(ErrorFor(c.verdict))])
    {
      hide RL.RealStep;
      if t.down {
        client.WriteJSON(Error("INTERNAL_ERROR"));
        return false;
      }
      var consumed := limiter.DrainN(player, t.now, t.clock, wanted);
      if consumed == 0 && wanted > 0 {
        client.WriteJSON(Error("RATE_LIMITED"));
        return false;
      }
      return true;
    }

    method RouteCustom(player: string, cmd: Parsed<PlaceCustomCommand>, client: Connection, t: Instant,
                       loadFails: set<ChunkID>)
      requires registry.Valid()
      modifies limiter, client, registry.Footprint()
      ensures registry.Valid() && fresh(registry.Footprint() - old(registry.Footprint()))
      ensures var d := DecideCustom(old(limiter.keys), player, cmd, t);
        && limiter.keys == d.store && client.sent == old(client.sent) + [ReplyTo(d.decision)]
        && registry.View() == Carried(old(registry.View()), d.decision, loadFails)
    {
      hide PlaceAll, Distinct, TokensWanted, CheckDrain, Registry.Registry.View, Registry.Registry.Valid;
      Apart(registry, limiter, pubsub, client);
      ghost var s, f := registry.View(), registry.Footprint();
      if cmd.Malformed? {
        client.WriteJSON(Error("INVALID_PAYLOAD"));
        return;
      }
      var valid := ValidateCustomCells(cmd.value.cells);
      assert registry.Footprint() == f && registry.View() == s;
      if valid.Rejected? {
        client.WriteJSON(Error(valid.code));
        return;
      }
      var ok := Drain(player, t, TokensWanted(|valid.cells|), client);
      assert registry.Footprint() == f && registry.View() == s;
      if !ok {
        return;
      }
      Carry(cmd.value.root, valid.cells, PlaceCustomAck(cmd.value), client, loadFails);
    }

    method RouteSubscribe(ids: seq<ChunkID>, client: Connection, loadFails: set<ChunkID>)
      requires registry.Valid() && NoEmptySets(pubsub.subscribers)
      modifies pubsub, client, registry.Footprint()
      ensures registry.Valid() && fresh(registry.Footprint() - old(registry.Footprint()))
      ensures NoEmptySets(pubsub.subscribers)
      ensures forall k, c :: Watches(pubsub.subscribers, k, c) <==>
          Watches(old(pubsub.subscribers), k, c) || (k in ids && c == client.ref)
      ensures var r := SubscribeTo(old(registry.View()), ids, loadFails);
        registry.View() == r.s && client.sent == old(client.sent) + r.replies
    {
      hide Wake, NoEmptySets, Watches, PeekedOf, SubscribeTo, Registry.Registry.View, Registry.Registry.Valid;
      ghost var s := registry.View();
      SubscribeNone(s, ids, loadFails);
      for i := 0 to |ids|
        invariant registry.Valid() && fresh(registry.Footprint() - old(registry.Footprint()))
        invariant NoEmptySets(pubsub.subscribers)
        invariant forall k, c :: Watches(pubsub.subscribers, k, c) <==>
            Watches(old(pubsub.subscribers), k, c) || (k in ids[..i] && c == client.ref)
        invariant registry.View() == SubscribeTo(s, ids[..i], loadFails).s
        invariant client.sent == old(client.sent) + SubscribeTo(s, ids[..i], loadFails).replies
      {
        SubscribeOneMore(s, ids, i, loadFails);
        assert ids[..i + 1] == ids[..i] + [ids[i]];
        SubscribeOne(ids[i], client, loadFails);
      }
      assert ids[..|ids|] == ids;
    }

    method SubscribeOne(id: ChunkID, client: Connection, loadFails: set<ChunkID>)
      requires registry.Valid() && NoEmptySets(pubsub.subscribers)
      modifies pubsub, client, registry`chunks, registry`activeChunks
      ensures registry.Valid() && fresh(registry.Footprint() - old(registry.Footprint()))
      ensures NoEmptySets(pubsub.subscribers)
      ensures forall k, c :: Watches(pubsub.subscribers, k, c) <==>
          Watches(old(pubsub.subscribers), k, c) || (k == id && c == client.ref)
      ensures var v := old(registry.View());
        var cells := PeekedOf(v.store, v.active, id, id in loadFails);
        if |cells| == 0 then registry.View() == v && client.sent == old(client.sent)
        else registry.View() == Wake(v, {id}, loadFails) && client.sent == old(client.sent) + [ChunkState(id, cells)]
    {
      hide Wake, NoEmptySets, Watches, PeekedOf, Registry.Registry.View, Registry.Registry.Valid;
      Apart(registry, limiter, pubsub, client);
      ghost var s, f := registry.View(), registry.Footprint();
      pubsub.Subscribe(id, client.ref);
      assert registry.Footprint() == f && registry.View() == s;
      SendPicture(id, client, loadFails);
    }

    /** One chunk of a subscription: its snapshot, if it shows anything, and the
        chunk registered so that it ticks. */
    method SendPicture(id: ChunkID, client: Connection, loadFails: set<ChunkID>)
      requires registry.Valid()
      modifies client, registry`chunks, registry`activeChunks
      ensures registry.Valid() && fresh(registry.Footprint() - old(registry.Footprint()))
      ensures var v := old(registry.View());
        var cells := PeekedOf(v.store, v.active, id, id in loadFails);
        if |cells| == 0 then registry.View() == v && client.sent == old(client.sent)
        else registry.View() == Wake(v, {id}, loadFails) && client.sent == old(client.sent) + [ChunkState(id, cells)]
    {
      hide Wake, PeekedOf, Registry.Registry.View, Registry.Registry.Valid;
      Apart(registry, limiter, pubsub, client);
      ghost var s, f := registry.View(), registry.Footprint();
      var cells := PeekCells(id, loadFails);
      assert registry.Footprint() == f && registry.View() == s;
      if |cells| > 0 {
        StartChunk(id, client, loadFails);
        client.WriteJSON(ChunkState(id, cells));
      }
    }

    method PeekCells(id: ChunkID, loadFails: set<ChunkID>) returns (cells: seq<uint16>)
      requires registry.Valid()
      ensures var v := registry.View(); cells == PeekedOf(v.store, v.active, id, id in loadFails)
    {
      hide Encode, Hydrate;
      cells := registry.PeekChunk(id, id in loadFails);
    }

    method StartChunk(id: ChunkID, ghost client: Connection, loadFails: set<ChunkID>)
      requires registry.Valid()
      modifies registry`chunks, registry`activeChunks
      ensures registry.Valid() && fresh(registry.Footprint() - old(registry.Footprint()))
      ensures client !in registry.Footprint()
      ensures registry.View() == Wake(old(registry.View()), {id}, loadFails)
    {
      hide Wake, Registry.Registry.View, Registry.Registry.Valid;
      var handle := registry.GetOrCreate(id, loadFails);
      Apart(registry, limiter, pubsub, client);
    }

    method RouteUnsubscribe(ids: seq<ChunkID>, client: Connection)
      requires NoEmptySets(pubsub.subscribers)
      modifies pubsub
      ensures NoEmptySets(pubsub.subscribers)
      ensures forall k, c :: Watches(pubsub.subscribers, k, c) <==>
          Watches(old(pubsub.subscribers), k, c) && !(k in ids && c == client.ref)
    {
      hide NoEmptySets, Watches;
      for i := 0 to |ids|
        invariant NoEmptySets(pubsub.subscribers)
        invariant forall k, c :: Watches(pubsub.subscribers, k, c) <==>
            Watches(old(pubsub.subscribers), k, c) && !(k in ids[..i] && c == client.ref)
      {
        assert ids[..i + 1] == ids[..i] + [ids[i]];
        pubsub.Unsubscribe(ids[i], client.ref);
      }
      assert ids[..|ids|] == ids;
    }

    /** Every message: a placement gets exactly one reply, an acknowledgement or an
        error, and carries out the decision replied; nothing else is answered but
        malformed and unknown commands, and subscriptions with pictures. */
    method Route(player: string, msg: Incoming, client: Connection, time: nat -> Instant, loadFails: set<ChunkID>)
      requires registry.Valid() && NoEmptySets(pubsub.subscribers)
      modifies limiter, pubsub, client, registry.Footprint()
      ensures registry.Valid() && fresh(registry.Footprint() - old(registry.Footprint()))
      ensures NoEmptySets(pubsub.subscribers)
      ensures IsPlacement(msg) ==>
          (var d := Decide(old(limiter.keys), catalog, player, msg, time);
           && limiter.keys == d.store && client.sent == old(client.sent) + [ReplyTo(d.decision)]
           && registry.View() == Carried(old(registry.View()), d.decision, loadFails))
      ensures msg.Subscribe? && msg.chunks.Payload? ==>
          (var r := SubscribeTo(old(registry.View()), msg.chunks.value, loadFails);
           registry.View() == r.s && client.sent == old(client.sent) + r.replies)
      ensures IsPlacement(msg) && Inv(old(registry.View())) ==>
          var reply := client.sent[|old(client.sent)|];
          && Inv(registry.View())
          && if reply.Error? then registry.View() == old(registry.View())
             else
               && Acknowledges(reply, msg)
               && forall q :: q in Denote(registry.View()) <==>
                    q in Denote(old(registry.View())) || Requested(catalog, msg, q)
      ensures !IsPlacement(msg) ==> limiter.keys == old(limiter.keys)
      ensures !IsPlacement(msg) && !(msg.Subscribe? && msg.chunks.Payload?) ==> registry.View() == old(registry.View())
      ensures msg.Other? ==> client.sent == old(client.sent) + [Error("UNKNOWN_COMMAND")]
      ensures (msg.Subscribe? || msg.Unsubscribe?) && msg.chunks.Malformed? ==>
          client.sent == old(client.sent) + [Error("INVALID_PAYLOAD")]
      ensures msg.Ping? || (msg.Unsubscribe? && msg.chunks.Payload?) ==> client.sent == old(client.sent)
      ensures forall k, c :: Watches(pubsub.subscribers, k, c) <==>
          WatchesAfter(old(pubsub.subscribers), msg, client.ref, k, c)
    {
      hide SubscribeTo, DecideSpawn, DecideShape, DecideCustom, Carried, ReplyTo, NoEmptySets, Watches, Inv, Denote,
           Requested, Acknowledges, Registry.Registry.View, Registry.Registry.Valid;
      Apart(registry, limiter, pubsub, client);
      if IsPlacement(msg) && Inv(registry.View()) {
        DecisionIsRequested(registry.View(), limiter.keys, catalog, player, msg, time, loadFails);
      }
      match msg
      case Spawn(at) => RouteSpawn(player, at, client, time(0), loadFails);
      case PlaceShape(cmd) => RouteShape(player, cmd, client, time, loadFails);
      case PlaceCustom(cmd) => RouteCustom(player, cmd, client, time(0), loadFails);
      case Subscribe(chunks) =>
        if chunks.Malformed? {
          client.WriteJSON(Error("INVALID_PAYLOAD"));
        } else {
          RouteSubscribe(chunks.value, client, loadFails);
        }
      case Unsubscribe(chunks) =>
        if chunks.Malformed? {
          client.WriteJSON(Error("INVALID_PAYLOAD"));
        } else {
          RouteUnsubscribe(chunks.value, client);
        }
      case Ping =>
      case Other(_) => client.WriteJSON(Error("UNKNOWN_COMMAND"));
    }
  }

  /** Who watches what once `msg` from client `me` has been handled. */
  predicate WatchesAfter(before: Subscribers, msg: Incoming, me: ClientRef, k: ChunkID, c: ClientRef)
  {
    match msg
    case Subscribe(Payload(ids)) => Watches(before, k, c) || (k in ids && c == me)
    case Unsubscribe(Payload(ids)) => Watches(before, k, c) && !(k in ids && c == me)
    case _ => Watches(before, k, c)
  }

  lemma SubscribeNone(s: State, ids: seq<ChunkID>, loadFails: set<ChunkID>)
    ensures SubscribeTo(s, ids[..0], loadFails) == Subscribed(s, [])
  {
  }

  lemma SubscribeOneMore(s: State, ids: seq<ChunkID>, i: nat, loadFails: set<ChunkID>)
    requires i < |ids|
    ensures var before, after := SubscribeTo(s, ids[..i], loadFails), SubscribeTo(s, ids[..i + 1], loadFails);
      var cells := PeekedOf(before.s.store, before.s.active, ids[i], ids[i] in loadFails);
      after == if |cells| == 0 then before
               else Subscribed(Wake(before.s, {ids[i]}, loadFails), before.replies + [ChunkState(ids[i], cells)])
  {
    hide PeekedOf, Wake;
    assert ids[..i + 1][..i] == ids[..i];
  }

  /** A spawn is the placement of a one-cell piece. */
  lemma PlaceOne(s: State, p: Point, loadFails: set<ChunkID>)
    ensures PlaceAll(s, p, [Point(0, 0)], loadFails) == SpawnOne(s, p, ChunkOf(p) in loadFails)
  {
    hide SpawnOne;
    assert [Point(0, 0)][..0] == [];
    assert Translate(p, Point(0, 0)) == p;
  }
}
