/**
  The server half of the two-channel protocol, derived from the router and the hub.
 */
module Serving {
  import opened Life
  import opened RegistryModel
  import opened PubSub
  import P = Protocol
  import R = Router
  import RateLimit

  // ----- Messages as the protocol sees them -----

  /** What a browser sends: placements, and subscriptions that parse. */
  predicate FromBrowser(msg: R.Incoming)
  {
    R.IsPlacement(msg) || ((msg.Subscribe? || msg.Unsubscribe?) && msg.chunks.Payload?)
  }

  function UpOf(msg: R.Incoming, tag: nat): P.Up
    requires FromBrowser(msg)
  {
    if R.IsPlacement(msg) then P.Placement(tag)
    else
      var ids := set id | id in msg.chunks.value;
      if msg.Subscribe? then P.Subscribe(ids) else P.Unsubscribe(ids)
  }

  /** An answer to placement `tag`, or a picture. */
  function DownOf(o: R.Outgoing, tag: nat): P.Down
  {
    match o
    case ChunkState(id, _) => P.Picture(id)
    case Error(_) => P.Answer(tag, false)
    case SpawnAck(_) => P.Answer(tag, true)
    case PlaceShapeAck(_) => P.Answer(tag, true)
    case PlaceCustomAck(_) => P.Answer(tag, true)
  }

  function DownAll(os: seq<R.Outgoing>, tag: nat): seq<P.Down>
  {
    if |os| == 0 then [] else DownAll(os[..|os| - 1], tag) + [DownOf(os[|os| - 1], tag)]
  }

  /** The chunks client `c` watches. */
  function WatchedBy(s: Subscribers, c: ClientRef): set<ChunkID>
  {
    set id | id in s && c in s[id]
  }

  // ----- Subscriptions answer with pictures only -----

  function PictureIds(os: seq<R.Outgoing>): seq<ChunkID>
  {
    if |os| == 0 then []
    else
      var o := os[|os| - 1];
      PictureIds(os[..|os| - 1]) + (if o.ChunkState? then [o.id] else [])
  }

  ghost predicate AllPictures(os: seq<R.Outgoing>)
  {
    forall i :: 0 <= i < |os| ==> os[i].ChunkState?
  }

  lemma {:induction false} SubscribePictures(s: State, ids: seq<ChunkID>, loadFails: set<ChunkID>)
    ensures AllPictures(R.SubscribeTo(s, ids, loadFails).replies)
  {
    hide R.PeekedOf, Wake;
    if |ids| > 0 {
      SubscribePictures(s, ids[..|ids| - 1], loadFails);
    }
  }

  lemma {:induction false} PicturesSplit(a: seq<ChunkID>, b: seq<ChunkID>)
    ensures P.Pictures(a + b) == P.Pictures(a) + P.Pictures(b)
  {
    if a == [] {
      assert a + b == b;
    } else {
      assert (a + b)[1..] == a[1..] + b;
      PicturesSplit(a[1..], b);
    }
  }

  lemma {:induction false} PicturesDown(os: seq<R.Outgoing>, tag: nat)
    requires AllPictures(os)
    ensures DownAll(os, tag) == P.Pictures(PictureIds(os))
  {
    if |os| > 0 {
      var n := |os| - 1;
      PicturesDown(os[..n], tag);
      PicturesSplit(PictureIds(os[..n]), [os[n].id]);
      assert P.Pictures([os[n].id]) == [P.Picture(os[n].id)] by {
        assert [os[n].id][1..] == [];
      }
    }
  }

  // ----- One message -----

  /** The router's decision, read as an answer. */
  predicate Accepts(reply: R.Outgoing)
  {
    !reply.Error?
  }

  lemma OneAnswer(d: R.Decision, tag: nat)
    requires d.Place? ==> !d.ack.Error? && !d.ack.ChunkState?
    ensures DownAll([R.ReplyTo(d)], tag) == [P.Answer(tag, Accepts(R.ReplyTo(d)))]
  {
    assert [R.ReplyTo(d)][..0] == [];
  }

  lemma WatchingMoves(before: Subscribers, after: Subscribers, msg: R.Incoming, me: ClientRef, tag: nat)
    requires FromBrowser(msg)
    requires forall k, c :: Watches(after, k, c) <==> R.WatchesAfter(before, msg, me, k, c)
    ensures WatchedBy(after, me) == P.After(WatchedBy(before, me), UpOf(msg, tag))
    ensures forall c :: c != me ==> WatchedBy(after, c) == WatchedBy(before, c)
  {
    forall k, c
      ensures k in WatchedBy(after, c) <==> R.WatchesAfter(before, msg, me, k, c)
    {
      assert Watches(after, k, c) <==> R.WatchesAfter(before, msg, me, k, c);
    }
  }

  /** The replies to one browser message, and the step they make. */
  ghost predicate Served(s: P.Net, tag: nat, replies: seq<R.Outgoing>, watching: set<ChunkID>, ok: bool,
                         shown: seq<ChunkID>)
  {
    && |s.up| > 0
    && P.ServeOne(s, ok, shown) == s.(up := s.up[1..], down := s.down + DownAll(replies, tag), watching := watching)
  }

  lemma RepliesServe(s: P.Net, before: Subscribers, after: Subscribers, msg: R.Incoming, me: ClientRef, tag: nat,
                     replies: seq<R.Outgoing>, ok: bool, shown: seq<ChunkID>)
    requires FromBrowser(msg) && s.watching == WatchedBy(before, me) && |s.up| > 0 && s.up[0] == UpOf(msg, tag)
    requires forall k, c :: Watches(after, k, c) <==> R.WatchesAfter(before, msg, me, k, c)
    requires R.IsPlacement(msg) ==> DownAll(replies, tag) == [P.Answer(tag, ok)]
    requires msg.Subscribe? ==> DownAll(replies, tag) == P.Pictures(shown)
    requires msg.Unsubscribe? ==> replies == []
    ensures Served(s, tag, replies, WatchedBy(after, me), ok, shown)
  {
    WatchingMoves(before, after, msg, me, tag);
    hide WatchedBy, Watches, R.WatchesAfter;
    assert msg.Unsubscribe? ==> s.down + DownAll(replies, tag) == s.down;
  }

  /** Routing a browser's message is the protocol's Serve step on any state of the
      channels in which that message is next: one answer to a placement, pictures only
      to a subscription, nothing to an unsubscription; and the client's subscriptions
      move as the step says. */
  method Serve(router: R.Router, player: string, msg: R.Incoming, client: R.Connection, time: nat -> R.Instant,
               loadFails: set<ChunkID>, ghost s: P.Net, ghost tag: nat)
    returns (ghost ok: bool, ghost shown: seq<ChunkID>)
    requires router.registry.Valid() && NoEmptySets(router.pubsub.subscribers)
    requires FromBrowser(msg) && |s.up| > 0 && s.up[0] == UpOf(msg, tag)
    requires s.watching == WatchedBy(router.pubsub.subscribers, client.ref)
    modifies router.limiter, router.pubsub, client, router.registry.Footprint()
    ensures router.registry.Valid() && NoEmptySets(router.pubsub.subscribers) && old(client.sent) <= client.sent
    ensures var replies := client.sent[|old(client.sent)|..];
      Served(s, tag, replies, WatchedBy(router.pubsub.subscribers, client.ref), ok, shown)
  {
    ghost var before, sent := router.pubsub.subscribers, client.sent;
    ghost var keys, view := router.limiter.keys, router.registry.View();
    router.Route(player, msg, client, time, loadFails);
    ghost var replies := client.sent[|sent|..];
    ok, shown := |replies| == 1 && Accepts(replies[0]), PictureIds(replies);
    RouteReplies(view, keys, router.catalog, player, msg, time, loadFails, sent, client.sent, tag);
    RepliesServe(s, before, router.pubsub.subscribers, msg, client.ref, tag, replies, ok, shown);
  }

  /** What the router's contract says it wrote, in the protocol's terms. */
  lemma RouteReplies(view: State, keys: RateLimit.Store, catalog: map<string, seq<Point>>, player: string,
                     msg: R.Incoming, time: nat -> R.Instant, loadFails: set<ChunkID>,
                     before: seq<R.Outgoing>, after: seq<R.Outgoing>, tag: nat)
    requires FromBrowser(msg)
    requires R.IsPlacement(msg) ==> after == before + [R.ReplyTo(R.Decide(keys, catalog, player, msg, time).decision)]
    requires msg.Subscribe? ==> after == before + R.SubscribeTo(view, msg.chunks.value, loadFails).replies
    requires msg.Unsubscribe? ==> after == before
    ensures before <= after
    ensures var replies := after[|before|..];
      && (R.IsPlacement(msg) ==> |replies| == 1 && DownAll(replies, tag) == [P.Answer(tag, Accepts(replies[0]))])
      && (msg.Subscribe? ==> DownAll(replies, tag) == P.Pictures(PictureIds(replies)))
      && (msg.Unsubscribe? ==> replies == [])
  {
    var replies := after[|before|..];
    if R.IsPlacement(msg) {
      var d := R.Decide(keys, catalog, player, msg, time).decision;
      if d.Place? {
        R.PlacedIsAcknowledged(keys, catalog, player, msg, time);
      }
      OneAnswer(d, tag);
      assert replies == [R.ReplyTo(d)];
    } else if msg.Subscribe? {
      SubscribePictures(view, msg.chunks.value, loadFails);
      assert replies == R.SubscribeTo(view, msg.chunks.value, loadFails).replies;
      PicturesDown(replies, tag);
    }
  }

  // ----- Broadcasts -----

  /** To one client, a broadcast is the protocol's Broadcast step: a picture if it
      watches the chunk, nothing otherwise. */
  lemma BroadcastIsStep(s: P.Net, before: seq<Delivery>, after: seq<Delivery>, subs: Subscribers, call: Call,
                        me: ClientRef)
    requires Relayed(before, after, subs, [call]) && s.watching == WatchedBy(subs, me)
    ensures |Inbox(before, me)| <= |Inbox(after, me)|
    ensures var news := Inbox(after, me)[|Inbox(before, me)|..];
      && (forall i :: 0 <= i < |news| ==> news[i] == call)
      && P.Step(s, P.Broadcast(call.id)) == s.(down := s.down + P.Pictures(seq(|news|, i => call.id)))
  {
    HeardOneMore([], call, subs, me);
    assert [] + [call] == [call];
    assert Inbox(after, me) == Inbox(before, me) + Heard([call], subs, me);
    var news := Inbox(after, me)[|Inbox(before, me)|..];
    assert news == Heard([call], subs, me);
    if Watches(subs, call.id, me) {
      assert seq(|news|, i => call.id) == [call.id];
      assert [call.id][1..] == [];
    } else {
      assert seq(|news|, i => call.id) == [];
    }
  }
}
