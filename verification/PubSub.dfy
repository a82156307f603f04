/**
  Who watches which chunk: a map of non-empty client sets; and what a broadcast sends.
 */
module PubSub {
  import opened Bits
  import opened Life

  type ClientRef = nat

  type Subscribers = map<ChunkID, set<ClientRef>>

  /** Nobody's set is kept when it is empty. */
  ghost predicate NoEmptySets(s: Subscribers)
  {
    forall id :: id in s ==> s[id] != {}
  }

  /** The relation the map stands for. */
  predicate Watches(s: Subscribers, id: ChunkID, c: ClientRef)
  {
    id in s && c in s[id]
  }

  // ----- Broadcasts -----

  /** One call of Broadcast: a chunk and its snapshot. */
  datatype Call = Call(id: ChunkID, cells: seq<uint16>)

  /** One message written to one client. */
  datatype Delivery = Delivery(to: ClientRef, call: Call)

  /** What client `c` has been written, oldest first. */
  function Inbox(wire: seq<Delivery>, c: ClientRef): seq<Call>
  {
    if |wire| == 0 then []
    else
      var last := wire[|wire| - 1];
      Inbox(wire[..|wire| - 1], c) + (if last.to == c then [last.call] else [])
  }

  /** The calls client `c` hears of: those about chunks it watches. */
  function Heard(calls: seq<Call>, s: Subscribers, c: ClientRef): seq<Call>
  {
    if |calls| == 0 then []
    else
      var last := calls[|calls| - 1];
      Heard(calls[..|calls| - 1], s, c) + (if Watches(s, last.id, c) then [last] else [])
  }

  /** Between `before` and `after`, every client was written what it hears of `calls`. */
  ghost predicate Relayed(before: seq<Delivery>, after: seq<Delivery>, s: Subscribers, calls: seq<Call>)
  {
    forall c :: Inbox(after, c) == Inbox(before, c) + Heard(calls, s, c)
  }

  lemma InboxOneMore(wire: seq<Delivery>, d: Delivery, c: ClientRef)
    ensures Inbox(wire + [d], c) == Inbox(wire, c) + (if d.to == c then [d.call] else [])
  {
    assert (wire + [d])[..|wire|] == wire;
  }

  lemma HeardOneMore(calls: seq<Call>, call: Call, s: Subscribers, c: ClientRef)
    ensures Heard(calls + [call], s, c) == Heard(calls, s, c) + (if Watches(s, call.id, c) then [call] else [])
  {
    assert (calls + [call])[..|calls|] == calls;
  }

  lemma OneCallHeard(call: Call, s: Subscribers, c: ClientRef)
    ensures Heard([call], s, c) == if Watches(s, call.id, c) then [call] else []
  {
    HeardOneMore([], call, s, c);
    assert [] + [call] == [call];
  }

  lemma RelayedNone(wire: seq<Delivery>, s: Subscribers)
    ensures Relayed(wire, wire, s, [])
  {
  }

  lemma RelayedOneMore(a: seq<Delivery>, b: seq<Delivery>, c: seq<Delivery>, s: Subscribers, calls: seq<Call>,
                       call: Call)
    requires Relayed(a, b, s, calls) && Relayed(b, c, s, [call])
    ensures Relayed(a, c, s, calls + [call])
  {
    forall k
      ensures Inbox(c, k) == Inbox(a, k) + Heard(calls + [call], s, k)
    {
      HeardOneMore(calls, call, s, k);
      OneCallHeard(call, s, k);
    }
  }

  class Hub {
    var subscribers: Subscribers
    var wire: seq<Delivery>

    constructor ()
      ensures subscribers == map[] && wire == []
    {
      subscribers := map[];
      wire := [];
    }

    /** Every client watching the chunk is written its snapshot, once, in any order. */
    method Broadcast(id: ChunkID, cells: seq<uint16>)
      modifies this`wire
      ensures Relayed(old(wire), wire, subscribers, [Call(id, cells)])
    {
      hide Inbox, Heard;
      var call := Call(id, cells);
      var clients := if id in subscribers then subscribers[id] else {};
      while clients != {}
        invariant id in subscribers || clients == {}
        invariant id in subscribers ==> clients <= subscribers[id]
        invariant forall c ::
            Inbox(wire, c) == Inbox(old(wire), c) +
              (if Watches(subscribers, id, c) && c !in clients then [call] else [])
        decreases |clients|
      {
        var c :| c in clients;
        clients := clients - {c};
        forall k
          ensures Inbox(wire + [Delivery(c, call)], k) == Inbox(wire, k) + (if k == c then [call] else [])
        {
          InboxOneMore(wire, Delivery(c, call), k);
        }
        wire := wire + [Delivery(c, call)];
      }
      forall c
        ensures Heard([call], subscribers, c) == if Watches(subscribers, id, c) then [call] else []
      {
        OneCallHeard(call, subscribers, c);
      }
    }

    method Subscribe(id: ChunkID, client: ClientRef)
      requires NoEmptySets(subscribers)
      modifies this`subscribers
      ensures NoEmptySets(subscribers)
      ensures forall k, c :: Watches(subscribers, k, c) <==> Watches(old(subscribers), k, c) || (k == id && c == client)
    {
      if id !in subscribers {
        subscribers := subscribers[id := {}];
      }
      subscribers := subscribers[id := subscribers[id] + {client}];
    }

    method Unsubscribe(id: ChunkID, client: ClientRef)
      requires NoEmptySets(subscribers)
      modifies this`subscribers
      ensures NoEmptySets(subscribers)
      ensures forall k, c :: Watches(subscribers, k, c) <==>
          Watches(old(subscribers), k, c) && !(k == id && c == client)
      ensures subscribers.Keys <= old(subscribers.Keys) && old(subscribers.Keys) - {id} <= subscribers.Keys
    {
      var subs := if id in subscribers then subscribers[id] - {client} else {};
      if id in subscribers {
        subscribers := subscribers[id := subs];
      }
      if |subs| == 0 {
        subscribers := subscribers - {id};
      }
    }

    /** The same removal for every key, made while ranging over the map, as Go allows. */
    method UnsubscribeAll(client: ClientRef)
      requires NoEmptySets(subscribers)
      modifies this`subscribers
      ensures NoEmptySets(subscribers)
      ensures forall k, c :: Watches(subscribers, k, c) <==> Watches(old(subscribers), k, c) && c != client
    {
      var todo := subscribers.Keys;
      while todo != {}
        invariant todo <= subscribers.Keys && NoEmptySets(subscribers)
        invariant forall k, c :: Watches(subscribers, k, c) <==>
            Watches(old(subscribers), k, c) && (c != client || k in todo)
        decreases |todo|
      {
        var id :| id in todo;
        todo := todo - {id};
        hide NoEmptySets;
        Unsubscribe(id, client);
      }
    }

    /** What keeps an idle chunk from hibernating. */
    method HasSubscribers(id: ChunkID) returns (b: bool)
      requires NoEmptySets(subscribers)
      ensures b <==> exists c :: Watches(subscribers, id, c)
      ensures b <==> id in subscribers
    {
      b := id in subscribers && |subscribers[id]| > 0;
      if b {
        var c :| c in subscribers[id];
        assert Watches(subscribers, id, c);
      }
    }
  }
}
