/**
  The browser's event handlers over one socket.
 */
module Session {
  import Bits
  import opened Life
  import opened Client
  import opened Placement
  import opened Protocol
  import opened Rollback

  /** An entry of pendingCommands: the cells drawn for one placement. */
  datatype Pending = Pending(tag: nat, keys: seq<Point>)

  function Tags(s: seq<Pending>): (r: seq<nat>)
    ensures |r| == |s|
  {
    seq(|s|, i requires 0 <= i < |s| => s[i].tag)
  }

  /** The cells waiting with each entry. */
  function CellLists(s: seq<Pending>): (r: seq<seq<Point>>)
    ensures |r| == |s|
  {
    seq(|s|, i requires 0 <= i < |s| => s[i].keys)
  }

  /** The map keys of a piece placed at `root`. */
  function Keys(root: Point, piece: seq<Point>): (r: seq<Point>)
    ensures |r| == |piece|
  {
    seq(|piece|, i requires 0 <= i < |piece| => Translate(root, piece[i]))
  }

  /** In coordinates: the points whose offset from `root` is one of the piece's. */
  lemma KeysAt(root: Point, piece: seq<Point>, q: Point)
    ensures q in Keys(root, piece)
      <==> exists i :: 0 <= i < |piece| && q.x - root.x == piece[i].x && q.y - root.y == piece[i].y
  {
    KeysAreTranslated(root, piece);
    TranslatedAt(root, piece, q);
    hide Translated, Keys;
    assert q in Drawn(Keys(root, piece)) <==> q in Keys(root, piece);
  }

  /** They are the cells the server will place. */
  lemma KeysAreTranslated(root: Point, piece: seq<Point>)
    ensures Drawn(Keys(root, piece)) == Translated(root, piece)
  {
    var keys := Keys(root, piece);
    forall p
      ensures p in keys <==> p in Translated(root, piece)
    {
      if p in keys {
        var i :| 0 <= i < |keys| && keys[i] == p;
        assert p == Translate(root, piece[i]);
      }
      if p in Translated(root, piece) {
        var i :| 0 <= i < |piece| && p == Translate(root, piece[i]);
        assert keys[i] == p;
      }
    }
  }

  class Session {
    const view: Viewport
    var readyState: Phase
    var placed: nat
    var pendingCommands: seq<Pending>
    var subscribedChunks: set<ChunkID>
    var outbox: seq<Up>

    ghost function State(): Browser
      reads this
    {
      Browser(readyState, placed, Tags(pendingCommands), subscribedChunks)
    }

    ghost function Picture(): Pic
      reads this, view
    {
      Pic(Live(view.localCells), CellLists(pendingCommands))
    }

    constructor (view: Viewport)
      ensures this.view == view && State() == START.b && outbox == [] && pendingCommands == []
    {
      this.view := view;
      readyState := Connecting;
      placed := 0;
      pendingCommands := [];
      subscribedChunks := {};
      outbox := [];
    }

    /** Draws the piece at once, queues the entry, sends the command if it can. A
        plain click is the piece of one cell. */
    method PlaceAt(root: Point, piece: seq<Point>, color: Color)
      modifies this, view
      ensures State() == Queued(old(State())) && outbox == old(outbox) + PlaceSends(old(State()))
      ensures Picture() == Shown(old(Picture()), Draw(Keys(root, piece)))
      ensures forall q :: q in view.localCells <==>
          q in old(view.localCells)
          || exists i :: 0 <= i < |piece| && q.x - root.x == piece[i].x && q.y - root.y == piece[i].y
      ensures forall q :: q in view.localCells ==>
          if exists i :: 0 <= i < |piece| && q.x - root.x == piece[i].x && q.y - root.y == piece[i].y
          then view.localCells[q] == color
          else q in old(view.localCells) && view.localCells[q] == old(view.localCells)[q]
    {
      var optimistic := Paint(root, piece, color);
      forall q
        ensures q in optimistic
          <==> exists i :: 0 <= i < |piece| && q.x - root.x == piece[i].x && q.y - root.y == piece[i].y
      {
        KeysAt(root, piece, q);
      }
      hide Keys;
      assert forall p :: p in Drawn(optimistic) <==> p in optimistic;
      pendingCommands := pendingCommands + [Pending(placed, optimistic)];
      assert Tags(pendingCommands) == Tags(old(pendingCommands)) + [placed];
      assert CellLists(pendingCommands) == CellLists(old(pendingCommands)) + [optimistic];
      if readyState == Open {
        outbox := outbox + [Placement(placed)];
      }
      placed := placed + 1;
    }

    /** Its drawing loop. */
    method Paint(root: Point, piece: seq<Point>, color: Color) returns (optimistic: seq<Point>)
      modifies view
      ensures optimistic == Keys(root, piece)
      ensures forall p :: p in view.localCells <==> p in old(view.localCells) || p in optimistic
      ensures forall p :: p in view.localCells ==>
          if p in optimistic then view.localCells[p] == color
          else p in old(view.localCells) && view.localCells[p] == old(view.localCells)[p]
    {
      optimistic := [];
      for i := 0 to |piece|
        invariant optimistic == Keys(root, piece)[..i]
        invariant forall p :: p in view.localCells <==> p in old(view.localCells) || p in optimistic
        invariant forall p :: p in view.localCells ==>
            if p in optimistic then view.localCells[p] == color
            else p in old(view.localCells) && view.localCells[p] == old(view.localCells)[p]
      {
        var key := Translate(root, piece[i]);
        view.localCells := view.localCells[key := color];
        optimistic := optimistic + [key];
      }
    }

    /** SPAWN_ACK, PLACE_SHAPE_ACK, PLACE_CUSTOM_ACK and ERROR. */
    method OnReply(error: bool)
      modifies this, view
      ensures State() == Popped(old(State())) && outbox == old(outbox)
      ensures Picture() == Shown(old(Picture()), Reply(error))
      ensures forall p :: p in view.localCells ==>
          p in old(view.localCells) && view.localCells[p] == old(view.localCells)[p]
    {
      if |pendingCommands| == 0 {
        return;
      }
      var pending := pendingCommands[0];
      pendingCommands := pendingCommands[1..];
      assert Tags(pendingCommands) == Tags(old(pendingCommands))[1..];
      assert CellLists(pendingCommands) == CellLists(old(pendingCommands))[1..];
      if error {
        for i := 0 to |pending.keys|
          invariant pendingCommands == old(pendingCommands)[1..] && placed == old(placed) && outbox == old(outbox)
          invariant readyState == old(readyState) && subscribedChunks == old(subscribedChunks)
          invariant forall p :: p in view.localCells <==> p in old(view.localCells) && p !in pending.keys[..i]
          invariant forall p :: p in view.localCells ==>
              p in old(view.localCells) && view.localCells[p] == old(view.localCells)[p]
        {
          view.localCells := view.localCells - {pending.keys[i]};
        }
        assert pending.keys[..|pending.keys|] == pending.keys;
      }
    }

    /** CHUNK_STATE: only the picture changes. */
    method OnChunkState(id: ChunkID, cells: seq<Bits.uint16>, random: Point -> Color)
      modifies view
      ensures State() == old(State()) && outbox == old(outbox)
      ensures Picture() == Shown(old(Picture()), Receive(id, cells))
    {
      hide Sent;
      view.ReconcileChunk(id, cells, random);
    }

    /** The prediction timer. */
    method OnTimer(blend: Point -> Color)
      modifies view
      ensures State() == old(State()) && outbox == old(outbox)
      ensures Picture() == Shown(old(Picture()), Predict)
    {
      view.LocalTick(blend);
    }

    /** Tells the server which chunks came into view and which left it. */
    method UpdateSubscriptions(needed: set<ChunkID>)
      modifies this
      ensures State() == Looked(old(State()), needed) && outbox == old(outbox) + LookSends(old(State()), needed)
      ensures readyState == old(readyState)
      ensures readyState != Open ==> subscribedChunks == old(subscribedChunks) && outbox == old(outbox)
      ensures readyState == Open ==>
          var came, went := needed - old(subscribedChunks), old(subscribedChunks) - needed;
          && subscribedChunks == needed
          && outbox == old(outbox) + (if came == {} then [] else [Subscribe(came)])
                                   + (if went == {} then [] else [Unsubscribe(went)])
    {
      if readyState != Open {
        return;
      }
      var toSub := Missing(needed, subscribedChunks);
      var toUnsub := Missing(subscribedChunks, needed);
      if toSub != {} {
        outbox := outbox + [Subscribe(toSub)];
      }
      if toUnsub != {} {
        outbox := outbox + [Unsubscribe(toUnsub)];
      }
      subscribedChunks := subscribedChunks + toSub - toUnsub;
      assert subscribedChunks == needed;
    }
  }

  /** The members of `a` that `b` lacks, found one by one. */
  method Missing(a: set<ChunkID>, b: set<ChunkID>) returns (out: set<ChunkID>)
    ensures out == a - b
  {
    out := {};
    var todo := a;
    while todo != {}
      invariant todo <= a && out == (a - todo) - b
    {
      var k :| k in todo;
      if k !in b {
        out := out + {k};
      }
      todo := todo - {k};
    }
  }
}
