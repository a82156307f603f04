/**
  The browser's picture over whole runs of its handlers, and what rolling back a
  refused placement leaves of it.
 */
module Rollback {
  import opened Bits
  import opened Life
  import opened Client

  /** The live cells shown, and the cells of each placement not yet answered. */
  datatype Pic = Pic(live: iset<Point>, queue: seq<seq<Point>>)

  /** A placement, a prediction step, a CHUNK_STATE, an acknowledgement or error. */
  datatype Turn =
    | Draw(keys: seq<Point>)
    | Predict
    | Receive(id: ChunkID, cells: seq<uint16>)
    | Reply(error: bool)

  ghost function Drawn(keys: seq<Point>): iset<Point>
  {
    iset p: Point | p in keys
  }

  /** The chunk's square is replaced by the cells sent. */
  ghost function Replaced(live: iset<Point>, id: ChunkID, cells: seq<uint16>): iset<Point>
  {
    iset p: Point | p in Sent(id, cells) || (p in live && ChunkOf(p) != id)
  }

  ghost function Shown(s: Pic, t: Turn): Pic
  {
    match t
    case Draw(keys) => Pic(s.live + Drawn(keys), s.queue + [keys])
    case Predict => s.(live := Next(s.live))
    case Receive(id, cells) => s.(live := Replaced(s.live, id, cells))
    case Reply(error) =>
      if |s.queue| == 0 then s
      else Pic(if error then s.live - Drawn(s.queue[0]) else s.live, s.queue[1..])
  }

  ghost function Shows(s: Pic, ts: seq<Turn>): Pic
  {
    if |ts| == 0 then s else Shown(Shows(s, ts[..|ts| - 1]), ts[|ts| - 1])
  }

  function Replies(ts: seq<Turn>): nat
  {
    if |ts| == 0 then 0 else Replies(ts[..|ts| - 1]) + (if ts[|ts| - 1].Reply? then 1 else 0)
  }

  function Predictions(ts: seq<Turn>): nat
  {
    if |ts| == 0 then 0 else Predictions(ts[..|ts| - 1]) + (if ts[|ts| - 1].Predict? then 1 else 0)
  }

  function Drawings(ts: seq<Turn>): seq<seq<Point>>
  {
    if |ts| == 0 then [] else Drawings(ts[..|ts| - 1]) + (if ts[|ts| - 1].Draw? then [ts[|ts| - 1].keys] else [])
  }

  /** While the placements before it are being answered, `keys` waits behind them. */
  lemma {:induction false} QueueAlong(s: Pic, mine: seq<seq<Point>>, ts: seq<Turn>)
    requires Replies(ts) <= |s.queue|
    ensures Shows(s.(queue := s.queue + mine), ts).queue == s.queue[Replies(ts)..] + mine + Drawings(ts)
  {
    if |ts| == 0 {
      assert s.queue + mine == s.queue[0..] + mine + [];
    } else {
      var before, t := ts[..|ts| - 1], ts[|ts| - 1];
      QueueAlong(s, mine, before);
      var n := Replies(before);
      var q := s.queue[n..] + mine + Drawings(before);
      hide Next, Replaced;
      if t.Reply? {
        assert q == [s.queue[n]] + (s.queue[n + 1..] + mine + Drawings(before));
      } else if t.Draw? {
        assert q + [t.keys] == s.queue[n..] + mine + (Drawings(before) + [t.keys]);
      }
    }
  }

  // ----- With predictions in between: how far the damage reaches -----

  predicate Close(p: Point, q: Point, k: nat)
  {
    p.x - q.x <= k && q.x - p.x <= k && p.y - q.y <= k && q.y - p.y <= k
  }

  /** `p` lies in the piece widened by `k` on every side. */
  ghost predicate Around(keys: seq<Point>, k: nat, p: Point)
  {
    exists i :: 0 <= i < |keys| && Close(p, keys[i], k)
  }

  ghost predicate SameOutside(a: iset<Point>, b: iset<Point>, keys: seq<Point>, k: nat)
  {
    forall p: Point :: !Around(keys, k, p) ==> (p in a <==> p in b)
  }

  lemma AroundGrows(keys: seq<Point>, k: nat, p: Point, q: Point)
    requires Around(keys, k, q) && -1 <= p.x - q.x <= 1 && -1 <= p.y - q.y <= 1
    ensures Around(keys, k + 1, p)
  {
    var i :| 0 <= i < |keys| && Close(q, keys[i], k);
    assert Close(p, keys[i], k + 1);
  }

  lemma PredictSameOutside(a: iset<Point>, b: iset<Point>, keys: seq<Point>, k: nat)
    requires SameOutside(a, b, keys, k)
    ensures SameOutside(Next(a), Next(b), keys, k + 1)
  {
    hide Next, Around;
    forall p: Point | !Around(keys, k + 1, p)
      ensures p in Next(a) <==> p in Next(b)
    {
      forall q: Point | -1 <= p.x - q.x <= 1 && -1 <= p.y - q.y <= 1
        ensures q in a <==> q in b
      {
        if Around(keys, k, q) {
          AroundGrows(keys, k, p, q);
        }
      }
      NextIsLocal(a, b, p);
    }
  }

  /** One turn taken with and without the piece waiting in the queue. */
  lemma TurnSameOutside(a: Pic, b: Pic, t: Turn, keys: seq<Point>, k: nat)
    requires SameOutside(a.live, b.live, keys, k)
    requires t.Reply? ==> |a.queue| > 0 && |b.queue| > 0 && a.queue[0] == b.queue[0]
    ensures SameOutside(Shown(a, t).live, Shown(b, t).live, keys, k + if t.Predict? then 1 else 0)
  {
    if t.Predict? {
      PredictSameOutside(a.live, b.live, keys, k);
    }
    hide Around, Next, Sent;
  }

  /** The run that placed the piece and the one that did not. */
  lemma {:induction false} RunsSameOutside(s: Pic, keys: seq<Point>, ts: seq<Turn>)
    requires Replies(ts) <= |s.queue|
    ensures SameOutside(Shows(Shown(s, Draw(keys)), ts).live, Shows(s, ts).live, keys, Predictions(ts))
  {
    var s' := Shown(s, Draw(keys));
    if |ts| == 0 {
      AroundAll(keys, 0);
    } else {
      var before, t := ts[..|ts| - 1], ts[|ts| - 1];
      RunsSameOutside(s, keys, before);
      RunsQueues(s, keys, before);
      var a, b := Shows(s', before), Shows(s, before);
      if t.Reply? {
        assert a.queue[0] == s.queue[Replies(before)] == b.queue[0];
      }
      hide SameOutside, Shown;
      TurnSameOutside(a, b, t, keys, Predictions(before));
    }
  }

  lemma RunsQueues(s: Pic, keys: seq<Point>, ts: seq<Turn>)
    requires Replies(ts) <= |s.queue|
    ensures Shows(Shown(s, Draw(keys)), ts).queue == s.queue[Replies(ts)..] + [keys] + Drawings(ts)
    ensures Shows(s, ts).queue == s.queue[Replies(ts)..] + Drawings(ts)
  {
    QueueAlong(s, [], ts);
    assert s.queue + [] == s.queue && s.queue[Replies(ts)..] + [] == s.queue[Replies(ts)..];
    var drawn := Shown(s, Draw(keys));
    QueueAlong(Pic(drawn.live, s.queue), [keys], ts);
    hide Shows;
    assert drawn == Pic(drawn.live, s.queue).(queue := s.queue + [keys]);
  }

  /** The error that answers the placement, after any turns in which the placements
      before it were answered: from then on the queue is as if it had never been made,
      and so is the picture, but for the piece widened by one cell a prediction. */
  lemma RollbackReach(s: Pic, keys: seq<Point>, ts: seq<Turn>)
    requires Replies(ts) == |s.queue|
    ensures var a, b := Shown(Shows(Shown(s, Draw(keys)), ts), Reply(true)), Shows(s, ts);
      var n: int := Predictions(ts);
      && a.queue == b.queue && (forall p :: p in keys ==> p !in a.live)
      && forall p :: (p in a.live <==> p in b.live)
                     || exists i :: 0 <= i < |keys| && -n <= p.x - keys[i].x <= n && -n <= p.y - keys[i].y <= n
  {
    RollbackOutside(s, keys, ts);
    var n := Predictions(ts);
    hide Shows, Shown;
    forall p | Around(keys, n, p)
      ensures exists i :: 0 <= i < |keys| && -n <= p.x - keys[i].x <= n && -n <= p.y - keys[i].y <= n
    {
      var i :| 0 <= i < |keys| && Close(p, keys[i], n);
    }
    hide Around;
  }

  lemma RollbackOutside(s: Pic, keys: seq<Point>, ts: seq<Turn>)
    requires Replies(ts) == |s.queue|
    ensures var a, b := Shown(Shows(Shown(s, Draw(keys)), ts), Reply(true)), Shows(s, ts);
      a.queue == b.queue && SameOutside(a.live, b.live, keys, Predictions(ts)) && forall p :: p in keys ==> p !in a.live
  {
    RunsSameOutside(s, keys, ts);
    RunsQueues(s, keys, ts);
    var a := Shows(Shown(s, Draw(keys)), ts);
    hide Shows;
    assert a.queue[0] == keys && a.queue[1..] == Drawings(ts);
    AroundAll(keys, Predictions(ts));
    hide Around;
  }

  lemma AroundAll(keys: seq<Point>, k: nat)
    ensures forall p :: p in keys ==> Around(keys, k, p)
  {
    forall p | p in keys
      ensures Around(keys, k, p)
    {
      var i :| 0 <= i < |keys| && keys[i] == p;
      assert Close(p, keys[i], k);
    }
  }

  /** It does reach that far: three cells in a row, one prediction, and the error
      leaves a cell behind that neither player nor server ever put there. */
  lemma PhantomSurvives()
    ensures var keys := [Point(0, 0), Point(1, 0), Point(2, 0)];
      var a := Shown(Shows(Shown(Pic(iset{}, []), Draw(keys)), [Predict]), Reply(true));
      Point(1, 1) in a.live && Shows(Pic(iset{}, []), [Predict]).live == iset{}
  {
    var keys := [Point(0, 0), Point(1, 0), Point(2, 0)];
    var drawn := Shown(Pic(iset{}, []), Draw(keys));
    assert [Predict][..0] == [];
    ShowsOne(drawn, Predict);
    ShowsOne(Pic(iset{}, []), Predict);
    assert forall p :: p in drawn.live <==> p == keys[0] || p == keys[1] || p == keys[2];
    assert Near(drawn.live, 1, 1) == 3;
    forall p
      ensures p !in Next(iset{})
    {
      NothingFromNothing(iset{}, p);
    }
  }

  lemma ShowsOne(s: Pic, t: Turn)
    ensures Shows(s, [t]) == Shown(s, t)
  {
    hide Shown;
    assert [t][..0] == [];
  }

  // ----- Without predictions in between: exactly when nothing shows -----

  /** The last thing that happened to a cell. */
  datatype Mark = Untouched | Put | Wiped

  /** Read off the turns alone: was the cell last drawn or received, or last wiped by a
      snapshot without it or by the error of an earlier placement? */
  ghost function LastMark(queue: seq<seq<Point>>, ts: seq<Turn>, p: Point): Mark
  {
    if |ts| == 0 then Untouched
    else
      var before := ts[..|ts| - 1];
      match ts[|ts| - 1]
      case Draw(keys) => if p in keys then Put else LastMark(queue, before, p)
      case Predict => LastMark(queue, before, p)
      case Receive(id, cells) =>
        if p in Sent(id, cells) then Put else if ChunkOf(p) == id then Wiped else LastMark(queue, before, p)
      case Reply(error) =>
        if error && Replies(before) < |queue| && p in queue[Replies(before)] then Wiped else LastMark(queue, before, p)
  }

  /** The cell was live before and left alone since, or drawn or received since. */
  ghost predicate Stands(s: Pic, ts: seq<Turn>, p: Point)
  {
    var m := LastMark(s.queue, ts, p);
    m == Put || (m == Untouched && p in s.live)
  }

  lemma {:induction false} StandsMeansLive(s: Pic, ts: seq<Turn>, p: Point)
    requires Replies(ts) <= |s.queue| && Predictions(ts) == 0
    ensures p in Shows(s, ts).live <==> Stands(s, ts, p)
  {
    if |ts| > 0 {
      var before, t := ts[..|ts| - 1], ts[|ts| - 1];
      StandsMeansLive(s, before, p);
      if t.Reply? {
        QueueAlong(s, [], before);
        assert s.queue + [] == s.queue;
        assert Shows(s, before).queue[0] == s.queue[Replies(before)];
      }
      hide Sent, Next;
    }
  }

  /** With no prediction between placement and error, the picture is the one of the run
      without the placement exactly if no cell of the piece stands on other grounds:
      live before and left alone since, or drawn or received since. */
  lemma RollbackExactIff(s: Pic, keys: seq<Point>, ts: seq<Turn>)
    requires Replies(ts) == |s.queue| && Predictions(ts) == 0
    ensures var a, b := Shown(Shows(Shown(s, Draw(keys)), ts), Reply(true)), Shows(s, ts);
      a == b <==> forall p :: p in keys ==> !Stands(s, ts, p)
  {
    RollbackOutside(s, keys, ts);
    forall p
      ensures p in Shows(s, ts).live <==> Stands(s, ts, p)
    {
      StandsMeansLive(s, ts, p);
    }
    AroundNone(keys);
    hide Shows, Shown, Stands, Around;
  }

  lemma AroundNone(keys: seq<Point>)
    ensures forall p :: Around(keys, 0, p) <==> p in keys
  {
    forall p | Around(keys, 0, p)
      ensures p in keys
    {
      var i :| 0 <= i < |keys| && Close(p, keys[i], 0);
      assert p == keys[i];
    }
    AroundAll(keys, 0);
  }

  /** Two placements on one cell: the first one's error wipes out the second. */
  lemma OverlapWiped(p: Point)
    ensures var s, ts := Pic(iset{}, []), [Draw([p])];
      p !in Shown(Shows(Shown(s, Draw([p])), ts), Reply(true)).live && p in Shows(s, ts).live
  {
    var s := Pic(iset{}, []);
    ShowsOne(s, Draw([p]));
    ShowsOne(Shown(s, Draw([p])), Draw([p]));
  }
}
