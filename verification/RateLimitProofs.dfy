/**
  What the two-level bucket guarantees over whole runs of requests.
 */
module RateLimitProofs {
  import opened RateLimit

  // ----- Admission bound -----

  ghost predicate Within(qs: seq<Request>, lo: int, hi: int)
  {
    forall i :: 0 <= i < |qs| ==> lo <= qs[i].now <= hi
  }

  /** The most a bucket can still pay out between `lo` and `hi`. */
  function Room(l: Limit, b: Found, lo: int, hi: int): int
  {
    if b.Absent? || b.bucket.last < lo then l.cap + l.rate * (hi - lo)
    else if b.bucket.last <= hi then b.bucket.tokens + l.rate * (hi - b.bucket.last)
    else b.bucket.tokens
  }

  lemma RoomAtMost(l: Limit, b: Found, lo: int, hi: int)
    requires lo <= hi && (b.Present? ==> b.bucket.tokens <= l.cap)
    ensures Room(l, b, lo, hi) <= l.cap + l.rate * (hi - lo)
  {
    if b.Present? && lo <= b.bucket.last <= hi {
      assert l.rate * (hi - lo) == l.rate * (hi - b.bucket.last) + l.rate * (b.bucket.last - lo);
    }
  }

  /** Paying `k` out of a refilled bucket uses up at least `k` of its room. */
  lemma PayingUsesRoom(l: Limit, b: Found, now: int, lo: int, hi: int, k: int)
    requires lo <= now <= hi && (b.Present? ==> 0 <= b.bucket.tokens <= l.cap)
    ensures var r := Refilled(l, b, now); Room(l, Present(r.(tokens := r.tokens - k)), lo, hi) + k <= Room(l, b, lo, hi)
  {
    var r := Refilled(l, b, now);
    RefilledInRange(l, b, now);
    assert l.rate * (hi - lo) == l.rate * (hi - now) + l.rate * (now - lo);
    if b.Present? && now > b.bucket.last {
      assert r.tokens <= b.bucket.tokens + l.rate * (now - b.bucket.last);
      assert l.rate * (hi - b.bucket.last) == l.rate * (hi - now) + l.rate * (now - b.bucket.last);
    }
  }

  lemma StepUsesRoom(l: Limits, m: Buckets, q: Request, lo: int, hi: int, player: string)
    requires InRange(l, m) && lo <= q.now <= hi
    ensures var o := Step(l, m, q);
      && Room(l.global, Get(o.m, GLOBAL), lo, hi) + (if o.charged then 1 else 0)
           <= Room(l.global, Get(m, GLOBAL), lo, hi)
      && Room(l.player, Get(o.m, PlayerKey(player)), lo, hi) + (if q.player == player then o.answer else 0)
           <= Room(l.player, Get(m, PlayerKey(player)), lo, hi)
  {
    var o := Step(l, m, q);
    KeysApart(q.player, player);
    KeysApart(player, player);
    PayingUsesRoom(l.global, Get(m, GLOBAL), q.now, lo, hi, 0);
    PayingUsesRoom(l.global, Get(m, GLOBAL), q.now, lo, hi, 1);
    PayingUsesRoom(l.player, Get(m, PlayerKey(q.player)), q.now, lo, hi, o.answer);
    hide Room, Refilled, PlayerKey;
  }

  lemma {:induction false} RunUsesRoom(l: Limits, m: Buckets, qs: seq<Request>, lo: int, hi: int, player: string)
    requires InRange(l, m) && lo <= hi && Within(qs, lo, hi)
    ensures Spent(l, m, qs, player) <= Room(l.player, Get(m, PlayerKey(player)), lo, hi)
    ensures GlobalSpent(l, m, qs) <= Room(l.global, Get(m, GLOBAL), lo, hi)
    decreases |qs|
  {
    hide Step;
    if qs == [] {
      RoomNotNegative(l.player, Get(m, PlayerKey(player)), lo, hi);
      RoomNotNegative(l.global, Get(m, GLOBAL), lo, hi);
    } else {
      hide Room;
      StepInRange(l, m, qs[0]);
      StepUsesRoom(l, m, qs[0], lo, hi, player);
      RunUsesRoom(l, Step(l, m, qs[0]).m, qs[1..], lo, hi, player);
    }
  }

  lemma RoomNotNegative(l: Limit, b: Found, lo: int, hi: int)
    requires lo <= hi && (b.Present? ==> 0 <= b.bucket.tokens)
    ensures Room(l, b, lo, hi) >= 0
  {
    assert l.rate * (hi - lo) >= 0;
    if b.Present? && b.bucket.last <= hi {
      assert l.rate * (hi - b.bucket.last) >= 0;
    }
  }

  /** Whatever the mix of requests and players, and even when `now` steps back:
      within a time window a player gets at most a full bucket plus what refills in
      the window, and so do all players together out of the global one. */
  lemma AdmissionBound(l: Limits, m: Buckets, qs: seq<Request>, lo: int, hi: int, player: string)
    requires InRange(l, m) && lo <= hi && Within(qs, lo, hi)
    ensures Spent(l, m, qs, player) <= l.player.cap + l.player.rate * (hi - lo)
    ensures GlobalSpent(l, m, qs) <= l.global.cap + l.global.rate * (hi - lo)
  {
    RunUsesRoom(l, m, qs, lo, hi, player);
    RoomAtMost(l.player, Get(m, PlayerKey(player)), lo, hi);
    RoomAtMost(l.global, Get(m, GLOBAL), lo, hi);
  }

  // ----- Charging one token at a time -----

  lemma RefilledStays(l: Limit, b: Found, now: int, k: nat)
    requires (b.Present? ==> 0 <= b.bucket.tokens <= l.cap)
    ensures var r := Refilled(l, b, now); var paid := r.(tokens := r.tokens - k);
      Refilled(l, Present(paid), now) == paid
  {
    RefilledInRange(l, b, now);
  }

  /** What one admitted or refused mutation does to the two refilled buckets. */
  lemma MutateTakesOne(l: Limits, m: Buckets, player: string, now: int)
    requires InRange(l, m)
    ensures var o, key := Step(l, m, Mutate(player, now)), PlayerKey(player);
      var g, p := Refilled(l.global, Get(m, GLOBAL), now).tokens, Refilled(l.player, Get(m, key), now).tokens;
      && (o.answer == 1 <==> g >= 1 && p >= 1) && (o.charged <==> o.answer == 1) && 0 <= o.answer <= 1
      && Refilled(l.global, Get(o.m, GLOBAL), now).tokens == g - o.answer
      && Refilled(l.player, Get(o.m, key), now).tokens == p - o.answer
  {
    KeysApart(player, player);
    var key := PlayerKey(player);
    RefilledStays(l.global, Get(m, GLOBAL), now, 0);
    RefilledStays(l.global, Get(m, GLOBAL), now, 1);
    RefilledStays(l.player, Get(m, key), now, 1);
    hide Refilled, PlayerKey;
  }

  /** Within one second, charging n tokens goes through exactly when both buckets
      hold n; refused, it has still taken all that the poorer one held. */
  lemma {:induction false} ChargeExact(l: Limits, m: Buckets, player: string, nows: seq<int>, now: int)
    requires InRange(l, m) && forall i :: 0 <= i < |nows| ==> nows[i] == now
    ensures var c, key := Charge(l, m, player, nows), PlayerKey(player);
      var g, p := Refilled(l.global, Get(m, GLOBAL), now).tokens, Refilled(l.player, Get(m, key), now).tokens;
      && (c.ok <==> Min(g, p) >= |nows|) && c.taken == Min(|nows|, Min(g, p))
      && Refilled(l.global, Get(c.m, GLOBAL), now).tokens == g - c.taken
      && Refilled(l.player, Get(c.m, key), now).tokens == p - c.taken
    decreases |nows|
  {
    RefilledInRange(l.global, Get(m, GLOBAL), now);
    RefilledInRange(l.player, Get(m, PlayerKey(player)), now) by {
      KeysApart(player, player);
    }
    hide Step, Refilled;
    if nows != [] {
      MutateTakesOne(l, m, player, now);
      StepInRange(l, m, Mutate(player, now));
      ChargeExact(l, Step(l, m, Mutate(player, now)).m, player, nows[1..], now);
    }
  }

  /** Waiting never costs a token, and brings at most the rate. */
  lemma LaterTokens(l: Limit, b: Found, now: int, later: int)
    requires now <= later && (b.Present? ==> 0 <= b.bucket.tokens <= l.cap)
    ensures Refilled(l, b, now).tokens <= Refilled(l, b, later).tokens
    ensures Refilled(l, b, later).tokens <= Refilled(l, b, now).tokens + l.rate * (later - now)
  {
    MulMono(0, later - now, l.rate);
    if b.Present? {
      var last := b.bucket.last;
      MulMono(0, later - last, l.rate);
      if last <= now {
        assert (later - last) * l.rate == (now - last) * l.rate + (later - now) * l.rate;
        MulMono(0, now - last, l.rate);
      } else if last <= later {
        MulMono(later - last, later - now, l.rate);
      }
    }
  }

  ghost predicate NonDecreasing(nows: seq<int>)
  {
    forall i, j :: 0 <= i <= j < |nows| ==> nows[i] <= nows[j]
  }

  function GlobalAt(l: Limits, m: Buckets, now: int): int
  {
    Refilled(l.global, Get(m, GLOBAL), now).tokens
  }

  function PlayerAt(l: Limits, m: Buckets, player: string, now: int): int
  {
    Refilled(l.player, Get(m, PlayerKey(player)), now).tokens
  }

  /** One mutation at `now`, looked at from `later`. */
  lemma MutateThenLater(l: Limits, m: Buckets, player: string, now: int, later: int)
    requires InRange(l, m) && now <= later
    ensures var o, g, p := Step(l, m, Mutate(player, now)), GlobalAt(l, m, now), PlayerAt(l, m, player, now);
      && InRange(l, o.m) && 0 <= o.answer <= 1 && (o.answer == 1 <==> g >= 1 && p >= 1) && g >= 0 && p >= 0
      && 0 <= GlobalAt(l, o.m, later) - (g - o.answer) <= l.global.rate * (later - now)
      && 0 <= PlayerAt(l, o.m, player, later) - (p - o.answer) <= l.player.rate * (later - now)
  {
    KeysApart(player, player);
    RefilledInRange(l.global, Get(m, GLOBAL), now);
    RefilledInRange(l.player, Get(m, PlayerKey(player)), now);
    StepInRange(l, m, Mutate(player, now));
    MutateTakesOne(l, m, player, now);
    hide Step, Refilled, PlayerKey;
    var o := Step(l, m, Mutate(player, now));
    LaterTokens(l.global, Get(o.m, GLOBAL), now, later);
    LaterTokens(l.player, Get(o.m, PlayerKey(player)), now, later);
  }

  /** A clock that moves while the tokens are charged: if both buckets hold n at the
      first reading, the charge goes through; and whatever goes through, goes on what
      they held then and what came in since. */
  lemma {:induction false} ChargeOverTime(l: Limits, m: Buckets, player: string, nows: seq<int>)
    requires InRange(l, m) && NonDecreasing(nows) && |nows| > 0
    ensures var c, first, last := Charge(l, m, player, nows), nows[0], nows[|nows| - 1];
      var g, p := GlobalAt(l, m, first), PlayerAt(l, m, player, first);
      && (c.ok <==> c.taken == |nows|) && c.taken <= |nows| && (Min(g, p) >= |nows| ==> c.ok)
      && c.taken <= g + l.global.rate * (last - first) && c.taken <= p + l.player.rate * (last - first)
    decreases |nows|
  {
    var now, last, rest := nows[0], nows[|nows| - 1], nows[1..];
    var next := if rest == [] then now else rest[0];
    MutateThenLater(l, m, player, now, next);
    Stretch(l.global.rate, now, next, last);
    Stretch(l.player.rate, now, next, last);
    hide Step, GlobalAt, PlayerAt, InRange;
    if rest == [] {
      assert Charge(l, Step(l, m, Mutate(player, now)).m, player, rest).taken == 0;
    } else {
      assert rest[|rest| - 1] == last;
      ChargeOverTime(l, Step(l, m, Mutate(player, now)).m, player, rest);
    }
  }

  lemma Stretch(r: Rate, a: int, b: int, c: int)
    ensures r * (c - a) == r * (c - b) + r * (b - a)
    ensures a <= b ==> r * (b - a) >= 0
    ensures b <= c ==> r * (c - b) >= 0
  {
    MulMono(0, b - a, r);
    MulMono(0, c - b, r);
  }

  // ----- Refusals leave no trace -----

  ghost predicate Monotone(qs: seq<Request>, from: int)
  {
    && (forall i :: 0 <= i < |qs| ==> from <= qs[i].now)
    && (forall i, j :: 0 <= i < j < |qs| ==> qs[i].now <= qs[j].now)
  }

  /** Refilling early and again later is refilling once, later. */
  lemma RefillTwice(l: Limit, b: Found, t: int, now: int)
    requires t <= now
    ensures Refilled(l, Present(Refilled(l, b, t)), now) == Refilled(l, b, now)
  {
    if b.Present? {
      var k := b.bucket;
      assert Max(0, t - k.last) * l.rate >= 0 && Max(0, now - k.last) * l.rate >= 0;
      if t > k.last {
        assert (now - k.last) * l.rate == (now - t) * l.rate + (t - k.last) * l.rate;
        assert (t - k.last) * l.rate > 0 && (now - t) * l.rate >= 0;
        if now > t {
          assert (now - t) * l.rate > 0;
        }
      }
    } else if now > t {
      assert (now - t) * l.rate > 0;
    }
  }

  /** A refill ahead of `now` goes unnoticed by a refill at `now` exactly when it
      came too early to do anything. */
  lemma RefillTwiceIff(l: Limit, b: Found, t: int, now: int)
    ensures Refilled(l, Present(Refilled(l, b, t)), now) == Refilled(l, b, now)
      <==> t <= now || (b.Present? && t <= b.bucket.last)
  {
    if t <= now {
      RefillTwice(l, b, t, now);
    } else if b.Present? {
      var last := b.bucket.last;
      MulMono(1, t - last, l.rate);
      MulMono(1, now - last, l.rate);
    }
  }

  /** From `from` on, no request can tell `a` from `b`. */
  ghost predicate Same(l: Limits, a: Buckets, b: Buckets, from: int)
  {
    forall k, now :: from <= now ==> SameAt(l, a, b, k, now)
  }

  predicate SameAt(l: Limits, a: Buckets, b: Buckets, k: string, now: int)
  {
    Refilled(LimitOf(l, k), Get(a, k), now) == Refilled(LimitOf(l, k), Get(b, k), now)
  }

  lemma StepKeepsSame(l: Limits, a: Buckets, b: Buckets, from: int, q: Request)
    requires Same(l, a, b, from) && from <= q.now
    ensures Step(l, a, q).answer == Step(l, b, q).answer && Step(l, a, q).charged == Step(l, b, q).charged
    ensures Same(l, Step(l, a, q).m, Step(l, b, q).m, q.now)
  {
    KeysApart(q.player, q.player);
    var key := PlayerKey(q.player);
    assert SameAt(l, a, b, GLOBAL, q.now) && SameAt(l, a, b, key, q.now);
    hide Refilled, PlayerKey;
    var c, d := Step(l, a, q).m, Step(l, b, q).m;
    forall k, now | q.now <= now
      ensures SameAt(l, c, d, k, now)
    {
      assert SameAt(l, a, b, k, now);
    }
  }

  /** A request that kept nothing leaves buckets no later request can tell apart. */
  lemma UnchargedIsSame(l: Limits, m: Buckets, q: Request)
    requires !Step(l, m, q).charged
    ensures Same(l, Step(l, m, q).m, m, q.now)
  {
    hide Refilled;
    forall k, now | q.now <= now
      ensures SameAt(l, Step(l, m, q).m, m, k, now)
    {
      RefillTwice(l.global, Get(m, GLOBAL), q.now, now);
    }
  }

  lemma SameTrans(l: Limits, a: Buckets, b: Buckets, c: Buckets, s: int, t: int)
    requires Same(l, a, b, s) && Same(l, b, c, t) && s <= t
    ensures Same(l, a, c, t)
  {
    hide Refilled;
    forall k, now | t <= now
      ensures SameAt(l, a, c, k, now)
    {
      assert SameAt(l, a, b, k, now) && SameAt(l, b, c, k, now);
    }
  }

  function Without<T>(s: seq<T>, drop: seq<bool>): seq<T>
    requires |s| == |drop|
  {
    if s == [] then [] else (if drop[0] then [] else [s[0]]) + Without(s[1..], drop[1..])
  }

  /** The requests marked in `drop` all kept nothing. */
  ghost predicate OnlyRefused(l: Limits, m: Buckets, qs: seq<Request>, drop: seq<bool>)
    requires |qs| == |drop|
    decreases |qs|
  {
    qs == [] || ((drop[0] ==> !Step(l, m, qs[0]).charged) && OnlyRefused(l, Step(l, m, qs[0]).m, qs[1..], drop[1..]))
  }

  lemma {:induction false} DroppingRefused(l: Limits, a: Buckets, b: Buckets, qs: seq<Request>, drop: seq<bool>,
                                           from: int)
    requires |qs| == |drop| && Same(l, a, b, from) && Monotone(qs, from) && OnlyRefused(l, a, qs, drop)
    ensures Answers(l, b, Without(qs, drop)) == Without(Answers(l, a, qs), drop)
    decreases |qs|
  {
    hide Same, Step;
    if qs != [] {
      var q, c := qs[0], Step(l, a, qs[0]).m;
      StepKeepsSame(l, a, b, from, q);
      if drop[0] {
        UnchargedIsSame(l, a, q);
        SameSym(l, c, a, q.now);
        SameSym(l, a, b, from);
        SameTrans(l, b, a, c, from, q.now);
        SameSym(l, b, c, q.now);
        DroppingRefused(l, c, b, qs[1..], drop[1..], q.now);
        assert Without(qs, drop) == Without(qs[1..], drop[1..]);
      } else {
        DroppingRefused(l, c, Step(l, b, q).m, qs[1..], drop[1..], q.now);
        var rest := Without(qs[1..], drop[1..]);
        assert ([q] + rest)[1..] == rest;
      }
      assert Answers(l, a, qs)[1..] == Answers(l, c, qs[1..]);
    }
  }

  lemma SameSym(l: Limits, a: Buckets, b: Buckets, from: int)
    requires Same(l, a, b, from)
    ensures Same(l, b, a, from)
  {
    hide Refilled;
    forall k, now | from <= now
      ensures SameAt(l, b, a, k, now)
    {
      assert SameAt(l, a, b, k, now);
    }
  }

  /** Refused requests are unobservable: delete any of them from any run under a
      clock that never steps back, and every other answer stays what it was. */
  lemma RefusalsUnobservable(l: Limits, m: Buckets, qs: seq<Request>, drop: seq<bool>, from: int)
    requires |qs| == |drop| && Monotone(qs, from) && OnlyRefused(l, m, qs, drop)
    ensures Answers(l, m, Without(qs, drop)) == Without(Answers(l, m, qs), drop)
  {
    assert Same(l, m, m, from);
    DroppingRefused(l, m, m, qs, drop, from);
  }

  // ----- Expiry leaves no trace -----

  const JITTER := 2000

  /** Redis's clock and the requests' seconds never step back, and stay `off`
      milliseconds apart, give or take: a request may trail by up to JITTER. */
  ghost predicate Agree(ts: seq<Timed>, off: int, from: int)
  {
    && (forall i :: 0 <= i < |ts| ==> from <= ts[i].q.now && off <= ts[i].clock - 1000 * ts[i].q.now <= off + JITTER)
    && (forall i, j :: 0 <= i < j < |ts| ==> ts[i].q.now <= ts[j].q.now)
  }

  /** Dead slots included, the store holds the buckets that never expire; each
      deadline leaves time to fill up. */
  ghost predicate Shadows(l: Limits, store: Store, m: Buckets, off: int, from: int)
  {
    && store.Keys == m.Keys
    && forall k :: k in m ==>
         && store[k].bucket == m[k] && m[k].last <= from && 0 <= m[k].tokens
         && store[k].deadline.At? && 1000 * (m[k].last + Ttl(LimitOf(l, k))) + off <= store[k].deadline.ms
  }

  /** A bucket whose deadline is past would be full by now. */
  lemma DeadIsFull(l: Limit, b: Bucket, deadline: int, off: int, now: int, clock: int)
    requires 0 <= b.tokens && b.last <= now
    requires 1000 * (b.last + Ttl(l)) + off <= deadline < clock <= 1000 * now + off + JITTER
    ensures Refilled(l, Present(b), now) == Refilled(l, Absent, now)
  {
    FillsUp(l, now - b.last);
    hide Ttl;
  }

  lemma FillsUp(l: Limit, seconds: int)
    requires seconds >= 0 && seconds >= Ttl(l) - 1
    ensures seconds * l.rate >= l.cap && (seconds > 0 ==> seconds * l.rate > 0)
  {
    var k := Ttl(l) - 1;
    DivisionCovers(l.cap + l.rate - 1, l.rate);
    hide Ttl;
    MulMono(k, seconds, l.rate);
    MulMono(1, seconds, l.rate);
  }

  /** Ttl is the rounded-up quotient and one more. */
  lemma TtlIsCeiling(l: Limit, k: nat)
    ensures k * l.rate >= l.cap <==> k >= Ttl(l) - 1
  {
    var a, r := l.cap + l.rate - 1, l.rate;
    DivisionCovers(a, r);
    assert r * (a / r) <= a;
    hide Ttl;
    MulMono(a / r, k, r);
    MulMono(k, a / r - 1, r);
    assert (a / r - 1) * r == r * (a / r) - r;
    assert Ttl(l) - 1 == a / r by {
      CeilDef(l);
    }
  }

  lemma CeilDef(l: Limit)
    ensures Ttl(l) - 1 == (l.cap + l.rate - 1) / l.rate
  {
  }

  lemma MulMono(a: int, b: int, r: int)
    requires r > 0
    ensures a <= b ==> a * r <= b * r
  {
  }

  lemma DivisionCovers(a: int, r: int)
    requires r > 0
    ensures r * (a / r) > a - r
  {
    assert a == r * (a / r) + a % r;
  }

  lemma LiveIsSame(l: Limits, store: Store, m: Buckets, off: int, from: int, now: int, clock: int, k: string)
    requires Shadows(l, store, m, off, from) && from <= now && off <= clock - 1000 * now <= off + JITTER
    ensures SameAt(l, Live(store, clock), m, k, now)
  {
    if k in m && !Alive(store[k], clock) {
      DeadIsFull(LimitOf(l, k), m[k], store[k].deadline.ms, off, now, clock);
    }
  }

  /** Scripts that read the same buckets write the same ones. */
  lemma SameReads(l: Limits, a: Buckets, b: Buckets, q: Request)
    requires InRange(l, b) && SameAt(l, a, b, GLOBAL, q.now) && SameAt(l, a, b, PlayerKey(q.player), q.now)
    ensures var c, d := Step(l, a, q), Step(l, b, q);
      && c.answer == d.answer && c.charged == d.charged && c.wrote == d.wrote && c.wrote <= c.m.Keys
      && d.m.Keys == b.Keys + d.wrote
      && (forall k :: k in d.wrote ==> c.m[k] == d.m[k] && 0 <= d.m[k].tokens)
      && (forall k :: k in b && k !in d.wrote ==> d.m[k] == b[k])
  {
    KeysApart(q.player, q.player);
    RefilledInRange(l.global, Get(b, GLOBAL), q.now);
    RefilledInRange(l.player, Get(b, PlayerKey(q.player)), q.now);
    hide Refilled, PlayerKey;
  }

  lemma WrittenByNow(l: Limits, m: Buckets, q: Request, from: int)
    requires InRange(l, m) && from <= q.now && forall k :: k in m ==> m[k].last <= from
    ensures forall k :: k in Step(l, m, q).wrote ==> k in Step(l, m, q).m && Step(l, m, q).m[k].last <= q.now
  {
    KeysApart(q.player, q.player);
    RefilledInRange(l.global, Get(m, GLOBAL), q.now);
    RefilledInRange(l.player, Get(m, PlayerKey(q.player)), q.now);
    assert Refilled(l.global, Absent, q.now).last == q.now && Refilled(l.player, Absent, q.now).last == q.now;
    hide Refilled, PlayerKey;
  }

  lemma StampShadows(l: Limits, store: Store, o: Outcome, m: Buckets, p: Buckets, off: int, from: int, now: int,
                     clock: int)
    requires Shadows(l, store, m, off, from) && from <= now && off <= clock - 1000 * now
    requires o.wrote <= o.m.Keys && p.Keys == m.Keys + o.wrote
    requires forall k :: k in o.wrote ==> o.m[k] == p[k] && 0 <= p[k].tokens && p[k].last <= now
    requires forall k :: k in m && k !in o.wrote ==> p[k] == m[k]
    ensures Shadows(l, Stamped(l, store, o, clock), p, off, now)
  {
    hide LimitOf, Ttl;
  }

  lemma RealStepShadows(l: Limits, store: Store, m: Buckets, off: int, from: int, q: Request, clock: int)
    requires Shadows(l, store, m, off, from) && from <= q.now && off <= clock - 1000 * q.now <= off + JITTER
    requires InRange(l, m)
    ensures RealStep(l, store, q, clock).answer == Step(l, m, q).answer
    ensures RealStep(l, store, q, clock).charged == Step(l, m, q).charged
    ensures Shadows(l, RealStep(l, store, q, clock).store, Step(l, m, q).m, off, q.now)
  {
    var live := Live(store, clock);
    LiveIsSame(l, store, m, off, from, q.now, clock, GLOBAL);
    LiveIsSame(l, store, m, off, from, q.now, clock, PlayerKey(q.player));
    SameReads(l, live, m, q);
    WrittenByNow(l, m, q, from);
    hide Step, Live, LimitOf, PlayerKey, Ttl, SameAt, InRange, Stamped;
    StampShadows(l, store, Step(l, live, q), m, Step(l, m, q).m, off, from, q.now, clock);
  }

  lemma {:induction false} RealRunShadows(l: Limits, store: Store, m: Buckets, ts: seq<Timed>, off: int, from: int)
    requires Shadows(l, store, m, off, from) && InRange(l, m) && Agree(ts, off, from)
    ensures RealAnswers(l, store, ts) == Answers(l, m, Requests(ts))
    ensures RealGlobalSpent(l, store, ts) == GlobalSpent(l, m, Requests(ts))
    decreases |ts|
  {
    hide Shadows, InRange, Step, RealStep;
    if ts != [] {
      var q, o := ts[0].q, RealStep(l, store, ts[0].q, ts[0].clock);
      RealStepShadows(l, store, m, off, from, q, ts[0].clock);
      StepInRange(l, m, q);
      RealRunShadows(l, o.store, Step(l, m, q).m, ts[1..], off, q.now);
      assert Requests(ts)[0] == q && Requests(ts)[1..] == Requests(ts[1..]);
    }
  }

  function LastNow(ts: seq<Timed>, from: int): int
  {
    if ts == [] then from else ts[|ts| - 1].q.now
  }

  /** Every store reached by requests under clocks in step holds, dead slots included,
      the buckets that never expire, with deadlines that leave time to fill up. */
  lemma {:induction false} StoresShadow(l: Limits, store: Store, m: Buckets, ts: seq<Timed>, off: int, from: int)
    requires Shadows(l, store, m, off, from) && InRange(l, m) && Agree(ts, off, from)
    ensures Shadows(l, RealFinal(l, store, ts), Final(l, m, Requests(ts)), off, LastNow(ts, from))
    ensures InRange(l, Final(l, m, Requests(ts)))
    decreases |ts|
  {
    hide Shadows, InRange, Step, RealStep;
    if ts != [] {
      var q, o := ts[0].q, RealStep(l, store, ts[0].q, ts[0].clock);
      RealStepShadows(l, store, m, off, from, q, ts[0].clock);
      StepInRange(l, m, q);
      AgreeTail(ts, off, from);
      StoresShadow(l, o.store, Step(l, m, q).m, ts[1..], off, q.now);
      assert Requests(ts)[0] == q && Requests(ts)[1..] == Requests(ts[1..]);
    }
  }

  /** Expiry is unobservable: however often Redis drops buckets, every answer is
      the one of buckets that are never dropped. */
  lemma ExpiryUnobservable(l: Limits, ts: seq<Timed>, off: int, from: int)
    requires Agree(ts, off, from)
    ensures RealAnswers(l, map[], ts) == Answers(l, map[], Requests(ts))
    ensures RealGlobalSpent(l, map[], ts) == GlobalSpent(l, map[], Requests(ts))
  {
    RealRunShadows(l, map[], map[], ts, off, from);
  }

  lemma {:induction false} SpentIsPaid(l: Limits, m: Buckets, qs: seq<Request>, player: string)
    ensures Spent(l, m, qs, player) == Paid(qs, Answers(l, m, qs), player)
    decreases |qs|
  {
    hide Step;
    if qs != [] {
      var o := Step(l, m, qs[0]);
      assert Answers(l, m, qs)[1..] == Answers(l, o.m, qs[1..]);
      SpentIsPaid(l, o.m, qs[1..], player);
    }
  }

  /** The admission bound of a limiter whose buckets do expire. */
  lemma RealAdmissionBound(l: Limits, ts: seq<Timed>, off: int, lo: int, hi: int, player: string)
    requires Agree(ts, off, lo) && lo <= hi && Within(Requests(ts), lo, hi)
    ensures Paid(Requests(ts), RealAnswers(l, map[], ts), player) <= l.player.cap + l.player.rate * (hi - lo)
    ensures RealGlobalSpent(l, map[], ts) <= l.global.cap + l.global.rate * (hi - lo)
  {
    ExpiryUnobservable(l, ts, off, lo);
    SpentIsPaid(l, map[], Requests(ts), player);
    AdmissionBound(l, map[], Requests(ts), lo, hi, player);
  }

  lemma {:induction false} RequestsWithout(ts: seq<Timed>, drop: seq<bool>)
    requires |ts| == |drop|
    ensures Requests(Without(ts, drop)) == Without(Requests(ts), drop)
    decreases |ts|
  {
    if ts != [] {
      RequestsWithout(ts[1..], drop[1..]);
      var rest := Without(ts[1..], drop[1..]);
      assert Requests(ts)[1..] == Requests(ts[1..]);
      assert Requests([ts[0]] + rest) == [ts[0].q] + Requests(rest);
    }
  }

  lemma AgreeTail(ts: seq<Timed>, off: int, from: int)
    requires Agree(ts, off, from) && ts != []
    ensures from <= ts[0].q.now && off <= ts[0].clock - 1000 * ts[0].q.now <= off + JITTER
    ensures Agree(ts[1..], off, ts[0].q.now)
  {
  }

  lemma AgreeCons(t: Timed, ts: seq<Timed>, off: int, from: int)
    requires from <= t.q.now && off <= t.clock - 1000 * t.q.now <= off + JITTER && Agree(ts, off, t.q.now)
    ensures Agree([t] + ts, off, from)
  {
  }

  lemma AgreeSooner(ts: seq<Timed>, off: int, from: int, sooner: int)
    requires Agree(ts, off, from) && sooner <= from
    ensures Agree(ts, off, sooner)
  {
  }

  /** Leaving requests out keeps the clocks in step. */
  lemma {:induction false} WithoutAgrees(ts: seq<Timed>, drop: seq<bool>, off: int, from: int)
    requires |ts| == |drop| && Agree(ts, off, from)
    ensures Agree(Without(ts, drop), off, from)
    decreases |ts|
  {
    if ts != [] {
      AgreeTail(ts, off, from);
      WithoutAgrees(ts[1..], drop[1..], off, ts[0].q.now);
      var rest := Without(ts[1..], drop[1..]);
      if drop[0] {
        AgreeSooner(rest, off, ts[0].q.now, from);
        assert Without(ts, drop) == rest;
      } else {
        AgreeCons(ts[0], rest, off, from);
      }
    }
    hide Agree;
  }

  lemma AgreeIsMonotone(ts: seq<Timed>, off: int, from: int)
    requires Agree(ts, off, from)
    ensures Monotone(Requests(ts), from)
  {
  }

  /** Refused requests are unobservable on a limiter whose buckets do expire, too. */
  lemma RealRefusalsUnobservable(l: Limits, ts: seq<Timed>, drop: seq<bool>, off: int, from: int)
    requires |ts| == |drop| && Agree(ts, off, from) && OnlyRefused(l, map[], Requests(ts), drop)
    ensures RealAnswers(l, map[], Without(ts, drop)) == Without(RealAnswers(l, map[], ts), drop)
  {
    ExpiryUnobservable(l, ts, off, from);
    WithoutAgrees(ts, drop, off, from);
    ExpiryUnobservable(l, Without(ts, drop), off, from);
    RequestsWithout(ts, drop);
    AgreeIsMonotone(ts, off, from);
    RefusalsUnobservable(l, map[], Requests(ts), drop, from);
  }

  // ----- The limits the server runs with -----

  /** Mutations of one player in one second go through until the poorer bucket is empty. */
  lemma {:induction false} AnswersInOneSecond(l: Limits, m: Buckets, qs: seq<Request>, player: string, now: int, i: nat)
    requires InRange(l, m) && i < |qs| && forall k :: 0 <= k < |qs| ==> qs[k] == Mutate(player, now)
    ensures Answers(l, m, qs)[i] == if i < Min(GlobalAt(l, m, now), PlayerAt(l, m, player, now)) then 1 else 0
    decreases |qs|
  {
    var o := Step(l, m, qs[0]);
    MutateTakesOne(l, m, player, now);
    StepInRange(l, m, qs[0]);
    assert Answers(l, m, qs)[0] == o.answer;
    hide Step, Refilled, InRange;
    if i > 0 {
      AnswersInOneSecond(l, o.m, qs[1..], player, now, i - 1);
      assert Answers(l, m, qs)[i] == Answers(l, o.m, qs[1..])[i - 1];
    }
  }

  /** From an empty Redis, the first fifty mutations of one player in one second go
      through, and no more. */
  lemma {:induction false} FiftyPerPlayer(ts: seq<Timed>, player: string, now: int, off: int, i: nat)
    requires Agree(ts, off, now) && i < |ts| && forall k :: 0 <= k < |ts| ==> ts[k].q == Mutate(player, now)
    ensures RealAnswers(LIMITS, map[], ts)[i] == if i < 50 then 1 else 0
  {
    ExpiryUnobservable(LIMITS, ts, off, now);
    AnswersInOneSecond(LIMITS, map[], Requests(ts), player, now, i);
    assert GlobalAt(LIMITS, map[], now) == 10000 && PlayerAt(LIMITS, map[], player, now) == 50;
  }

  lemma {:induction false} AnswersToNewcomers(l: Limits, m: Buckets, qs: seq<Request>, now: int, i: nat)
    requires InRange(l, m) && l.player.cap > 0 && i < |qs|
    requires forall k :: 0 <= k < |qs| ==> qs[k].Mutate? && qs[k].now == now && PlayerKey(qs[k].player) !in m
    requires forall j, k :: 0 <= j < k < |qs| ==> qs[j].player != qs[k].player
    ensures Answers(l, m, qs)[i] == if i < GlobalAt(l, m, now) then 1 else 0
    decreases |qs|
  {
    var q, o := qs[0], Step(l, m, qs[0]);
    MutateTakesOne(l, m, q.player, now);
    StepInRange(l, m, q);
    NewcomersStayNew(l, m, qs);
    assert Answers(l, m, qs)[0] == o.answer;
    assert PlayerAt(l, m, q.player, now) == l.player.cap;
    hide Step, Refilled, InRange, PlayerKey;
    if i > 0 {
      AnswersToNewcomers(l, o.m, qs[1..], now, i - 1);
      assert Answers(l, m, qs)[i] == Answers(l, o.m, qs[1..])[i - 1];
    }
  }

  lemma NewcomersStayNew(l: Limits, m: Buckets, qs: seq<Request>)
    requires |qs| > 0 && forall k :: 0 <= k < |qs| ==> PlayerKey(qs[k].player) !in m
    requires forall j, k :: 0 <= j < k < |qs| ==> qs[j].player != qs[k].player
    ensures forall k :: 0 < k < |qs| ==> PlayerKey(qs[k].player) !in Step(l, m, qs[0]).m
  {
    hide PlayerKey, Refilled;
    forall k | 0 < k < |qs|
      ensures PlayerKey(qs[k].player) !in Step(l, m, qs[0]).m
    {
      KeysApart(qs[k].player, qs[0].player);
    }
  }

  /** From an empty Redis, the first ten thousand mutations of different players in one
      second go through, and no more. */
  lemma {:induction false} TenThousandOverall(ts: seq<Timed>, now: int, off: int, i: nat)
    requires Agree(ts, off, now) && i < |ts| && forall k :: 0 <= k < |ts| ==> ts[k].q.Mutate? && ts[k].q.now == now
    requires forall j, k :: 0 <= j < k < |ts| ==> ts[j].q.player != ts[k].q.player
    ensures RealAnswers(LIMITS, map[], ts)[i] == if i < 10000 then 1 else 0
  {
    ExpiryUnobservable(LIMITS, ts, off, now);
    AnswersToNewcomers(LIMITS, map[], Requests(ts), now, i);
    assert GlobalAt(LIMITS, map[], now) == 10000;
  }

  /** An emptied bucket fills by five tokens a second up to 50, the global one by two
      thousand up to 10000; Redis keeps them for eleven seconds and for six. */
  lemma RatesInNumbers(now: int, seconds: nat)
    ensures Refilled(LIMITS.player, Present(Bucket(0, now)), now + seconds).tokens == Min(50, 5 * seconds)
    ensures Refilled(LIMITS.global, Present(Bucket(0, now)), now + seconds).tokens == Min(10000, 2000 * seconds)
    ensures Ttl(LIMITS.player) == 11 && Ttl(LIMITS.global) == 6
  {
  }
}
