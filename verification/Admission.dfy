/**
  When the router admits a placement: exact conditions on the two buckets, where the
  source's comments promise more.
 */
module Admission {
  import opened Life
  import opened Placement
  import opened RateLimit
  import opened RateLimitProofs
  import opened Router

  /** Tokens `player` and the server have at an instant, refill included. */
  function PlayerTokens(store: Store, player: string, t: Instant): int
  {
    Refilled(LIMITS.player, Get(Live(store, t.clock), PlayerKey(player)), t.now).tokens
  }

  function GlobalTokens(store: Store, t: Instant): int
  {
    Refilled(LIMITS.global, Get(Live(store, t.clock), GLOBAL), t.now).tokens
  }

  /** A script leaves the buckets it does not write. */
  lemma StepFrame(l: Limits, m: Buckets, q: Request)
    ensures var o := Step(l, m, q);
      && o.wrote <= o.m.Keys && o.m.Keys == m.Keys + o.wrote
      && forall k :: k in m && k !in o.wrote ==> o.m[k] == m[k]
  {
    KeysApart(q.player, q.player);
    hide Refilled, PlayerKey;
  }

  lemma LiveStamped(l: Limits, store: Store, o: Outcome, clock: int)
    requires o.wrote <= o.m.Keys && o.m.Keys == Live(store, clock).Keys + o.wrote
    requires forall k :: k in Live(store, clock) && k !in o.wrote ==> o.m[k] == Live(store, clock)[k]
    ensures Live(Stamped(l, store, o, clock), clock) == o.m
  {
    hide Ttl, LimitOf;
  }

  /** What a script wrote is there for the next one in the same instant. */
  lemma LiveAfterStep(l: Limits, store: Store, q: Request, clock: int)
    ensures Live(RealStep(l, store, q, clock).store, clock) == Step(l, Live(store, clock), q).m
  {
    StepFrame(l, Live(store, clock), q);
    hide Step, Live, Stamped;
    LiveStamped(l, store, Step(l, Live(store, clock), q), clock);
  }

  /** In one instant, checking cell by cell is charging the live buckets. */
  lemma {:induction false} CheckManyCharges(store: Store, player: string, time: nat -> Instant, t: Instant,
                                            i: nat, n: nat)
    requires i <= n && !t.down && forall k: nat :: time(k) == t
    ensures var c := CheckMany(store, player, time, i, n);
      var d := Charge(LIMITS, Live(store, t.clock), player, seq(n - i, _ => t.now));
      && (c.verdict.Allowed? <==> d.ok) && (c.verdict.Limited? <==> !d.ok) && Live(c.store, t.clock) == d.m
    decreases n - i
  {
    hide Step, RealStep, Live;
    if i < n {
      var nows := seq(n - i, _ => t.now);
      assert nows[1..] == seq(n - (i + 1), _ => t.now);
      LiveAfterStep(LIMITS, store, Mutate(player, t.now), t.clock);
      var r := RealStep(LIMITS, store, Mutate(player, t.now), t.clock);
      SameAnswer(LIMITS, store, Mutate(player, t.now), t.clock);
      CheckManyCharges(r.store, player, time, t, i + 1, n);
    }
  }

  lemma SameAnswer(l: Limits, store: Store, q: Request, clock: int)
    ensures RealStep(l, store, q, clock).answer == Step(l, Live(store, clock), q).answer
  {
    hide Step, Live;
  }

  /** A shape of n cells charged in one instant goes through exactly when both buckets
      hold n tokens. Refused, it has still cost all that the poorer bucket
      held: charging is not all-or-nothing. */
  lemma ShapeAdmittedIff(store: Store, player: string, time: nat -> Instant, t: Instant, n: nat)
    requires InRange(LIMITS, Live(store, t.clock)) && !t.down && forall k: nat :: time(k) == t
    ensures var c, g, p := CheckMany(store, player, time, 0, n), GlobalTokens(store, t), PlayerTokens(store, player, t);
      && (c.verdict.Allowed? <==> Min(g, p) >= n)
      && PlayerTokens(c.store, player, t) == p - Min(n, Min(g, p))
      && GlobalTokens(c.store, t) == g - Min(n, Min(g, p))
  {
    CheckManyCharges(store, player, time, t, 0, n);
    ChargeExact(LIMITS, Live(store, t.clock), player, seq(n, _ => t.now), t.now);
    hide Charge, CheckMany, Live, Refilled, PlayerKey;
  }

  // ----- Checks made at different times -----

  /** The limiter is up, and the clocks behave as Agree has it. */
  ghost predicate Steady(time: nat -> Instant, n: nat, off: int)
  {
    && (forall k: nat :: k < n ==> InStep(time(k), off))
    && (forall j: nat, k: nat :: j <= k < n ==> time(j).now <= time(k).now)
  }

  predicate InStep(t: Instant, off: int)
  {
    !t.down && off <= t.clock - 1000 * t.now <= off + JITTER
  }

  function Seconds(time: nat -> Instant, i: nat, n: nat): seq<int>
    requires i <= n
    decreases n - i
  {
    if i == n then [] else [time(i).now] + Seconds(time, i + 1, n)
  }

  lemma SecondsFirst(time: nat -> Instant, i: nat, n: nat)
    requires i < n
    ensures Seconds(time, i, n) == [time(i).now] + Seconds(time, i + 1, n)
  {
  }

  lemma {:induction false} SecondsAt(time: nat -> Instant, i: nat, n: nat)
    requires i <= n
    ensures var r := Seconds(time, i, n); |r| == n - i && forall k: nat :: k < |r| ==> r[k] == time(i + k).now
    decreases n - i
  {
    if i < n {
      SecondsAt(time, i + 1, n);
    }
  }

  /** Checking cell by cell as time goes by is charging buckets that never expire. */
  lemma {:induction false} CheckManyShadows(store: Store, m: Buckets, player: string, time: nat -> Instant,
                                            i: nat, n: nat, off: int, from: int)
    requires i <= n && Steady(time, n, off) && (i < n ==> from <= time(i).now)
    requires Shadows(LIMITS, store, m, off, from) && InRange(LIMITS, m)
    ensures CheckMany(store, player, time, i, n).verdict.Allowed?
      <==> Charge(LIMITS, m, player, Seconds(time, i, n)).ok
    decreases n - i
  {
    hide *;
    if i == n {
      NothingToCheck(store, m, player, time, n);
    } else {
      var t, rest := time(i), Seconds(time, i + 1, n);
      var q := Mutate(player, t.now);
      SteadyAt(time, n, off, i);
      SecondsFirst(time, i, n);
      RealStepShadows(LIMITS, store, m, off, from, q, t.clock);
      StepInRange(LIMITS, m, q);
      CheckManyFirst(store, player, time, i, n);
      ChargeFirst(LIMITS, m, player, t.now, rest);
      var o := RealStep(LIMITS, store, q, t.clock);
      if o.answer == 1 {
        CheckManyShadows(o.store, Step(LIMITS, m, q).m, player, time, i + 1, n, off, t.now);
      }
    }
  }

  lemma NothingToCheck(store: Store, m: Buckets, player: string, time: nat -> Instant, n: nat)
    ensures CheckMany(store, player, time, n, n).verdict.Allowed? && Charge(LIMITS, m, player, Seconds(time, n, n)).ok
  {
  }

  lemma SteadyAt(time: nat -> Instant, n: nat, off: int, i: nat)
    requires Steady(time, n, off) && i < n
    ensures !time(i).down && off <= time(i).clock - 1000 * time(i).now <= off + JITTER
    ensures i + 1 < n ==> time(i).now <= time(i + 1).now
  {
  }

  lemma CheckManyFirst(store: Store, player: string, time: nat -> Instant, i: nat, n: nat)
    requires i < n && !time(i).down
    ensures var o := RealStep(LIMITS, store, Mutate(player, time(i).now), time(i).clock);
      var c := CheckMany(store, player, time, i, n);
      if o.answer == 1 then c == CheckMany(o.store, player, time, i + 1, n) else !c.verdict.Allowed?
  {
    hide RealStep;
  }

  lemma ChargeFirst(l: Limits, m: Buckets, player: string, now: int, rest: seq<int>)
    ensures var o := Step(l, m, Mutate(player, now));
      Charge(l, m, player, [now] + rest).ok <==> o.answer == 1 && Charge(l, o.m, player, rest).ok
  {
    hide Step;
    assert ([now] + rest)[1..] == rest;
  }

  /** A shape of n cells whose checks are spread over time, as the router's are: it
      goes through if both buckets hold n tokens at the first check, and only if they
      hold n less what comes in until the last. */
  lemma ShapeAdmittedOverTime(store: Store, m: Buckets, player: string, time: nat -> Instant, n: nat, off: int,
                              from: int)
    requires n > 0 && Steady(time, n, off) && from <= time(0).now
    requires Shadows(LIMITS, store, m, off, from) && InRange(LIMITS, m)
    ensures var admitted := CheckMany(store, player, time, 0, n).verdict.Allowed?;
      var g, p := GlobalTokens(store, time(0)), PlayerTokens(store, player, time(0));
      var seconds := time(n - 1).now - time(0).now;
      && (Min(g, p) >= n ==> admitted)
      && (admitted ==> n <= g + LIMITS.global.rate * seconds && n <= p + LIMITS.player.rate * seconds)
  {
    var t, nows := time(0), Seconds(time, 0, n);
    hide *;
    SteadyAt(time, n, off, 0);
    SecondsAt(time, 0, n);
    SecondsRise(time, n, off);
    CheckManyShadows(store, m, player, time, 0, n, off, from);
    TokensShadow(store, m, player, t, off, from);
    ChargeOverTime(LIMITS, m, player, nows);
    assert nows[0] == t.now && nows[n - 1] == time(n - 1).now;
  }

  lemma SecondsRise(time: nat -> Instant, n: nat, off: int)
    requires Steady(time, n, off)
    ensures NonDecreasing(Seconds(time, 0, n))
  {
    SecondsAt(time, 0, n);
    hide Seconds;
  }

  lemma TokensShadow(store: Store, m: Buckets, player: string, t: Instant, off: int, from: int)
    requires Shadows(LIMITS, store, m, off, from) && from <= t.now && off <= t.clock - 1000 * t.now <= off + JITTER
    ensures GlobalTokens(store, t) == GlobalAt(LIMITS, m, t.now)
    ensures PlayerTokens(store, player, t) == PlayerAt(LIMITS, m, player, t.now)
  {
    KeysApart(player, player);
    LiveIsSame(LIMITS, store, m, off, from, t.now, t.clock, GLOBAL);
    LiveIsSame(LIMITS, store, m, off, from, t.now, t.clock, PlayerKey(player));
    hide Shadows, Live, Refilled, PlayerKey;
  }

  /** That covers every store the limiter reaches from an empty Redis. */
  lemma ShapeAdmittedAfterRun(ts: seq<Timed>, player: string, time: nat -> Instant, n: nat, off: int, from: int)
    requires Agree(ts, off, from) && n > 0 && Steady(time, n, off) && LastNow(ts, from) <= time(0).now
    ensures var store := RealFinal(LIMITS, map[], ts);
      var admitted := CheckMany(store, player, time, 0, n).verdict.Allowed?;
      var g, p := GlobalTokens(store, time(0)), PlayerTokens(store, player, time(0));
      var seconds := time(n - 1).now - time(0).now;
      && (Min(g, p) >= n ==> admitted)
      && (admitted ==> n <= g + LIMITS.global.rate * seconds && n <= p + LIMITS.player.rate * seconds)
  {
    var m := Final(LIMITS, map[], Requests(ts));
    StoresShadow(LIMITS, map[], map[], ts, off, from);
    ShapeAdmittedOverTime(RealFinal(LIMITS, map[], ts), m, player, time, n, off, LastNow(ts, from));
  }

  // ----- Custom pieces -----

  /** A custom piece is admitted exactly when neither bucket is empty, however many
      tokens it asks for. An empty player bucket refuses it too, and the global token
      is spent all the same. */
  lemma CustomAdmittedIff(store: Store, player: string, t: Instant, n: nat)
    requires InRange(LIMITS, Live(store, t.clock)) && !t.down && n > 0
    ensures var c, g, p := CheckDrain(store, player, t, n), GlobalTokens(store, t), PlayerTokens(store, player, t);
      && (c.verdict.Allowed? <==> g >= 1 && p >= 1)
      && GlobalTokens(c.store, t) == (if g >= 1 then g - 1 else g)
      && PlayerTokens(c.store, player, t) == (if g >= 1 then p - Min(n, p) else p)
  {
    var q, m := Drain(player, t.now, n), Live(store, t.clock);
    KeysApart(player, player);
    LiveAfterStep(LIMITS, store, q, t.clock);
    SameAnswer(LIMITS, store, q, t.clock);
    var p := Refilled(LIMITS.player, Get(m, PlayerKey(player)), t.now);
    RefilledInRange(LIMITS.global, Get(m, GLOBAL), t.now);
    RefilledInRange(LIMITS.player, Get(m, PlayerKey(player)), t.now);
    RefilledStays(LIMITS.global, Get(m, GLOBAL), t.now, 1);
    RefilledStays(LIMITS.player, Get(m, PlayerKey(player)), t.now, Min(n, p.tokens));
    hide Live, RealStep, Refilled, PlayerKey;
  }

  /** So the refusal does not mean that the server is busy: after one piece of fifty
      cells, placed by anyone at any time on an untouched limiter, a second one in the
      same instant is refused as "server busy" while all but one of the global tokens
      are left, and costs one of them. */
  lemma RefusedThoughServerIdle(player: string, t: Instant, first: nat, second: nat)
    requires !t.down && first >= LIMITS.player.cap && second > 0
    ensures var a := CheckDrain(map[], player, t, first);
      var b := CheckDrain(a.store, player, t, second);
      && a.verdict.Allowed? && b.verdict.Limited?
      && GlobalTokens(a.store, t) == LIMITS.global.cap - 1 && GlobalTokens(b.store, t) == LIMITS.global.cap - 2
  {
    var empty: Store := map[];
    assert Live(empty, t.clock) == map[];
    CustomAdmittedIff(empty, player, t, first);
    var a := CheckDrain(empty, player, t, first);
    DrainKeepsRange(empty, player, t, first);
    hide CheckDrain;
    CustomAdmittedIff(a.store, player, t, second);
    NotDownMeans(a.store, player, t, second);
  }

  lemma DrainKeepsRange(store: Store, player: string, t: Instant, n: nat)
    requires InRange(LIMITS, Live(store, t.clock)) && !t.down
    ensures InRange(LIMITS, Live(CheckDrain(store, player, t, n).store, t.clock))
  {
    var q := Drain(player, t.now, n);
    LiveAfterStep(LIMITS, store, q, t.clock);
    StepInRange(LIMITS, Live(store, t.clock), q);
    hide Step, Live, RealStep, InRange;
  }

  lemma NotDownMeans(store: Store, player: string, t: Instant, n: nat)
    requires !t.down && !CheckDrain(store, player, t, n).verdict.Allowed?
    ensures CheckDrain(store, player, t, n).verdict.Limited?
  {
    hide RealStep;
  }

  // ----- What each kind of placement is answered, and what it costs -----

  lemma CheckOneIff(store: Store, player: string, t: Instant)
    requires InRange(LIMITS, Live(store, t.clock)) && !t.down
    ensures var c, g, p := CheckOne(store, player, t), GlobalTokens(store, t), PlayerTokens(store, player, t);
      var cost := if g >= 1 && p >= 1 then 1 else 0;
      && (c.verdict.Allowed? <==> cost == 1) && (c.verdict.Limited? <==> cost == 0)
      && GlobalTokens(c.store, t) == g - cost && PlayerTokens(c.store, player, t) == p - cost
  {
    var q := Mutate(player, t.now);
    MutateTakesOne(LIMITS, Live(store, t.clock), player, t.now);
    LiveAfterStep(LIMITS, store, q, t.clock);
    SameAnswer(LIMITS, store, q, t.clock);
    hide Step, Live, RealStep, Refilled, PlayerKey;
  }

  /** A spawn: one token of each bucket, spent before the payload is looked at. */
  lemma SpawnDecided(store: Store, player: string, at: Parsed<Point>, t: Instant)
    requires InRange(LIMITS, Live(store, t.clock))
    ensures var d, g, p := DecideSpawn(store, player, at, t), GlobalTokens(store, t), PlayerTokens(store, player, t);
      && (t.down ==> d == Decided(store, Refuse("INTERNAL_ERROR")))
      && (!t.down && (g < 1 || p < 1) ==>
            && d.decision == Refuse("RATE_LIMITED")
            && GlobalTokens(d.store, t) == g && PlayerTokens(d.store, player, t) == p)
      && (!t.down && g >= 1 && p >= 1 ==>
            && (if at.Malformed? then d.decision == Refuse("INVALID_PAYLOAD") else d.decision.Place?)
            && GlobalTokens(d.store, t) == g - 1 && PlayerTokens(d.store, player, t) == p - 1)
  {
    if !t.down {
      CheckOneIff(store, player, t);
    }
    hide GlobalTokens, PlayerTokens, RealStep, Live;
  }

  /** A shape charged in one instant: what cannot be placed costs nothing; a shape of n
      cells is placed exactly if both buckets hold n, and takes n or all they hold. */
  lemma ShapeDecided(store: Store, catalog: map<string, seq<Point>>, player: string, cmd: Parsed<PlaceShapeCommand>,
                     time: nat -> Instant, t: Instant)
    requires InRange(LIMITS, Live(store, t.clock)) && forall k: nat :: time(k) == t
    ensures var d := DecideShape(store, catalog, player, cmd, time);
      var g, p := GlobalTokens(store, t), PlayerTokens(store, player, t);
      && (cmd.Malformed? ==> d == Decided(store, Refuse("INVALID_PAYLOAD")))
      && (cmd.Payload? && cmd.value.shape !in catalog ==> d == Decided(store, Refuse("UNKNOWN_SHAPE")))
      && (cmd.Payload? && cmd.value.shape in catalog ==>
            var n := |catalog[cmd.value.shape]|;
            && (t.down && n > 0 ==> d == Decided(store, Refuse("INTERNAL_ERROR")))
            && (!t.down ==>
                  && (if Min(g, p) >= n then d.decision.Place? else d.decision == Refuse("RATE_LIMITED"))
                  && GlobalTokens(d.store, t) == g - Min(n, Min(g, p))
                  && PlayerTokens(d.store, player, t) == p - Min(n, Min(g, p))))
  {
    if cmd.Payload? && cmd.value.shape in catalog {
      var n := |catalog[cmd.value.shape]|;
      if t.down {
        DownMeans(store, player, time, t, n);
      } else {
        ShapeAdmittedIff(store, player, time, t, n);
        CheckManyCharges(store, player, time, t, 0, n);
      }
    }
    hide GlobalTokens, PlayerTokens, CheckMany, Charge, Live;
  }

  lemma DownMeans(store: Store, player: string, time: nat -> Instant, t: Instant, n: nat)
    requires t.down && forall k: nat :: time(k) == t
    ensures CheckMany(store, player, time, 0, n) == Ruling(store, if n > 0 then Unavailable else Allowed)
  {
  }

  /** No repeats: as many entries as elements. */
  lemma {:induction false} NoRepeatsSize(s: seq<Point>)
    requires NoRepeats(s)
    ensures |set c | c in s| == |s|
  {
    if |s| > 0 {
      var n := |s| - 1;
      NoRepeatsSize(s[..n]);
      assert s == s[..n] + [s[n]];
      assert (set c | c in s) == (set c | c in s[..n]) + {s[n]};
      assert forall k :: 0 <= k < n ==> s[..n][k] == s[k] != s[n];
    }
  }

  lemma DistinctSize(s: seq<Point>)
    ensures |Distinct(s)| == |set c | c in s|
  {
    DistinctMeaning(s);
    hide Distinct;
    NoRepeatsSize(Distinct(s));
    assert (set c | c in Distinct(s)) == set c | c in s;
  }

  /** A custom piece: rejected for nothing, or refused as drained; placed, its n distinct
      cells cost the player n tokens, 25 more beyond fifty cells, or all he has, and the
      server one. */
  lemma CustomDecided(store: Store, player: string, cmd: Parsed<PlaceCustomCommand>, t: Instant)
    requires InRange(LIMITS, Live(store, t.clock))
    ensures var d := DecideCustom(store, player, cmd, t);
      var g, p := GlobalTokens(store, t), PlayerTokens(store, player, t);
      && (cmd.Malformed? ==> d == Decided(store, Refuse("INVALID_PAYLOAD")))
      && (cmd.Payload? && cmd.value.cells == [] ==> d == Decided(store, Refuse("EMPTY_PIECE")))
      && (cmd.Payload? && cmd.value.cells != [] ==>
            var cells := cmd.value.cells;
            var n := |set c | c in cells|;
            var cost := if n > 50 then n + 25 else n;
            if exists c :: c in cells && !(0 <= c.x < 100 && 0 <= c.y < 100)
            then d == Decided(store, Refuse("OUT_OF_BOUNDS"))
            else if t.down then d == Decided(store, Refuse("INTERNAL_ERROR"))
            else
              && (if g >= 1 && p >= 1 then d.decision.Place? else d.decision == Refuse("RATE_LIMITED"))
              && GlobalTokens(d.store, t) == (if g >= 1 then g - 1 else g)
              && PlayerTokens(d.store, player, t) == (if g >= 1 then Max(0, p - cost) else p))
  {
    if cmd.Payload? && cmd.value.cells != [] && !t.down {
      var n := TokensWanted(|Distinct(cmd.value.cells)|);
      CustomCost(cmd.value.cells);
      CustomAdmittedIff(store, player, t, n);
      TokensNotNegative(store, player, t);
      DrainVerdict(store, player, t, n);
    }
    hide GlobalTokens, PlayerTokens, CheckDrain, Distinct, Live, TokensWanted;
  }

  lemma CustomCost(cells: seq<Point>)
    requires cells != []
    ensures var n := |set c | c in cells|; TokensWanted(|Distinct(cells)|) == (if n > 50 then n + 25 else n) > 0
  {
    DistinctSize(cells);
    assert cells[0] in set c | c in cells;
    hide Distinct;
  }

  lemma TokensNotNegative(store: Store, player: string, t: Instant)
    requires InRange(LIMITS, Live(store, t.clock))
    ensures PlayerTokens(store, player, t) >= 0
  {
    KeysApart(player, player);
    RefilledInRange(LIMITS.player, Get(Live(store, t.clock), PlayerKey(player)), t.now);
    hide Refilled, PlayerKey, Live;
  }

  lemma DrainVerdict(store: Store, player: string, t: Instant, n: nat)
    requires !t.down
    ensures !CheckDrain(store, player, t, n).verdict.Unavailable?
  {
    hide RealStep;
  }
}
