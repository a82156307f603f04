/**
  The limiter's two scripts, command by command, on a Redis whose keys expire.
  `clock` is Redis's own time in milliseconds, `now` the seconds a request carries.
 */
module RateLimiter {
  import opened RateLimit

  lemma WriteElsewhere(store: Store, key: string, s: Slot, other: string, clock: int)
    requires key != other
    ensures Get(Live(store[key := s], clock), other) == Get(Live(store, clock), other)
  {
  }

  /** A drain that gets past the global bucket writes both. */
  lemma DrainWritesBoth(l: Limits, store: Store, player: string, now: int, clock: int, n: nat)
    requires Refilled(l.global, Get(Live(store, clock), GLOBAL), now).tokens >= 1
    ensures var key, r := PlayerKey(player), RealStep(l, store, Drain(player, now, n), clock);
      var g := Refilled(l.global, Get(Live(store, clock), GLOBAL), now);
      var p := Refilled(l.player, Get(Live(store, clock), key), now);
      && r.answer == Min(n, p.tokens)
      && r.store == store[GLOBAL := Slot(g.(tokens := g.tokens - 1), At(clock + 1000 * Ttl(l.global)))]
                         [key := Slot(p.(tokens := p.tokens - r.answer), At(clock + 1000 * Ttl(l.player)))]
  {
    KeysApart(player, player);
    hide Refilled, Ttl, PlayerKey, Live;
  }

  /** A mutation that gets past the global bucket writes it, and the player's too if
      admitted. */
  lemma MutateWrites(l: Limits, store: Store, player: string, now: int, clock: int)
    requires Refilled(l.global, Get(Live(store, clock), GLOBAL), now).tokens >= 1
    ensures var key, r := PlayerKey(player), RealStep(l, store, Mutate(player, now), clock);
      var g := Refilled(l.global, Get(Live(store, clock), GLOBAL), now);
      var p := Refilled(l.player, Get(Live(store, clock), key), now);
      var kept := store[GLOBAL := Slot(g.(tokens := g.tokens - r.answer), At(clock + 1000 * Ttl(l.global)))];
      && r.answer == (if p.tokens >= 1 then 1 else 0)
      && r.store == if p.tokens < 1 then kept
                    else kept[key := Slot(p.(tokens := p.tokens - 1), At(clock + 1000 * Ttl(l.player)))]
  {
    KeysApart(player, player);
    hide Refilled, Ttl, PlayerKey, Live;
  }

  function DeadlineOf(store: Store, key: string, clock: int): Deadline
  {
    if key in store && Alive(store[key], clock) then store[key].deadline else Never
  }

  class Limiter {
    var keys: Store

    constructor ()
      ensures keys == map[]
    {
      keys := map[];
    }

    // ----- Commands -----

    method HmGet(key: string, clock: int) returns (b: Found)
      ensures b == Get(Live(keys, clock), key)
    {
      b := if key in keys && Alive(keys[key], clock) then Present(keys[key].bucket) else Absent;
    }

    /** Writing a key keeps the deadline it has, if it is there. */
    method HmSet(key: string, b: Bucket, clock: int)
      modifies this
      ensures keys == old(keys)[key := Slot(b, DeadlineOf(old(keys), key, clock))]
    {
      var deadline := DeadlineOf(keys, key, clock);
      keys := keys[key := Slot(b, deadline)];
    }

    method Expire(key: string, seconds: nat, clock: int)
      requires key in keys && Alive(keys[key], clock)
      modifies this
      ensures keys == old(keys)[key := old(keys)[key].(deadline := At(clock + 1000 * seconds))]
    {
      keys := keys[key := keys[key].(deadline := At(clock + 1000 * seconds))];
    }

    method HIncrBy(key: string, delta: int, clock: int)
      requires key in keys && Alive(keys[key], clock)
      modifies this
      ensures var s := old(keys)[key];
        keys == old(keys)[key := s.(bucket := s.bucket.(tokens := s.bucket.tokens + delta))]
    {
      var s := keys[key];
      keys := keys[key := s.(bucket := s.bucket.(tokens := s.bucket.tokens + delta))];
    }

    // ----- Scripts -----

    method Refill(key: string, l: Limit, now: int, clock: int) returns (tokens: int, last: int)
      ensures Bucket(tokens, last) == Refilled(l, Get(Live(keys, clock), key), now)
    {
      var b := HmGet(key, clock);
      match b
      case Absent =>
        tokens, last := l.cap, now;
      case Present(k) =>
        tokens, last := k.tokens, k.last;
        var elapsed := Max(0, now - last);
        var added := elapsed * l.rate;
        tokens := Min(l.cap, tokens + added);
        if added > 0 {
          last := now;
        }
    }

    /** HMSET and EXPIRE, as the scripts pair them. */
    method Write(key: string, b: Bucket, l: Limit, clock: int)
      modifies this
      ensures keys == old(keys)[key := Slot(b, At(clock + 1000 * Ttl(l)))]
    {
      hide Ttl;
      HmSet(key, b, clock);
      Expire(key, Ttl(l), clock);
    }

    /** Takes one token if there is one; writes nothing otherwise. */
    method CheckAndDecrement(key: string, l: Limit, now: int, clock: int) returns (ok: bool)
      modifies this
      ensures var b := Refilled(l, Get(Live(old(keys), clock), key), now);
        && ok == (b.tokens >= 1)
        && keys == if !ok then old(keys)
                   else old(keys)[key := Slot(b.(tokens := b.tokens - 1), At(clock + 1000 * Ttl(l)))]
    {
      var tokens, last := Refill(key, l, now, clock);
      if tokens >= 1 {
        Write(key, Bucket(tokens - 1, last), l, clock);
        return true;
      }
      return false;
    }

    method TokenBucketScript(l: Limits, player: string, now: int, clock: int) returns (allowed: bool)
      modifies this
      ensures var r := RealStep(l, old(keys), Mutate(player, now), clock); keys == r.store && allowed == (r.answer == 1)
    {
      KeysApart(player, player);
      hide Refilled, Ttl, PlayerKey, Live;
      var key := PlayerKey(player);
      var g := CheckAndDecrement(GLOBAL, l.global, now, clock);
      if !g {
        return false;
      }
      WriteElsewhere(old(keys), GLOBAL, keys[GLOBAL], key, clock);
      hide RealStep;
      MutateWrites(l, old(keys), player, now, clock);
      var p := CheckAndDecrement(key, l.player, now, clock);
      if !p {
        HIncrBy(GLOBAL, 1, clock);
        return false;
      }
      return true;
    }

    method DrainNScript(l: Limits, player: string, now: int, clock: int, n: nat) returns (consumed: int)
      modifies this
      ensures var r := RealStep(l, old(keys), Drain(player, now, n), clock); keys == r.store && consumed == r.answer
    {
      KeysApart(player, player);
      hide Refilled, Ttl, PlayerKey, Live;
      var key := PlayerKey(player);
      var gTokens, gLast := Refill(GLOBAL, l.global, now, clock);
      if gTokens < 1 {
        return 0;
      }
      hide RealStep;
      DrainWritesBoth(l, keys, player, now, clock, n);
      Write(GLOBAL, Bucket(gTokens - 1, gLast), l.global, clock);
      WriteElsewhere(old(keys), GLOBAL, keys[GLOBAL], key, clock);
      var pTokens, pLast := Refill(key, l.player, now, clock);
      consumed := Min(n, pTokens);
      Write(key, Bucket(pTokens - consumed, pLast), l.player, clock);
    }

    // ----- Calls -----

    method AllowMutation(player: string, now: int, clock: int) returns (allowed: bool)
      modifies this
      ensures var r := RealStep(LIMITS, old(keys), Mutate(player, now), clock);
        keys == r.store && allowed == (r.answer == 1)
    {
      allowed := TokenBucketScript(LIMITS, player, now, clock);
    }

    method DrainN(player: string, now: int, clock: int, n: nat) returns (consumed: int)
      modifies this
      ensures var r := RealStep(LIMITS, old(keys), Drain(player, now, n), clock);
        keys == r.store && consumed == r.answer
    {
      consumed := DrainNScript(LIMITS, player, now, clock, n);
    }
  }
}
