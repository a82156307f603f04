/**
  The two-level token bucket as values: what each script does to the two buckets,
  with and without Redis expiring them.
 */
module RateLimit {
  // ----- Buckets -----

  datatype Bucket = Bucket(tokens: int, last: int)

  datatype Found = Absent | Present(bucket: Bucket)

  type Buckets = map<string, Bucket>

  type Rate = r: int | 0 < r witness 1

  datatype Limit = Limit(cap: nat, rate: Rate)

  datatype Limits = Limits(global: Limit, player: Limit)

  const LIMITS := Limits(Limit(10000, 2000), Limit(50, 5))

  const GLOBAL := "rate_limit:global"

  function PlayerKey(id: string): string
  {
    "rate_limit:player:" + id
  }

  /** Players never share a bucket, nor use the global one. */
  lemma KeysApart(a: string, b: string)
    ensures PlayerKey(a) != GLOBAL
    ensures PlayerKey(a) == PlayerKey(b) <==> a == b
  {
    assert PlayerKey(a)[11] == 'p' && GLOBAL[11] == 'g';
    assert PlayerKey(a)[18..] == a && PlayerKey(b)[18..] == b;
  }

  function LimitOf(l: Limits, key: string): Limit
  {
    if key == GLOBAL then l.global else l.player
  }

  function Get(m: Buckets, key: string): Found
  {
    if key in m then Present(m[key]) else Absent
  }

  function Max(a: int, b: int): int
  {
    if a < b then b else a
  }

  function Min(a: int, b: int): int
  {
    if a < b then a else b
  }

  /** The bucket a script works on: full when there is none yet. */
  function Refilled(l: Limit, b: Found, now: int): Bucket
  {
    match b
    case Absent => Bucket(l.cap, now)
    case Present(k) =>
      var added := Max(0, now - k.last) * l.rate;
      Bucket(Min(l.cap, k.tokens + added), if added > 0 then now else k.last)
  }

  // ----- Requests -----

  datatype Request =
    | Mutate(player: string, now: int)
    | Drain(player: string, now: int, n: nat)

  /** What a script leaves, its answer, whether it kept a global token, and the
      keys it wrote. */
  datatype Outcome = Outcome(m: Buckets, answer: int, charged: bool, wrote: set<string>)

  function Step(l: Limits, m: Buckets, q: Request): Outcome
  {
    var key := PlayerKey(q.player);
    var g, p := Refilled(l.global, Get(m, GLOBAL), q.now), Refilled(l.player, Get(m, key), q.now);
    if g.tokens < 1 then Outcome(m, 0, false, {})
    else if q.Mutate? && p.tokens < 1 then Outcome(m[GLOBAL := g], 0, false, {GLOBAL})
    else
      var spent := if q.Mutate? then 1 else Min(q.n, p.tokens);
      Outcome(m[GLOBAL := g.(tokens := g.tokens - 1)][key := p.(tokens := p.tokens - spent)],
              spent, true, {GLOBAL, key})
  }

  function Final(l: Limits, m: Buckets, qs: seq<Request>): Buckets
    decreases |qs|
  {
    if qs == [] then m else Final(l, Step(l, m, qs[0]).m, qs[1..])
  }

  function Answers(l: Limits, m: Buckets, qs: seq<Request>): (r: seq<int>)
    ensures |r| == |qs|
    decreases |qs|
  {
    if qs == [] then []
    else
      var o := Step(l, m, qs[0]);
      [o.answer] + Answers(l, o.m, qs[1..])
  }

  /** Tokens `player` got out of his bucket: one per admitted mutation, and what
      was drained. */
  function Spent(l: Limits, m: Buckets, qs: seq<Request>, player: string): int
    decreases |qs|
  {
    if qs == [] then 0
    else
      var o := Step(l, m, qs[0]);
      (if qs[0].player == player then o.answer else 0) + Spent(l, o.m, qs[1..], player)
  }

  /** The same sum, read off the answers. */
  function Paid(qs: seq<Request>, answers: seq<int>, player: string): int
    requires |qs| == |answers|
    decreases |qs|
  {
    if qs == [] then 0
    else (if qs[0].player == player then answers[0] else 0) + Paid(qs[1..], answers[1..], player)
  }

  /** Global tokens kept, over all players. */
  function GlobalSpent(l: Limits, m: Buckets, qs: seq<Request>): int
    decreases |qs|
  {
    if qs == [] then 0
    else
      var o := Step(l, m, qs[0]);
      (if o.charged then 1 else 0) + GlobalSpent(l, o.m, qs[1..])
  }

  /** Every bucket holds between nothing and its capacity. */
  ghost predicate InRange(l: Limits, m: Buckets)
  {
    forall k :: k in m ==> 0 <= m[k].tokens <= LimitOf(l, k).cap
  }

  lemma RefilledInRange(l: Limit, b: Found, now: int)
    requires b.Present? ==> 0 <= b.bucket.tokens <= l.cap
    ensures 0 <= Refilled(l, b, now).tokens <= l.cap
    ensures b.Present? ==> Refilled(l, b, now).last == Max(b.bucket.last, now)
  {
    if b.Present? && now > b.bucket.last {
      assert (now - b.bucket.last) * l.rate > 0;
    }
  }

  /** No script overfills a bucket or takes it below zero, and answers are what a
      counter can be charged. */
  lemma StepInRange(l: Limits, m: Buckets, q: Request)
    requires InRange(l, m)
    ensures InRange(l, Step(l, m, q).m)
    ensures 0 <= Step(l, m, q).answer <= (if q.Mutate? then 1 else q.n)
    ensures forall k :: k in m && k in Step(l, m, q).m ==> m[k].last <= Step(l, m, q).m[k].last
  {
    KeysApart(q.player, q.player);
    RefilledInRange(l.global, Get(m, GLOBAL), q.now);
    RefilledInRange(l.player, Get(m, PlayerKey(q.player)), q.now);
    hide Refilled;
  }

  /** How far charging got. */
  datatype Charged = Charged(m: Buckets, ok: bool, taken: nat)

  /** One admitted mutation per clock reading, up to the first refusal. */
  function Charge(l: Limits, m: Buckets, player: string, nows: seq<int>): Charged
    decreases |nows|
  {
    if nows == [] then Charged(m, true, 0)
    else
      var o := Step(l, m, Mutate(player, nows[0]));
      if o.answer != 1 then Charged(o.m, false, 0)
      else
        var c := Charge(l, o.m, player, nows[1..]);
        c.(taken := c.taken + 1)
  }

  // ----- Redis -----

  /** When Redis drops a key, on its own clock in milliseconds. */
  datatype Deadline = Never | At(ms: int)

  datatype Slot = Slot(bucket: Bucket, deadline: Deadline)

  type Store = map<string, Slot>

  predicate Alive(s: Slot, clock: int)
  {
    s.deadline.Never? || clock <= s.deadline.ms
  }

  /** What a script can read. */
  function Live(store: Store, clock: int): Buckets
  {
    map k | k in store && Alive(store[k], clock) :: store[k].bucket
  }

  /** Seconds a written bucket lives: the time to fill up, and one. */
  function Ttl(l: Limit): nat
  {
    (l.cap + l.rate - 1) / l.rate + 1
  }

  function Stamped(l: Limits, store: Store, o: Outcome, clock: int): Store
    requires o.wrote <= o.m.Keys
  {
    store + map k | k in o.wrote :: Slot(o.m[k], At(clock + 1000 * Ttl(LimitOf(l, k))))
  }

  datatype Result = Result(store: Store, answer: int, charged: bool)

  /** The same script on a store whose keys expire. */
  function RealStep(l: Limits, store: Store, q: Request, clock: int): Result
  {
    var o := Step(l, Live(store, clock), q);
    Result(Stamped(l, store, o, clock), o.answer, o.charged)
  }

  datatype Timed = Timed(q: Request, clock: int)

  function RealAnswers(l: Limits, store: Store, ts: seq<Timed>): (r: seq<int>)
    ensures |r| == |ts|
    decreases |ts|
  {
    if ts == [] then []
    else
      var o := RealStep(l, store, ts[0].q, ts[0].clock);
      [o.answer] + RealAnswers(l, o.store, ts[1..])
  }

  function RealFinal(l: Limits, store: Store, ts: seq<Timed>): Store
    decreases |ts|
  {
    if ts == [] then store else RealFinal(l, RealStep(l, store, ts[0].q, ts[0].clock).store, ts[1..])
  }

  /** Global tokens kept over a run with expiry. */
  function RealGlobalSpent(l: Limits, store: Store, ts: seq<Timed>): int
    decreases |ts|
  {
    if ts == [] then 0
    else
      var o := RealStep(l, store, ts[0].q, ts[0].clock);
      (if o.charged then 1 else 0) + RealGlobalSpent(l, o.store, ts[1..])
  }

  function Requests(ts: seq<Timed>): (qs: seq<Request>)
    ensures |qs| == |ts| && forall i :: 0 <= i < |ts| ==> qs[i] == ts[i].q
  {
    seq(|ts|, i requires 0 <= i < |ts| => ts[i].q)
  }
}
