/**
 * The token-bucket rate limiter of common/middleware/ratelimit.go.
 *
 * The two Redis keys "token_bucket:tokens" and "token_bucket:last_time" are
 * two optional integer fields owned by the bucket (None: the key is absent,
 * or reading it failed, which the source treats the same way). The clock is
 * an explicit `now` argument in Unix seconds.
 */
module RateLimit {
  import opened Wrappers

  /** The error code the handler replies with when it rate-limits. */
  const RateLimitCode: int := 110
  const RateLimitMessage: string := "rate limit exceeded"
  /** The key every TokenBucket uses. */
  const BucketKey: string := "token_bucket"

  /** The two persisted values. */
  datatype Stored = Stored(tokens: Option<int>, lastTime: Option<int>)

  /**
   * The refilled token count getTokens computes: a missing count reads as a
   * full bucket, a missing timestamp as `now` (no refill), and the result is
   * the stored count plus whole elapsed seconds times the rate, capped at
   * the capacity.
   */
  function Refill(rate: int, capacity: int, s: Stored, now: int): (r: int)
    ensures var base := s.tokens.GetOr(capacity);
      r == Min(capacity, base + (now - s.lastTime.GetOr(now)) * rate)
    ensures s.lastTime.None? ==> r == Min(capacity, s.tokens.GetOr(capacity))
    ensures s.tokens.None? && s.lastTime.None? ==> r == capacity
    ensures r <= capacity
  {
    var tokens := if s.tokens.Some? then s.tokens.value else capacity;
    var lastTimeUnix := if s.lastTime.Some? then s.lastTime.value else now;
    var elapsed := now - lastTimeUnix;
    var refilled := tokens + elapsed * rate;
    if refilled > capacity then capacity else refilled
  }

  /** The outcome of Allow: the verdict and the persisted values afterwards. */
  datatype Decision = Decision(allowed: bool, after: Stored)

  /**
   * Allow on the persisted values. `decrFails` is whether Redis rejects the
   * decrement; a rejected decrement denies and leaves the count untouched.
   */
  function AllowStep(rate: int, capacity: int, s: Stored, now: int, decrFails: bool): (d: Decision)
    ensures var t := Refill(rate, capacity, s, now);
      (d.allowed <==> t >= 1 && !decrFails)
      && d.after.lastTime == Some(now)
      && d.after.tokens == Some(if d.allowed then t - 1 else t)
  {
    var t := Refill(rate, capacity, s, now);
    var refreshed := Stored(Some(t), Some(now));
    if t >= 1 && !decrFails then Decision(true, refreshed.(tokens := Some(t - 1)))
    else Decision(false, refreshed)
  }

  /** The handler's answer: forward to the next handler, or reply with code 110. */
  datatype Reply = Forwarded | Limited(code: int, message: string)

  class TokenBucket {
    const rate: int
    const capacity: int
    const key: string
    /** The value under key + ":tokens". */
    var tokens: Option<int>
    /** The value under key + ":last_time". */
    var lastTime: Option<int>

    function Persisted(): Stored
      reads this
    {
      Stored(tokens, lastTime)
    }

    /** NewTokenBucket; the persisted keys start absent. */
    constructor (rate: int, capacity: int)
      ensures this.rate == rate && this.capacity == capacity && key == BucketKey
      ensures Persisted() == Stored(None, None)
    {
      this.rate := rate;
      this.capacity := capacity;
      key := BucketKey;
      tokens := None;
      lastTime := None;
    }

    /** getTokens: refill lazily, clamp, and persist the count and the time. */
    method GetTokens(now: int) returns (t: int)
      modifies this
      ensures t == Refill(rate, capacity, old(Persisted()), now)
      ensures Persisted() == Stored(Some(t), Some(now))
    {
      var current := if tokens.Some? then tokens.value else capacity;
      var lastTimeUnix := if lastTime.Some? then lastTime.value else now;
      var elapsed := now - lastTimeUnix;
      current := current + elapsed * rate;
      if current > capacity {
        current := capacity;
      }
      tokens := Some(current);
      lastTime := Some(now);
      t := current;
    }

    /** Allow: take one token when at least one is available and the decrement succeeds. */
    method Allow(now: int, decrFails: bool) returns (allowed: bool)
      modifies this
      ensures Decision(allowed, Persisted()) == AllowStep(rate, capacity, old(Persisted()), now, decrFails)
    {
      var t := GetTokens(now);
      if t >= 1 {
        if decrFails {
          return false;
        }
        tokens := Some(tokens.value - 1);
        return true;
      }
      return false;
    }

    /** The admission branch of Handler. */
    method Handler(now: int, decrFails: bool) returns (r: Reply)
      modifies this
      ensures var d := AllowStep(rate, capacity, old(Persisted()), now, decrFails);
        (r == Forwarded <==> d.allowed)
        && (r != Forwarded ==> r == Limited(RateLimitCode, RateLimitMessage))
        && Persisted() == d.after
    {
      var ok := Allow(now, decrFails);
      if !ok {
        return Limited(RateLimitCode, RateLimitMessage);
      }
      r := Forwarded;
    }
  }

  // ---------------------------------------------------------------------
  // Runs of calls
  // ---------------------------------------------------------------------

  /** Something that happens to a bucket: a call to Allow, or keys expiring. */
  datatype Event =
    | Call(now: int, decrFails: bool)
    | Vanish(tokensKey: bool, lastTimeKey: bool)  // the 24h TTL removed these keys

  function Step(rate: int, capacity: int, s: Stored, e: Event): Stored {
    match e
    case Call(now, decrFails) => AllowStep(rate, capacity, s, now, decrFails).after
    case Vanish(tk, lk) =>
      Stored(if tk then None else s.tokens, if lk then None else s.lastTime)
  }

  /**
   * The persisted values before the first event and after each event. It has
   * the same shape as BreakerTraces.Trace but runs this module's Step; a
   * shared version would need a higher-order step, which the lemmas here do
   * not need.
   */
  function Trace(rate: int, capacity: int, s: Stored, es: seq<Event>): (t: seq<Stored>)
    ensures |t| == |es| + 1
    ensures t[0] == s
    decreases |es|
  {
    if es == [] then [s] else [s] + Trace(rate, capacity, Step(rate, capacity, s, es[0]), es[1..])
  }

  /** Calls arrive at non-decreasing times, none earlier than `clock`. */
  predicate MonotoneFrom(clock: int, es: seq<Event>)
    decreases |es|
  {
    es == [] ||
    match es[0]
    case Call(now, _) => clock <= now && MonotoneFrom(now, es[1..])
    case Vanish(_, _) => MonotoneFrom(clock, es[1..])
  }

  /** The stored count, when present, lies in [0, capacity]. */
  predicate TokensInRange(capacity: int, s: Stored) {
    s.tokens.Some? ==> 0 <= s.tokens.value <= capacity
  }

  /** The bucket invariant: count in range and the stored time not after the clock. */
  predicate InBounds(capacity: int, s: Stored, clock: int) {
    TokensInRange(capacity, s) && (s.lastTime.Some? ==> s.lastTime.value <= clock)
  }

  /** One call at or after the clock keeps the count in [0, capacity]. */
  lemma AllowKeepsBounds(rate: int, capacity: int, s: Stored, clock: int, now: int, decrFails: bool)
    requires 0 <= rate && 0 <= capacity
    requires InBounds(capacity, s, clock) && clock <= now
    ensures InBounds(capacity, AllowStep(rate, capacity, s, now, decrFails).after, now)
  {
    var elapsed := now - s.lastTime.GetOr(now);
    assert elapsed >= 0;
    assert elapsed * rate >= 0;
  }

  /**
   * With a non-negative rate and capacity and a clock that never goes back,
   * the stored count stays in [0, capacity] through any run of calls and
   * key expiries.
   */
  lemma {:induction false} TraceStaysInRange(rate: int, capacity: int, s: Stored, clock: int, es: seq<Event>)
    requires 0 <= rate && 0 <= capacity
    requires InBounds(capacity, s, clock) && MonotoneFrom(clock, es)
    ensures forall i :: 0 <= i < |Trace(rate, capacity, s, es)| ==>
      TokensInRange(capacity, Trace(rate, capacity, s, es)[i])
    decreases |es|
  {
    if es != [] {
      var s1 := Step(rate, capacity, s, es[0]);
      var clock1 := if es[0].Call? then es[0].now else clock;
      if es[0].Call? {
        AllowKeepsBounds(rate, capacity, s, clock, es[0].now, es[0].decrFails);
      }
      TraceStaysInRange(rate, capacity, s1, clock1, es[1..]);
      var t := Trace(rate, capacity, s, es);
      assert t == [s] + Trace(rate, capacity, s1, es[1..]);
      forall i | 0 <= i < |t| ensures TokensInRange(capacity, t[i]) {
        if i > 0 {
          assert t[i] == Trace(rate, capacity, s1, es[1..])[i - 1];
        }
      }
    }
  }

  /** The verdicts of `n` calls within one second, with no Redis faults. */
  function Burst(rate: int, capacity: int, s: Stored, now: int, n: nat): (r: seq<bool>)
    ensures |r| == n
    decreases n
  {
    if n == 0 then []
    else
      var d := AllowStep(rate, capacity, s, now, false);
      [d.allowed] + Burst(rate, capacity, d.after, now, n - 1)
  }

  /**
   * Within one second, with k the refilled count of the first call, exactly
   * the first k calls are admitted and every later one is denied.
   */
  lemma {:induction false} BurstAdmitsRefilled(rate: int, capacity: int, s: Stored, now: int, n: nat)
    ensures forall i :: 0 <= i < n ==>
      Burst(rate, capacity, s, now, n)[i] == (i < Refill(rate, capacity, s, now))
    decreases n
  {
    if n > 0 {
      var k := Refill(rate, capacity, s, now);
      var d := AllowStep(rate, capacity, s, now, false);
      assert Refill(rate, capacity, d.after, now) == if k >= 1 then k - 1 else k;
      BurstAdmitsRefilled(rate, capacity, d.after, now, n - 1);
      var b := Burst(rate, capacity, s, now, n);
      assert b == [d.allowed] + Burst(rate, capacity, d.after, now, n - 1);
      forall i | 0 <= i < n ensures b[i] == (i < k) {
        if i > 0 {
          assert b[i] == Burst(rate, capacity, d.after, now, n - 1)[i - 1];
        }
      }
    }
  }

  /** A new bucket of capacity 5 admits exactly its first five calls within one second. */
  lemma FreshBucketAdmitsFive(rate: int, now: int, n: nat)
    ensures forall i :: 0 <= i < n ==> Burst(rate, 5, Stored(None, None), now, n)[i] == (i < 5)
  {
    BurstAdmitsRefilled(rate, 5, Stored(None, None), now, n);
  }

  /**
   * With rate 1 and an empty bucket last refreshed at `t`, one more call is
   * admitted per elapsed second: a call after `d` whole seconds is admitted
   * and leaves min(capacity, d) - 1 tokens, and a call within the same second
   * is denied.
   */
  lemma OneTokenPerSecond(capacity: int, t: int, d: int)
    requires capacity >= 1 && d >= 1
    ensures var empty := Stored(Some(0), Some(t));
      !AllowStep(1, capacity, empty, t, false).allowed
      && AllowStep(1, capacity, empty, t + d, false)
         == Decision(true, Stored(Some(Min(capacity, d) - 1), Some(t + d)))
  {
  }
}
