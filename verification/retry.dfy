/** The retry policy of internal/retry/retry.go, with Go's 64-bit durations in nanoseconds. */
module Retry {
  import opened Basics
  import opened Database

  const TWO63 := 0x8000_0000_0000_0000
  const SECOND := 1_000_000_000
  const MILLISECOND := 1_000_000

  predicate Fits64(x: int) {
    -TWO63 <= x < TWO63
  }

  /** int64 wrap-around. */
  function Wrap(x: int): (r: int)
    ensures Fits64(r)
    ensures Fits64(x) ==> r == x
  {
    (x + TWO63) % (2 * TWO63) - TWO63
  }

  type Int64 = x: int | Fits64(x)

  datatype Policy = Policy(maxAttempts: int, baseDelay: int, maxDelay: int, jitter: int)

  /** What New guarantees. */
  predicate Sane(p: Policy) {
    && p.maxAttempts >= 1
    && 0 < p.baseDelay < TWO63 && 0 < p.maxDelay < TWO63
    && 0 <= p.jitter < TWO63
  }

  /** The Retry-After header: delay in seconds, or the time until a date, or neither. */
  datatype RetryAfter = Absent | Seconds(n: Int64) | Date(left: Int64) | Unparsed

  datatype Failure = NoFailure | Http(status: int, retryAfter: RetryAfter) | Other

  datatype Decision = GiveUp | TryAgain(delay: int)

  method New(maxAttempts: int, base: int, max: int, jitter: int) returns (p: Policy)
    requires Fits64(base) && Fits64(max) && Fits64(jitter)
    ensures Sane(p)
    ensures maxAttempts >= 1 && base > 0 && max > 0 && jitter >= 0 ==> p == Policy(maxAttempts, base, max, jitter)
    ensures maxAttempts < 1 ==> p.maxAttempts == 3
    ensures base <= 0 ==> p.baseDelay == SECOND
    ensures max <= 0 ==> p.maxDelay == 30 * SECOND
    ensures jitter < 0 ==> p.jitter == 0
  {
    var a, b, m, j := maxAttempts, base, max, jitter;
    if a < 1 { a := 3; }
    if b <= 0 { b := SECOND; }
    if m <= 0 { m := 30 * SECOND; }
    if j < 0 { j := 0; }
    p := Policy(a, b, m, j);
  }

  // ---- exponential back-off

  function Doublings(attempt: int): nat {
    if attempt <= 1 then 0 else attempt - 1
  }

  /** base doubled once per earlier attempt. */
  function Exponential(base: nat, attempt: int): nat {
    base * Pow2(Doublings(attempt))
  }

  /** The delay one would expect: exponential, cut off at max. */
  function Ideal(base: nat, max: nat, attempt: int): nat {
    Min(Exponential(base, attempt), max)
  }

  /** The delay the loop computes: it jumps to max when a doubling would end at max - 1. */
  function Backoff(base: nat, max: nat, attempt: int): nat {
    if attempt >= 2 && Exponential(base, attempt) == max - 1 then max else Ideal(base, max, attempt)
  }

  /** Exactly when the code computes the expected delay; off by one nanosecond otherwise. */
  lemma BackoffExact(base: nat, max: nat, attempt: int)
    ensures Backoff(base, max, attempt) == Ideal(base, max, attempt)
            <==> !(attempt >= 2 && Exponential(base, attempt) == max - 1)
    ensures Ideal(base, max, attempt) <= Backoff(base, max, attempt) <= Ideal(base, max, attempt) + 1
  {
  }

  lemma ExponentialEven(base: nat, attempt: int)
    requires attempt >= 2
    ensures Exponential(base, attempt) % 2 == 0
  {
    assert Exponential(base, attempt) == 2 * (base * Pow2(attempt - 2));
  }

  /** For an even MaxDelay, as in every policy the engine builds, the delay is exponential up to MaxDelay. */
  lemma BackoffEvenMax(base: nat, max: nat, attempt: int)
    requires max % 2 == 0
    ensures Backoff(base, max, attempt) == Ideal(base, max, attempt)
  {
    if attempt >= 2 {
      ExponentialEven(base, attempt);
    }
  }

  lemma {:induction false} PowGrows(base: nat, k: nat, n: nat)
    requires k <= n
    ensures base * Pow2(k) <= base * Pow2(n)
    ensures k < n ==> 2 * (base * Pow2(k)) <= base * Pow2(n)
    decreases n - k
  {
    if k < n {
      assert base * Pow2(k + 1) == 2 * (base * Pow2(k));
      PowGrows(base, k + 1, n);
    }
  }

  /** Later attempts never wait less. */
  lemma BackoffMonotone(base: nat, max: nat, a: int, b: int)
    requires base >= 1 && a <= b
    ensures Backoff(base, max, a) <= Backoff(base, max, b) <= max
    ensures Min(base, max) <= Backoff(base, max, a)
  {
    PowGrows(base, Doublings(a), Doublings(b));
    PowGrows(base, 0, Doublings(a));
  }

  /** The doubling loop of Decide. overflowed records whether any doubling left the 64-bit range. */
  method Delay(base: int, max: int, attempt: int) returns (d: int, overflowed: bool)
    requires 0 < base < TWO63 && 0 < max < TWO63
    ensures d == Backoff(base, max, attempt)
    ensures d == Ideal(base, max, attempt) <==> !(attempt >= 2 && Exponential(base, attempt) == max - 1)
    ensures d != Ideal(base, max, attempt) ==> d == max && Ideal(base, max, attempt) == max - 1
    ensures !overflowed
  {
    d, overflowed := base, false;
    var i := 1;
    while i < attempt
      invariant 1 <= i && (i <= attempt || i == 1)
      invariant d == base * Pow2(i - 1)
      invariant i == 1 || d <= max - 2
      invariant !overflowed
    {
      if d >= max / 2 {
        PowGrows(base, i - 1, attempt - 1);
        d := max;
        return;
      }
      overflowed := overflowed || !Fits64(d * 2);
      d := Wrap(d * 2);
      assert base * Pow2(i) == 2 * (base * Pow2(i - 1));
      i := i + 1;
    }
    if d > max {
      d := max;
    }
  }

  // ---- the decision

  /** The delay asked for, before jitter and the final cut-off. */
  function Requested(p: Policy, failure: Failure, attempt: int): int
    requires Sane(p)
  {
    if !failure.Http? then Backoff(p.baseDelay, p.maxDelay, attempt)
    else match failure.retryAfter
      case Seconds(n) => if n >= 0 then Wrap(n * SECOND) else Backoff(p.baseDelay, p.maxDelay, attempt)
      case Date(left) => if left < 0 then 0 else left
      case _ => Backoff(p.baseDelay, p.maxDelay, attempt)
  }

  predicate Retryable(p: Policy, failure: Failure, attempt: int) {
    && failure != NoFailure
    && attempt < p.maxAttempts
    && (failure.Http? ==> failure.status == 429 || failure.status >= 500)
  }

  /** random is the value drawn from rand.Int63n(jitter + 1), which the largest 64-bit jitter would make panic. */
  method Decide(p: Policy, failure: Failure, attempt: int, random: nat) returns (decision: Decision)
    requires Sane(p) && random <= p.jitter < TWO63 - 1
    ensures decision.TryAgain? <==> && failure != NoFailure && attempt < p.maxAttempts
                                    && !(failure.Http? && failure.status < 500 && failure.status != 429)
    ensures decision.TryAgain? ==> decision.delay <= p.maxDelay
    ensures decision.TryAgain? ==> decision.delay == Min(Wrap(Requested(p, failure, attempt) + random), p.maxDelay)
  {
    if failure == NoFailure || attempt >= p.maxAttempts {
      return GiveUp;
    }
    var d, _ := Delay(p.baseDelay, p.maxDelay, attempt);
    if failure.Http? {
      if failure.status != 429 && failure.status < 500 {
        return GiveUp;
      }
      match failure.retryAfter
      case Seconds(n) =>
        if n >= 0 {
          d := Wrap(n * SECOND);
        }
      case Date(left) =>
        d := left;
        if d < 0 {
          d := 0;
        }
      case _ =>
    }
    if p.jitter > 0 {
      d := Wrap(d + random);
    }
    if d > p.maxDelay {
      d := p.maxDelay;
    }
    decision := TryAgain(d);
  }

  // ---- composed with ScheduleRetryAfter

  /** Duration.Milliseconds. */
  function Millis(d: int): int {
    if d >= 0 then d / MILLISECOND else -(-d / MILLISECOND)
  }

  /** The policy the worker builds for every failed fetch. */
  const WORKER_POLICY := Policy(3, SECOND, 30 * SECOND, 500 * MILLISECOND)

  /** What ScheduleRetryAfter makes of a failed fetch: the wait until the next attempt, in milliseconds. */
  function NextWait(failure: Failure, random: nat): nat
    requires Sane(WORKER_POLICY)
  {
    ClampDelay(Millis(Min(Wrap(Requested(WORKER_POLICY, failure, 1) + random), WORKER_POLICY.maxDelay)))
  }

  /** Fetch only reports 429 and 5xx as HTTP errors, and the worker always retries those. */
  lemma FetchErrorsRetry(status: int, retryAfter: RetryAfter)
    requires status == 429 || status >= 500
    ensures Sane(WORKER_POLICY) && Retryable(WORKER_POLICY, Http(status, retryAfter), 1)
  {
  }

  const HALF_SECOND := 500_000_000

  /** Whatever Retry-After says, the wait is 1 to 30 seconds; with neither a number nor a date, about one. */
  lemma WaitInRange(failure: Failure, random: nat)
    requires failure.Http? && random <= HALF_SECOND
    ensures Sane(WORKER_POLICY) && 1000 <= NextWait(failure, random) <= 30000
    ensures failure.retryAfter.Absent? || failure.retryAfter.Unparsed? ==> NextWait(failure, random) <= 1500
  {
    assert Exponential(SECOND, 1) == SECOND by { assert Pow2(0) == 1; }
  }

  /** Every draw of the jitter leads to a wait between these two. */
  ghost predicate AlwaysWithin(failure: Failure, least: int, most: int) {
    Sane(WORKER_POLICY) && forall random: nat :: random <= HALF_SECOND ==> least <= NextWait(failure, random) <= most
  }

  /** A number of seconds is honoured within 1 to 30 s, and by at most half a second more. */
  ghost predicate SecondsHonoured(status: int, n: Int64) {
    AlwaysWithin(Http(status, Seconds(n)), ClampDelay(n * 1000), ClampDelay(n * 1000 + 500))
  }

  /** n seconds in nanoseconds leave room for the jitter, or wrap to a delay past the cut-off that does. */
  predicate SecondsFit(n: Int64) {
    n <= 30 || 30 * SECOND <= n * SECOND % (2 * TWO63) < TWO63 - HALF_SECOND
  }

  lemma SecondsWait(status: int, n: Int64, random: nat)
    requires n >= 0 && random <= HALF_SECOND
    ensures Sane(WORKER_POLICY) && NextWait(Http(status, Seconds(n)), random)
            == Waited(Wrap(n * SECOND), random)
  {
  }

  lemma WrapMod(x: int)
    ensures Wrap(x) == if x % (2 * TWO63) < TWO63 then x % (2 * TWO63) else x % (2 * TWO63) - 2 * TWO63
  {
    var q, m := x / (2 * TWO63), x % (2 * TWO63);
    assert x == q * (2 * TWO63) + m;
    if m < TWO63 {
      assert x + TWO63 == q * (2 * TWO63) + (m + TWO63);
    } else {
      assert x + TWO63 == (q + 1) * (2 * TWO63) + (m - TWO63);
    }
  }

  /** What is made of a delay of d nanoseconds: jitter, cut-off, milliseconds, ScheduleRetryAfter's clamp. */
  function Waited(d: int, random: nat): nat {
    ClampDelay(Millis(Min(Wrap(d + random), 30 * SECOND)))
  }

  lemma WaitedShort(d: Int64, random: nat)
    requires d < 30 * SECOND && random <= HALF_SECOND
    ensures ClampDelay(Millis(d)) <= Waited(d, random)
    ensures d < 0 ==> Waited(d, random) == 1000
    ensures d >= 0 ==> Waited(d, random) <= ClampDelay(Millis(d) + 501)
  {
    assert Fits64(d);
    assert Fits64(d + random);
    if d < 0 {
      assert Millis(d + random) <= 500;
    }
  }

  lemma WaitedLong(d: Int64, random: nat)
    requires 30 * SECOND <= d && random <= HALF_SECOND
    ensures Waited(d, random) == if d + random < TWO63 then 30000 else 1000
  {
    if d + random >= TWO63 {
      WrapMod(d + random);
      assert Fits64(d);
      assert (d + random) % (2 * TWO63) == d + random;
      assert Millis(Wrap(d + random)) <= 0;
    }
  }

  lemma SmallSeconds(n: nat, random: nat)
    requires n <= 30 && random <= HALF_SECOND
    ensures ClampDelay(n * 1000) <= Waited(n * SECOND, random) <= ClampDelay(n * 1000 + 500)
  {
    assert Wrap(n * SECOND + random) == n * SECOND + random;
  }

  lemma SecondsOfFit(status: int, n: Int64, random: nat)
    requires n >= 0 && random <= HALF_SECOND && SecondsFit(n)
    ensures Sane(WORKER_POLICY)
    ensures ClampDelay(n * 1000) <= NextWait(Http(status, Seconds(n)), random) <= ClampDelay(n * 1000 + 500)
  {
    SecondsWait(status, n, random);
    if n <= 30 {
      SmallSeconds(n, random);
    } else {
      WrapMod(n * SECOND);
      WaitedLong(Wrap(n * SECOND), random);
    }
  }

  /** Otherwise some draw makes the engine come back early: none, if the product wrapped to a short delay. */
  lemma SecondsOfNoFit(status: int, n: Int64) returns (random: nat)
    requires n >= 0 && !SecondsFit(n)
    ensures Sane(WORKER_POLICY) && random <= HALF_SECOND
    ensures NextWait(Http(status, Seconds(n)), random) < 30000 == ClampDelay(n * 1000)
  {
    var d := Wrap(n * SECOND);
    WrapMod(n * SECOND);
    if d < 30 * SECOND {
      random := 0;
    } else {
      random := HALF_SECOND;
      WaitedLong(d, random);
    }
    SecondsWait(status, n, random);
  }

  /** Exactly which numbers of seconds are honoured, whatever the jitter drawn. */
  lemma SecondsExact(status: int, n: Int64)
    requires n >= 0
    ensures SecondsHonoured(status, n) <==> SecondsFit(n)
  {
    if SecondsFit(n) {
      forall random: nat | random <= HALF_SECOND
        ensures ClampDelay(n * 1000) <= NextWait(Http(status, Seconds(n)), random) <= ClampDelay(n * 1000 + 500)
      {
        SecondsOfFit(status, n, random);
      }
    } else {
      var random := SecondsOfNoFit(status, n);
    }
  }

  /** A date is honoured within 1 to 30 s, and by at most half a second and a rounding more. */
  ghost predicate DateHonoured(status: int, left: Int64) {
    AlwaysWithin(Http(status, Date(left)), ClampDelay(Millis(left)),
                 ClampDelay(if left < 0 then 500 else Millis(left) + 501))
  }

  lemma DateWait(status: int, left: Int64, random: nat)
    requires random <= HALF_SECOND
    ensures Sane(WORKER_POLICY) && NextWait(Http(status, Date(left)), random)
            == Waited(if left < 0 then 0 else left, random)
  {
  }

  /** Exactly which dates are honoured: those that leave room for the jitter in 64 bits. */
  lemma DateExact(status: int, left: Int64)
    ensures DateHonoured(status, left) <==> left < TWO63 - HALF_SECOND
  {
    if left < TWO63 - HALF_SECOND {
      forall random: nat | random <= HALF_SECOND
        ensures ClampDelay(Millis(left)) <= NextWait(Http(status, Date(left)), random)
        ensures NextWait(Http(status, Date(left)), random) <= ClampDelay(if left < 0 then 500 else Millis(left) + 501)
      {
        DateWait(status, left, random);
        var d := if left < 0 then 0 else left;
        if d < 30 * SECOND {
          WaitedShort(d, random);
        } else {
          WaitedLong(d, random);
        }
      }
    } else {
      DateWait(status, left, HALF_SECOND);
      WaitedLong(left, HALF_SECOND);
    }
  }

  /**
   * Two values at which the engine comes back after one second: a number of seconds that wraps, and a date
   * so far off, as any in the year 9999, that the time left saturates and one nanosecond of jitter wraps it.
   */
  lemma HugeRetryAfterWraps()
    ensures Sane(WORKER_POLICY) && Fits64(10_000_000_000) && Fits64(TWO63 - 1)
    ensures NextWait(Http(503, Seconds(10_000_000_000)), 0) == 1000
    ensures NextWait(Http(503, Date(TWO63 - 1)), 1) == 1000
  {
    assert (10_000_000_000 * SECOND + TWO63) % (2 * TWO63) - TWO63 == 10_000_000_000 * SECOND - 2 * TWO63;
  }
}
