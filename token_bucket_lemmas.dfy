/**
 Properties of the token-bucket operations: the period grid, the clamp,
 idempotent and composable refills, the acquire contract, the capacity
 behaviour of `configure`, and runs of acquisitions.
 */
module TokenBucketLemmas {
  import opened TokenBuckets

  // ---------------------------------------------------------------------------
  // Arithmetic on the period grid

  /** Multiplying by a non-negative factor keeps the order. */
  lemma MulMonotone(x: int, y: int, p: int)
    requires x <= y && p >= 0
    ensures x * p <= y * p
  {
  }

  /** A clock offset lies in exactly one period slot `[(j - 1) * p, j * p)`. */
  lemma SlotUnique(p: int, a: int, j: int, k: int)
    requires p > 0
    requires (j - 1) * p <= a < j * p
    requires (k - 1) * p <= a < k * p
    ensures j == k
  {
  }

  /** `ElapsedPeriods` is the only count that brackets the clock on the grid. */
  lemma ElapsedPeriodsUnique(b: Bucket, now: int, k: int)
    requires b.refreshPeriodNanos > 0 && RefillDue(b, now)
    requires b.nextRefillTime + (k - 1) * b.refreshPeriodNanos <= now
    requires now < b.nextRefillTime + k * b.refreshPeriodNanos
    ensures ElapsedPeriods(b, now) == k
  {
    SlotUnique(b.refreshPeriodNanos, now - b.nextRefillTime, ElapsedPeriods(b, now), k);
  }

  // ---------------------------------------------------------------------------
  // refill

  /**
   A due refill moves the due time forward by exactly the credited number of
   whole periods, to the first grid point after `now`.
   */
  lemma RefillSchedule(b: Bucket, now: int)
    requires b.refreshPeriodNanos > 0 && RefillDue(b, now)
    ensures ElapsedPeriods(b, now) >= 1
    ensures Refilled(b, now).nextRefillTime
         == b.nextRefillTime + ElapsedPeriods(b, now) * b.refreshPeriodNanos
    ensures now < Refilled(b, now).nextRefillTime <= now + b.refreshPeriodNanos
  {
  }

  /**
   A due refill credits `elapsedPeriods * tokensPerPeriod` permits, clamped to
   the capacity; with a non-negative rate it never lowers the count below
   what the clamp allows.
   */
  lemma RefillTokens(b: Bucket, now: int)
    requires b.refreshPeriodNanos > 0 && RefillDue(b, now)
    ensures Refilled(b, now).tokens
         == Min(b.capacity, b.tokens + ElapsedPeriods(b, now) * b.tokensPerPeriod)
    ensures Refilled(b, now).tokens <= b.capacity
    ensures b.tokensPerPeriod >= 0 ==> Refilled(b, now).tokens >= Min(b.capacity, b.tokens)
  {
  }

  /**
   A due refill lands a count that starts in `[0, capacity]`, or above the
   capacity after `configure`, inside `[0, capacity]`, provided the rate and
   the capacity are not negative.
   */
  lemma RefillInBounds(b: Bucket, now: int)
    requires b.refreshPeriodNanos > 0 && RefillDue(b, now)
    requires b.tokens >= 0 && b.tokensPerPeriod >= 0 && b.capacity >= 0
    ensures 0 <= Refilled(b, now).tokens <= Refilled(b, now).capacity
  {
  }

  /**
   Without those hypotheses the lower bound fails: a negative burst, which
   `create` accepts because only -1 is the sentinel, survives a due refill.
   */
  lemma NegativeBurstSurvivesRefill(now: int)
    ensures Refilled(Configured(Blank, 0, -2, now), now + NanosPerSecond).tokens == -2
  {
  }

  /** A second refill at the same instant changes nothing: no period is credited twice. */
  lemma RefillIdempotent(b: Bucket, now: int)
    requires b.refreshPeriodNanos > 0
    ensures Refilled(Refilled(b, now), now) == Refilled(b, now)
  {
  }

  /**
   Refilling at `t1` and then at `t2` gives the same bucket as one refill at
   `t2`: every elapsed period is credited exactly once however the refills
   fall.  This needs a non-negative rate, because the clamp after the first
   refill would otherwise be visible.
   */
  lemma {:induction false} RefillComposes(b: Bucket, t1: int, t2: int)
    requires b.refreshPeriodNanos > 0 && b.tokensPerPeriod >= 0 && t1 <= t2
    ensures Refilled(Refilled(b, t1), t2) == Refilled(b, t2)
  {
    if RefillDue(b, t1) {
      var p := b.refreshPeriodNanos;
      var b1 := Refilled(b, t1);
      var k1 := ElapsedPeriods(b, t1);
      RefillSchedule(b, t1);
      RefillTokens(b, t1);
      if RefillDue(b1, t2) {
        var k2 := ElapsedPeriods(b1, t2);
        RefillSchedule(b1, t2);
        RefillTokens(b1, t2);
        assert (k1 + k2 - 1) * p == k1 * p + (k2 - 1) * p;
        assert (k1 + k2) * p == k1 * p + k2 * p;
        ElapsedPeriodsUnique(b, t2, k1 + k2);
        RefillSchedule(b, t2);
        RefillTokens(b, t2);
        assert (k1 + k2) * b.tokensPerPeriod == k1 * b.tokensPerPeriod + k2 * b.tokensPerPeriod;
        MulMonotone(0, k2, b.tokensPerPeriod);
      } else {
        ElapsedPeriodsUnique(b, t2, k1);
        RefillSchedule(b, t2);
        RefillTokens(b, t2);
      }
    }
  }

  // ---------------------------------------------------------------------------
  // configure

  /** The burst has no influence on the capacity `configure` sets. */
  lemma ConfigureIgnoresBurst(b: Bucket, rate: int, burst1: int, burst2: int, now: int)
    ensures Configured(b, rate, burst1, now).capacity == Configured(b, rate, burst2, now).capacity
  {
  }

  /**
   After `configure` the count is the burst even when that exceeds the
   capacity; the next due refill clamps it back.
   */
  lemma ConfigureMayOverfill(b: Bucket, rate: int, burst: int, now: int, later: int)
    requires b.refreshPeriodNanos > 0 && burst > Max(b.capacity, rate)
    requires later >= now + b.refreshPeriodNanos
    ensures Configured(b, rate, burst, now).tokens > Configured(b, rate, burst, now).capacity
    ensures Refilled(Configured(b, rate, burst, now), later).tokens
         <= Configured(b, rate, burst, now).capacity
  {
  }

  /** A sequence of `configure` calls, each with its rate, burst and time. */
  datatype ConfigureCall = ConfigureCall(rate: int, burst: int, now: int)

  function ConfiguredAll(b: Bucket, calls: seq<ConfigureCall>): (r: Bucket)
    decreases |calls|
  {
    if calls == [] then b
    else ConfiguredAll(Configured(b, calls[0].rate, calls[0].burst, calls[0].now), calls[1..])
  }

  /** The largest of `c` and every rate in `calls`. */
  function MaxRate(c: int, calls: seq<ConfigureCall>): (m: int)
    decreases |calls|
  {
    if calls == [] then c else MaxRate(Max(c, calls[0].rate), calls[1..])
  }

  /**
   Over any number of `configure` calls the capacity never decreases: it is
   the largest of the starting capacity and every rate configured.
   */
  lemma {:induction false} ConfigureCapacityMonotone(b: Bucket, calls: seq<ConfigureCall>)
    ensures ConfiguredAll(b, calls).capacity == MaxRate(b.capacity, calls)
    ensures ConfiguredAll(b, calls).capacity >= b.capacity
    decreases |calls|
  {
    if calls != [] {
      var b1 := Configured(b, calls[0].rate, calls[0].burst, calls[0].now);
      ConfigureCapacityMonotone(b1, calls[1..]);
    }
  }

  // ---------------------------------------------------------------------------
  // Runs of tryAquire calls

  /** The answers and final state of `tryAquire` called at each of `times` in turn. */
  datatype Trace = Trace(grants: seq<bool>, bucket: Bucket)

  function AcquiredAll(b: Bucket, times: seq<int>): (t: Trace)
    requires b.refreshPeriodNanos > 0
    ensures |t.grants| == |times|
    ensures t.bucket.refreshPeriodNanos == b.refreshPeriodNanos
    ensures t.bucket.capacity == b.capacity && t.bucket.tokensPerPeriod == b.tokensPerPeriod
    decreases |times|
  {
    if times == [] then Trace([], b)
    else
      var a := Acquired(b, times[0]);
      var rest := AcquiredAll(a.bucket, times[1..]);
      Trace([a.granted] + rest.grants, rest.bucket)
  }

  /**
   Before the due time, `n` permits serve exactly the first `n` calls, and the
   schedule does not move.
   */
  lemma {:induction false} DrainBeforeDue(b: Bucket, times: seq<int>)
    requires b.refreshPeriodNanos > 0 && b.tokens >= 0
    requires forall i :: 0 <= i < |times| ==> times[i] < b.nextRefillTime
    ensures forall i :: 0 <= i < |times| ==> AcquiredAll(b, times).grants[i] == (i < b.tokens)
    ensures AcquiredAll(b, times).bucket.tokens == Max(0, b.tokens - |times|)
    ensures AcquiredAll(b, times).bucket.nextRefillTime == b.nextRefillTime
    decreases |times|
  {
    if times != [] {
      var a := Acquired(b, times[0]);
      DrainBeforeDue(a.bucket, times[1..]);
      var t := AcquiredAll(b, times);
      forall i | 0 <= i < |times|
        ensures t.grants[i] == (i < b.tokens)
      {
        if i > 0 {
          assert t.grants[i] == AcquiredAll(a.bucket, times[1..]).grants[i - 1];
        }
      }
    }
  }

  /** The count stays within `[0, capacity]` over any run, when it starts there and the rate is non-negative. */
  predicate InBounds(b: Bucket) {
    0 <= b.tokens <= b.capacity
  }

  lemma {:induction false} BoundsPreserved(b: Bucket, times: seq<int>)
    requires b.refreshPeriodNanos > 0 && b.tokensPerPeriod >= 0 && InBounds(b)
    ensures InBounds(AcquiredAll(b, times).bucket)
    decreases |times|
  {
    if times != [] {
      var a := Acquired(b, times[0]);
      if RefillDue(b, times[0]) {
        RefillTokens(b, times[0]);
      }
      BoundsPreserved(a.bucket, times[1..]);
    }
  }

  /** A zero rate with no permits left refuses every call, for ever. */
  lemma {:induction false} ZeroRateRefusesAll(b: Bucket, times: seq<int>)
    requires b.refreshPeriodNanos > 0 && b.tokensPerPeriod == 0 && b.tokens <= 0
    ensures forall i :: 0 <= i < |times| ==> !AcquiredAll(b, times).grants[i]
    ensures AcquiredAll(b, times).bucket.tokens <= 0
    decreases |times|
  {
    if times != [] {
      var a := Acquired(b, times[0]);
      if RefillDue(b, times[0]) {
        RefillTokens(b, times[0]);
      }
      ZeroRateRefusesAll(a.bucket, times[1..]);
      var t := AcquiredAll(b, times);
      forall i | 0 <= i < |times|
        ensures !t.grants[i]
      {
        if i > 0 {
          assert t.grants[i] == AcquiredAll(a.bucket, times[1..]).grants[i - 1];
        }
      }
    }
  }

  /**
   A bucket of capacity 10, rate 10 and 10 initial permits, created at `t0`:
   ten calls before the due time succeed and the eleventh fails; exactly one
   period later ten calls succeed again and the eleventh fails; and a call a
   nanosecond before that refill fails.
   */
  lemma SingleThreadedScenario(t0: int)
    ensures var b := Created(10, 10, 10, t0);
      var first := AcquiredAll(b, seq(11, _ => t0));
      && first.grants == seq(10, _ => true) + [false]
      && !Acquired(first.bucket, t0 + NanosPerSecond - 1).granted
      && AcquiredAll(first.bucket, seq(11, _ => t0 + NanosPerSecond)).grants
         == seq(10, _ => true) + [false]
  {
    var b := Created(10, 10, 10, t0);
    var times := seq(11, _ => t0);
    DrainBeforeDue(b, times);
    var first := AcquiredAll(b, times);
    assert first.grants == seq(10, _ => true) + [false];
    assert first.bucket == b.(tokens := 0);

    var t1 := t0 + NanosPerSecond;
    var refilled := Refilled(first.bucket, t1);
    RefillSchedule(first.bucket, t1);
    RefillTokens(first.bucket, t1);
    ElapsedPeriodsUnique(first.bucket, t1, 1);
    assert refilled.tokens == 10;
    assert refilled.nextRefillTime == t1 + NanosPerSecond;

    var later := seq(11, _ => t1);
    var a := Acquired(first.bucket, t1);
    DrainBeforeDue(refilled, later);
    DrainBeforeDue(a.bucket, later[1..]);
    var second := AcquiredAll(first.bucket, later);
    assert second.grants == [true] + AcquiredAll(a.bucket, later[1..]).grants;
    assert second.grants == seq(10, _ => true) + [false];
  }
}
