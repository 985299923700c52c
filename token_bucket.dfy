/**
 A token bucket that admits events at a steady rate with a bounded burst.

 The bucket is modelled twice: as a value (`Bucket`) with one specification
 function per operation, and as the class `TokenBucket` whose methods update
 its fields in place and are proved to agree with those functions.  The
 monotonic clock is the explicit parameter `now` (nanoseconds).
 */
module TokenBuckets {

  /** One second in nanoseconds: the default refill period. */
  const NanosPerSecond: int := 1_000_000_000

  /** `Math.min` on longs. */
  function Min(a: int, b: int): (m: int)
    ensures m <= a && m <= b
    ensures m == a || m == b
  {
    if a <= b then a else b
  }

  /** `Math.max` on longs. */
  function Max(a: int, b: int): (m: int)
    ensures m >= a && m >= b
    ensures m == a || m == b
  {
    if a >= b then a else b
  }

  /** The state of a bucket, as a value. */
  datatype Bucket = Bucket(
    tokens: int,              // permits currently available
    capacity: int,            // upper clamp applied by a refill
    tokensPerPeriod: int,     // permits credited per elapsed period
    nextRefillTime: int,      // clock value at which the next refill is due
    refreshPeriodNanos: int)  // length of one period

  /** The state left by the no-argument constructor: every long field is zero. */
  const Blank: Bucket := Bucket(0, 0, 0, 0, NanosPerSecond)

  /** The state built by the three-argument constructor at time `now`. */
  function Created(capacity: int, tokensPerSecond: int, initialTokens: int, now: int): (r: Bucket)
    ensures r.tokens == initialTokens
    ensures r.tokensPerPeriod == tokensPerSecond
    ensures r.capacity >= capacity && r.capacity >= tokensPerSecond
    ensures r.capacity == capacity || r.capacity == tokensPerSecond
    ensures r.refreshPeriodNanos == NanosPerSecond
    ensures r.nextRefillTime == now + r.refreshPeriodNanos
  {
    Bucket(initialTokens, Max(capacity, tokensPerSecond), tokensPerSecond, now + NanosPerSecond, NanosPerSecond)
  }

  /** A refill is due once the clock has reached `nextRefillTime`. */
  predicate RefillDue(b: Bucket, now: int) {
    now >= b.nextRefillTime
  }

  /**
   The number of whole periods a due refill credits: the number of points
   of the grid `nextRefillTime + i * refreshPeriodNanos` (i >= 0) that the
   clock has reached.
   */
  function ElapsedPeriods(b: Bucket, now: int): (k: int)
    requires b.refreshPeriodNanos > 0 && RefillDue(b, now)
    ensures k >= 1
    ensures b.nextRefillTime + (k - 1) * b.refreshPeriodNanos <= now
    ensures now < b.nextRefillTime + k * b.refreshPeriodNanos
  {
    var p := b.refreshPeriodNanos;
    var elapsedNanos := now - b.nextRefillTime + p;
    var k := elapsedNanos / p;
    assert elapsedNanos == k * p + elapsedNanos % p;
    assert (k - 1) * p == k * p - p;
    k
  }

  /**
   `refill`: when due, credit every elapsed period, clamp to the capacity and
   move the due time to the next point of the period grid after `now`;
   otherwise change nothing.
   */
  function Refilled(b: Bucket, now: int): (r: Bucket)
    requires b.refreshPeriodNanos > 0
    ensures r.capacity == b.capacity && r.tokensPerPeriod == b.tokensPerPeriod
    ensures r.refreshPeriodNanos == b.refreshPeriodNanos
    ensures !RefillDue(b, now) ==> r == b
    ensures RefillDue(b, now) ==> r.tokens <= r.capacity
    ensures RefillDue(b, now) ==> now < r.nextRefillTime <= now + r.refreshPeriodNanos
  {
    if RefillDue(b, now) then
      var p := b.refreshPeriodNanos;
      var elapsedNanos := now - b.nextRefillTime + p;
      var newTokens := ElapsedPeriods(b, now) * b.tokensPerPeriod;
      var remainder := elapsedNanos % p;
      b.(tokens := Min(b.capacity, b.tokens + newTokens),
         nextRefillTime := now + p - remainder)
    else
      b
  }

  /** The answer of `tryAquire` and the state it leaves. */
  datatype Acquisition = Acquisition(granted: bool, bucket: Bucket)

  /**
   `tryAquire`: refill, then take one permit if the refilled count is
   positive.
   */
  function Acquired(b: Bucket, now: int): (a: Acquisition)
    requires b.refreshPeriodNanos > 0
    ensures a.granted <==> Refilled(b, now).tokens > 0
    ensures a.bucket.tokens == Refilled(b, now).tokens - (if a.granted then 1 else 0)
    ensures a.bucket == Refilled(b, now).(tokens := a.bucket.tokens)
    ensures a.bucket.tokens < 0 ==> !a.granted
  {
    var r := Refilled(b, now);
    if r.tokens > 0 then Acquisition(true, r.(tokens := r.tokens - 1))
    else Acquisition(false, r)
  }

  /**
   `configure(rate, burst)`: the burst becomes the token count, the rate the
   refill amount, the capacity only ever grows to the rate (the burst plays no
   part in it), and the schedule restarts one period after `now`.
   */
  function Configured(b: Bucket, rate: int, burst: int, now: int): (r: Bucket)
    ensures r.tokens == burst && r.tokensPerPeriod == rate
    ensures r.capacity >= b.capacity && r.capacity >= rate
    ensures r.capacity == b.capacity || r.capacity == rate
    ensures r.refreshPeriodNanos == b.refreshPeriodNanos
    ensures r.nextRefillTime == now + b.refreshPeriodNanos
  {
    b.(tokens := burst, capacity := Max(b.capacity, rate), tokensPerPeriod := rate,
       nextRefillTime := now + b.refreshPeriodNanos)
  }

  /** The limiter of `TokenBucket.java`; its fields change in place. */
  class TokenBucket {
    var refreshPeriodNanos: int
    var nextRefillTime: int
    var tokens: int
    var capacity: int
    var tokensPerPeriod: int
    /** False until a constructor or `Configure` has given `tokens` a value. */
    ghost var configured: bool

    /** The fields as a `Bucket` value. */
    function Model(): (b: Bucket)
      reads this
    {
      Bucket(tokens, capacity, tokensPerPeriod, nextRefillTime, refreshPeriodNanos)
    }

    /** A positive period, and a capacity that is never below the rate. */
    ghost predicate Valid()
      reads this
    {
      refreshPeriodNanos > 0 && tokensPerPeriod <= capacity
    }

    /** The no-argument constructor: nothing is configured yet. */
    constructor Unconfigured()
      ensures Valid() && !configured
      ensures Model() == Blank
    {
      refreshPeriodNanos := NanosPerSecond;
      nextRefillTime := 0;
      tokens := 0;
      capacity := 0;
      tokensPerPeriod := 0;
      configured := false;
    }

    /** The three-argument constructor, run at time `now`. */
    constructor (capacity: int, tokensPerSecond: int, initialTokens: int, now: int)
      ensures Valid() && configured
      ensures Model() == Created(capacity, tokensPerSecond, initialTokens, now)
    {
      refreshPeriodNanos := NanosPerSecond;
      tokens := initialTokens;
      this.capacity := Max(capacity, tokensPerSecond);
      tokensPerPeriod := tokensPerSecond;
      nextRefillTime := now + NanosPerSecond;
      configured := true;
    }

    /** Credits the periods elapsed up to `now`, if a refill is due. */
    method Refill(now: int)
      requires Valid() && configured
      modifies this
      ensures Valid() && configured
      ensures Model() == Refilled(old(Model()), now)
    {
      var currentTime := now;
      if currentTime >= nextRefillTime {
        var elapsedNanos := currentTime - nextRefillTime + refreshPeriodNanos;
        var elapsedPeriods := elapsedNanos / refreshPeriodNanos;
        var newTokens := elapsedPeriods * tokensPerPeriod;
        tokens := Min(capacity, tokens + newTokens);
        nextRefillTime := currentTime + refreshPeriodNanos - elapsedNanos % refreshPeriodNanos;
      }
    }

    /** Refills, then takes one permit if one is available. */
    method TryAquire(now: int) returns (acquired: bool)
      requires Valid() && configured
      modifies this
      ensures Valid() && configured
      ensures acquired == Acquired(old(Model()), now).granted
      ensures Model() == Acquired(old(Model()), now).bucket
    {
      Refill(now);
      var current := tokens;
      if current > 0 {
        // With a single caller the compare-and-set from `current` succeeds.
        tokens := current - 1;
        acquired := true;
      } else {
        acquired := false;
      }
    }

    /** The current number of permits. */
    method GetTokenCount() returns (n: int)
      requires configured
      ensures n == Model().tokens
    {
      n := tokens;
    }

    /** Resets rate, burst and schedule at time `now`. */
    method Configure(maxClientCnxnRate: int, maxClientCnxnBurst: int, now: int)
      requires Valid()
      modifies this
      ensures Valid() && configured
      ensures Model() == Configured(old(Model()), maxClientCnxnRate, maxClientCnxnBurst, now)
    {
      tokens := maxClientCnxnBurst;
      capacity := Max(capacity, maxClientCnxnRate);
      tokensPerPeriod := maxClientCnxnRate;
      nextRefillTime := now + refreshPeriodNanos;
      configured := true;
    }
  }
}
