# ZooKeeper connection rate limiter: token bucket and limiter factory

This project models the connection-admission rate limiter of ZooKeeper's
`org.apache.zookeeper.common` package in Dafny:

- `TokenBucket` holds a count of permits (`tokens`). A refill adds
  `tokensPerPeriod` permits for each whole period of `refreshPeriodNanos`
  that has elapsed, up to `capacity`. `tryAquire` refills and then takes
  one permit if one is available. `configure` resets the rate, the burst
  and the schedule.
- `RateLimiter` holds the `BYPASS` sentinel (-1) and a bypass limiter that
  always grants. It also holds `Factory.create`. That method returns the
  bypass limiter when either setting is the sentinel or when the requested
  implementation cannot be instantiated. Otherwise it returns a token bucket
  configured with `(averageRate, burstSize)`.

Files:

- `token_bucket.dfy`, module `TokenBuckets`.
  - The bucket as a value (`Bucket`), with one specification function per
    operation: `Created`, `Refilled`, `Acquired` and `Configured`.
  - `ElapsedPeriods` is the number of whole periods a due refill credits.
  - The class `TokenBucket` has the source's fields, updated in place. Each
    of its methods is proved to leave `Model()` equal to the matching
    specification function applied to the old state.
- `token_bucket_lemmas.dfy`, module `TokenBucketLemmas`. It proves:
  - the period grid;
  - the clamp;
  - idempotent refills, and refills that compose;
  - the acquire contract;
  - the capacity behaviour of `configure`;
  - properties of runs of calls.
- `rate_limiter.dfy`, module `RateLimiters`.
  - `Limiter` is either `Bypass` or `Limited`, which holds a `TokenBucket`
    object.
  - `TryAquire` and `Configure` dispatch on it.
  - Class loading by name is a closed outcome type, `Instantiate`.
  - `Select` is the factory's decision and `Create` is the factory itself.

The monotonic clock (`System.nanoTime()`) is an explicit parameter, `now`. A
Java `null` implementation name is `None`.

Division: Java's `/` and `%` truncate toward zero, and Dafny's are Euclidean.
The model divides only when a refill is due. At that point the dividend
`elapsedNanos` is at least `refreshPeriodNanos`, which is positive, so the
two conventions agree.

Three behaviours of the code are reproduced as written:

- `configure` sets `capacity = max(old capacity, rate)` and never uses the
  burst for the capacity (`TokenBucket.java:65`). The factory's Javadoc
  describes `burstSize` as "the maximum burst size - i.e. max number of
  permits that can be acquired in a second" (`RateLimiter.java:73-75`). The
  code does not bound anything by the burst, and the capacity never
  decreases across `configure` calls.
- `configure` sets `tokens = burst` (`TokenBucket.java:64`). The count can
  therefore sit above `capacity` until the next due refill clamps it.
  `0 <= tokens <= capacity` is not an invariant of every state:
  - A due refill always leaves `tokens <= capacity`
    (`TokenBucketLemmas.RefillTokens`).
  - It leaves `0 <= tokens <= capacity` when the count, the rate and the
    capacity are not negative (`TokenBucketLemmas.RefillInBounds`).
  - A run of `tryAquire` calls keeps `0 <= tokens <= capacity` when it starts
    there and the rate is not negative (`TokenBucketLemmas.BoundsPreserved`).
  - Only -1 is the sentinel, so a negative burst such as -2 reaches the count
    through `create` and survives a refill
    (`TokenBucketLemmas.NegativeBurstSurvivesRefill`).
- `refreshPeriodNanos` is a field that tests may assign. It is not a
  constant. The model only requires it to stay positive (`TokenBucket.Valid`).

## Model

| member | source | states |
|---|---|---|
| `TokenBuckets.Created` | src/java/main/org/apache/zookeeper/common/TokenBucket.java:22-27 | the constructor keeps the initial count and the rate, takes the larger of capacity and rate as capacity, uses a one-second period and schedules the first refill one period after `now` |
| `TokenBuckets.TokenBucket.constructor` | src/java/main/org/apache/zookeeper/common/TokenBucket.java:22-27 | the three-argument constructor leaves the fields equal to `Created(...)` and establishes the class invariant (positive period, capacity at least the rate) |
| `TokenBuckets.TokenBucket.Unconfigured` | src/java/main/org/apache/zookeeper/common/TokenBucket.java:12-19 | the no-argument constructor leaves all long fields zero with a one-second period, and the bucket is not yet usable for `tryAquire` |
| `TokenBuckets.ElapsedPeriods` | src/java/main/org/apache/zookeeper/common/TokenBucket.java:46-48 | when a refill is due, `elapsedPeriods >= 1`, and it is the number of grid points `nextRefillTime + i*period` that the clock has reached: `next + (k-1)*p <= now < next + k*p` |
| `TokenBuckets.Refilled` | src/java/main/org/apache/zookeeper/common/TokenBucket.java:42-55 | a refill that is not due changes nothing; a due refill leaves the count at most the capacity and moves the due time into `(now, now + period]`; capacity, rate and period never change |
| `TokenBuckets.Acquired` | src/java/main/org/apache/zookeeper/common/TokenBucket.java:30-40 | a permit is granted exactly when the refilled count is positive; the count drops by exactly one on a grant and stays at the refilled value otherwise; nothing else differs from the refilled state; a grant never leaves the count negative |
| `TokenBuckets.Configured` | src/java/main/org/apache/zookeeper/common/TokenBucket.java:63-68 | `configure(rate, burst)` sets the count to the burst and the per-period amount to the rate; the new capacity is the larger of the old capacity and the rate; the due time becomes `now + period`; the period is kept |
| `TokenBuckets.TokenBucket.Refill` | src/java/main/org/apache/zookeeper/common/TokenBucket.java:42-55 | the in-place refill leaves the fields equal to `Refilled(old state, now)` and keeps the class invariant |
| `TokenBuckets.TokenBucket.TryAquire` | src/java/main/org/apache/zookeeper/common/TokenBucket.java:30-40 | the in-place acquire returns `Acquired(old state, now).granted` and leaves the fields equal to its bucket |
| `TokenBuckets.TokenBucket.GetTokenCount` | src/java/main/org/apache/zookeeper/common/TokenBucket.java:58-60 | returns the current count and changes nothing |
| `TokenBuckets.TokenBucket.Configure` | src/java/main/org/apache/zookeeper/common/TokenBucket.java:63-68 | the in-place reset leaves the fields equal to `Configured(old state, rate, burst, now)`, marks the bucket configured and keeps the class invariant |
| `TokenBucketLemmas.ElapsedPeriodsUnique` | src/java/main/org/apache/zookeeper/common/TokenBucket.java:47-48 | the credited period count is the only count that brackets the clock on the period grid |
| `TokenBucketLemmas.RefillSchedule` | src/java/main/org/apache/zookeeper/common/TokenBucket.java:47-51 | a due refill advances `nextRefillTime` by exactly `elapsedPeriods * refreshPeriodNanos`, so it stays on the original grid, and the new value lies in `(now, now + period]` |
| `TokenBucketLemmas.RefillTokens` | src/java/main/org/apache/zookeeper/common/TokenBucket.java:49-50 | a due refill sets the count to `min(capacity, tokens + elapsedPeriods * tokensPerPeriod)`, hence at most the capacity, and at least `min(capacity, tokens)` when the rate is non-negative |
| `TokenBucketLemmas.RefillInBounds` | src/java/main/org/apache/zookeeper/common/TokenBucket.java:49-50 | a due refill of a bucket with a non-negative count, rate and capacity leaves `0 <= tokens <= capacity`, even when the count was above the capacity before |
| `TokenBucketLemmas.NegativeBurstSurvivesRefill` | src/java/main/org/apache/zookeeper/common/TokenBucket.java:49-50 | a count of -2 set by `configure` with rate 0 is still -2 after a due refill: the lower bound needs a non-negative count |
| `TokenBucketLemmas.RefillIdempotent` | src/java/main/org/apache/zookeeper/common/TokenBucket.java:44-51 | a second refill at the same instant is a no-op: no period is credited twice |
| `TokenBucketLemmas.RefillComposes` | src/java/main/org/apache/zookeeper/common/TokenBucket.java:42-55 | with a non-negative rate, refilling at `t1` and then at `t2 >= t1` gives exactly the bucket that one refill at `t2` gives: each elapsed period is credited once, and the schedule ends on the same grid point |
| `TokenBucketLemmas.ConfigureIgnoresBurst` | src/java/main/org/apache/zookeeper/common/TokenBucket.java:65 | the capacity `configure` sets does not depend on the burst |
| `TokenBucketLemmas.ConfigureMayOverfill` | src/java/main/org/apache/zookeeper/common/TokenBucket.java:63-67 | a burst above both the old capacity and the rate leaves more tokens than capacity; the first refill due after that clamps the count to the capacity |
| `TokenBucketLemmas.ConfigureCapacityMonotone` | src/java/main/org/apache/zookeeper/common/TokenBucket.java:65 | over any sequence of `configure` calls the capacity is the largest of the starting capacity and every configured rate, so it never decreases |
| `TokenBucketLemmas.AcquiredAll` | src/java/main/org/apache/zookeeper/common/TokenBucket.java:30-40 | a run of `tryAquire` calls gives one answer per call and never changes capacity, rate or period |
| `TokenBucketLemmas.DrainBeforeDue` | src/java/main/org/apache/zookeeper/common/TokenBucket.java:30-44 | before the due time, a bucket with `n >= 0` permits grants exactly the first `n` calls, ends with `max(0, n - calls)` permits, and keeps its schedule |
| `TokenBucketLemmas.BoundsPreserved` | src/java/main/org/apache/zookeeper/common/TokenBucket.java:30-55 | with a non-negative rate, a run of `tryAquire` calls that starts with `0 <= tokens <= capacity` keeps it |
| `TokenBucketLemmas.ZeroRateRefusesAll` | src/java/main/org/apache/zookeeper/common/TokenBucket.java:30-55 | with a zero rate and no permits, every call of any run is refused and the count stays non-positive |
| `TokenBucketLemmas.SingleThreadedScenario` | src/java/main/org/apache/zookeeper/common/TokenBucket.java:22-55 | capacity 10, rate 10, 10 initial permits: ten immediate calls succeed and the eleventh fails; a call one nanosecond before the next refill fails; exactly one period later ten calls succeed again and the eleventh fails |
| `RateLimiters.TryAquire` | src/java/main/org/apache/zookeeper/common/RateLimiter.java:39-43 | the bypass limiter grants every call and holds no state that could change; a token-bucket limiter answers as `Acquired` |
| `RateLimiters.Configure` | src/java/main/org/apache/zookeeper/common/RateLimiter.java:45-48 | on the bypass limiter `configure` has an empty frame and changes nothing; on a token bucket it is `Configured` |
| `RateLimiters.Instantiate` | src/java/main/org/apache/zookeeper/common/RateLimiter.java:89 | loading a class by name succeeds exactly for the token-bucket class |
| `RateLimiters.ImplClassName` | src/java/main/org/apache/zookeeper/common/RateLimiter.java:85-87 | a null implementation name defaults to the token-bucket class; a given name is used as is |
| `RateLimiters.Select` | src/java/main/org/apache/zookeeper/common/RateLimiter.java:80-96 | the factory picks the bypass limiter whenever burst or rate equals `BYPASS` (-1); with neither a sentinel, a missing name gives a token bucket; a token bucket is chosen exactly when neither is the sentinel and the name is absent or the token bucket's |
| `RateLimiters.Create` | src/java/main/org/apache/zookeeper/common/RateLimiter.java:80-96 | returns the bypass limiter exactly when `Select` says so, so any failure to instantiate degrades to bypass and nothing is propagated; otherwise it returns a fresh bucket configured with `(averageRate, burstSize)`, so its count is the burst and its rate the average rate |

## Left out

- Concurrency. The model covers one caller at a time. It leaves out the
  `AtomicLong` compare-and-set retry loop, the `synchronized` re-check and
  the `volatile` field (`TokenBucket.java:14-15, 33-38, 45`). With one
  caller the first compare-and-set always succeeds, so
  `TokenBucket.TryAquire` is a single conditional decrement with no loop.
  Lock-freedom and "no double credit under races" cannot be stated in a
  sequential model. The closest statements are `RefillIdempotent` and
  `RefillComposes`.
- `System.nanoTime()`: the clock is the parameter `now`. The model assumes
  the clock never runs backward but does not state this as a precondition.
- Java `long` overflow. The model uses mathematical integers, so
  `elapsedPeriods * tokensPerPeriod` and `tokens + newTokens` never wrap
  around. The `int` parameters of `configure` and `create` are likewise
  unbounded.
- A zero period. Java would throw `ArithmeticException` on the division.
  The model requires `refreshPeriodNanos > 0` instead.
- `TokenBucket.TryAquire`, `TokenBucket.GetTokenCount`: both require a
  configured bucket. Java's `tokens` is `null` after the no-argument
  constructor, and both methods would throw `NullPointerException`. The
  model keeps the null state as the ghost flag `configured`, and `tokens`
  reads 0 until then.
- Reflection (`Class.forName(...).newInstance()`) and the error log
  (`RateLimiter.java:66, 89, 93`). `Instantiate` knows only the token-bucket
  class. Any other name counts as a failed instantiation, so it yields the
  bypass limiter. Other `RateLimiter` classes that a Java class path might
  supply are not part of this model.
- The bypass limiter is a stateless value (`Limiter.Bypass`), not a shared
  object. Its identity as a static singleton is not modelled.
