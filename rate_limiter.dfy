/**
 The rate-limiter contract: the `BYPASS` sentinel, the limiter that never
 limits, and the factory that chooses a limiter from an implementation name
 and two numeric settings.  Loading a class by name is modelled by a closed
 set of outcomes: the token-bucket class, or a failure.
 */
module RateLimiters {
  import opened TokenBuckets

  datatype Option<T> = None | Some(value: T)

  /** Rate or burst value meaning "do not limit". */
  const BYPASS: int := -1

  /** The name under which the token-bucket implementation is loaded. */
  const TokenBucketClassName: string := "org.apache.zookeeper.common.TokenBucket"

  /** A rate limiter: the shared bypass instance, or a token bucket. */
  datatype Limiter = Bypass | Limited(bucket: TokenBucket)

  /** What a limiter needs before it may be asked for a permit. */
  ghost predicate Ready(l: Limiter)
    reads if l.Limited? then {l.bucket} else {}
  {
    l.Limited? ==> l.bucket.Valid() && l.bucket.configured
  }

  /**
   `tryAquire` on any limiter: the bypass limiter always grants and holds no
   state; a token bucket answers as `Acquired` says.
   */
  method TryAquire(l: Limiter, now: int) returns (granted: bool)
    requires Ready(l)
    modifies if l.Limited? then {l.bucket} else {}
    ensures Ready(l)
    ensures l.Bypass? ==> granted
    ensures l.Limited? ==> granted == Acquired(old(l.bucket.Model()), now).granted
    ensures l.Limited? ==> l.bucket.Model() == Acquired(old(l.bucket.Model()), now).bucket
  {
    match l
    case Bypass =>
      granted := true;
    case Limited(bucket) =>
      granted := bucket.TryAquire(now);
  }

  /**
   `configure` on any limiter: a no-op for the bypass limiter (its frame is
   empty), a reset for a token bucket.
   */
  method Configure(l: Limiter, maxClientCnxnRate: int, maxClientCnxnBurst: int, now: int)
    requires l.Limited? ==> l.bucket.Valid()
    modifies if l.Limited? then {l.bucket} else {}
    ensures l.Limited? ==> l.bucket.Valid() && l.bucket.configured
    ensures l.Limited? ==>
      l.bucket.Model() == Configured(old(l.bucket.Model()), maxClientCnxnRate, maxClientCnxnBurst, now)
  {
    match l
    case Bypass =>
    case Limited(bucket) =>
      bucket.Configure(maxClientCnxnRate, maxClientCnxnBurst, now);
  }

  /** Outcome of loading a class by name and instantiating it as a limiter. */
  datatype Instance = TokenBucketInstance | InstantiationFailed

  /** Only the token-bucket class name yields a limiter; any other name fails. */
  function Instantiate(className: string): (i: Instance)
    ensures i == TokenBucketInstance <==> className == TokenBucketClassName
  {
    if className == TokenBucketClassName then TokenBucketInstance else InstantiationFailed
  }

  /** The class the factory loads: the given name, or the token bucket's when none is given. */
  function ImplClassName(rateLimiterImplClass: Option<string>): (name: string)
    ensures rateLimiterImplClass.Some? ==> name == rateLimiterImplClass.value
    ensures rateLimiterImplClass.None? ==> name == TokenBucketClassName
  {
    match rateLimiterImplClass
    case None => TokenBucketClassName
    case Some(n) => n
  }

  /** Which kind of limiter the factory returns. */
  datatype Choice = UseBypass | UseTokenBucket

  /**
   The factory's decision: bypass when either setting is the sentinel, or when
   the implementation cannot be instantiated; a token bucket otherwise.  A
   missing name means the token bucket.
   */
  function Select(rateLimiterImplClass: Option<string>, burstSize: int, averageRate: int): (c: Choice)
    ensures burstSize == BYPASS || averageRate == BYPASS ==> c == UseBypass
    ensures rateLimiterImplClass.None? && burstSize != BYPASS && averageRate != BYPASS ==> c == UseTokenBucket
    ensures c == UseTokenBucket <==>
      burstSize != BYPASS && averageRate != BYPASS
      && (rateLimiterImplClass.None? || rateLimiterImplClass.value == TokenBucketClassName)
  {
    if burstSize == BYPASS || averageRate == BYPASS then UseBypass
    else
      match Instantiate(ImplClassName(rateLimiterImplClass))
      case TokenBucketInstance => UseTokenBucket
      case InstantiationFailed => UseBypass
  }

  /**
   `Factory.create`: returns the bypass limiter or a fresh token bucket
   configured with `(averageRate, burstSize)`, the reverse of the order in
   which `create` receives them.  It never fails.
   */
  method Create(rateLimiterImplClass: Option<string>, burstSize: int, averageRate: int, now: int)
    returns (l: Limiter)
    ensures l.Bypass? <==> Select(rateLimiterImplClass, burstSize, averageRate) == UseBypass
    ensures l.Limited? ==> fresh(l.bucket) && Ready(l)
    ensures l.Limited? ==> l.bucket.Model() == Configured(Blank, averageRate, burstSize, now)
    ensures l.Limited? ==> l.bucket.tokens == burstSize && l.bucket.tokensPerPeriod == averageRate
  {
    if burstSize == BYPASS || averageRate == BYPASS {
      return Bypass;
    }
    var implClass := ImplClassName(rateLimiterImplClass);
    if Instantiate(implClass) == InstantiationFailed {
      return Bypass;
    }
    var bucket := new TokenBucket.Unconfigured();
    l := Limited(bucket);
    Configure(l, averageRate, burstSize, now);
  }
}
