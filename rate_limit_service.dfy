/**
 * Request throttling by token buckets: each limit class has a capacity and a
 * refill setting, each client (an IP address, or for some requests a user)
 * gets its own bucket per class, created full on first use, and a request is
 * allowed exactly when it can take one token from its bucket.
 *
 * A bucket is its capacity and its current token count; the library's
 * interval refill is not part of this model, so tokens only ever go down.
 */
module RateLimits {
  import opened Wrappers
  import opened Text
  import opened Http

  datatype LimitType = Global | Login | Register | EmailVerification | PasswordReset | Admin

  /** The enum constant's `name()`. */
  function TypeName(t: LimitType): (r: string)
    ensures r != [] && forall i :: 0 <= i < |r| ==> r[i] != ':'
  {
    match t
    case Global => "GLOBAL"
    case Login => "LOGIN"
    case Register => "REGISTER"
    case EmailVerification => "EMAIL_VERIFICATION"
    case PasswordReset => "PASSWORD_RESET"
    case Admin => "ADMIN"
  }

  /** One class's limit: bucket capacity, tokens per refill, refill period in minutes. */
  datatype EndpointLimit = EndpointLimit(capacity: int, refillTokens: int, refillPeriodMinutes: int)

  /** The `rate-limit` configuration: the global, four authentication and the admin limits. */
  datatype RateLimitSettings = RateLimitSettings(
    global: EndpointLimit,
    login: EndpointLimit,
    register: EndpointLimit,
    emailVerification: EndpointLimit,
    passwordReset: EndpointLimit,
    admin: EndpointLimit)

  const Defaults := RateLimitSettings(
    EndpointLimit(100, 100, 1),
    EndpointLimit(5, 2, 5),
    EndpointLimit(3, 1, 10),
    EndpointLimit(3, 1, 15),
    EndpointLimit(2, 1, 30),
    EndpointLimit(50, 25, 1))

  /** What the bucket library accepts: positive capacity, refill amount and period. */
  predicate Accepted(l: EndpointLimit) {
    l.capacity > 0 && l.refillTokens > 0 && l.refillPeriodMinutes > 0
  }

  predicate ValidLimits(s: RateLimitSettings) {
    Accepted(s.global) && Accepted(s.login) && Accepted(s.register) &&
    Accepted(s.emailVerification) && Accepted(s.passwordReset) && Accepted(s.admin)
  }

  /** `createBandwidth`: a class's own limit; GLOBAL (and any other) uses the global one. */
  function BandwidthOf(s: RateLimitSettings, t: LimitType): (l: EndpointLimit)
    ensures ValidLimits(s) ==> Accepted(l)
  {
    match t
    case Login => s.login
    case Register => s.register
    case EmailVerification => s.emailVerification
    case PasswordReset => s.passwordReset
    case Admin => s.admin
    case Global => s.global
  }

  /** `getEndpointLimit`: only the four authentication classes have one. */
  function EndpointLimitOf(s: RateLimitSettings, t: LimitType): (r: Option<EndpointLimit>)
    ensures r.None? <==> t == Global || t == Admin
    ensures r.Some? ==> r.value == BandwidthOf(s, t)
  {
    match t
    case Login => Some(s.login)
    case Register => Some(s.register)
    case EmailVerification => Some(s.emailVerification)
    case PasswordReset => Some(s.passwordReset)
    case _ => None
  }

  datatype Bucket = Bucket(capacity: int, tokens: int)

  predicate BucketValid(b: Bucket) {
    0 <= b.tokens <= b.capacity
  }

  /** `createBucket`: a classic bandwidth starts full. */
  function NewBucket(l: EndpointLimit): Bucket {
    Bucket(l.capacity, l.capacity)
  }

  /** `tryConsume(1)`: take one token when there is one; the flag says whether it was taken. */
  function TryConsume(b: Bucket): (out: (bool, Bucket))
    ensures out.0 <==> b.tokens >= 1
    ensures out.0 ==> out.1 == b.(tokens := b.tokens - 1)
    ensures !out.0 ==> out.1 == b
    ensures BucketValid(b) ==> BucketValid(out.1)
  {
    if b.tokens >= 1 then (true, b.(tokens := b.tokens - 1)) else (false, b)
  }

  // ---------------------------------------------------------------- keys and clients

  /** `generateRateLimitKey`: "<TYPE>:<ip>". */
  function IpKey(t: LimitType, ip: string): string {
    TypeName(t) + ":" + ip
  }

  /** `generateUserRateLimitKey`: "<TYPE>:user:<id>". */
  function UserKey(t: LimitType, userId: string): string {
    TypeName(t) + ":user:" + userId
  }

  /** The text before the first `sep` of `a + [sep] + b` is `a` when `a` has no `sep`. */
  lemma {:induction false} BeforeSeparator(a: string, sep: char, b: string)
    requires forall i :: 0 <= i < |a| ==> a[i] != sep
    ensures Before(a + [sep] + b, sep) == a
    decreases |a|
  {
    if a != [] {
      assert (a + [sep] + b)[1..] == a[1..] + [sep] + b;
      BeforeSeparator(a[1..], sep, b);
    }
  }

  /** A key's text before its first colon is its class name. */
  lemma KeyClass(t: LimitType, id: string)
    ensures Before(IpKey(t, id), ':') == TypeName(t)
    ensures Before(UserKey(t, id), ':') == TypeName(t)
  {
    assert IpKey(t, id) == TypeName(t) + [':'] + id;
    assert UserKey(t, id) == TypeName(t) + [':'] + ("user:" + id);
    BeforeSeparator(TypeName(t), ':', id);
    BeforeSeparator(TypeName(t), ':', "user:" + id);
  }

  /**
   * Requests of different classes never share a bucket, and keys of one
   * class and shape are distinct for distinct clients.
   */
  lemma KeysSeparateClasses(t1: LimitType, id1: string, t2: LimitType, id2: string)
    ensures IpKey(t1, id1) == IpKey(t2, id2) ==> t1 == t2 && id1 == id2
    ensures UserKey(t1, id1) == UserKey(t2, id2) ==> t1 == t2 && id1 == id2
    ensures IpKey(t1, id1) == UserKey(t2, id2) ==> t1 == t2
  {
    KeyClass(t1, id1);
    KeyClass(t2, id2);
    TypeNameInjective(t1, t2);
    if IpKey(t1, id1) == IpKey(t2, id2) {
      assert id1 == IpKey(t1, id1)[|TypeName(t1)| + 1..];
    }
    if UserKey(t1, id1) == UserKey(t2, id2) {
      assert id1 == UserKey(t1, id1)[|TypeName(t1)| + 6..];
    }
  }

  lemma TypeNameInjective(t1: LimitType, t2: LimitType)
    ensures TypeName(t1) == TypeName(t2) ==> t1 == t2
  {
  }

  /**
   * The two key shapes are not kept apart: an IP key for the address
   * "user:<id>" is that user's key, so a client that can choose its
   * forwarded address can draw on a user's bucket.
   */
  lemma IpKeyCanBeUserKey(t: LimitType, userId: string)
    ensures IpKey(t, "user:" + userId) == UserKey(t, userId)
  {
    assert TypeName(t) + ":" + ("user:" + userId) == TypeName(t) + ":user:" + userId;
  }

  /** The header is present, non-empty and not "unknown" in any casing. */
  predicate Usable(v: Option<string>) {
    v.Some? && v.value != "" && !EqualsIgnoreCase("unknown", v.value)
  }

  /** The exception `split(",")[0]` raises on a forwarded list made only of commas. */
  const IndexOutOfBounds := "ArrayIndexOutOfBoundsException"

  /**
   * `getClientIpAddress` of the service: the first X-Forwarded-For entry
   * trimmed, else X-Real-IP, else X-Forwarded, else the peer address.
   */
  function ClientIp(r: Request): (ip: Result<string, string>)
    ensures ip.Failure? <==> Usable(Header(r, "X-Forwarded-For")) &&
                             forall i :: 0 <= i < |r.headers["X-Forwarded-For"]| ==> r.headers["X-Forwarded-For"][i] == ','
    ensures ip.Failure? ==> ip.error == IndexOutOfBounds
  {
    var xff := Header(r, "X-Forwarded-For");
    if Usable(xff) then
      match SplitFirstAsWritten(xff.value, ',')
      case None => Failure(IndexOutOfBounds)
      case Some(first) => Success(Trim(first))
    else
      var realIp := Header(r, "X-Real-IP");
      if Usable(realIp) then Success(realIp.value)
      else
        var forwarded := Header(r, "X-Forwarded");
        if Usable(forwarded) then Success(forwarded.value)
        else Success(r.remoteAddr)
  }

  /**
   * The priority: the first usable header wins; a client-supplied header
   * always outranks the peer address, which is used only when none of the
   * three is usable.
   */
  lemma ClientIpPriority(r: Request)
    ensures Usable(Header(r, "X-Forwarded-For")) && ClientIp(r).Success? ==>
              ClientIp(r).value == Trim(Before(r.headers["X-Forwarded-For"], ','))
    ensures !Usable(Header(r, "X-Forwarded-For")) && Usable(Header(r, "X-Real-IP")) ==>
              ClientIp(r) == Success(r.headers["X-Real-IP"])
    ensures !Usable(Header(r, "X-Forwarded-For")) && !Usable(Header(r, "X-Real-IP")) && Usable(Header(r, "X-Forwarded")) ==>
              ClientIp(r) == Success(r.headers["X-Forwarded"])
    ensures !Usable(Header(r, "X-Forwarded-For")) && !Usable(Header(r, "X-Real-IP")) && !Usable(Header(r, "X-Forwarded")) ==>
              ClientIp(r) == Success(r.remoteAddr)
  {
  }

  // ---------------------------------------------------------------- the bucket cache

  /** `getBucket`: the cached bucket for `key`, or a new full one for the class. */
  function BucketFor(s: RateLimitSettings, m: map<string, Bucket>, key: string, t: LimitType): (b: Bucket)
    ensures key in m ==> b == m[key]
    ensures key !in m ==> b.tokens == b.capacity == BandwidthOf(s, t).capacity
  {
    if key in m then m[key] else NewBucket(BandwidthOf(s, t))
  }

  /** Every cached bucket holds between zero and its capacity. */
  ghost predicate CacheValid(m: map<string, Bucket>) {
    forall k | k in m :: BucketValid(m[k])
  }

  /** One `tryConsume(1)` on the bucket for `key`: whether it was allowed, and the cache afterwards. */
  function Consume(s: RateLimitSettings, m: map<string, Bucket>, key: string, t: LimitType): (out: (bool, map<string, Bucket>))
  {
    var b := TryConsume(BucketFor(s, m, key, t));
    (b.0, m[key := b.1])
  }

  /**
   * A request is allowed exactly when its bucket has a token, takes exactly
   * one, and touches no other bucket; a first request of a key is allowed
   * when the class has a positive capacity. The cache stays valid.
   */
  lemma ConsumeTakesOne(s: RateLimitSettings, m: map<string, Bucket>, key: string, t: LimitType, other: string)
    requires ValidLimits(s)
    ensures var out := Consume(s, m, key, t);
            (out.0 <==> BucketFor(s, m, key, t).tokens >= 1) &&
            key in out.1 &&
            out.1[key].tokens == (if out.0 then BucketFor(s, m, key, t).tokens - 1 else BucketFor(s, m, key, t).tokens) &&
            out.1[key].capacity == BucketFor(s, m, key, t).capacity &&
            (key !in m ==> out.0) &&
            (other != key ==> (other in out.1 <==> other in m) && (other in m ==> out.1[other] == m[other])) &&
            (CacheValid(m) ==> CacheValid(out.1))
  {
    var out := Consume(s, m, key, t);
    if CacheValid(m) {
      forall k | k in out.1
        ensures BucketValid(out.1[k])
      {
        if k == key {
          if key in m {
            assert BucketValid(m[key]);
          }
        }
      }
    }
  }

  /** A denied request leaves the cache as it was. */
  lemma DenialChangesNothing(s: RateLimitSettings, m: map<string, Bucket>, key: string, t: LimitType)
    requires ValidLimits(s) && !Consume(s, m, key, t).0
    ensures Consume(s, m, key, t).1 == m
  {
    assert key in m;
  }

  /** The cache after `n` requests in a row for `key`, and how many of them were allowed. */
  function Requests(s: RateLimitSettings, m: map<string, Bucket>, key: string, t: LimitType, n: nat): (out: (nat, map<string, Bucket>))
    decreases n
  {
    if n == 0 then (0, m)
    else
      var before := Requests(s, m, key, t, n - 1);
      var step := Consume(s, before.1, key, t);
      (before.0 + (if step.0 then 1 else 0), step.1)
  }

  /**
   * Of `n` requests in a row for one key, exactly as many are allowed as the
   * bucket had tokens (and no more than `n`); the rest are denied. For a new
   * key that is the class's capacity: with the defaults, five logins.
   */
  lemma {:induction false} RequestsAllowedUpToTokens(s: RateLimitSettings, m: map<string, Bucket>, key: string, t: LimitType, n: nat)
    requires ValidLimits(s) && CacheValid(m)
    ensures var start := BucketFor(s, m, key, t).tokens;
            var out := Requests(s, m, key, t, n);
            out.0 == (if n <= start then n else start) &&
            (n > 0 ==> key in out.1)
    ensures n > 0 ==> Requests(s, m, key, t, n).1[key].tokens == BucketFor(s, m, key, t).tokens - Requests(s, m, key, t, n).0
    ensures n > 0 ==> Requests(s, m, key, t, n).1[key].capacity == BucketFor(s, m, key, t).capacity
    decreases n
  {
    if n > 0 {
      var before := Requests(s, m, key, t, n - 1);
      RequestsAllowedUpToTokens(s, m, key, t, n - 1);
      ConsumeTakesOne(s, before.1, key, t, key);
      if n - 1 > 0 {
        assert BucketFor(s, before.1, key, t) == before.1[key];
      } else {
        assert before.1 == m;
      }
      if key !in m {
        assert BandwidthOf(s, t).capacity > 0;
      } else {
        assert BucketValid(m[key]);
      }
    }
  }

  /** With the default settings a client gets five login attempts and the sixth is refused. */
  lemma DefaultLoginAllowsFive(m: map<string, Bucket>, ip: string)
    requires CacheValid(m) && IpKey(Login, ip) !in m
    ensures Requests(Defaults, m, IpKey(Login, ip), Login, 5).0 == 5
    ensures Requests(Defaults, m, IpKey(Login, ip), Login, 6).0 == 5
  {
    RequestsAllowedUpToTokens(Defaults, m, IpKey(Login, ip), Login, 5);
    RequestsAllowedUpToTokens(Defaults, m, IpKey(Login, ip), Login, 6);
  }

  /** `isRequestAllowed(request, type)`: the IP-keyed check, failing before any bucket when the address fails. */
  function Allowed(s: RateLimitSettings, m: map<string, Bucket>, r: Request, t: LimitType): (out: (Result<bool, string>, map<string, Bucket>))
    ensures out.0.Failure? ==> out.1 == m
  {
    match ClientIp(r)
    case Failure(e) => (Failure(e), m)
    case Success(ip) => var c := Consume(s, m, IpKey(t, ip), t); (Success(c.0), c.1)
  }

  /**
   * `isRequestAllowed(request, userId, type)`: the user-keyed check. A
   * denial logs the client address, so on a denial the address failure is
   * raised after the (unchanged) bucket was consulted.
   */
  function AllowedForUser(s: RateLimitSettings, m: map<string, Bucket>, r: Request, userId: string, t: LimitType): (out: (Result<bool, string>, map<string, Bucket>))
  {
    var c := Consume(s, m, UserKey(t, userId), t);
    if !c.0 && ClientIp(r).Failure? then (Failure(ClientIp(r).error), c.1) else (Success(c.0), c.1)
  }

  /** `getRemainingRequests`: the tokens left, creating (and caching) the bucket if needed but taking none. */
  function Remaining(s: RateLimitSettings, m: map<string, Bucket>, r: Request, t: LimitType): (out: (Result<int, string>, map<string, Bucket>))
  {
    match ClientIp(r)
    case Failure(e) => (Failure(e), m)
    case Success(ip) =>
      var key := IpKey(t, ip);
      (Success(BucketFor(s, m, key, t).tokens), m[key := BucketFor(s, m, key, t)])
  }

  /** The refill period `getTimeUntilRefill` reports for a class: its own, or the global one for GLOBAL and ADMIN. */
  function RefillPeriod(s: RateLimitSettings, t: LimitType): (minutes: int)
    ensures minutes == (if t == Global || t == Admin then s.global else BandwidthOf(s, t)).refillPeriodMinutes
  {
    match EndpointLimitOf(s, t)
    case Some(l) => l.refillPeriodMinutes
    case None => s.global.refillPeriodMinutes
  }

  /** The wait in seconds for bucket `b`: 0 while a token remains, else the period times 60 in 32-bit arithmetic. */
  function Wait(s: RateLimitSettings, t: LimitType, b: Bucket): (seconds: int)
    ensures b.tokens > 0 ==> seconds == 0
    ensures b.tokens <= 0 ==> seconds == Int32(RefillPeriod(s, t) * 60)
  {
    if b.tokens > 0 then 0 else Int32(RefillPeriod(s, t) * 60)
  }

  /** `getTimeUntilRefill`: the wait for the IP-keyed bucket, creating (and caching) it if needed. */
  function TimeUntilRefill(s: RateLimitSettings, m: map<string, Bucket>, r: Request, t: LimitType): (out: (Result<int, string>, map<string, Bucket>))
  {
    match ClientIp(r)
    case Failure(e) => (Failure(e), m)
    case Success(ip) =>
      var key := IpKey(t, ip);
      (Success(Wait(s, t, BucketFor(s, m, key, t))), m[key := BucketFor(s, m, key, t)])
  }

  /**
   * Asking never spends: the remaining count is the bucket's tokens and the
   * wait is zero exactly while tokens remain, and after either question the
   * next request sees the same bucket as before it.
   */
  lemma QueriesDoNotConsume(s: RateLimitSettings, m: map<string, Bucket>, r: Request, t: LimitType)
    requires ClientIp(r).Success?
    ensures var key := IpKey(t, ClientIp(r).value);
            Remaining(s, m, r, t).0 == Success(BucketFor(s, m, key, t).tokens) &&
            BucketFor(s, Remaining(s, m, r, t).1, key, t) == BucketFor(s, m, key, t) &&
            BucketFor(s, TimeUntilRefill(s, m, r, t).1, key, t) == BucketFor(s, m, key, t) &&
            Allowed(s, Remaining(s, m, r, t).1, r, t).0 == Allowed(s, m, r, t).0 &&
            (TimeUntilRefill(s, m, r, t).0 == Success(0) <== BucketFor(s, m, key, t).tokens > 0)
  {
  }

  /**
   * The wait for an empty bucket is the class's refill period in seconds;
   * ADMIN uses the global period, not its own. With the defaults an empty
   * login bucket means 300 seconds and an empty admin bucket 60.
   */
  lemma WaitForEmptyBucket(s: RateLimitSettings, m: map<string, Bucket>, r: Request, t: LimitType)
    requires ClientIp(r).Success? && BucketFor(s, m, IpKey(t, ClientIp(r).value), t).tokens <= 0
    ensures TimeUntilRefill(s, m, r, t).0 ==
              Success(Int32((if t == Global || t == Admin then s.global else BandwidthOf(s, t)).refillPeriodMinutes * 60))
    ensures s == Defaults && t == Login ==> TimeUntilRefill(s, m, r, t).0 == Success(300)
    ensures s == Defaults && t == Admin ==> TimeUntilRefill(s, m, r, t).0 == Success(60)
  {
  }

  /** `RateLimitService`: the settings and the bucket cache, keyed by "<TYPE>:<client>". */
  class RateLimitService {
    const settings: RateLimitSettings
    var buckets: map<string, Bucket>

    ghost predicate Valid()
      reads this
    {
      ValidLimits(settings) && CacheValid(buckets)
    }

    /** `initializeCache`: an empty cache. */
    constructor(settings: RateLimitSettings)
      requires ValidLimits(settings)
      ensures this.settings == settings && buckets == map[] && Valid()
    {
      this.settings := settings;
      buckets := map[];
    }

    /** `getBucket(key, type)`. */
    method GetBucket(key: string, t: LimitType) returns (b: Bucket)
      requires Valid()
      modifies this
      ensures Valid()
      ensures b == BucketFor(settings, old(buckets), key, t) && buckets == old(buckets)[key := b]
      ensures BucketValid(b)
    {
      if key in buckets {
        b := buckets[key];
      } else {
        b := NewBucket(BandwidthOf(settings, t));
        buckets := buckets[key := b];
      }
    }

    /** Take one token from the bucket for `key`. */
    method TryConsumeOne(key: string, t: LimitType) returns (allowed: bool)
      requires Valid()
      modifies this
      ensures Valid()
      ensures (allowed, buckets) == Consume(settings, old(buckets), key, t)
    {
      var b := GetBucket(key, t);
      allowed := b.tokens >= 1;
      if allowed {
        buckets := buckets[key := b.(tokens := b.tokens - 1)];
        assert buckets == old(buckets)[key := b.(tokens := b.tokens - 1)];
      }
      ConsumeTakesOne(settings, old(buckets), key, t, key);
    }

    /** `isRequestAllowed(request, type)`. */
    method IsRequestAllowed(r: Request, t: LimitType) returns (res: Result<bool, string>)
      requires Valid()
      modifies this
      ensures Valid()
      ensures (res, buckets) == Allowed(settings, old(buckets), r, t)
    {
      var ip := ClientIp(r);
      if ip.Failure? {
        return Failure(ip.error);
      }
      var allowed := TryConsumeOne(IpKey(t, ip.value), t);
      res := Success(allowed);
    }

    /** `isRequestAllowed(request, userId, type)`. */
    method IsRequestAllowedForUser(r: Request, userId: string, t: LimitType) returns (res: Result<bool, string>)
      requires Valid()
      modifies this
      ensures Valid()
      ensures (res, buckets) == AllowedForUser(settings, old(buckets), r, userId, t)
    {
      var allowed := TryConsumeOne(UserKey(t, userId), t);
      if !allowed {
        var ip := ClientIp(r);
        if ip.Failure? {
          return Failure(ip.error);
        }
      }
      res := Success(allowed);
    }

    /** `getRemainingRequests(request, type)`. */
    method GetRemainingRequests(r: Request, t: LimitType) returns (res: Result<int, string>)
      requires Valid()
      modifies this
      ensures Valid()
      ensures (res, buckets) == Remaining(settings, old(buckets), r, t)
    {
      var ip := ClientIp(r);
      if ip.Failure? {
        return Failure(ip.error);
      }
      var b := GetBucket(IpKey(t, ip.value), t);
      res := Success(b.tokens);
    }

    /** `getTimeUntilRefill(request, type)`. */
    method GetTimeUntilRefill(r: Request, t: LimitType) returns (res: Result<int, string>)
      requires Valid()
      modifies this
      ensures Valid()
      ensures (res, buckets) == TimeUntilRefill(settings, old(buckets), r, t)
    {
      var ip := ClientIp(r);
      if ip.Failure? {
        return Failure(ip.error);
      }
      var b := GetBucket(IpKey(t, ip.value), t);
      if b.tokens > 0 {
        return Success(0);
      }
      var limit := EndpointLimitOf(settings, t);
      if limit.Some? {
        return Success(Int32(limit.value.refillPeriodMinutes * 60));
      }
      res := Success(Int32(settings.global.refillPeriodMinutes * 60));
    }
  }
}
