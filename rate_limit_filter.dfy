/**
 * The servlet filter in front of every request: static, health and
 * documentation paths pass untouched; every other request is assigned a
 * limit class from its method and URI, counted against its bucket, and either
 * continues with informational headers or is answered with status 429 (Too
 * Many Requests, section 4 of RFC 6585), a Retry-After header (section
 * 10.2.3 of RFC 9110) and a small JSON body.
 */
module RateLimitFiltering {
  import opened Wrappers
  import opened Text
  import opened Http
  import opened RateLimits

  /** `shouldSkipRateLimit`. */
  predicate ShouldSkip(uri: string) {
    StartsWith(uri, "/static/") || StartsWith(uri, "/css/") || StartsWith(uri, "/js/") ||
    StartsWith(uri, "/images/") || uri == "/actuator/health" || StartsWith(uri, "/v3/api-docs") ||
    StartsWith(uri, "/swagger-ui") || uri == "/favicon.ico"
  }

  predicate EmailVerificationPath(uri: string) {
    Contains(uri, "/verify-email") || Contains(uri, "/resend-verification") || Contains(uri, "/manual-verify")
  }

  predicate PasswordResetPath(uri: string) {
    Contains(uri, "/password-reset") || Contains(uri, "/forgot-password") || Contains(uri, "/reset-password")
  }

  predicate AdminPath(uri: string) {
    StartsWith(uri, "/api/auth/admin/") || StartsWith(uri, "/api/admin/")
  }

  /** `determineRateLimitType`: the POST rules first, then the admin prefixes, then any API path; `None` for the rest. */
  function Route(uri: string, httpMethod: string): (t: Option<LimitType>)
  {
    if httpMethod == "POST" && uri == "/api/auth/login" then Some(Login)
    else if httpMethod == "POST" && uri == "/api/auth/register" then Some(Register)
    else if httpMethod == "POST" && EmailVerificationPath(uri) then Some(EmailVerification)
    else if httpMethod == "POST" && PasswordResetPath(uri) then Some(PasswordReset)
    else if AdminPath(uri) then Some(Admin)
    else if StartsWith(uri, "/api/") then Some(Global)
    else None
  }

  /**
   * The authentication classes are only ever chosen for POST; an admin path
   * is ADMIN unless a POST rule claimed it first; a path outside the API and
   * the admin prefixes has no class of its own.
   */
  lemma RouteClasses(uri: string, httpMethod: string)
    ensures Route(uri, httpMethod) in {Some(Login), Some(Register), Some(EmailVerification), Some(PasswordReset)} ==> httpMethod == "POST"
    ensures httpMethod != "POST" && AdminPath(uri) ==> Route(uri, httpMethod) == Some(Admin)
    ensures Route(uri, httpMethod) == None <==>
              (!StartsWith(uri, "/api/") && !AdminPath(uri) &&
               !(httpMethod == "POST" && (uri == "/api/auth/login" || uri == "/api/auth/register" ||
                                          EmailVerificationPath(uri) || PasswordResetPath(uri))))
  {
  }

  /**
   * The POST rules take precedence over the admin prefix: a POST to an admin
   * path that mentions manual verification is an email-verification request.
   */
  lemma AdminManualVerifyIsEmailVerification(uri: string)
    requires StartsWith(uri, "/api/auth/admin/") && Contains(uri, "/manual-verify")
    ensures Route(uri, "POST") == Some(EmailVerification)
  {
    assert uri[10] == "/api/auth/admin/"[10] == 'a';
    assert uri != "/api/auth/login" by {
      assert |uri| >= 16;
    }
    assert "/api/auth/register"[10] == 'r';
  }

  /** The class a request is counted in: a request without one of its own is GLOBAL. */
  function EffectiveType(uri: string, httpMethod: string): LimitType {
    Route(uri, httpMethod).GetOr(Global)
  }

  /** `getRateLimitInfo(type, info)`: hard-coded capacities, and hard-coded periods for any other `info`. */
  function RateLimitInfo(t: LimitType, info: string): string {
    match t
    case Login => if info == "capacity" then "5" else "5"
    case Register => if info == "capacity" then "3" else "10"
    case EmailVerification => if info == "capacity" then "3" else "15"
    case PasswordReset => if info == "capacity" then "2" else "30"
    case Admin => if info == "capacity" then "50" else "1"
    case Global => if info == "capacity" then "100" else "1"
  }

  /**
   * The advertised limit is the default configuration's capacity and the
   * other figure its refill period, whatever the actual configuration is.
   */
  lemma RateLimitInfoIsDefaults(t: LimitType, info: string)
    ensures RateLimitInfo(t, "capacity") == NatToString(BandwidthOf(Defaults, t).capacity)
    ensures info != "capacity" ==> RateLimitInfo(t, info) == NatToString(BandwidthOf(Defaults, t).refillPeriodMinutes)
  {
    assert NatToString(100) == NatToString(10) + [DigitChar(0)];
    assert NatToString(10) == NatToString(1) + [DigitChar(0)];
    assert NatToString(50) == NatToString(5) + [DigitChar(0)];
    assert NatToString(15) == NatToString(1) + [DigitChar(5)];
    assert NatToString(30) == NatToString(3) + [DigitChar(0)];
  }

  // ---------------------------------------------------------------- the filter's own client address

  /**
   * The filter's `getClientIpAddress`, used only in its log line: the same
   * as the service's except that it does not consult X-Forwarded.
   */
  function FilterClientIp(r: Request): Result<string, string> {
    var xff := Header(r, "X-Forwarded-For");
    if Usable(xff) then
      match SplitFirstAsWritten(xff.value, ',')
      case None => Failure(IndexOutOfBounds)
      case Some(first) => Success(Trim(first))
    else if Usable(Header(r, "X-Real-IP")) then Success(r.headers["X-Real-IP"])
    else Success(r.remoteAddr)
  }

  /**
   * The two lookups fail on the same requests and disagree only when
   * X-Forwarded is the first usable header, where the filter logs the peer
   * address instead. A refusal has already passed the service's lookup, so
   * its log line cannot raise.
   */
  lemma FilterClientIpAgrees(r: Request)
    ensures FilterClientIp(r).Failure? <==> ClientIp(r).Failure?
    ensures FilterClientIp(r) != ClientIp(r) <==>
              !Usable(Header(r, "X-Forwarded-For")) && !Usable(Header(r, "X-Real-IP")) &&
              Usable(Header(r, "X-Forwarded")) && r.headers["X-Forwarded"] != r.remoteAddr
  {
  }

  // ---------------------------------------------------------------- JSON body

  /** A body value: a `String`, a `Number`, or anything else by its `toString`. */
  datatype JsonValue = Text(text: string) | Number(n: int) | Other(shown: string)

  function Quoted(s: string): string {
    "\"" + s + "\""
  }

  function RenderValue(v: JsonValue): string {
    match v
    case Text(s) => Quoted(s)
    case Number(n) => IntToString(n)
    case Other(s) => Quoted(s)
  }

  /**
   * The text built so far after the given entries: an opening brace, then
   * each entry as its quoted key, a colon and its value, separated by commas.
   */
  function Opened(entries: seq<(string, JsonValue)>): (o: string)
    ensures |o| > 0 && o[0] == '{'
    decreases |entries|
  {
    if entries == [] then "{"
    else
      var init, last := entries[..|entries| - 1], entries[|entries| - 1];
      (if init == [] then "{" else Opened(init) + ",") + ("\"" + last.0 + "\":") + RenderValue(last.1)
  }

  /** `convertToJson`'s result: the entries in iteration order between braces. */
  function Json(entries: seq<(string, JsonValue)>): (j: string)
    ensures |j| >= 2 && j[0] == '{' && j[|j| - 1] == '}'
  {
    Opened(entries) + "}"
  }

  /**
   * Nothing is escaped and only numbers go unquoted: a one-entry object is
   * the key and the value verbatim, so a quote inside a text value ends
   * up unescaped in the body.
   */
  lemma JsonSingleEntry(key: string, v: JsonValue)
    ensures Json([(key, v)]) == "{\"" + key + "\":" + RenderValue(v) + "}"
  {
    assert [(key, v)][..0] == [];
  }

  /** One more entry appends a comma (unless it is the first) and the entry. */
  lemma OpenedSnoc(entries: seq<(string, JsonValue)>, i: nat)
    requires i < |entries|
    ensures Opened(entries[..i + 1]) ==
              (if i == 0 then "{" else Opened(entries[..i]) + ",") + ("\"" + entries[i].0 + "\":") + RenderValue(entries[i].1)
  {
    assert entries[..i + 1][..i] == entries[..i];
  }

  /** The body of a 429 answer. */
  function ErrorBody(t: LimitType, retryAfter: int, timestamp: string, uri: string): seq<(string, JsonValue)> {
    [("error", Text("Rate limit exceeded")),
     ("message", Text("Too many requests. Please try again later.")),
     ("limitType", Text(TypeName(t))),
     ("retryAfter", Number(retryAfter)),
     ("timestamp", Other(timestamp)),
     ("status", Number(TooManyRequests)),
     ("path", Text(uri))]
  }

  // ---------------------------------------------------------------- the decision

  const TooManyRequests := 429

  /** The response headers the filter sets. */
  datatype ResponseHeader = RetryAfter | LimitHeader | RemainingHeader | ResetHeader | PolicyHeader | ContentType

  function HeaderName(h: ResponseHeader): string {
    match h
    case RetryAfter => "Retry-After"
    case LimitHeader => "X-RateLimit-Limit"
    case RemainingHeader => "X-RateLimit-Remaining"
    case ResetHeader => "X-RateLimit-Reset"
    case PolicyHeader => "X-RateLimit-Policy"
    case ContentType => "Content-Type"
  }

  /** The security context's authentication as the filter reads it. */
  datatype Principal = Principal(name: string, authenticated: bool)

  /** `checkRateLimit`'s choice: authenticated, non-anonymous ADMIN requests are counted per user. */
  predicate PerUser(t: LimitType, auth: Option<Principal>) {
    t == Admin && auth.Some? && auth.value.authenticated && auth.value.name != "anonymousUser"
  }

  /** `checkRateLimit`: the result of the service check and the bucket cache afterwards. */
  function Check(s: RateLimitSettings, m: map<string, Bucket>, r: Request, t: LimitType, auth: Option<Principal>): (out: (Result<bool, string>, map<string, Bucket>))
  {
    if PerUser(t, auth) then AllowedForUser(s, m, r, auth.value.name, t) else Allowed(s, m, r, t)
  }

  /** The key `checkRateLimit` counts a request against. */
  function CountedKey(r: Request, t: LimitType, auth: Option<Principal>): (k: Result<string, string>)
  {
    if PerUser(t, auth) then Success(UserKey(t, auth.value.name))
    else match ClientIp(r)
      case Failure(e) => Failure(e)
      case Success(ip) => Success(IpKey(t, ip))
  }

  /**
   * A request without a class of its own is counted as GLOBAL; the key it is
   * counted against names its class, and is the user's key exactly for an
   * authenticated, non-anonymous ADMIN request and the client address's key
   * otherwise.
   */
  lemma CountedKeyOfClass(r: Request, t: LimitType, auth: Option<Principal>)
    ensures Route(r.uri, r.httpMethod).None? ==> EffectiveType(r.uri, r.httpMethod) == Global
    ensures CountedKey(r, t, auth).Success? ==> Before(CountedKey(r, t, auth).value, ':') == TypeName(t)
    ensures t != Admin || auth.None? ==> !PerUser(t, auth)
    ensures PerUser(t, auth) ==> CountedKey(r, t, auth) == Success(UserKey(Admin, auth.value.name))
    ensures !PerUser(t, auth) && ClientIp(r).Success? ==> CountedKey(r, t, auth) == Success(IpKey(t, ClientIp(r).value))
  {
    if PerUser(t, auth) {
      KeyClass(t, auth.value.name);
    } else if ClientIp(r).Success? {
      KeyClass(t, ClientIp(r).value);
    }
  }

  /** What `doFilter` does with the request: continue the chain, answer 429, or fail with an exception. */
  datatype FilterOutcome =
    | Continue(headers: map<ResponseHeader, string>)
    | Limited(status: int, headers: map<ResponseHeader, string>, body: string)
    | Raised(error: string)

  /** `addRateLimitHeaders` at time `now` (milliseconds), given the remaining-token count. */
  function PassHeaders(t: LimitType, remaining: int, now: int): map<ResponseHeader, string> {
    map[LimitHeader := RateLimitInfo(t, "capacity"), RemainingHeader := IntToString(remaining),
        ResetHeader := IntToString(now + 60000), PolicyHeader := TypeName(t)]
  }

  /** `handleRateLimitExceeded` at time `now`, given the wait in seconds and the rendered body. */
  function Denial(t: LimitType, retryAfter: int, now: int, body: string): FilterOutcome {
    Limited(TooManyRequests,
            map[ContentType := "application/json", RetryAfter := IntToString(retryAfter),
                LimitHeader := RateLimitInfo(t, "capacity"), RemainingHeader := "0",
                ResetHeader := IntToString(now + retryAfter * 1000)],
            body)
  }

  /**
   * `doFilter` as written, at time `now` with the clock reading `timestamp`:
   * the outcome and the bucket cache afterwards. The wait and the remaining
   * count are read from the IP-keyed bucket even when the request was
   * counted per user.
   */
  function FilterAsWritten(s: RateLimitSettings, m: map<string, Bucket>, r: Request, auth: Option<Principal>, now: int, timestamp: string): (out: (FilterOutcome, map<string, Bucket>))
  {
    if ShouldSkip(r.uri) then (Continue(map[]), m)
    else
      var t := EffectiveType(r.uri, r.httpMethod);
      var check := Check(s, m, r, t, auth);
      if check.0.Failure? then (Raised(check.0.error), check.1)
      else if !check.0.value then
        var wait := TimeUntilRefill(s, check.1, r, t);
        if wait.0.Failure? then (Raised(wait.0.error), wait.1)
        else (Denial(t, wait.0.value, now, Json(ErrorBody(t, wait.0.value, timestamp, r.uri))), wait.1)
      else
        var remaining := Remaining(s, check.1, r, t);
        if remaining.0.Failure? then (Raised(remaining.0.error), remaining.1)
        else (Continue(PassHeaders(t, remaining.0.value, now)), remaining.1)
  }

  /**
   * `doFilter` with the wait and the remaining count taken from the bucket
   * the request was counted against.
   */
  function Filter(s: RateLimitSettings, m: map<string, Bucket>, r: Request, auth: Option<Principal>, now: int, timestamp: string): (out: (FilterOutcome, map<string, Bucket>))
  {
    if ShouldSkip(r.uri) then (Continue(map[]), m)
    else
      var t := EffectiveType(r.uri, r.httpMethod);
      var check := Check(s, m, r, t, auth);
      if check.0.Failure? then (Raised(check.0.error), check.1)
      else
        var b := BucketFor(s, check.1, CountedKey(r, t, auth).value, t);
        if !check.0.value then (Denial(t, Wait(s, t, b), now, Json(ErrorBody(t, Wait(s, t, b), timestamp, r.uri))), check.1)
        else (Continue(PassHeaders(t, b.tokens, now)), check.1)
  }

  /** The counted key is known whenever the check did not fail. */
  lemma CheckedKeyKnown(s: RateLimitSettings, m: map<string, Bucket>, r: Request, t: LimitType, auth: Option<Principal>)
    requires Check(s, m, r, t, auth).0.Success? || !PerUser(t, auth)
    ensures !PerUser(t, auth) ==> (CountedKey(r, t, auth).Success? <==> ClientIp(r).Success?)
    ensures Check(s, m, r, t, auth).0.Success? ==> CountedKey(r, t, auth).Success?
    ensures CountedKey(r, t, auth).Success? ==>
              Check(s, m, r, t, auth).0.Success? ==>
                (Check(s, m, r, t, auth).0.value, Check(s, m, r, t, auth).1) == Consume(s, m, CountedKey(r, t, auth).value, t)
  {
  }

  /** Skipped paths continue the chain with no header and no bucket touched. */
  lemma SkippedPassThrough(s: RateLimitSettings, m: map<string, Bucket>, r: Request, auth: Option<Principal>, now: int, timestamp: string)
    requires ShouldSkip(r.uri)
    ensures Filter(s, m, r, auth, now, timestamp) == (Continue(map[]), m)
  {
  }

  /** A check that did not raise consumed from the counted key's bucket. */
  lemma CheckConsumesCountedKey(s: RateLimitSettings, m: map<string, Bucket>, r: Request, t: LimitType, auth: Option<Principal>)
    requires CountedKey(r, t, auth).Success? && Check(s, m, r, t, auth).0.Success?
    ensures (Check(s, m, r, t, auth).0.value, Check(s, m, r, t, auth).1) == Consume(s, m, CountedKey(r, t, auth).value, t)
  {
    if !PerUser(t, auth) {
      assert ClientIp(r).Success?;
    }
  }

  /**
   * Every other request is counted: it continues exactly when its bucket had
   * a token, which it then spends, and the remaining header shows the tokens
   * left.
   */
  lemma CountedRequest(s: RateLimitSettings, m: map<string, Bucket>, r: Request, auth: Option<Principal>, now: int, timestamp: string)
    requires ValidLimits(s) && !ShouldSkip(r.uri)
    requires CountedKey(r, EffectiveType(r.uri, r.httpMethod), auth).Success?
    requires Filter(s, m, r, auth, now, timestamp).0 != Raised(IndexOutOfBounds)
    ensures var t := EffectiveType(r.uri, r.httpMethod);
            var key := CountedKey(r, t, auth).value;
            var out := Filter(s, m, r, auth, now, timestamp);
            (out.0.Continue? <==> BucketFor(s, m, key, t).tokens >= 1) &&
            (out.0.Continue? ==> out.1 == Consume(s, m, key, t).1 &&
                                 out.0.headers[RemainingHeader] == IntToString(BucketFor(s, m, key, t).tokens - 1) &&
                                 out.0.headers[PolicyHeader] == TypeName(t))
  {
    var t := EffectiveType(r.uri, r.httpMethod);
    var key := CountedKey(r, t, auth).value;
    CheckConsumesCountedKey(s, m, r, t, auth);
    ConsumeTakesOne(s, m, key, t, key);
  }

  /**
   * Where a request is counted against the client's address, the filter as
   * written and the corrected one agree: the bucket the headers read is the
   * bucket that was counted.
   */
  lemma AsWrittenAgreesWhenIpKeyed(s: RateLimitSettings, m: map<string, Bucket>, r: Request, auth: Option<Principal>, now: int, timestamp: string)
    requires !PerUser(EffectiveType(r.uri, r.httpMethod), auth)
    ensures FilterAsWritten(s, m, r, auth, now, timestamp) == Filter(s, m, r, auth, now, timestamp)
  {
    if !ShouldSkip(r.uri) && ClientIp(r).Success? {
      var t := EffectiveType(r.uri, r.httpMethod);
      var key := IpKey(t, ClientIp(r).value);
      var after := Check(s, m, r, t, auth).1;
      assert key in after;
      assert after[key := BucketFor(s, after, key, t)] == after;
    }
  }

  /**
   * As written, a per-user ADMIN request that passes reads its remaining
   * count from the client's IP bucket, creating that bucket when it is not
   * cached: X-RateLimit-Remaining then shows the full ADMIN capacity while
   * the user's bucket, which was charged, has one token fewer. When the
   * address lookup raises (an X-Forwarded-For made only of commas) the filter
   * as written fails with the exception, where the request was already let
   * through. The corrected filter reports the charged bucket and caches
   * nothing beyond it.
   */
  lemma PerUserPassReadsIpBucket(s: RateLimitSettings, m: map<string, Bucket>, r: Request, name: string, now: int, timestamp: string)
    requires ValidLimits(s) && !ShouldSkip(r.uri) && EffectiveType(r.uri, r.httpMethod) == Admin
    requires name != "anonymousUser" && UserKey(Admin, name) in m && m[UserKey(Admin, name)].tokens >= 1
    ensures var auth := Some(Principal(name, true));
            var corrected := Filter(s, m, r, auth, now, timestamp);
            corrected.0.Continue? &&
            corrected.0.headers[RemainingHeader] == IntToString(m[UserKey(Admin, name)].tokens - 1) &&
            corrected.1 == Consume(s, m, UserKey(Admin, name), Admin).1
    ensures var auth := Some(Principal(name, true));
            var asWritten := FilterAsWritten(s, m, r, auth, now, timestamp);
            ClientIp(r).Failure? ==> asWritten.0 == Raised(IndexOutOfBounds)
    ensures var auth := Some(Principal(name, true));
            var asWritten := FilterAsWritten(s, m, r, auth, now, timestamp);
            ClientIp(r).Success? && IpKey(Admin, ClientIp(r).value) !in m ==>
              asWritten.0.Continue? &&
              asWritten.0.headers[RemainingHeader] == IntToString(BandwidthOf(s, Admin).capacity) &&
              IpKey(Admin, ClientIp(r).value) in asWritten.1
  {
    var auth := Some(Principal(name, true));
    var user := UserKey(Admin, name);
    assert PerUser(Admin, auth);
    ConsumeTakesOne(s, m, user, Admin, user);
    if ClientIp(r).Success? {
      var ip := IpKey(Admin, ClientIp(r).value);
      if ip !in m {
        ConsumeTakesOne(s, m, user, Admin, ip);
      }
    }
  }

  /**
   * A counted request that is refused gets 429 with "0" remaining and the
   * refill period of its class as Retry-After, and no bucket changes.
   */
  lemma RefusedRequest(s: RateLimitSettings, m: map<string, Bucket>, r: Request, auth: Option<Principal>, now: int, timestamp: string)
    requires ValidLimits(s) && !ShouldSkip(r.uri)
    requires CountedKey(r, EffectiveType(r.uri, r.httpMethod), auth).Success?
    requires Filter(s, m, r, auth, now, timestamp).0 != Raised(IndexOutOfBounds)
    requires !Filter(s, m, r, auth, now, timestamp).0.Continue?
    ensures var t := EffectiveType(r.uri, r.httpMethod);
            var out := Filter(s, m, r, auth, now, timestamp);
            out.0.Limited? && out.0.status == TooManyRequests && out.1 == m &&
            out.0.headers[RemainingHeader] == "0" &&
            out.0.headers[RetryAfter] == IntToString(Int32(RefillPeriod(s, t) * 60))
  {
    var t := EffectiveType(r.uri, r.httpMethod);
    var key := CountedKey(r, t, auth).value;
    CheckConsumesCountedKey(s, m, r, t, auth);
    DenialChangesNothing(s, m, key, t);
  }

  /**
   * As written, the wait reported for a per-user ADMIN refusal is that of the
   * client's IP bucket: while the user's bucket is empty and the IP bucket
   * has never been used, the refusal says Retry-After 0, where the bucket
   * that refused it needs the global refill period.
   */
  lemma PerUserRefusalReportsNoWait(s: RateLimitSettings, m: map<string, Bucket>, r: Request, name: string, now: int, timestamp: string)
    requires ValidLimits(s) && 0 < s.global.refillPeriodMinutes * 60 < 0x8000_0000
    requires !ShouldSkip(r.uri) && EffectiveType(r.uri, r.httpMethod) == Admin
    requires ClientIp(r).Success? && IpKey(Admin, ClientIp(r).value) !in m
    requires name != "anonymousUser" && UserKey(Admin, name) in m && m[UserKey(Admin, name)].tokens == 0
    ensures FilterAsWritten(s, m, r, Some(Principal(name, true)), now, timestamp).0.Limited?
    ensures FilterAsWritten(s, m, r, Some(Principal(name, true)), now, timestamp).0.headers[RetryAfter] == "0"
    ensures Filter(s, m, r, Some(Principal(name, true)), now, timestamp).0.headers[RetryAfter] ==
              IntToString(s.global.refillPeriodMinutes * 60)
    ensures IpKey(Admin, ClientIp(r).value) in FilterAsWritten(s, m, r, Some(Principal(name, true)), now, timestamp).1
    ensures Filter(s, m, r, Some(Principal(name, true)), now, timestamp).1 == m
  {
    var auth := Some(Principal(name, true));
    var user := UserKey(Admin, name);
    assert PerUser(Admin, auth);
    DenialChangesNothing(s, m, user, Admin);
    assert Check(s, m, r, Admin, auth) == (Success(false), m);
    assert IntToString(0) == "0";
  }

  /** `RateLimitFilter`, with the number of times it continued the chain. */
  class RateLimitFilter {
    const rateLimitService: RateLimitService
    var chainInvocations: nat

    constructor(rateLimitService: RateLimitService)
      ensures this.rateLimitService == rateLimitService && chainInvocations == 0
    {
      this.rateLimitService := rateLimitService;
      chainInvocations := 0;
    }

    /** `convertToJson`: the entries appended one by one after an opening brace. */
    method ConvertToJson(entries: seq<(string, JsonValue)>) returns (json: string)
      ensures json == Json(entries)
    {
      json := "{";
      var first := true;
      var i := 0;
      while i < |entries|
        invariant 0 <= i <= |entries|
        invariant first <==> i == 0
        invariant json == Opened(entries[..i])
      {
        OpenedSnoc(entries, i);
        if !first {
          json := json + ",";
        }
        json := json + ("\"" + entries[i].0 + "\":");
        var value := entries[i].1;
        if value.Text? {
          json := json + ("\"" + value.text + "\"");
        } else if value.Number? {
          json := json + IntToString(value.n);
        } else {
          json := json + ("\"" + value.shown + "\"");
        }
        first := false;
        i := i + 1;
      }
      assert entries[..i] == entries;
      json := json + "}";
    }

    /** `checkRateLimit(request, type)` under the authentication `auth`, with the key it counted against. */
    method CheckRateLimit(r: Request, t: LimitType, auth: Option<Principal>) returns (check: Result<bool, string>, key: string)
      requires rateLimitService.Valid()
      modifies rateLimitService
      ensures rateLimitService.Valid()
      ensures (check, rateLimitService.buckets) == Check(rateLimitService.settings, old(rateLimitService.buckets), r, t, auth)
      ensures check.Success? ==> CountedKey(r, t, auth) == Success(key) && key in rateLimitService.buckets
    {
      if PerUser(t, auth) {
        key := UserKey(t, auth.value.name);
        check := rateLimitService.IsRequestAllowedForUser(r, auth.value.name, t);
      } else {
        check := rateLimitService.IsRequestAllowed(r, t);
        var ip := ClientIp(r);
        key := if ip.Success? then IpKey(t, ip.value) else "";
      }
    }

    /** `doFilter(request)` at time `now`, under the authentication `auth`, the clock reading `timestamp`. */
    method DoFilter(r: Request, auth: Option<Principal>, now: int, timestamp: string) returns (outcome: FilterOutcome)
      requires rateLimitService.Valid()
      modifies this, rateLimitService
      ensures rateLimitService.Valid()
      ensures (outcome, rateLimitService.buckets) ==
                Filter(rateLimitService.settings, old(rateLimitService.buckets), r, auth, now, timestamp)
      ensures chainInvocations == old(chainInvocations) + (if outcome.Continue? then 1 else 0)
    {
      if ShouldSkip(r.uri) {
        chainInvocations := chainInvocations + 1;
        return Continue(map[]);
      }
      var t := EffectiveType(r.uri, r.httpMethod);
      var check, key := CheckRateLimit(r, t, auth);
      if check.Failure? {
        return Raised(check.error);
      }
      var b := rateLimitService.buckets[key];
      if !check.value {
        var retryAfter := Wait(rateLimitService.settings, t, b);
        var body := ConvertToJson(ErrorBody(t, retryAfter, timestamp, r.uri));
        return Denial(t, retryAfter, now, body);
      }
      chainInvocations := chainInvocations + 1;
      outcome := Continue(PassHeaders(t, b.tokens, now));
    }
  }
}
