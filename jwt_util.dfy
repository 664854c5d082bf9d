/**
 * The token codec: the HMAC key derived from the configured secret and
 * cached after its first computation, the claim sets of access and refresh
 * tokens (JSON Web Tokens, RFC 7519), and the fail-closed checks on a
 * presented token. Signing and parsing are the two functions of a
 * `TokenCodec`; nothing here depends on how they work, except that parsing
 * is handed the current time because the parser itself rejects an expired
 * token.
 */
module Jwt {
  import opened Wrappers
  import opened Text
  import opened Users
  import opened JwtConfig
  import Base64

  /** A claim value as it is put into the claims map. */
  datatype ClaimValue = Null | Num(n: int) | Str(s: string) | Flag(b: bool) | Names(items: set<string>)

  /** The names of the custom claims these tokens carry; a parsed token may carry others. */
  datatype ClaimName = UserId | FirstName | LastName | EmailVerified | Roles | Provider | TokenType | Other(name: string)

  /** The claim's name in the token's JSON payload. */
  function ClaimKey(n: ClaimName): string {
    match n
    case UserId => "userId"
    case FirstName => "firstName"
    case LastName => "lastName"
    case EmailVerified => "emailVerified"
    case Roles => "roles"
    case Provider => "provider"
    case TokenType => "tokenType"
    case Other(name) => name
  }

  /** A claim set: the custom claims plus the registered ones of section 4.1 of RFC 7519. */
  datatype Claims = Claims(
    custom: map<ClaimName, ClaimValue>,
    subject: Option<string>,
    issuer: Option<string>,
    audience: set<string>,
    issuedAt: Option<int>,
    expiration: Option<int>)

  /** The key `Keys.hmacShaKeyFor` builds from the decoded secret. */
  datatype SigningKey = SigningKey(bytes: seq<Base64.byte>)

  /** Signing a claim set, and parsing a compact token at a given time (`None` for every parse failure). */
  datatype TokenCodec = TokenCodec(sign: (SigningKey, Claims) -> string, parse: (SigningKey, string, int) -> Option<Claims>)

  /** Why `createSigningKey` refused the secret; every cause surfaces as an IllegalStateException. */
  datatype KeyFailure = BlankSecret | NotBase64Secret | ShortKey(length: nat)

  const InitializationFailed := "JWT signing key initialization failed"
  const GenerationFailed := "JWT token generation failed"
  const RefreshGenerationFailed := "Refresh token generation failed"

  /**
   * `createSigningKey`: the secret must be present and non-blank, its trimmed
   * text must be Base64 and decode to at least 32 bytes.
   */
  function CreateSigningKey(secret: Option<string>): (r: Result<SigningKey, KeyFailure>)
    ensures r.Success? <==>
              secret.Some? && !IsBlank(secret.value) && Base64.Decode(Trim(secret.value)).Some? &&
              |Base64.Decode(Trim(secret.value)).value| >= MinKeyBytes
    ensures r.Success? ==> r.value.bytes == Base64.Decode(Trim(secret.value)).value
    ensures (secret.None? || IsBlank(secret.value)) ==> r == Failure(BlankSecret)
  {
    if secret.None? || IsBlank(secret.value) then Failure(BlankSecret)
    else match Base64.Decode(Trim(secret.value))
      case None => Failure(NotBase64Secret)
      case Some(bytes) => if |bytes| < MinKeyBytes then Failure(ShortKey(|bytes|)) else Success(SigningKey(bytes))
  }

  /** Base64 text has no character the trim would strip. */
  lemma DecodableIsTrimmed(s: string)
    requires Base64.Decode(s).Some?
    ensures Trim(s) == s
  {
    Base64.DecodedHasNoWhitespace(s);
    if s != [] {
      assert Base64.IsBase64Char(s[0]) || s[0] == '=';
      assert Base64.IsBase64Char(s[|s| - 1]) || s[|s| - 1] == '=';
    }
    TrimNoOp(s);
  }

  /**
   * A secret the start-up configuration check accepts (decoded untrimmed) is
   * also accepted by the key derivation (decoded after trimming), and both
   * decode it to the same bytes.
   */
  lemma ConfiguredSecretMakesKey(p: JwtProperties)
    requires ValidateConfiguration(p).Success?
    ensures CreateSigningKey(p.secret).Success?
    ensures CreateSigningKey(p.secret).value.bytes == Base64.Decode(p.secret.value).value
  {
    DecodableIsTrimmed(p.secret.value);
  }

  /** The `userId` claim: the id, or null for an unsaved user. */
  function IdClaim(id: Option<int>): ClaimValue {
    if id.Some? then Num(id.value) else Null
  }

  function TextClaim(s: Option<string>): ClaimValue {
    if s.Some? then Str(s.value) else Null
  }

  /** The registered claims `createToken` adds around a custom claims map. */
  function Stamped(p: JwtProperties, custom: map<ClaimName, ClaimValue>, subject: string, lifetime: int, now: int): Claims {
    Claims(custom, Some(subject), Some(p.issuer), {p.audience}, Some(now), Some(now + lifetime))
  }

  /** The claim set of `generateToken` issued at `now`. */
  function AccessClaims(p: JwtProperties, u: User, now: int): (c: Claims)
    ensures c.custom.Keys == {UserId, FirstName, LastName, EmailVerified, Roles, Provider}
    ensures c.custom[UserId] == IdClaim(u.id) && c.custom[Roles] == Names(Authorities(u))
    ensures c.custom[EmailVerified] == Flag(u.emailVerified) && c.custom[Provider] == Str(ProviderName(u.provider))
    ensures c.custom[FirstName] == TextClaim(u.firstName) && c.custom[LastName] == TextClaim(u.lastName)
    ensures c.subject == Some(u.email) && c.issuer == Some(p.issuer) && c.audience == {p.audience}
    ensures c.issuedAt == Some(now) && c.expiration == Some(now + p.expiration)
  {
    var custom := map[
      UserId := IdClaim(u.id),
      FirstName := TextClaim(u.firstName),
      LastName := TextClaim(u.lastName),
      EmailVerified := Flag(u.emailVerified),
      Roles := Names(Authorities(u)),
      Provider := Str(ProviderName(u.provider))];
    Stamped(p, custom, u.email, p.expiration, now)
  }

  /** The claim set of `generateRefreshToken` issued at `now`: the user id and the refresh marker only. */
  function RefreshClaims(p: JwtProperties, u: User, now: int): (c: Claims)
    ensures c.custom == map[UserId := IdClaim(u.id), TokenType := Str("refresh")]
    ensures c.subject == Some(u.email) && c.issuer == Some(p.issuer) && c.audience == {p.audience}
    ensures c.issuedAt == Some(now) && c.expiration == Some(now + p.refreshExpiration)
  {
    Stamped(p, map[UserId := IdClaim(u.id), TokenType := Str("refresh")], u.email, p.refreshExpiration, now)
  }

  /**
   * `isTokenExpired` at time `now` with the key obtained (or not): any failure,
   * including a missing key or a token without expiry, counts as expired.
   */
  predicate IsTokenExpired(codec: TokenCodec, key: Result<SigningKey, KeyFailure>, token: string, now: int) {
    key.Failure? ||
    match codec.parse(key.value, token, now)
    case None => true
    case Some(c) => c.expiration.None? || c.expiration.value < now
  }

  /**
   * `validateToken`: false for a missing or blank token and for a missing user;
   * otherwise the token must parse, name the user's email as its subject and
   * not be expired. Every exception is turned into false.
   */
  predicate ValidateToken(codec: TokenCodec, key: Result<SigningKey, KeyFailure>, token: Option<string>, user: Option<User>, now: int) {
    token.Some? && !IsBlank(token.value) && user.Some? && key.Success? &&
    match codec.parse(key.value, token.value, now)
    case None => false
    case Some(c) => c.subject == Some(user.value.email) && !IsTokenExpired(codec, key, token.value, now)
  }

  /** `isRefreshToken`: the parsed `tokenType` claim is the text "refresh"; false on any failure. */
  predicate IsRefreshToken(codec: TokenCodec, key: Result<SigningKey, KeyFailure>, token: Option<string>, now: int) {
    token.Some? && !IsBlank(token.value) && key.Success? &&
    match codec.parse(key.value, token.value, now)
    case None => false
    case Some(c) => TokenType in c.custom && c.custom[TokenType] == Str("refresh")
  }

  /** A valid token names the user, parses, and has an expiry that has not passed. */
  lemma ValidTokenFacts(codec: TokenCodec, key: Result<SigningKey, KeyFailure>, token: Option<string>, user: Option<User>, now: int)
    requires ValidateToken(codec, key, token, user, now)
    ensures key.Success? && codec.parse(key.value, token.value, now).Some?
    ensures codec.parse(key.value, token.value, now).value.subject == Some(user.value.email)
    ensures !IsTokenExpired(codec, key, token.value, now)
    ensures codec.parse(key.value, token.value, now).value.expiration.value >= now
  {
  }

  /** Without a key nothing validates and everything is expired. */
  lemma NoKeyFailsClosed(codec: TokenCodec, key: Result<SigningKey, KeyFailure>, token: string, user: Option<User>, now: int)
    requires key.Failure?
    ensures !ValidateToken(codec, key, Some(token), user, now)
    ensures IsTokenExpired(codec, key, token, now)
    ensures !IsRefreshToken(codec, key, Some(token), now)
  {
  }

  /** The checks on a token that parses, in terms of its claims. */
  lemma ParsedTokenChecks(codec: TokenCodec, key: SigningKey, token: string, u: User, now: int, c: Claims)
    requires !IsBlank(token) && codec.parse(key, token, now) == Some(c) && c.expiration.Some?
    ensures ValidateToken(codec, Success(key), Some(token), Some(u), now) <==>
              c.subject == Some(u.email) && now <= c.expiration.value
    ensures IsRefreshToken(codec, Success(key), Some(token), now) <==>
              TokenType in c.custom && c.custom[TokenType] == Str("refresh")
  {
  }

  /**
   * A token that parses back to the claims `generateToken` put in is never a
   * refresh token, and it validates for its user exactly until its expiry.
   */
  lemma AccessTokenChecks(p: JwtProperties, codec: TokenCodec, key: SigningKey, u: User, issued: int, token: string, now: int)
    requires !IsBlank(token)
    requires codec.parse(key, token, now) == Some(AccessClaims(p, u, issued))
    ensures !IsRefreshToken(codec, Success(key), Some(token), now)
    ensures ValidateToken(codec, Success(key), Some(token), Some(u), now) <==> now <= issued + p.expiration
  {
    var c := AccessClaims(p, u, issued);
    ParsedTokenChecks(codec, key, token, u, now, c);
    assert TokenType !in c.custom.Keys;
  }

  /** A token that parses back to the refresh claims is a refresh token, and validates until its longer expiry. */
  lemma RefreshTokenChecks(p: JwtProperties, codec: TokenCodec, key: SigningKey, u: User, issued: int, token: string, now: int)
    requires !IsBlank(token)
    requires codec.parse(key, token, now) == Some(RefreshClaims(p, u, issued))
    ensures IsRefreshToken(codec, Success(key), Some(token), now)
    ensures ValidateToken(codec, Success(key), Some(token), Some(u), now) <==> now <= issued + p.refreshExpiration
  {
    ParsedTokenChecks(codec, key, token, u, now, RefreshClaims(p, u, issued));
  }

  /** Tokens and their checks, over one cached signing key. */
  class JwtUtil {
    const properties: JwtProperties
    const codec: TokenCodec
    var cachedSigningKey: Option<SigningKey>

    /** A cached key is always the one the configured secret derives. */
    ghost predicate Valid()
      reads this
    {
      cachedSigningKey.Some? ==> CreateSigningKey(properties.secret) == Success(cachedSigningKey.value)
    }

    constructor(properties: JwtProperties, codec: TokenCodec)
      ensures this.properties == properties && this.codec == codec
      ensures cachedSigningKey.None? && Valid()
    {
      this.properties := properties;
      this.codec := codec;
      cachedSigningKey := None;
    }

    /** `initializeSigningKey` (`@PostConstruct`): derive the key, or fail start-up. */
    method InitializeSigningKey() returns (r: Result<(), string>)
      requires Valid()
      modifies this
      ensures Valid()
      ensures CreateSigningKey(properties.secret).Success? ==>
                r.Success? && cachedSigningKey == Some(CreateSigningKey(properties.secret).value)
      ensures CreateSigningKey(properties.secret).Failure? ==>
                r == Failure(InitializationFailed) && cachedSigningKey == old(cachedSigningKey)
    {
      var k := CreateSigningKey(properties.secret);
      if k.Success? {
        cachedSigningKey := Some(k.value);
        r := Success(());
      } else {
        r := Failure(InitializationFailed);
      }
    }

    /**
     * `getSigningKey`: the cached key when there is one, unchanged; otherwise the
     * key is derived now and cached if the derivation succeeds.
     */
    method GetSigningKey() returns (r: Result<SigningKey, KeyFailure>)
      requires Valid()
      modifies this
      ensures Valid()
      ensures r == CreateSigningKey(properties.secret)
      ensures old(cachedSigningKey).Some? ==> cachedSigningKey == old(cachedSigningKey) && r == Success(cachedSigningKey.value)
      ensures old(cachedSigningKey).None? ==> cachedSigningKey == (if r.Success? then Some(r.value) else None)
    {
      if cachedSigningKey.Some? {
        r := Success(cachedSigningKey.value);
      } else {
        r := CreateSigningKey(properties.secret);
        if r.Success? {
          cachedSigningKey := Some(r.value);
        }
      }
    }

    /** `generateToken(user)` at time `now`: the signed access claims, or the wrapped failure. */
    method GenerateToken(user: User, now: int) returns (r: Result<string, string>)
      requires Valid()
      modifies this
      ensures Valid()
      ensures CreateSigningKey(properties.secret).Success? ==>
                r == Success(codec.sign(CreateSigningKey(properties.secret).value, AccessClaims(properties, user, now)))
      ensures CreateSigningKey(properties.secret).Failure? ==> r == Failure(GenerationFailed)
      ensures old(cachedSigningKey).Some? ==> cachedSigningKey == old(cachedSigningKey)
    {
      var key := GetSigningKey();
      if key.Success? {
        r := Success(codec.sign(key.value, AccessClaims(properties, user, now)));
      } else {
        r := Failure(GenerationFailed);
      }
    }

    /** `generateRefreshToken(user)` at time `now`. */
    method GenerateRefreshToken(user: User, now: int) returns (r: Result<string, string>)
      requires Valid()
      modifies this
      ensures Valid()
      ensures CreateSigningKey(properties.secret).Success? ==>
                r == Success(codec.sign(CreateSigningKey(properties.secret).value, RefreshClaims(properties, user, now)))
      ensures CreateSigningKey(properties.secret).Failure? ==> r == Failure(RefreshGenerationFailed)
      ensures old(cachedSigningKey).Some? ==> cachedSigningKey == old(cachedSigningKey)
    {
      var key := GetSigningKey();
      if key.Success? {
        r := Success(codec.sign(key.value, RefreshClaims(properties, user, now)));
      } else {
        r := Failure(RefreshGenerationFailed);
      }
    }

    /** `validateToken(token, user)` at time `now`. */
    method CheckToken(token: Option<string>, user: Option<User>, now: int) returns (valid: bool)
      requires Valid()
      modifies this
      ensures Valid()
      ensures valid == ValidateToken(codec, CreateSigningKey(properties.secret), token, user, now)
      ensures old(cachedSigningKey).Some? ==> cachedSigningKey == old(cachedSigningKey)
    {
      if token.None? || IsBlank(token.value) || user.None? {
        valid := false;
      } else {
        var key := GetSigningKey();
        valid := ValidateToken(codec, key, token, user, now);
      }
    }

    /** `isTokenExpired(token)` at time `now`. */
    method CheckExpired(token: string, now: int) returns (expired: bool)
      requires Valid()
      modifies this
      ensures Valid()
      ensures expired == IsTokenExpired(codec, CreateSigningKey(properties.secret), token, now)
      ensures old(cachedSigningKey).Some? ==> cachedSigningKey == old(cachedSigningKey)
    {
      var key := GetSigningKey();
      expired := IsTokenExpired(codec, key, token, now);
    }

    /** `isRefreshToken(token)` at time `now`. */
    method CheckRefreshToken(token: Option<string>, now: int) returns (refresh: bool)
      requires Valid()
      modifies this
      ensures Valid()
      ensures refresh == IsRefreshToken(codec, CreateSigningKey(properties.secret), token, now)
      ensures old(cachedSigningKey).Some? ==> cachedSigningKey == old(cachedSigningKey)
    {
      if token.None? || IsBlank(token.value) {
        refresh := false;
      } else {
        var key := GetSigningKey();
        refresh := IsRefreshToken(codec, key, token, now);
      }
    }
  }
}
