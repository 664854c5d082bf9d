/**
 * The per-request bearer-token authentication: a request whose
 * `Authorization` header is "Bearer <token>" authenticates the token's
 * subject when no authentication is present yet, the subject is a stored
 * user, the token validates for that user and the account may log in. Every
 * failure leaves the security context as it was, and the filter chain always
 * continues once.
 */
module JwtFilter {
  import opened Wrappers
  import opened Text
  import opened Users
  import opened Stores
  import opened Http
  import opened Jwt

  /** The authentication put into the security context: the user and its granted authorities. */
  datatype Authentication = Authentication(principal: User, authorities: set<string>)

  const BearerPrefix := "Bearer "

  /** The token of an `Authorization` header: the text after "Bearer ", when the header has that prefix. */
  function BearerToken(header: Option<string>): (t: Option<string>)
    ensures t.Some? <==> header.Some? && StartsWith(header.value, BearerPrefix)
    ensures t.Some? ==> header.value == BearerPrefix + t.value
  {
    if header.Some? && StartsWith(header.value, BearerPrefix) then Some(header.value[7..]) else None
  }

  /** `isAccountValid`: enabled, not locked, email verified. */
  predicate IsAccountValid(u: User) {
    u.enabled && !u.accountLocked && u.emailVerified
  }

  /** A token authenticates exactly the accounts that may log in with a password. */
  lemma AccountValidIsLoginEligible(u: User)
    ensures IsAccountValid(u) <==> LoginEligible(u)
  {
  }

  /**
   * The authentication `doFilterInternal` leaves in the context, given the
   * signing key (or the failure to derive it), the users table and the
   * authentication already present.
   */
  function Authenticated(codec: TokenCodec, key: Result<SigningKey, KeyFailure>, users: UserTable, r: Request,
                         prior: Option<Authentication>, now: int): (a: Option<Authentication>)
    ensures prior.Some? ==> a == prior
    ensures a != prior ==> a.Some? && IsAccountValid(a.value.principal) &&
                           a.value.authorities == Authorities(a.value.principal) &&
                           Lookup(users, a.value.principal.email) == Some(a.value.principal)
  {
    var token := BearerToken(Header(r, "Authorization"));
    if token.None? || key.Failure? || prior.Some? then prior
    else match codec.parse(key.value, token.value, now)
      case None => prior
      case Some(claims) =>
        if claims.subject.None? then prior
        else match Lookup(users, claims.subject.value)
          case None => prior
          case Some(u) =>
            if ValidateToken(codec, key, token, Some(u), now) && IsAccountValid(u) then
              Some(Authentication(u, Authorities(u)))
            else prior
  }

  /**
   * A request without authentication becomes authenticated exactly when it
   * carries a bearer token that validates for the stored user its subject
   * names, and that user's account is valid.
   */
  lemma AuthenticatedIff(codec: TokenCodec, key: Result<SigningKey, KeyFailure>, users: UserTable, r: Request, now: int)
    ensures Authenticated(codec, key, users, r, None, now).Some? <==>
              var token := BearerToken(Header(r, "Authorization"));
              token.Some? && key.Success? && codec.parse(key.value, token.value, now).Some? &&
              var subject := codec.parse(key.value, token.value, now).value.subject;
              subject.Some? && Lookup(users, subject.value).Some? &&
              ValidateToken(codec, key, token, Lookup(users, subject.value), now) &&
              LoginEligible(Lookup(users, subject.value).value)
  {
  }

  /** Without a bearer header the context is left alone. */
  lemma NoBearerNoChange(codec: TokenCodec, key: Result<SigningKey, KeyFailure>, users: UserTable, r: Request,
                         prior: Option<Authentication>, now: int)
    requires !("Authorization" in r.headers && StartsWith(r.headers["Authorization"], BearerPrefix))
    ensures Authenticated(codec, key, users, r, prior, now) == prior
  {
  }

  /** `JwtAuthenticationFilter`, with the security context's authentication and a count of chain invocations. */
  class JwtAuthenticationFilter {
    const jwtUtil: JwtUtil
    const userRepository: UserRepository
    var authentication: Option<Authentication>
    var chainInvocations: nat

    constructor(jwtUtil: JwtUtil, userRepository: UserRepository)
      ensures this.jwtUtil == jwtUtil && this.userRepository == userRepository
      ensures authentication.None? && chainInvocations == 0
    {
      this.jwtUtil := jwtUtil;
      this.userRepository := userRepository;
      authentication := None;
      chainInvocations := 0;
    }

    /** `doFilterInternal` at time `now`. */
    method DoFilterInternal(r: Request, now: int)
      requires jwtUtil.Valid()
      modifies this, jwtUtil
      ensures jwtUtil.Valid()
      ensures authentication == Authenticated(jwtUtil.codec, CreateSigningKey(jwtUtil.properties.secret),
                                              userRepository.Table(), r, old(authentication), now)
      ensures chainInvocations == old(chainInvocations) + 1
    {
      ghost var expected := Authenticated(jwtUtil.codec, CreateSigningKey(jwtUtil.properties.secret),
                                          userRepository.Table(), r, authentication, now);
      var header := Header(r, "Authorization");
      if header.None? || !StartsWith(header.value, BearerPrefix) {
        chainInvocations := chainInvocations + 1;
        return;
      }
      var jwt := header.value[7..];
      assert BearerToken(header) == Some(jwt);
      var key := jwtUtil.GetSigningKey();
      if key.Success? {
        var claims := jwtUtil.codec.parse(key.value, jwt, now);
        if claims.Some? && claims.value.subject.Some? && authentication.None? {
          var user := userRepository.FindByEmail(claims.value.subject.value);
          if user.Some? {
            var valid := jwtUtil.CheckToken(Some(jwt), user, now);
            if valid && IsAccountValid(user.value) {
              authentication := Some(Authentication(user.value, Authorities(user.value)));
            }
          }
        }
      }
      assert authentication == expected;
      chainInvocations := chainInvocations + 1;
    }
  }
}
