/**
 * The `jwt.*` configuration: lifetimes, issuer and audience defaults, and the
 * start-up check that the secret is set, is basic Base64 (section 4 of
 * RFC 4648) and decodes to at least 32 bytes (256 bits).
 */
module JwtConfig {
  import opened Wrappers
  import opened Text
  import Base64

  datatype JwtProperties = JwtProperties(
    secret: Option<string>,
    expiration: int,
    refreshExpiration: int,
    issuer: string,
    audience: string)

  /** The field initialisers; the secret has none and must come from the environment. */
  const Defaults: JwtProperties := JwtProperties(None, 3600000, 604800000, "LocalBite", "LocalBite-Users")

  /** The shortest HMAC key accepted, in bytes. */
  const MinKeyBytes: nat := 32

  const MissingSecret := "JWT secret must be configured via JWT_SECRET environment variable"
  const ShortSecret := "JWT secret must be at least 256 bits (32 bytes) long"
  const NotBase64 := "JWT secret must be Base64 encoded"

  /**
   * `validateConfiguration`: the IllegalStateException message for a missing,
   * blank, non-Base64 or short secret. The secret is decoded as configured,
   * without trimming; the too-short exception is not an
   * IllegalArgumentException, so it escapes the catch unchanged.
   */
  function ValidateConfiguration(p: JwtProperties): (r: Result<(), string>)
    ensures r.Success? <==>
              p.secret.Some? && !IsBlank(p.secret.value) &&
              Base64.Decode(p.secret.value).Some? && |Base64.Decode(p.secret.value).value| >= MinKeyBytes
    ensures (p.secret.None? || IsBlank(p.secret.value)) ==> r == Failure(MissingSecret)
    ensures p.secret.Some? && !IsBlank(p.secret.value) && Base64.Decode(p.secret.value).None? ==>
              r == Failure(NotBase64)
    ensures (p.secret.Some? && Base64.Decode(p.secret.value).Some? && !IsBlank(p.secret.value) &&
             |Base64.Decode(p.secret.value).value| < MinKeyBytes) ==> r == Failure(ShortSecret)
  {
    if p.secret.None? || IsBlank(p.secret.value) then Failure(MissingSecret)
    else match Base64.Decode(p.secret.value)
      case None => Failure(NotBase64)
      case Some(bytes) => if |bytes| < MinKeyBytes then Failure(ShortSecret) else Success(())
  }

  /** The shipped defaults have no secret, so an unconfigured application refuses to start. */
  lemma DefaultsRejected()
    ensures ValidateConfiguration(Defaults) == Failure(MissingSecret)
  {
  }
}
