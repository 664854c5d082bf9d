/**
 * The `User` entity: its columns and builder defaults, the Spring Security
 * `UserDetails` view of it (authorities, username, lock and enable flags),
 * and the `@PreUpdate` hook that stamps `updatedAt`.
 *
 * Times are integers (milliseconds since an arbitrary epoch); Java `null` is
 * `None`. The three Boolean flags are modelled as never null.
 */
module Users {
  import opened Wrappers

  datatype AuthProvider = LOCAL | GOOGLE | FACEBOOK | APPLE

  /** `AuthProvider.name()`. */
  function ProviderName(p: AuthProvider): string {
    match p
    case LOCAL => "LOCAL"
    case GOOGLE => "GOOGLE"
    case FACEBOOK => "FACEBOOK"
    case APPLE => "APPLE"
  }

  /** `AuthProvider.valueOf(name)`: `None` where Java throws. */
  function ProviderValueOf(name: string): (r: Option<AuthProvider>)
    ensures r.Some? ==> ProviderName(r.value) == name
  {
    if name == "LOCAL" then Some(LOCAL)
    else if name == "GOOGLE" then Some(GOOGLE)
    else if name == "FACEBOOK" then Some(FACEBOOK)
    else if name == "APPLE" then Some(APPLE)
    else None
  }

  lemma ProviderNameRoundTrip(p: AuthProvider)
    ensures ProviderValueOf(ProviderName(p)) == Some(p)
  {
  }

  datatype Role = Role(id: Option<int>, name: string, description: Option<string>, createdAt: int)

  /** The entity; `roles` holds the names of the linked `Role` rows (empty also for a null set). */
  datatype User = User(
    id: Option<int>,
    email: string,
    password: Option<string>,
    firstName: Option<string>,
    lastName: Option<string>,
    phoneNumber: Option<string>,
    emailVerified: bool,
    accountLocked: bool,
    enabled: bool,
    provider: AuthProvider,
    providerId: Option<string>,
    failedLoginAttempts: Option<int>,
    lastLogin: Option<int>,
    createdAt: int,
    updatedAt: Option<int>,
    roles: set<string>)

  /** `User.builder().email(email).build()` at time `now`: every `@Builder.Default`, nothing else set. */
  function Built(email: string, now: int): (u: User)
    ensures u.email == email && u.id.None? && u.password.None? && u.roles == {}
    ensures !u.emailVerified && !u.accountLocked && u.enabled
    ensures u.provider == LOCAL && u.failedLoginAttempts == Some(0)
    ensures u.createdAt == now && u.updatedAt == Some(now)
  {
    User(None, email, None, None, None, None, false, false, true, LOCAL, None, Some(0), None, now, Some(now), {})
  }

  /** The granted authority of one role name. */
  function RoleAuthority(name: string): string {
    "ROLE_" + name
  }

  /** `getAuthorities`: one "ROLE_<name>" per role, or ROLE_BUYER when there is none. */
  function Authorities(u: User): set<string> {
    if u.roles == {} then {"ROLE_BUYER"}
    else set n | n in u.roles :: RoleAuthority(n)
  }

  /** A user without roles gets exactly the default buyer authority. */
  lemma AuthoritiesDefault(u: User)
    requires u.roles == {}
    ensures Authorities(u) == {"ROLE_BUYER"}
  {
  }

  lemma RoleAuthorityInjective(a: string, b: string)
    ensures RoleAuthority(a) == RoleAuthority(b) <==> a == b
  {
    if RoleAuthority(a) == RoleAuthority(b) {
      assert a == RoleAuthority(a)[5..];
      assert b == RoleAuthority(b)[5..];
    }
  }

  /** With roles, the authorities are exactly the prefixed role names, one per role. */
  lemma AuthoritiesOfRoles(u: User, name: string)
    requires u.roles != {}
    ensures RoleAuthority(name) in Authorities(u) <==> name in u.roles
    ensures forall a :: a in Authorities(u) ==> |a| >= 5 && a[..5] == "ROLE_" && a[5..] in u.roles
  {
    if RoleAuthority(name) in Authorities(u) {
      var n :| n in u.roles && RoleAuthority(n) == RoleAuthority(name);
      RoleAuthorityInjective(n, name);
    }
  }

  /** `getUsername`. */
  function Username(u: User): string {
    u.email
  }

  /** `isAccountNonLocked`. */
  predicate IsAccountNonLocked(u: User) {
    !u.accountLocked
  }

  /** `isEnabled`. */
  predicate IsEnabled(u: User) {
    u.enabled
  }

  /** `isAccountNonExpired` and `isCredentialsNonExpired` hold for every user. */
  predicate IsAccountNonExpired(u: User) {
    true
  }

  predicate IsCredentialsNonExpired(u: User) {
    true
  }

  /** The account conditions the login path and the token filter both demand. */
  predicate LoginEligible(u: User) {
    u.emailVerified && !u.accountLocked && u.enabled
  }

  /** Eligibility is the `UserDetails` view: unlocked, enabled, not expired, plus a verified email. */
  lemma EligibleIsUserDetailsView(u: User)
    ensures LoginEligible(u) <==>
              u.emailVerified && IsAccountNonLocked(u) && IsEnabled(u) &&
              IsAccountNonExpired(u) && IsCredentialsNonExpired(u)
  {
  }

  /** `@PreUpdate`: every flushed update stamps `updatedAt` with the current time. */
  function PreUpdate(u: User, now: int): (r: User)
    ensures r.updatedAt == Some(now)
    ensures r.(updatedAt := u.updatedAt) == u
  {
    u.(updatedAt := Some(now))
  }
}
