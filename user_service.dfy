/**
 * Local accounts: registration behind three gates (an existing email gets a
 * success-shaped empty answer, only BUYER and SELLER may be requested, the
 * password must meet the policy), the login decision with its single
 * failure message and failed-attempt counter that locks an account at five,
 * and the administrator's lock, unlock, enable, disable and counter reset.
 *
 * Each operation is a function from the stored tables (and the values that
 * stand for the clock, the password encoder and the token codec) to its
 * result and the tables afterwards; the methods of `UserService` perform the
 * same steps on the repositories and are proved to end in that state.
 */
module Accounts {
  import opened Wrappers
  import opened Text
  import opened Users
  import opened Stores
  import opened PolicyProperties
  import opened PolicyService
  import JwtConfig
  import opened Jwt
  import opened EmailVerification

  datatype RegisterRequest = RegisterRequest(
    email: string,
    password: string,
    firstName: Option<string>,
    lastName: Option<string>,
    phoneNumber: Option<string>,
    role: Option<string>)

  datatype LoginRequest = LoginRequest(email: string, password: string)

  /** `AuthResponse.UserInfo`: the account without its secrets; `roles` are the authority strings. */
  datatype UserInfo = UserInfo(
    id: Option<int>,
    email: string,
    firstName: Option<string>,
    lastName: Option<string>,
    phoneNumber: Option<string>,
    emailVerified: bool,
    provider: string,
    roles: set<string>)

  datatype AuthResponse = AuthResponse(
    token: Option<string>,
    refreshToken: Option<string>,
    tokenType: string,
    expiresIn: Option<int>,
    user: Option<UserInfo>)

  const InvalidCredentials := "Invalid email or password"
  const PasswordExpired := "Your password has expired. Please reset your password to continue."
  const InvalidRole := "Invalid role specified"
  const PolicyViolationPrefix := "Password policy violation: "
  /** The exception unboxing a null counter raises in `resetFailedLoginAttempts`. */
  const NullCounter := "NullPointerException"

  /** Failed attempts at which an account is locked. */
  const LockThreshold: int := 5

  function NotFound(email: string): string {
    "User not found: " + email
  }

  /** `buildUserInfo`. */
  function Info(u: User): UserInfo {
    UserInfo(u.id, u.email, u.firstName, u.lastName, u.phoneNumber, u.emailVerified, ProviderName(u.provider), Authorities(u))
  }

  /** The answer to a registration with an email already in use: no tokens and no user, as for a fresh account. */
  const Undisclosed: AuthResponse := AuthResponse(None, None, "Bearer", None, None)

  /** The answer to a successful registration: no tokens until the email is verified. */
  function Registered(u: User): AuthResponse {
    AuthResponse(None, None, "Bearer", None, Some(Info(u)))
  }

  /** The answer carries an account, which only a registration that created one gives. */
  predicate Created(r: Result<AuthResponse, string>) {
    r.Success? && r.value.user.Some?
  }

  // ---------------------------------------------------------------- roles

  /** `isValidRole`: present, not blank, and BUYER or SELLER in any case. */
  predicate IsValidRole(role: Option<string>) {
    role.Some? && !IsBlank(role.value) && (EqualsIgnoreCase(role.value, "BUYER") || EqualsIgnoreCase(role.value, "SELLER"))
  }

  /** The two role names, lower-cased. */
  lemma RoleNamesLowered()
    ensures LowerCase("BUYER") == "buyer" && LowerCase("SELLER") == "seller"
  {
    var b := LowerCase("BUYER");
    assert b[0] == 'b' && b[1] == 'u' && b[2] == 'y' && b[3] == 'e' && b[4] == 'r';
    var s := LowerCase("SELLER");
    assert s[0] == 's' && s[1] == 'e' && s[2] == 'l' && s[3] == 'l' && s[4] == 'e' && s[5] == 'r';
  }

  /** A name that lower-cases to a role name starts with a letter, so it is not blank. */
  lemma RoleNameNotBlank(s: string)
    requires LowerCase(s) == "buyer" || LowerCase(s) == "seller"
    ensures !IsBlank(s)
  {
    assert Lower(s[0]) == LowerCase(s)[0];
    BlankIffAllControls(s);
  }

  /** ADMIN, in either casing, lower-cases to neither role name. */
  lemma AdminIsNoRoleName(name: string)
    requires name == "ADMIN" || name == "admin"
    ensures LowerCase(name) != "buyer" && LowerCase(name) != "seller"
  {
    assert LowerCase(name)[0] == 'a';
  }

  /**
   * The blank test adds nothing to the name test: exactly the two names pass,
   * in any casing, and ADMIN never does.
   */
  lemma ValidRoles(role: Option<string>)
    ensures IsValidRole(role) <==> role.Some? && (LowerCase(role.value) == "buyer" || LowerCase(role.value) == "seller")
    ensures role == Some("ADMIN") || role == Some("admin") ==> !IsValidRole(role)
  {
    RoleNamesLowered();
    if role.Some? && (LowerCase(role.value) == "buyer" || LowerCase(role.value) == "seller") {
      RoleNameNotBlank(role.value);
    }
    if role == Some("ADMIN") || role == Some("admin") {
      AdminIsNoRoleName(role.value);
    }
  }

  /** `getRoleDescription`: matched on the name exactly as given. */
  function RoleDescription(name: string): string {
    if name == "BUYER" then "Can order food and write reviews"
    else if name == "SELLER" then "Can create food listings and manage orders"
    else if name == "ADMIN" then "Full system access and user management"
    else "Basic user role"
  }

  /** The role row registration links: the stored one of that name, else a new one (`createDefaultRole`). */
  function RoleFor(rt: RoleTable, name: string, now: int): Role {
    if name in rt.byName then rt.byName[name] else Role(Some(rt.nextId), name, Some(RoleDescription(name)), now)
  }

  /** The roles table after registration looked up (and perhaps created) `name`. */
  function RolesAfter(rt: RoleTable, name: string, now: int): RoleTable {
    if name in rt.byName then rt else RoleTable(rt.byName[name := RoleFor(rt, name, now)], rt.nextId + 1)
  }

  // ---------------------------------------------------------------- registration

  /** The transient user the policy check sees: email and names, every builder default, no id. */
  function TempUser(req: RegisterRequest, now: int): User {
    Built(req.email, now).(firstName := req.firstName, lastName := req.lastName)
  }

  /** The entity `registerUser` builds and saves. */
  function NewAccount(req: RegisterRequest, encode: string -> string, roleName: string, now: int): User {
    User(None, req.email, Some(encode(req.password)), req.firstName, req.lastName, req.phoneNumber,
         false, false, true, LOCAL, None, Some(0), None, now, Some(now), {roleName})
  }

  /**
   * `registerUser` at time `now`, given the result `check` of validating the
   * password: the answer and the users and roles tables afterwards.
   */
  function Registration(t: UserTable, rt: RoleTable, req: RegisterRequest, check: Result<ValidationResult, string>,
                        encode: string -> string, now: int): (out: (Result<AuthResponse, string>, UserTable, RoleTable))
    ensures out.0.Failure? ==> out.1 == t && out.2 == rt
  {
    if req.email in t.byEmail then (Success(Undisclosed), t, rt)
    else if !IsValidRole(req.role) then (Failure(InvalidRole), t, rt)
    else if check.Failure? then (Failure(check.error), t, rt)
    else if !check.value.valid then (Failure(PolicyViolationPrefix + ViolationsMessage(check.value)), t, rt)
    else
      var role := RoleFor(rt, req.role.value, now);
      var row := NewAccount(req, encode, role.name, now);
      (Success(Registered(StoredRow(t, row, now))), Saved(t, row, now), RolesAfter(rt, req.role.value, now))
  }

  /** A registration creates an account exactly when the email is new, the role allowed and the password valid. */
  predicate Creates(t: UserTable, req: RegisterRequest, check: Result<ValidationResult, string>) {
    req.email !in t.byEmail && IsValidRole(req.role) && check.Success? && check.value.valid
  }

  /**
   * The gates in order: a known email is answered with the undisclosed
   * response and nothing changes, before the role or the password is looked
   * at; a disallowed role, then a failing or invalid password, fail without
   * change; the policy failure message lists the violations.
   */
  lemma RegistrationGates(t: UserTable, rt: RoleTable, req: RegisterRequest, check: Result<ValidationResult, string>,
                          encode: string -> string, now: int)
    ensures var out := Registration(t, rt, req, check, encode, now);
            (req.email in t.byEmail ==> out == (Success(Undisclosed), t, rt)) &&
            (req.email !in t.byEmail && !IsValidRole(req.role) ==> out == (Failure(InvalidRole), t, rt)) &&
            (req.email !in t.byEmail && IsValidRole(req.role) && check.Success? && !check.value.valid ==>
               out.0.Failure? && StartsWith(out.0.error, PolicyViolationPrefix) &&
               out.0.error[|PolicyViolationPrefix|..] == ViolationsMessage(check.value)) &&
            (out.1 != t <==> Creates(t, req, check)) &&
            (Created(out.0) <==> Creates(t, req, check))
  {
    var out := Registration(t, rt, req, check, encode, now);
    if req.email !in t.byEmail && IsValidRole(req.role) && check.Success? && !check.value.valid {
      assert out.0.error == PolicyViolationPrefix + ViolationsMessage(check.value);
    }
    if Creates(t, req, check) {
      assert req.email in out.1.byEmail;
    }
  }

  /**
   * A created account: the next id, unverified, unlocked, enabled, local, no
   * failed attempts, the encoded password and exactly the one requested role;
   * the answer carries its details and no tokens, and no other row changes.
   */
  lemma RegistrationCreatesAccount(t: UserTable, rt: RoleTable, req: RegisterRequest, check: Result<ValidationResult, string>,
                                   encode: string -> string, now: int, other: string)
    requires KeyedByEmail(t) && Creates(t, req, check)
    ensures var out := Registration(t, rt, req, check, encode, now);
            var u := out.1.byEmail[req.email];
            req.email in out.1.byEmail && KeyedByEmail(out.1) &&
            u.id == Some(t.nextId) && out.1.nextId == t.nextId + 1 &&
            !u.emailVerified && !u.accountLocked && u.enabled && u.provider == LOCAL &&
            u.failedLoginAttempts == Some(0) && u.password == Some(encode(req.password)) &&
            u.roles == {RoleFor(rt, req.role.value, now).name} && |u.roles| == 1 &&
            out.0 == Success(Registered(u)) && out.0.value.token.None? && out.0.value.refreshToken.None? &&
            (other != req.email ==> Lookup(out.1, other) == Lookup(t, other))
  {
    var row := NewAccount(req, encode, RoleFor(rt, req.role.value, now).name, now);
    SavedKeepsOtherRows(t, row, now, other);
  }

  /** The state a creating registration ends in, step by step. */
  lemma RegistrationCreated(t: UserTable, rt: RoleTable, req: RegisterRequest, check: Result<ValidationResult, string>,
                            encode: string -> string, now: int)
    requires Creates(t, req, check)
    ensures var row := NewAccount(req, encode, RoleFor(rt, req.role.value, now).name, now);
            Registration(t, rt, req, check, encode, now) ==
              (Success(Registered(StoredRow(t, row, now))), Saved(t, row, now), RolesAfter(rt, req.role.value, now)) &&
            req.email in Saved(t, row, now).byEmail && Saved(t, row, now).byEmail[req.email] == StoredRow(t, row, now)
  {
  }

  /**
   * The role is stored under the name as typed: "buyer" passes the gate but
   * links a role row named "buyer", whose authority is ROLE_buyer and whose
   * description is the generic one.
   */
  lemma RoleKeptAsTyped(rt: RoleTable, now: int)
    requires "buyer" !in rt.byName
    ensures IsValidRole(Some("buyer"))
    ensures RoleFor(rt, "buyer", now).name == "buyer"
    ensures RoleFor(rt, "buyer", now).description == Some("Basic user role")
  {
    ValidRoles(Some("buyer"));
  }

  /** With enforcement disabled any password passes, so any new email with an allowed role registers. */
  lemma DisabledPolicyAdmitsAll(tables: PasswordChecks.Tables, p: PolicySettings, t: UserTable, req: RegisterRequest,
                                matches: (string, string) -> bool, now: int)
    requires !IsEnforcementEnabled(p) && req.email !in t.byEmail && IsValidRole(req.role)
    ensures Creates(t, req, Validate(tables, p, req.password, Some(TempUser(req, now)), [], matches))
  {
  }

  // ---------------------------------------------------------------- login

  /** What the authentication manager decides once the account checks passed: a stored hash that matches. */
  predicate Authenticates(matches: (string, string) -> bool, u: User, pw: string) {
    u.password.Some? && matches(pw, u.password.value)
  }

  /** The account named by the request exists, may log in, and the password matches. */
  predicate CanAuthenticate(t: UserTable, req: LoginRequest, matches: (string, string) -> bool) {
    req.email in t.byEmail && LoginEligible(t.byEmail[req.email]) && Authenticates(matches, t.byEmail[req.email], req.password)
  }

  /** The stored counter, null read as 0. */
  function FailedAttempts(u: User): int {
    if u.failedLoginAttempts.Some? then u.failedLoginAttempts.value else 0
  }

  /** `handleFailedLogin`'s change to the row: one more failed attempt, locked from five on, stamped now. */
  function AfterFailedLogin(u: User, now: int): (r: User)
    ensures r.failedLoginAttempts == Some(FailedAttempts(u) + 1)
    ensures r.accountLocked <==> u.accountLocked || FailedAttempts(u) + 1 >= LockThreshold
    ensures r.updatedAt == Some(now)
    ensures r.(failedLoginAttempts := u.failedLoginAttempts, accountLocked := u.accountLocked, updatedAt := u.updatedAt) == u
  {
    var n := FailedAttempts(u) + 1;
    u.(failedLoginAttempts := Some(n), accountLocked := if n >= LockThreshold then true else u.accountLocked,
       updatedAt := Some(now))
  }

  /** The row after a successful login: last login now, no failed attempts. */
  function AfterLogin(u: User, now: int): User {
    u.(lastLogin := Some(now), failedLoginAttempts := Some(0))
  }

  /** The successful login's answer: both tokens, their type, the access lifetime in seconds and the user. */
  function Tokens(codec: TokenCodec, key: SigningKey, props: JwtConfig.JwtProperties, u: User, now: int): AuthResponse {
    AuthResponse(Some(codec.sign(key, AccessClaims(props, u, now))), Some(codec.sign(key, RefreshClaims(props, u, now))),
                 "Bearer", Some(JavaDiv(props.expiration, 1000)), Some(Info(u)))
  }

  /**
   * `loginUser` at time `now` as its design intends, with the failed-attempt
   * update committed on its own: the answer and the users table afterwards.
   * A rejected login on a stored account counts a failed attempt; an expired
   * password and a failure to sign are thrown after the checks and leave
   * the table alone.
   */
  function Login(t: UserTable, req: LoginRequest, matches: (string, string) -> bool, p: PolicySettings, codec: TokenCodec,
                 key: Result<SigningKey, KeyFailure>, props: JwtConfig.JwtProperties, now: int): (out: (Result<AuthResponse, string>, UserTable))
    ensures out.0.Success? ==> out.0.value.tokenType == "Bearer"
  {
    if req.email !in t.byEmail then (Failure(InvalidCredentials), t)
    else
      var u := t.byEmail[req.email];
      if !CanAuthenticate(t, req, matches) then (Failure(InvalidCredentials), Saved(t, AfterFailedLogin(u, now), now))
      else if Expiry(p, u, now).expired then (Failure(PasswordExpired), t)
      else if key.Failure? then (Failure(GenerationFailed), t)
      else (Success(Tokens(codec, key.value, props, AfterLogin(u, now), now)), Saved(t, AfterLogin(u, now), now))
  }

  /**
   * A login succeeds exactly when the account exists, may log in, the
   * password matches, the password has not expired and tokens can be signed;
   * every rejection before the expiry check carries the one generic message.
   */
  lemma LoginDecision(t: UserTable, req: LoginRequest, matches: (string, string) -> bool, p: PolicySettings, codec: TokenCodec,
                      key: Result<SigningKey, KeyFailure>, props: JwtConfig.JwtProperties, now: int)
    ensures var out := Login(t, req, matches, p, codec, key, props, now);
            (out.0.Success? <==> CanAuthenticate(t, req, matches) && !Expiry(p, t.byEmail[req.email], now).expired && key.Success?) &&
            (out.0 == Failure(InvalidCredentials) <==> !CanAuthenticate(t, req, matches)) &&
            (out.0 == Failure(PasswordExpired) <==> CanAuthenticate(t, req, matches) && Expiry(p, t.byEmail[req.email], now).expired)
  {
  }

  /**
   * A rejected login on a stored account, whatever its state, raises that
   * account's counter by one and locks it from five on, touching no other
   * field but `updatedAt` and no other row; an unknown email changes nothing.
   */
  lemma FailedLoginCounts(t: UserTable, req: LoginRequest, matches: (string, string) -> bool, p: PolicySettings, codec: TokenCodec,
                          key: Result<SigningKey, KeyFailure>, props: JwtConfig.JwtProperties, now: int, other: string)
    requires KeyedByEmail(t) && !CanAuthenticate(t, req, matches)
    ensures var out := Login(t, req, matches, p, codec, key, props, now);
            (req.email !in t.byEmail ==> out.1 == t) &&
            (req.email in t.byEmail ==>
               KeyedByEmail(out.1) &&
               Lookup(out.1, req.email) == Some(AfterFailedLogin(t.byEmail[req.email], now)) &&
               FailedAttempts(out.1.byEmail[req.email]) == FailedAttempts(t.byEmail[req.email]) + 1 &&
               (out.1.byEmail[req.email].accountLocked <==>
                  t.byEmail[req.email].accountLocked || FailedAttempts(t.byEmail[req.email]) >= LockThreshold - 1) &&
               (other != req.email ==> Lookup(out.1, other) == Lookup(t, other)))
  {
    if req.email in t.byEmail {
      var row := AfterFailedLogin(t.byEmail[req.email], now);
      SavedKeepsOtherRows(t, row, now, other);
      assert StoredRow(t, row, now) == row;
    }
  }

  /**
   * A successful login records the login time, clears the counter and
   * answers with both tokens signed over the updated row and the access
   * lifetime in whole seconds (3600 with the default configuration).
   */
  lemma SuccessfulLogin(t: UserTable, req: LoginRequest, matches: (string, string) -> bool, p: PolicySettings, codec: TokenCodec,
                        key: Result<SigningKey, KeyFailure>, props: JwtConfig.JwtProperties, now: int)
    requires KeyedByEmail(t)
    requires Login(t, req, matches, p, codec, key, props, now).0.Success?
    ensures var out := Login(t, req, matches, p, codec, key, props, now);
            var u := out.1.byEmail[req.email];
            req.email in out.1.byEmail && u.failedLoginAttempts == Some(0) && u.lastLogin == Some(now) &&
            out.0.value.token == Some(codec.sign(key.value, AccessClaims(props, AfterLogin(t.byEmail[req.email], now), now))) &&
            out.0.value.refreshToken == Some(codec.sign(key.value, RefreshClaims(props, AfterLogin(t.byEmail[req.email], now), now))) &&
            out.0.value.expiresIn == Some(JavaDiv(props.expiration, 1000)) &&
            (props.expiration == JwtConfig.Defaults.expiration ==> out.0.value.expiresIn == Some(3600))
  {
  }

  /** A locked account never logs in, and a rejected attempt keeps it locked. */
  lemma LockedStaysLocked(t: UserTable, req: LoginRequest, matches: (string, string) -> bool, p: PolicySettings, codec: TokenCodec,
                          key: Result<SigningKey, KeyFailure>, props: JwtConfig.JwtProperties, now: int)
    requires KeyedByEmail(t) && req.email in t.byEmail && t.byEmail[req.email].accountLocked
    ensures var out := Login(t, req, matches, p, codec, key, props, now);
            out.0 == Failure(InvalidCredentials) && out.1.byEmail[req.email].accountLocked
  {
    FailedLoginCounts(t, req, matches, p, codec, key, props, now, req.email);
  }

  /** The row after `n` rejected logins in a row. */
  function FailedLogins(u: User, n: nat, now: int): User
    decreases n
  {
    if n == 0 then u else AfterFailedLogin(FailedLogins(u, n - 1, now), now)
  }

  /**
   * Rejected logins add up: after `n` of them the counter has grown by `n`,
   * and the account is locked once the count reaches five (and stays locked).
   */
  lemma {:induction false} FailedLoginsAccumulate(u: User, n: nat, now: int)
    requires n > 0
    ensures FailedAttempts(FailedLogins(u, n, now)) == FailedAttempts(u) + n
    ensures FailedLogins(u, n, now).accountLocked <==> u.accountLocked || FailedAttempts(u) + n >= LockThreshold
    decreases n
  {
    if n > 1 {
      FailedLoginsAccumulate(u, n - 1, now);
    }
  }

  /**
   * `loginUser` as written: it runs in one transaction and throws after
   * `handleFailedLogin`, whose own-transaction annotation is not applied to
   * a private method called on `this`; the exception rolls the counter
   * update back, so a rejected login leaves the table as it was.
   */
  function LoginAsWritten(t: UserTable, req: LoginRequest, matches: (string, string) -> bool, p: PolicySettings, codec: TokenCodec,
                          key: Result<SigningKey, KeyFailure>, props: JwtConfig.JwtProperties, now: int): (out: (Result<AuthResponse, string>, UserTable))
    ensures out.0 == Login(t, req, matches, p, codec, key, props, now).0
  {
    var intended := Login(t, req, matches, p, codec, key, props, now);
    (intended.0, if intended.0.Failure? then t else intended.1)
  }

  /**
   * The discrepancy: a wrong password for a stored account leaves its counter
   * unchanged as written, where the intended login raises it by one, so no
   * number of failed logins ever locks an account.
   */
  lemma LoginAsWrittenNeverCounts(t: UserTable, req: LoginRequest, matches: (string, string) -> bool, p: PolicySettings, codec: TokenCodec,
                                  key: Result<SigningKey, KeyFailure>, props: JwtConfig.JwtProperties, now: int)
    requires KeyedByEmail(t) && req.email in t.byEmail && !CanAuthenticate(t, req, matches)
    ensures LoginAsWritten(t, req, matches, p, codec, key, props, now).1 == t
    ensures FailedAttempts(Login(t, req, matches, p, codec, key, props, now).1.byEmail[req.email]) ==
              FailedAttempts(t.byEmail[req.email]) + 1
  {
    FailedLoginCounts(t, req, matches, p, codec, key, props, now, req.email);
  }

  // ---------------------------------------------------------------- administration

  datatype AdminAction = Lock | Unlock | Enable | Disable

  /** The account is already where the action would put it. */
  predicate InTargetState(u: User, a: AdminAction) {
    match a
    case Lock => u.accountLocked
    case Unlock => !u.accountLocked
    case Enable => u.enabled
    case Disable => !u.enabled
  }

  /** The row the action saves; unlocking also clears the counter. */
  function Applied(u: User, a: AdminAction, now: int): (r: User)
    ensures InTargetState(r, a) && r.updatedAt == Some(now)
  {
    match a
    case Lock => u.(accountLocked := true, updatedAt := Some(now))
    case Unlock => u.(accountLocked := false, failedLoginAttempts := Some(0), updatedAt := Some(now))
    case Enable => u.(enabled := true, updatedAt := Some(now))
    case Disable => u.(enabled := false, updatedAt := Some(now))
  }

  function AlreadyMessage(a: AdminAction): string {
    match a
    case Lock => "Account is already locked"
    case Unlock => "Account is not locked"
    case Enable => "Account is already enabled"
    case Disable => "Account is already disabled"
  }

  function DoneMessage(a: AdminAction): string {
    match a
    case Lock => "Account locked successfully"
    case Unlock => "Account unlocked successfully"
    case Enable => "Account enabled successfully"
    case Disable => "Account disabled successfully"
  }

  /** `lockUserAccount`, `unlockUserAccount`, `enableUserAccount` or `disableUserAccount` at time `now`. */
  function Administer(t: UserTable, email: string, a: AdminAction, now: int): (out: (Result<string, string>, UserTable))
    ensures out.0.Failure? ==> out.1 == t
  {
    if email !in t.byEmail then (Failure(NotFound(email)), t)
    else if InTargetState(t.byEmail[email], a) then (Failure(AlreadyMessage(a)), t)
    else (Success(DoneMessage(a)), Saved(t, Applied(t.byEmail[email], a, now), now))
  }

  /**
   * An action succeeds exactly on a stored account not yet in its target
   * state, and then leaves that account in it and every other row alone; an
   * unknown email fails with "User not found: <email>".
   */
  lemma AdministerOutcome(t: UserTable, email: string, a: AdminAction, now: int, other: string)
    requires KeyedByEmail(t)
    ensures var out := Administer(t, email, a, now);
            (out.0.Success? <==> email in t.byEmail && !InTargetState(t.byEmail[email], a)) &&
            (email !in t.byEmail ==> out.0 == Failure(NotFound(email))) &&
            (email in t.byEmail && InTargetState(t.byEmail[email], a) ==> out.0 == Failure(AlreadyMessage(a))) &&
            (out.0.Success? ==> KeyedByEmail(out.1) && Lookup(out.1, email) == Some(Applied(t.byEmail[email], a, now)) &&
                                InTargetState(out.1.byEmail[email], a) &&
                                (other != email ==> Lookup(out.1, other) == Lookup(t, other)))
  {
    if email in t.byEmail && !InTargetState(t.byEmail[email], a) {
      var row := Applied(t.byEmail[email], a, now);
      SavedKeepsOtherRows(t, row, now, other);
      assert StoredRow(t, row, now) == row;
    }
  }

  /** Repeating an action is refused with its "already" message and changes nothing. */
  lemma AdministerTwiceRefused(t: UserTable, email: string, a: AdminAction, now: int, later: int)
    requires KeyedByEmail(t) && email in t.byEmail
    ensures var once := Administer(t, email, a, now);
            Administer(once.1, email, a, later) == (Failure(AlreadyMessage(a)), once.1)
  {
    AdministerOutcome(t, email, a, now, email);
  }

  /**
   * Unlocking clears the counter, so an account locked by failed logins that
   * is verified and enabled may log in again.
   */
  lemma UnlockRestoresLogin(t: UserTable, email: string, now: int)
    requires KeyedByEmail(t) && email in t.byEmail && t.byEmail[email].accountLocked
    requires t.byEmail[email].emailVerified && t.byEmail[email].enabled
    ensures var after := Administer(t, email, Unlock, now).1;
            email in after.byEmail && LoginEligible(after.byEmail[email]) &&
            after.byEmail[email].failedLoginAttempts == Some(0)
  {
    AdministerOutcome(t, email, Unlock, now, email);
  }

  /**
   * `resetFailedLoginAttempts` at time `now`: the counter becomes 0 and the
   * answer reports the previous value; a null counter fails on unboxing.
   */
  function ResetAttempts(t: UserTable, email: string, now: int): (out: (Result<string, string>, UserTable))
    ensures out.0.Failure? ==> out.1 == t
  {
    if email !in t.byEmail then (Failure(NotFound(email)), t)
    else
      var u := t.byEmail[email];
      if u.failedLoginAttempts.None? then (Failure(NullCounter), t)
      else
        (Success("Failed login attempts reset (was: " + IntToString(u.failedLoginAttempts.value) + ")"),
         Saved(t, u.(failedLoginAttempts := Some(0), updatedAt := Some(now)), now))
  }

  /**
   * A reset clears the counter of a stored account whose counter is set,
   * reports the previous count, and, unlike unlocking, leaves a lock in place.
   */
  lemma ResetClearsCounterOnly(t: UserTable, email: string, now: int)
    requires KeyedByEmail(t) && email in t.byEmail && t.byEmail[email].failedLoginAttempts.Some?
    ensures var out := ResetAttempts(t, email, now);
            var before := t.byEmail[email];
            out.0 == Success("Failed login attempts reset (was: " + IntToString(FailedAttempts(before)) + ")") &&
            email in out.1.byEmail && out.1.byEmail[email].failedLoginAttempts == Some(0) &&
            out.1.byEmail[email].accountLocked == before.accountLocked &&
            out.1.byEmail[email].enabled == before.enabled
  {
  }

  /** `getUserByEmail`. */
  function UserByEmail(t: UserTable, email: string): (r: Result<User, string>)
    ensures r.Success? <==> email in t.byEmail
    ensures r.Success? ==> r.value == t.byEmail[email]
    ensures r.Failure? ==> r.error == NotFound(email)
  {
    if email in t.byEmail then Success(t.byEmail[email]) else Failure(NotFound(email))
  }

  // ---------------------------------------------------------------- service

  /**
   * `UserService`. The password encoder is the one the policy service holds
   * (a single bean in the application).
   */
  class UserService {
    const userRepository: UserRepository
    const roleRepository: RoleRepository
    const jwtUtil: JwtUtil
    const emailVerificationService: EmailVerificationService
    const passwordPolicyService: PasswordPolicyService

    constructor(userRepository: UserRepository, roleRepository: RoleRepository, jwtUtil: JwtUtil,
                emailVerificationService: EmailVerificationService, passwordPolicyService: PasswordPolicyService)
      ensures this.userRepository == userRepository && this.roleRepository == roleRepository
      ensures this.jwtUtil == jwtUtil && this.emailVerificationService == emailVerificationService
      ensures this.passwordPolicyService == passwordPolicyService
    {
      this.userRepository := userRepository;
      this.roleRepository := roleRepository;
      this.jwtUtil := jwtUtil;
      this.emailVerificationService := emailVerificationService;
      this.passwordPolicyService := passwordPolicyService;
    }

    /**
     * `registerUser(req)` at time `now`; `fault` says whether the swallowed
     * password-history save fails. The policy check may rewrite the stored
     * policy (see `ValidatePassword`).
     */
    method RegisterUser(req: RegisterRequest, now: int, fault: StoreFault) returns (r: Result<AuthResponse, string>)
      modifies userRepository, roleRepository, passwordPolicyService.policy, passwordPolicyService.history, emailVerificationService
      ensures (r, userRepository.Table(), roleRepository.Table()) ==
                Registration(old(userRepository.Table()), old(roleRepository.Table()), req, Validate(passwordPolicyService.tables, old(passwordPolicyService.policy.Settings()), req.password,
                                      Some(TempUser(req, now)), [], passwordPolicyService.encoder.matches),
                             passwordPolicyService.encoder.encode, now)
      ensures Created(r) ==> req.email in userRepository.byEmail
      ensures emailVerificationService.outbox ==
                if Created(r) then old(emailVerificationService.outbox) + [req.email] else old(emailVerificationService.outbox)
      ensures passwordPolicyService.history.byUser ==
                if Created(r) && req.email in userRepository.byEmail then
                  StoredHistory(passwordPolicyService.policy.Settings(), userRepository.byEmail[req.email],
                                req.password, None, now, fault, passwordPolicyService.encoder, old(passwordPolicyService.history.byUser))
                else old(passwordPolicyService.history.byUser)
      ensures req.email in old(userRepository.byEmail) || !IsValidRole(req.role) ==>
                passwordPolicyService.policy.Settings() == old(passwordPolicyService.policy.Settings())
    {
      if userRepository.ExistsByEmail(req.email) {
        return Success(Undisclosed);
      }
      if !IsValidRole(req.role) {
        return Failure(InvalidRole);
      }
      var check := passwordPolicyService.ValidatePassword(req.password, Some(TempUser(req, now)));
      assert passwordPolicyService.UserHistory(Some(TempUser(req, now))) == [];
      r := RegisterChecked(req, now, fault, check);
    }

    /** The part of `registerUser` after the email and role gates, given the password check's result. */
    method RegisterChecked(req: RegisterRequest, now: int, fault: StoreFault, check: Result<ValidationResult, string>)
      returns (r: Result<AuthResponse, string>)
      requires req.email !in userRepository.byEmail && IsValidRole(req.role)
      modifies userRepository, roleRepository, passwordPolicyService.history, emailVerificationService
      ensures (r, userRepository.Table(), roleRepository.Table()) ==
                Registration(old(userRepository.Table()), old(roleRepository.Table()), req, check,
                             passwordPolicyService.encoder.encode, now)
      ensures Created(r) ==> req.email in userRepository.byEmail
      ensures emailVerificationService.outbox ==
                if Created(r) then old(emailVerificationService.outbox) + [req.email] else old(emailVerificationService.outbox)
      ensures passwordPolicyService.history.byUser ==
                if Created(r) && req.email in userRepository.byEmail then
                  StoredHistory(passwordPolicyService.policy.Settings(), userRepository.byEmail[req.email],
                                req.password, None, now, fault, passwordPolicyService.encoder, old(passwordPolicyService.history.byUser))
                else old(passwordPolicyService.history.byUser)
    {
      if check.Failure? {
        return Failure(check.error);
      }
      if !check.value.valid {
        return Failure(PolicyViolationPrefix + ViolationsMessage(check.value));
      }
      ghost var t, rt := userRepository.Table(), roleRepository.Table();
      r := CreateAccount(req, now, fault);
      RegistrationCreated(t, rt, req, check, passwordPolicyService.encoder.encode, now);
    }

    /** The part of `registerUser` after the gates: link the role, save the account, record the password, send the mail. */
    method CreateAccount(req: RegisterRequest, now: int, fault: StoreFault) returns (r: Result<AuthResponse, string>)
      requires req.email !in userRepository.byEmail && req.role.Some?
      modifies userRepository, roleRepository, passwordPolicyService.history, emailVerificationService
      ensures var row := NewAccount(req, passwordPolicyService.encoder.encode, RoleFor(old(roleRepository.Table()), req.role.value, now).name, now);
              r == Success(Registered(StoredRow(old(userRepository.Table()), row, now))) &&
              userRepository.Table() == Saved(old(userRepository.Table()), row, now) &&
              roleRepository.Table() == RolesAfter(old(roleRepository.Table()), req.role.value, now) &&
              emailVerificationService.outbox == old(emailVerificationService.outbox) + [req.email] &&
              passwordPolicyService.history.byUser ==
                StoredHistory(passwordPolicyService.policy.Settings(), StoredRow(old(userRepository.Table()), row, now),
                              req.password, None, now, fault, passwordPolicyService.encoder, old(passwordPolicyService.history.byUser))
    {
      var name := req.role.value;
      var role := roleRepository.FindByName(name);
      var linked: Role;
      if role.Some? {
        linked := role.value;
      } else {
        linked := roleRepository.Save(Role(None, name, Some(RoleDescription(name)), now));
      }
      var row := NewAccount(req, passwordPolicyService.encoder.encode, linked.name, now);
      var saved := userRepository.Save(row, now);
      passwordPolicyService.SavePasswordToHistory(saved, req.password, None, now, fault);
      emailVerificationService.SendVerificationEmail(saved);
      r := Success(Registered(saved));
    }

    /** `loginUser(req)` at time `now`, with the failed-attempt update committed on its own. */
    method LoginUser(req: LoginRequest, now: int) returns (r: Result<AuthResponse, string>)
      requires jwtUtil.Valid()
      modifies userRepository, jwtUtil
      ensures jwtUtil.Valid()
      ensures (r, userRepository.Table()) ==
                Login(old(userRepository.Table()), req, passwordPolicyService.encoder.matches, passwordPolicyService.policy.Settings(),
                      jwtUtil.codec, CreateSigningKey(jwtUtil.properties.secret), jwtUtil.properties, now)
    {
      var start := userRepository.Table();
      var user := userRepository.FindByEmail(req.email);
      var authenticated := false;
      if user.Some? && user.value.emailVerified && !user.value.accountLocked && user.value.enabled {
        authenticated := Authenticates(passwordPolicyService.encoder.matches, user.value, req.password);
      }
      if !authenticated {
        if user.Some? {
          HandleFailedLogin(req.email, now);
        }
        return Failure(InvalidCredentials);
      }
      var expiry := passwordPolicyService.CheckPasswordExpiry(user.value, now);
      if expiry.expired {
        return Failure(PasswordExpired);
      }
      var row := AfterLogin(user.value, now);
      var _ := userRepository.Save(row, now);
      var access := jwtUtil.GenerateToken(row, now);
      var refresh := jwtUtil.GenerateRefreshToken(row, now);
      if access.Failure? {
        userRepository.Rollback(start);
        return Failure(access.error);
      }
      assert refresh.Success?;
      r := Success(AuthResponse(Some(access.value), Some(refresh.value), "Bearer",
                                Some(JavaDiv(jwtUtil.properties.expiration, 1000)), Some(Info(row))));
    }

    /** `handleFailedLogin(email)` at time `now`. */
    method HandleFailedLogin(email: string, now: int)
      modifies userRepository
      ensures email in old(userRepository.byEmail) ==>
                userRepository.Table() == Saved(old(userRepository.Table()), AfterFailedLogin(old(userRepository.byEmail[email]), now), now)
      ensures email !in old(userRepository.byEmail) ==> userRepository.Table() == old(userRepository.Table())
    {
      var user := userRepository.FindByEmail(email);
      if user.Some? {
        var _ := userRepository.Save(AfterFailedLogin(user.value, now), now);
      }
    }

    /** The four account actions: look the account up, refuse a no-op, save the changed row. */
    method Act(email: string, a: AdminAction, now: int) returns (r: Result<string, string>)
      modifies userRepository
      ensures (r, userRepository.Table()) == Administer(old(userRepository.Table()), email, a, now)
    {
      var user := userRepository.FindByEmail(email);
      if user.None? {
        return Failure(NotFound(email));
      }
      if InTargetState(user.value, a) {
        return Failure(AlreadyMessage(a));
      }
      var _ := userRepository.Save(Applied(user.value, a, now), now);
      r := Success(DoneMessage(a));
    }

    /** `lockUserAccount(email, reason)`; the reason is only logged. */
    method LockUserAccount(email: string, reason: string, now: int) returns (r: Result<string, string>)
      modifies userRepository
      ensures (r, userRepository.Table()) == Administer(old(userRepository.Table()), email, Lock, now)
    {
      r := Act(email, Lock, now);
    }

    method UnlockUserAccount(email: string, now: int) returns (r: Result<string, string>)
      modifies userRepository
      ensures (r, userRepository.Table()) == Administer(old(userRepository.Table()), email, Unlock, now)
    {
      r := Act(email, Unlock, now);
    }

    method EnableUserAccount(email: string, now: int) returns (r: Result<string, string>)
      modifies userRepository
      ensures (r, userRepository.Table()) == Administer(old(userRepository.Table()), email, Enable, now)
    {
      r := Act(email, Enable, now);
    }

    /** `disableUserAccount(email, reason)`; the reason is only logged. */
    method DisableUserAccount(email: string, reason: string, now: int) returns (r: Result<string, string>)
      modifies userRepository
      ensures (r, userRepository.Table()) == Administer(old(userRepository.Table()), email, Disable, now)
    {
      r := Act(email, Disable, now);
    }

    /** `resetFailedLoginAttempts(email)` at time `now`. */
    method ResetFailedLoginAttempts(email: string, now: int) returns (r: Result<string, string>)
      modifies userRepository
      ensures (r, userRepository.Table()) == ResetAttempts(old(userRepository.Table()), email, now)
    {
      var user := userRepository.FindByEmail(email);
      if user.None? {
        return Failure(NotFound(email));
      }
      if user.value.failedLoginAttempts.None? {
        return Failure(NullCounter);
      }
      var previous := user.value.failedLoginAttempts.value;
      var _ := userRepository.Save(user.value.(failedLoginAttempts := Some(0), updatedAt := Some(now)), now);
      r := Success("Failed login attempts reset (was: " + IntToString(previous) + ")");
    }

    /** `getUserByEmail(email)`. */
    method GetUserByEmail(email: string) returns (r: Result<User, string>)
      ensures r == UserByEmail(userRepository.Table(), email)
    {
      var user := userRepository.FindByEmail(email);
      if user.None? {
        return Failure(NotFound(email));
      }
      r := Success(user.value);
    }
  }
}
