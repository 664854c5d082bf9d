/**
 * Sign-in through Google or Facebook: the registration id picks the
 * provider's attribute names, a profile without an email is refused, an
 * unknown email creates a verified buyer account with no password, and a
 * known one is brought up to date, saved only when a field changed.
 *
 * The profile's attribute values are modelled as strings (an absent
 * attribute is `None`); the result is the linked account.
 */
module OAuth2Accounts {
  import opened Wrappers
  import opened Text
  import opened Users
  import opened Stores

  // ---------------------------------------------------------------- the profile

  datatype ProviderKind = Google | Facebook

  /** An `OAuth2UserInfo`: which subclass reads the profile, and the profile's attributes. */
  datatype OAuth2UserInfo = OAuth2UserInfo(kind: ProviderKind, attributes: map<string, string>)

  function Attribute(info: OAuth2UserInfo, name: string): Option<string> {
    if name in info.attributes then Some(info.attributes[name]) else None
  }

  /** The attribute each getter reads, by provider. */
  function IdKey(k: ProviderKind): string {
    match k
    case Google => "sub"
    case Facebook => "id"
  }

  function FirstNameKey(k: ProviderKind): string {
    match k
    case Google => "given_name"
    case Facebook => "first_name"
  }

  function LastNameKey(k: ProviderKind): string {
    match k
    case Google => "family_name"
    case Facebook => "last_name"
  }

  function Id(info: OAuth2UserInfo): Option<string> {
    Attribute(info, IdKey(info.kind))
  }

  function FirstName(info: OAuth2UserInfo): Option<string> {
    Attribute(info, FirstNameKey(info.kind))
  }

  function LastName(info: OAuth2UserInfo): Option<string> {
    Attribute(info, LastNameKey(info.kind))
  }

  /** Both providers read the email from "email". */
  function Email(info: OAuth2UserInfo): Option<string> {
    Attribute(info, "email")
  }

  /** Java's string concatenation of a possibly null value. */
  function Shown(v: Option<string>): string {
    if v.Some? then v.value else "null"
  }

  /** Google's "picture"; for Facebook, the Graph API picture of the profile id. */
  function ImageUrl(info: OAuth2UserInfo): Option<string> {
    match info.kind
    case Google => Attribute(info, "picture")
    case Facebook => Some("https://graph.facebook.com/" + Shown(Id(info)) + "/picture?type=large")
  }

  /** The attribute names of each provider, and Facebook's image URL built from the id. */
  lemma AttributeMapping(info: OAuth2UserInfo)
    ensures info.kind == Google ==>
              Id(info) == Attribute(info, "sub") && FirstName(info) == Attribute(info, "given_name") &&
              LastName(info) == Attribute(info, "family_name") && ImageUrl(info) == Attribute(info, "picture")
    ensures info.kind == Facebook ==>
              Id(info) == Attribute(info, "id") && FirstName(info) == Attribute(info, "first_name") &&
              LastName(info) == Attribute(info, "last_name")
    ensures info.kind == Facebook && Id(info).Some? ==>
              ImageUrl(info) == Some("https://graph.facebook.com/" + info.attributes["id"] + "/picture?type=large")
    ensures Email(info) == Attribute(info, "email")
  {
  }

  function Unsupported(registrationId: string): string {
    "Sorry! Login with " + registrationId + " is not supported yet."
  }

  const EmailNotFound := "Email not found from OAuth2 provider"
  /** What `AuthProvider.valueOf` raises for a name it does not know. */
  const NoSuchProvider := "IllegalArgumentException"

  /**
   * `OAuth2UserInfoFactory.getOAuth2UserInfo`: "google" or "facebook" in any
   * letter case (`equalsIgnoreCase` against a lower-case name is a test of
   * the lower-cased id; see `DispatchIsEqualsIgnoreCase`).
   */
  function UserInfoFor(registrationId: string, attributes: map<string, string>): (r: Result<OAuth2UserInfo, string>)
    ensures r.Success? ==> r.value.attributes == attributes
    ensures r.Failure? ==> r.error == Unsupported(registrationId)
  {
    var id := LowerCase(registrationId);
    if id == "google" then Success(OAuth2UserInfo(Google, attributes))
    else if id == "facebook" then Success(OAuth2UserInfo(Facebook, attributes))
    else Failure(Unsupported(registrationId))
  }

  lemma ProviderNamesLowered()
    ensures LowerCase("google") == "google" && LowerCase("facebook") == "facebook"
  {
    var g := LowerCase("google");
    assert g[0] == 'g' && g[1] == 'o' && g[2] == 'o' && g[3] == 'g' && g[4] == 'l' && g[5] == 'e';
    var f := LowerCase("facebook");
    assert f[0] == 'f' && f[1] == 'a' && f[2] == 'c' && f[3] == 'e' && f[4] == 'b' && f[5] == 'o' && f[6] == 'o' && f[7] == 'k';
  }

  /**
   * The dispatch is the source's `equalsIgnoreCase` tests, in order: Google's
   * reader for google in any casing, Facebook's for facebook, an error
   * naming the id for anything else.
   */
  lemma DispatchIsEqualsIgnoreCase(registrationId: string, attributes: map<string, string>)
    ensures UserInfoFor(registrationId, attributes).Success? <==>
              EqualsIgnoreCase("google", registrationId) || EqualsIgnoreCase("facebook", registrationId)
    ensures UserInfoFor(registrationId, attributes).Success? ==>
              (UserInfoFor(registrationId, attributes).value.kind == Google <==> EqualsIgnoreCase("google", registrationId))
  {
    ProviderNamesLowered();
  }

  /** The provider stored for a registration id: `valueOf` of its upper-cased form. */
  function ProviderOf(registrationId: string): Option<AuthProvider> {
    ProviderValueOf(UpperCase(registrationId))
  }

  lemma UpperOfGoogle(s: string)
    requires LowerCase(s) == "google"
    ensures UpperCase(s) == "GOOGLE"
  {
    var l := LowerCase(s);
    assert l[0] == 'g' && l[1] == 'o' && l[2] == 'o' && l[3] == 'g' && l[4] == 'l' && l[5] == 'e';
    var u := UpperCase(s);
    assert u[0] == 'G' && u[1] == 'O' && u[2] == 'O' && u[3] == 'G' && u[4] == 'L' && u[5] == 'E';
  }

  lemma UpperOfFacebook(s: string)
    requires LowerCase(s) == "facebook"
    ensures UpperCase(s) == "FACEBOOK"
  {
    var l := LowerCase(s);
    assert l[0] == 'f' && l[1] == 'a' && l[2] == 'c' && l[3] == 'e' && l[4] == 'b' && l[5] == 'o' && l[6] == 'o' && l[7] == 'k';
    var u := UpperCase(s);
    assert u[0] == 'F' && u[1] == 'A' && u[2] == 'C' && u[3] == 'E' && u[4] == 'B' && u[5] == 'O' && u[6] == 'O' && u[7] == 'K';
  }

  /** Every id the factory accepts names a provider, the one of its profile reader. */
  lemma DispatchedProviderExists(registrationId: string, attributes: map<string, string>)
    requires UserInfoFor(registrationId, attributes).Success?
    ensures ProviderOf(registrationId) ==
              Some(if UserInfoFor(registrationId, attributes).value.kind == Google then GOOGLE else FACEBOOK)
  {
    if LowerCase(registrationId) == "google" {
      UpperOfGoogle(registrationId);
    } else {
      UpperOfFacebook(registrationId);
    }
  }

  // ---------------------------------------------------------------- new accounts

  const DefaultRoleName := "BUYER"

  /** `createDefaultRole(name)` at time `now`, before it is saved. */
  function DefaultRole(name: string, now: int): Role {
    Role(None, name, Some("Default " + LowerCase(name) + " role"), now)
  }

  /** The roles table after the buyer role was looked up and, when missing, created. */
  function RolesWithBuyer(rt: RoleTable, now: int): (r: RoleTable)
    ensures DefaultRoleName in r.byName
    ensures DefaultRoleName in rt.byName ==> r == rt
  {
    if DefaultRoleName in rt.byName then rt
    else RoleTable(rt.byName[DefaultRoleName := DefaultRole(DefaultRoleName, now).(id := Some(rt.nextId))], rt.nextId + 1)
  }

  /** The entity `registerNewUser` builds for the profile, before it is saved. */
  function NewOAuthUser(info: OAuth2UserInfo, email: string, provider: AuthProvider, now: int): User {
    User(None, email, None, FirstName(info), LastName(info), None, true, false, true, provider, Id(info),
         Some(0), None, now, Some(now), {DefaultRoleName})
  }

  /**
   * A new provider account can sign in at once: it is verified, unlocked and
   * enabled, has no password and no failed attempt, carries the provider and
   * its profile id, and holds only the buyer role.
   */
  lemma NewOAuthUserIsEligible(info: OAuth2UserInfo, email: string, provider: AuthProvider, now: int)
    ensures var u := NewOAuthUser(info, email, provider, now);
            LoginEligible(u) && u.password.None? && u.failedLoginAttempts == Some(0) &&
            u.provider == provider && u.providerId == Id(info) && u.email == email &&
            u.firstName == FirstName(info) && u.lastName == LastName(info) &&
            u.roles == {DefaultRoleName}
  {
  }

  // ---------------------------------------------------------------- existing accounts

  /** Every column but the provider, its id, the verified flag and the names agrees. */
  predicate SameOtherColumns(u: User, v: User) {
    v.id == u.id && v.email == u.email && v.password == u.password && v.phoneNumber == u.phoneNumber &&
    v.accountLocked == u.accountLocked && v.enabled == u.enabled &&
    v.failedLoginAttempts == u.failedLoginAttempts && v.lastLogin == u.lastLogin &&
    v.createdAt == u.createdAt && v.updatedAt == u.updatedAt && v.roles == u.roles
  }

  /** The first update: a different provider replaces the provider and its id. */
  function Linked(u: User, info: OAuth2UserInfo, provider: AuthProvider): (v: User)
    ensures SameOtherColumns(u, v)
    ensures v.provider == provider && v.emailVerified == u.emailVerified
    ensures v.firstName == u.firstName && v.lastName == u.lastName
    ensures provider != u.provider ==> v.providerId == Id(info)
    ensures provider == u.provider ==> v == u
  {
    if provider != u.provider then u.(provider := provider, providerId := Id(info)) else u
  }

  /** The second: an unverified email becomes verified. */
  function Verified(u: User): (v: User)
    ensures SameOtherColumns(u, v)
    ensures v.emailVerified && v.provider == u.provider && v.providerId == u.providerId
    ensures v.firstName == u.firstName && v.lastName == u.lastName
    ensures u.emailVerified ==> v == u
  {
    if !u.emailVerified then u.(emailVerified := true) else u
  }

  /** The third and fourth: a present name that differs replaces the stored one. */
  function WithFirstName(u: User, name: Option<string>): (v: User)
    ensures SameOtherColumns(u, v)
    ensures v.emailVerified == u.emailVerified && v.provider == u.provider && v.providerId == u.providerId
    ensures v.firstName == (if name.Some? then name else u.firstName) && v.lastName == u.lastName
    ensures (name.None? || name == u.firstName) ==> v == u
  {
    if name.Some? && name != u.firstName then u.(firstName := name) else u
  }

  function WithLastName(u: User, name: Option<string>): (v: User)
    ensures SameOtherColumns(u, v)
    ensures v.emailVerified == u.emailVerified && v.provider == u.provider && v.providerId == u.providerId
    ensures v.firstName == u.firstName && v.lastName == (if name.Some? then name else u.lastName)
    ensures (name.None? || name == u.lastName) ==> v == u
  {
    if name.Some? && name != u.lastName then u.(lastName := name) else u
  }

  /** `updateExistingUser`'s field updates, in order, before `updatedAt` is stamped. */
  function Refreshed(u: User, info: OAuth2UserInfo, provider: AuthProvider): User {
    WithLastName(WithFirstName(Verified(Linked(u, info, provider)), FirstName(info)), LastName(info))
  }

  /** Some update applies: a new provider, an unverified email, or a present name that differs. */
  predicate NeedsUpdate(u: User, info: OAuth2UserInfo, provider: AuthProvider) {
    provider != u.provider || !u.emailVerified ||
    (FirstName(info).Some? && FirstName(info) != u.firstName) ||
    (LastName(info).Some? && LastName(info) != u.lastName)
  }

  /**
   * What an update leaves: the provider is the signing-in one, and its id
   * is replaced only together with a provider change; the email is
   * verified; a name is the profile's when present and the old one
   * otherwise.
   */
  lemma RefreshedFields(u: User, info: OAuth2UserInfo, provider: AuthProvider)
    ensures var v := Refreshed(u, info, provider);
            v.provider == provider &&
            v.providerId == (if provider != u.provider then Id(info) else u.providerId) &&
            v.emailVerified &&
            v.firstName == (if FirstName(info).Some? then FirstName(info) else u.firstName) &&
            v.lastName == (if LastName(info).Some? then LastName(info) else u.lastName)
  {
  }

  /** No other column changes: id, email, password, phone, flags, counter, times and roles stay. */
  lemma RefreshedKeepsOtherColumns(u: User, info: OAuth2UserInfo, provider: AuthProvider)
    ensures SameOtherColumns(u, Refreshed(u, info, provider))
  {
  }

  /** The flag that decides the save is raised exactly when the row changed. */
  lemma NeedsUpdateIffChanged(u: User, info: OAuth2UserInfo, provider: AuthProvider)
    ensures NeedsUpdate(u, info, provider) <==> Refreshed(u, info, provider) != u
  {
    RefreshedFields(u, info, provider);
    if !NeedsUpdate(u, info, provider) {
      assert Refreshed(u, info, provider) == u;
    }
  }

  /** Updating with the same profile twice changes nothing the second time. */
  lemma RefreshedIdempotent(u: User, info: OAuth2UserInfo, provider: AuthProvider)
    ensures !NeedsUpdate(Refreshed(u, info, provider), info, provider)
    ensures Refreshed(Refreshed(u, info, provider), info, provider) == Refreshed(u, info, provider)
  {
  }

  // ---------------------------------------------------------------- processing a sign-in

  /**
   * `processOAuth2User` at time `now`: the linked account, or the error, and
   * the users and roles tables afterwards.
   */
  function Process(t: UserTable, rt: RoleTable, registrationId: string, attributes: map<string, string>, now: int)
    : (out: (Result<User, string>, UserTable, RoleTable))
    ensures out.0.Failure? ==> out.1 == t && out.2 == rt
  {
    match UserInfoFor(registrationId, attributes)
    case Failure(e) => (Failure(e), t, rt)
    case Success(info) =>
      if Email(info).None? || Email(info).value == "" then (Failure(EmailNotFound), t, rt)
      else
        var email := Email(info).value;
        match ProviderOf(registrationId)
        case None => (Failure(NoSuchProvider), t, rt)
        case Some(provider) =>
          if email in t.byEmail then
            var u := t.byEmail[email];
            if NeedsUpdate(u, info, provider) then
              var v := Refreshed(u, info, provider).(updatedAt := Some(now));
              (Success(StoredRow(t, v, now)), Saved(t, v, now), rt)
            else (Success(u), t, rt)
          else
            var row := NewOAuthUser(info, email, provider, now);
            (Success(StoredRow(t, row, now)), Saved(t, row, now), RolesWithBuyer(rt, now))
  }

  /**
   * The refusals, in order: an unsupported provider (whatever the profile
   * holds), then a missing or empty email; a refused sign-in changes no
   * table, and nothing else is refused.
   */
  lemma ProcessRefusals(t: UserTable, rt: RoleTable, registrationId: string, attributes: map<string, string>, now: int)
    ensures var out := Process(t, rt, registrationId, attributes, now);
            var supported := UserInfoFor(registrationId, attributes).Success?;
            var email := if "email" in attributes then attributes["email"] else "";
            (!supported ==> out.0 == Failure(Unsupported(registrationId))) &&
            (supported && email == "" ==> out.0 == Failure(EmailNotFound)) &&
            (out.0.Failure? <==> !supported || email == "") &&
            (out.0.Failure? ==> out.1 == t && out.2 == rt)
  {
    if UserInfoFor(registrationId, attributes).Success? {
      DispatchedProviderExists(registrationId, attributes);
    }
  }

  /**
   * An unknown email gets a new account under the next id, keyed by that
   * email, with the buyer role created when missing; no other row changes.
   */
  lemma ProcessCreates(t: UserTable, rt: RoleTable, registrationId: string, attributes: map<string, string>, now: int, other: string)
    requires KeyedByEmail(t)
    requires Process(t, rt, registrationId, attributes, now).0.Success?
    requires "email" in attributes && attributes["email"] !in t.byEmail
    ensures var out := Process(t, rt, registrationId, attributes, now);
            var info := UserInfoFor(registrationId, attributes).value;
            var u := out.0.value;
            u == NewOAuthUser(info, attributes["email"], ProviderOf(registrationId).value, now).(id := Some(t.nextId)) &&
            LoginEligible(u) && u.password.None? && u.roles == {DefaultRoleName} &&
            Lookup(out.1, attributes["email"]) == Some(u) && KeyedByEmail(out.1) &&
            (other != attributes["email"] ==> Lookup(out.1, other) == Lookup(t, other)) &&
            out.2 == RolesWithBuyer(rt, now)
  {
    var info := UserInfoFor(registrationId, attributes).value;
    DispatchedProviderExists(registrationId, attributes);
    var row := NewOAuthUser(info, attributes["email"], ProviderOf(registrationId).value, now);
    NewOAuthUserIsEligible(info, attributes["email"], ProviderOf(registrationId).value, now);
    SavedKeepsOtherRows(t, row, now, other);
  }

  /**
   * A known email is brought up to date: it is written back, stamped with
   * the sign-in time, exactly when some field changed, and otherwise the
   * tables stay as they were.
   */
  lemma ProcessUpdates(t: UserTable, rt: RoleTable, registrationId: string, attributes: map<string, string>, now: int)
    requires KeyedByEmail(t)
    requires Process(t, rt, registrationId, attributes, now).0.Success?
    requires "email" in attributes && attributes["email"] in t.byEmail
    ensures var out := Process(t, rt, registrationId, attributes, now);
            var u := t.byEmail[attributes["email"]];
            var v := Refreshed(u, UserInfoFor(registrationId, attributes).value, ProviderOf(registrationId).value);
            out.2 == rt && KeyedByEmail(out.1) &&
            (v == u ==> out == (Success(u), t, rt)) &&
            (v != u ==> out.0.value == v.(updatedAt := Some(now)) &&
                        out.1.byEmail == t.byEmail[attributes["email"] := v.(updatedAt := Some(now))])
  {
    var info := UserInfoFor(registrationId, attributes).value;
    var u := t.byEmail[attributes["email"]];
    var p := ProviderOf(registrationId).value;
    NeedsUpdateIffChanged(u, info, p);
    var v := Refreshed(u, info, p).(updatedAt := Some(now));
    SavedKeepsOtherRows(t, v, now, attributes["email"]);
  }

  /** Signing in twice with the same profile makes no change the second time. */
  lemma ProcessIdempotent(t: UserTable, rt: RoleTable, registrationId: string, attributes: map<string, string>, now: int, later: int)
    requires KeyedByEmail(t)
    ensures var first := Process(t, rt, registrationId, attributes, now);
            first.0.Success? ==>
              Process(first.1, first.2, registrationId, attributes, later) == first
  {
    var first := Process(t, rt, registrationId, attributes, now);
    if first.0.Success? {
      var info := UserInfoFor(registrationId, attributes).value;
      var email := attributes["email"];
      DispatchedProviderExists(registrationId, attributes);
      var p := ProviderOf(registrationId).value;
      if email in t.byEmail {
        ProcessUpdates(t, rt, registrationId, attributes, now);
        RefreshedIdempotent(t.byEmail[email], info, p);
        var v := Refreshed(t.byEmail[email], info, p);
        assert first.1.byEmail[email] == first.0.value;
        assert !NeedsUpdate(first.0.value, info, p);
      } else {
        ProcessCreates(t, rt, registrationId, attributes, now, email);
        assert first.1.byEmail[email] == first.0.value;
      }
    }
  }

  // ---------------------------------------------------------------- the service

  class OAuth2UserService {
    const userRepository: UserRepository
    const roleRepository: RoleRepository

    constructor(users: UserRepository, roles: RoleRepository)
      ensures userRepository == users && roleRepository == roles
    {
      userRepository, roleRepository := users, roles;
    }

    /** `processOAuth2User` for a sign-in through `registrationId` with the profile `attributes`, at time `now`. */
    method ProcessOAuth2User(registrationId: string, attributes: map<string, string>, now: int) returns (r: Result<User, string>)
      modifies userRepository, roleRepository
      ensures (r, userRepository.Table(), roleRepository.Table()) ==
                Process(old(userRepository.Table()), old(roleRepository.Table()), registrationId, attributes, now)
    {
      var userInfo := UserInfoFor(registrationId, attributes);
      if userInfo.Failure? {
        return Failure(userInfo.error);
      }
      var info := userInfo.value;
      if Email(info).None? || Email(info).value == "" {
        return Failure(EmailNotFound);
      }
      var email := Email(info).value;
      var provider := ProviderOf(registrationId);
      if provider.None? {
        return Failure(NoSuchProvider);
      }
      var existing := userRepository.FindByEmail(email);
      if existing.Some? {
        var u := UpdateExistingUser(existing.value, info, provider.value, now);
        r := Success(u);
      } else {
        var u := RegisterNewUser(info, email, provider.value, now);
        r := Success(u);
      }
    }

    /** `registerNewUser`: link the buyer role (creating it if missing) and save the new account. */
    method RegisterNewUser(info: OAuth2UserInfo, email: string, provider: AuthProvider, now: int) returns (saved: User)
      modifies userRepository, roleRepository
      ensures saved == StoredRow(old(userRepository.Table()), NewOAuthUser(info, email, provider, now), now)
      ensures userRepository.Table() == Saved(old(userRepository.Table()), NewOAuthUser(info, email, provider, now), now)
      ensures roleRepository.Table() == RolesWithBuyer(old(roleRepository.Table()), now)
    {
      var role := roleRepository.FindByName(DefaultRoleName);
      if role.None? {
        var created := CreateDefaultRole(DefaultRoleName, now);
      }
      var user := NewOAuthUser(info, email, provider, now);
      saved := userRepository.Save(user, now);
    }

    /** `updateExistingUser`: apply each update that changes something, and save only if one did. */
    method UpdateExistingUser(existing: User, info: OAuth2UserInfo, provider: AuthProvider, now: int) returns (result: User)
      modifies userRepository
      ensures NeedsUpdate(existing, info, provider) ==>
                var v := Refreshed(existing, info, provider).(updatedAt := Some(now));
                result == StoredRow(old(userRepository.Table()), v, now) &&
                userRepository.Table() == Saved(old(userRepository.Table()), v, now)
      ensures !NeedsUpdate(existing, info, provider) ==> result == existing && userRepository.Table() == old(userRepository.Table())
    {
      var user := existing;
      var needsUpdate := false;
      if provider != user.provider {
        user := user.(provider := provider, providerId := Id(info));
        needsUpdate := true;
      }
      assert user == Linked(existing, info, provider);
      if !user.emailVerified {
        user := user.(emailVerified := true);
        needsUpdate := true;
      }
      assert user == Verified(Linked(existing, info, provider));
      if FirstName(info).Some? && FirstName(info) != user.firstName {
        user := user.(firstName := FirstName(info));
        needsUpdate := true;
      }
      assert user == WithFirstName(Verified(Linked(existing, info, provider)), FirstName(info));
      if LastName(info).Some? && LastName(info) != user.lastName {
        user := user.(lastName := LastName(info));
        needsUpdate := true;
      }
      assert user == Refreshed(existing, info, provider);
      NeedsUpdateIffChanged(existing, info, provider);
      if needsUpdate {
        user := user.(updatedAt := Some(now));
        user := userRepository.Save(user, now);
      }
      result := user;
    }

    /** `createDefaultRole(name)`: save a new role with the default description. */
    method CreateDefaultRole(name: string, now: int) returns (saved: Role)
      modifies roleRepository
      ensures saved == DefaultRole(name, now).(id := Some(old(roleRepository.nextId)))
      ensures roleRepository.Table() ==
                RoleTable(old(roleRepository.byName)[name := saved], old(roleRepository.nextId) + 1)
    {
      saved := roleRepository.Save(DefaultRole(name, now));
    }
  }
}
