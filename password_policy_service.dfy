/**
 * The password policy engine: validation of a candidate password against the
 * enforcement-level-adjusted policy, recording a new password in the history
 * and pruning it to the newest entries, the expiry/warning arithmetic, and
 * the suggestion and requirement texts shown to users.
 *
 * Password hashing is a pair of uninterpreted functions.
 */
module PolicyService {
  import opened Wrappers
  import opened Text
  import opened Users
  import opened PolicyProperties
  import opened Stores
  import opened Http
  import opened PasswordChecks

  /** The `PasswordEncoder` bean: `encode(raw)` and `matches(raw, hash)`. */
  datatype PasswordEncoder = PasswordEncoder(encode: string -> string, matches: (string, string) -> bool)

  /** The fixed list of weak passwords, compared after lower-casing. */
  const CommonPasswords: set<string> := {
    "password", "123456", "password123", "admin", "qwerty", "letmein", "welcome",
    "monkey", "1234567890", "abc123", "111111", "dragon", "master", "sunshine",
    "iloveyou", "princess", "football", "123123", "lovely", "secret", "password1",
    "12345678", "123456789", "qwerty123", "welcome123", "admin123",
    "password12", "123abc", "welcome1", "hello123", "user", "guest", "test",
    "1234", "12345", "654321", "superman", "batman", "computer", "internet"
  }

  /** The tables the service uses. */
  const Fixed: Tables := Tables(CommonPasswords, KeyboardPatterns)

  function Messages(vs: seq<Violation>): (r: seq<string>)
    ensures |r| == |vs|
    ensures forall i :: 0 <= i < |vs| ==> r[i] == Message(vs[i])
  {
    seq(|vs|, i requires 0 <= i < |vs| => Message(vs[i]))
  }

  /** `PasswordValidationResult`. */
  datatype ValidationResult = ValidationResult(valid: bool, violations: seq<Violation>, requirements: string)

  /** `PasswordValidationResult.success()`. */
  const Passed: ValidationResult := ValidationResult(true, [], "")

  /** `getViolationsMessage`: the messages joined with "; ", or "" for none. */
  function ViolationsMessage(r: ValidationResult): (m: string)
    ensures r.violations == [] ==> m == ""
    ensures r.violations != [] ==> StartsWith(m, Message(r.violations[0]))
    ensures |r.violations| == 1 ==> m == Message(r.violations[0])
  {
    if r.violations == [] then "" else Join("; ", Messages(r.violations))
  }

  /**
   * The violations list `validatePassword` builds under the adjusted policy
   * `a`, or `None` for the exception of the personal-information check.
   */
  function Violations(t: Tables, a: PolicySettings, pw: string, user: Option<User>, hist: seq<HistoryEntry>,
                      matches: (string, string) -> bool): (r: Option<seq<Violation>>)
    ensures r.None? <==> PersonalCheck(a, pw, user).None?
    ensures r.Some? ==> r.value == Flatten(Checks(t, a, pw, user, hist, matches).value)
  {
    match Checks(t, a, pw, user, hist, matches)
    case None => None
    case Some(rep) => Some(Flatten(rep))
  }

  /** What `split("@")[0]` throws on an email made only of '@' characters. */
  const SplitFailure := "ArrayIndexOutOfBoundsException"

  /**
   * `validatePassword` with stored policy `p`: passes everything when
   * enforcement is off, and otherwise checks against the adjusted policy.
   * `hist` is the user's history, newest first.
   */
  function Validate(t: Tables, p: PolicySettings, pw: string, user: Option<User>, hist: seq<HistoryEntry>,
                    matches: (string, string) -> bool): (r: Result<ValidationResult, string>)
    ensures !IsEnforcementEnabled(p) ==> r == Success(Passed)
    ensures r.Success? ==> (r.value.valid <==> r.value.violations == [])
    ensures r.Failure? <==> IsEnforcementEnabled(p) && Violations(t, Adjusted(p), pw, user, hist, matches).None?
    ensures r.Failure? ==> r.error == SplitFailure && Adjusted(p).noPersonalInfo && user.Some?
    ensures r.Success? && IsEnforcementEnabled(p) ==>
              Violations(t, Adjusted(p), pw, user, hist, matches) == Some(r.value.violations) &&
              r.value.requirements == Requirements(Adjusted(p))
  {
    if !IsEnforcementEnabled(p) then Success(Passed)
    else
      var a := Adjusted(p);
      match Violations(t, a, pw, user, hist, matches)
      case None => Failure(SplitFailure)
      case Some(vs) => Success(ValidationResult(vs == [], vs, Requirements(a)))
  }

  /**
   * End to end: a violation is in the result of `validatePassword` exactly
   * when the check of its own kind reports it under the adjusted policy.
   */
  lemma ValidateReportsEachRule(t: Tables, p: PolicySettings, pw: string, user: Option<User>, hist: seq<HistoryEntry>,
                                matches: (string, string) -> bool, res: ValidationResult, v: Violation)
    requires IsEnforcementEnabled(p)
    requires Validate(t, p, pw, user, hist, matches) == Success(res)
    ensures v in res.violations <==> v in Part(Checks(t, Adjusted(p), pw, user, hist, matches).value, RuleOf(v))
  {
    InFlattenIffReported(Checks(t, Adjusted(p), pw, user, hist, matches).value, v);
  }

  // ----------------------------------------------------------- requirements

  /** The "must include" items of `generatePasswordRequirements`. */
  function RequirementItems(a: PolicySettings): seq<string> {
    (if a.requireUppercase then ["uppercase letters"] else []) +
    (if a.requireLowercase then ["lowercase letters"] else []) +
    (if a.requireDigits then ["numbers"] else []) +
    (if a.requireSpecialChars then ["special characters"] else [])
  }

  lemma RequirementItemsListFlags(a: PolicySettings)
    ensures "uppercase letters" in RequirementItems(a) <==> a.requireUppercase
    ensures "lowercase letters" in RequirementItems(a) <==> a.requireLowercase
    ensures "numbers" in RequirementItems(a) <==> a.requireDigits
    ensures "special characters" in RequirementItems(a) <==> a.requireSpecialChars
    ensures RequirementItems(a) == [] <==>
              !(a.requireUppercase || a.requireLowercase || a.requireDigits || a.requireSpecialChars)
  {
  }

  function Requirements(a: PolicySettings): string {
    var items := RequirementItems(a);
    "Password requirements: " + IntToString(a.minLength) + "-" + IntToString(a.maxLength) + " characters" +
    (if items != [] then ", must include " + Join(", ", items) else "")
  }

  // ------------------------------------------------------------ suggestions

  /** One of the hints `generatePasswordSuggestions` can give. */
  datatype Hint = MixCase | Digits(minDigits: int) | Specials(minSpecial: int) | Length(minLength: int)
                | AvoidCommon | AvoidPersonal | Passphrase

  function HintText(h: Hint): string {
    match h
    case MixCase => "Use a mix of uppercase and lowercase letters"
    case Digits(n) => "Include at least " + IntToString(n) + " number(s)"
    case Specials(n) => "Include at least " + IntToString(n) + " special character(s): " + AllowedSpecialChars
    case Length(n) => "Make it at least " + IntToString(n) + " characters long"
    case AvoidCommon => "Avoid common passwords like 'password123' or 'qwerty'"
    case AvoidPersonal => "Don't use personal information like your name or email"
    case Passphrase => "Consider using a passphrase with multiple words"
  }

  function When(b: bool, h: Hint): seq<Hint> {
    if b then [h] else []
  }

  /** The hints for the adjusted policy `a`, in the order they are given. */
  function Hints(a: PolicySettings): seq<Hint> {
    [MixCase] + When(a.requireDigits, Digits(a.minDigits)) + When(a.requireSpecialChars, Specials(a.minSpecialChars)) +
    [Length(a.minLength)] + When(a.noCommonPasswords, AvoidCommon) + When(a.noPersonalInfo, AvoidPersonal) + [Passphrase]
  }

  function Texts(hs: seq<Hint>): (r: seq<string>)
    ensures |r| == |hs|
    ensures forall i :: 0 <= i < |hs| ==> r[i] == HintText(hs[i])
  {
    seq(|hs|, i requires 0 <= i < |hs| => HintText(hs[i]))
  }

  /** `generatePasswordSuggestions` for the adjusted policy `a`. */
  function Suggestions(a: PolicySettings): seq<string> {
    Texts(Hints(a))
  }

  function Flag(b: bool): nat {
    if b then 1 else 0
  }

  /**
   * There are three fixed hints plus one per enabled rule, opening with the
   * mixed-case hint, closing with the passphrase hint, and always naming the
   * minimum length.
   */
  lemma HintsShape(a: PolicySettings)
    ensures |Hints(a)| ==
              3 + Flag(a.requireDigits) + Flag(a.requireSpecialChars) + Flag(a.noCommonPasswords) + Flag(a.noPersonalInfo)
    ensures Hints(a)[0] == MixCase && Hints(a)[|Hints(a)| - 1] == Passphrase
    ensures Length(a.minLength) in Hints(a)
    ensures Digits(a.minDigits) in Hints(a) <==> a.requireDigits
    ensures Specials(a.minSpecialChars) in Hints(a) <==> a.requireSpecialChars
    ensures AvoidCommon in Hints(a) <==> a.noCommonPasswords
    ensures AvoidPersonal in Hints(a) <==> a.noPersonalInfo
  {
  }

  /** The body of `generatePasswordSuggestions`: the hints for the adjusted policy `a`, appended in order. */
  method CollectHints(a: PolicySettings) returns (hints: seq<Hint>)
    ensures hints == Hints(a)
  {
    hints := [MixCase];
    if a.requireDigits {
      hints := hints + [Digits(a.minDigits)];
    }
    if a.requireSpecialChars {
      hints := hints + [Specials(a.minSpecialChars)];
    }
    hints := hints + [Length(a.minLength)];
    if a.noCommonPasswords {
      hints := hints + [AvoidCommon];
    }
    if a.noPersonalInfo {
      hints := hints + [AvoidPersonal];
    }
    hints := hints + [Passphrase];
  }

  /** With enforcement off only the three fixed hints remain, at length 1. */
  lemma DisabledSuggestions(p: PolicySettings)
    requires p.enforcementLevel == DISABLED
    ensures Hints(Adjusted(p)) == [MixCase, Length(1), Passphrase]
    ensures Suggestions(Adjusted(p))[1] == "Make it at least 1 characters long"
  {
    assert DigitChar(1) == '1';
    assert IntToString(1) == "1";
  }

  // ------------------------------------------------------------------ expiry

  /** `PasswordExpiryInfo`. */
  datatype ExpiryInfo = ExpiryInfo(expired: bool, warning: bool, daysUntilExpiry: int)

  const DayMillis: int := 86_400_000

  /** The instant the password age is measured from: the last update, else creation. */
  function PasswordReference(u: User): int {
    if u.updatedAt.Some? then u.updatedAt.value else u.createdAt
  }

  /** `checkPasswordExpiry` at time `now` (milliseconds) under stored policy `p`. */
  function Expiry(p: PolicySettings, u: User, now: int): (r: ExpiryInfo)
    ensures !IsEnforcementEnabled(p) || p.expiryDays <= 0 ==> r == ExpiryInfo(false, false, 0)
    ensures r.warning ==> !r.expired
    ensures r.daysUntilExpiry >= 0
    ensures r.expired ==> r.daysUntilExpiry == 0
  {
    if !IsEnforcementEnabled(p) || p.expiryDays <= 0 then ExpiryInfo(false, false, 0)
    else
      var expiryDate := PasswordReference(u) + p.expiryDays * DayMillis;
      var warningDate := expiryDate - p.warnBeforeExpiryDays * DayMillis;
      var expired := now > expiryDate;
      var warning := now > warningDate && !expired;
      var days := JavaDiv(expiryDate - now, DayMillis);
      ExpiryInfo(expired, warning, if days < 0 then 0 else days)
  }

  /**
   * With expiry on, a password is expired exactly when more than `expiryDays`
   * days have passed since its reference instant; otherwise the remaining
   * whole days are reported, rounded down.
   */
  lemma ExpiryCharacterized(p: PolicySettings, u: User, now: int)
    requires IsEnforcementEnabled(p) && p.expiryDays > 0
    ensures Expiry(p, u, now).expired <==> now - PasswordReference(u) > p.expiryDays * DayMillis
    ensures Expiry(p, u, now).warning <==>
              now - PasswordReference(u) > (p.expiryDays - p.warnBeforeExpiryDays) * DayMillis &&
              now - PasswordReference(u) <= p.expiryDays * DayMillis
    ensures !Expiry(p, u, now).expired ==>
              Expiry(p, u, now).daysUntilExpiry * DayMillis <= PasswordReference(u) + p.expiryDays * DayMillis - now <
              (Expiry(p, u, now).daysUntilExpiry + 1) * DayMillis
  {
  }

  /** Saving a user stamps `updatedAt`, so a save at `now` restarts the expiry clock. */
  lemma SaveRestartsExpiry(p: PolicySettings, u: User, now: int)
    requires IsEnforcementEnabled(p) && p.expiryDays > 0
    ensures !Expiry(p, PreUpdate(u, now), now).expired
    ensures Expiry(p, PreUpdate(u, now), now).daysUntilExpiry == p.expiryDays
  {
    assert PasswordReference(PreUpdate(u, now)) == now;
    assert (p.expiryDays * DayMillis) / DayMillis == p.expiryDays;
  }

  // ----------------------------------------------------------------- history

  /** The newest `keep` entries of a newest-first list (`cleanupOldPasswordHistory`). */
  function Pruned(hist: seq<HistoryEntry>, keep: int): (r: seq<HistoryEntry>)
    requires keep > 0
    ensures |r| == if |hist| <= keep then |hist| else keep
    ensures r == hist[..|r|]
    ensures |hist| <= keep ==> r == hist
  {
    if |hist| > keep then hist[..keep] else hist
  }

  /**
   * The client address recorded with a history entry: "unknown" without a
   * request, else the first `X-Forwarded-For` value trimmed, else the peer
   * address. `None` is the exception `split` raises for a header made only of
   * commas.
   */
  function HistoryClientIp(request: Option<Request>): Option<string> {
    if request.None? then Some("unknown")
    else
      var xff := Header(request.value, "X-Forwarded-For");
      if xff.Some? && xff.value != "" then
        match SplitFirstAsWritten(xff.value, ',')
        case None => None
        case Some(first) => Some(Trim(first))
      else Some(request.value.remoteAddr)
  }

  /** Where a repository call inside `savePasswordToHistory` fails. */
  datatype StoreFault = NoFault | SaveFails | CleanupFails

  /**
   * The entry `savePasswordToHistory` writes, or `None` when nothing is
   * written: enforcement off, retention off, a user without an id, or an
   * exception before or in `save` (all swallowed).
   */
  function NewHistoryEntry(p: PolicySettings, u: User, pw: string, request: Option<Request>, now: int,
                           fault: StoreFault, encoder: PasswordEncoder): Option<HistoryEntry>
  {
    if !IsEnforcementEnabled(p) || p.rememberPreviousPasswords <= 0 || u.id.None? || fault == SaveFails then None
    else match HistoryClientIp(request)
      case None => None
      case Some(ip) =>
        var agent := if request.Some? then Header(request.value, "User-Agent") else None;
        Some(HistoryEntry(encoder.encode(pw), ip, agent, now))
  }

  /** The user's history after `savePasswordToHistory`, given their history before. */
  function HistoryAfterSave(p: PolicySettings, u: User, pw: string, request: Option<Request>, now: int,
                            fault: StoreFault, encoder: PasswordEncoder, before: seq<HistoryEntry>): (r: seq<HistoryEntry>)
  {
    match NewHistoryEntry(p, u, pw, request, now, fault, encoder)
    case None => before
    case Some(e) => if fault == CleanupFails then [e] + before else Pruned([e] + before, p.rememberPreviousPasswords)
  }

  /** The whole history store after `savePasswordToHistory`: only the user's own list can change. */
  function StoredHistory(p: PolicySettings, u: User, pw: string, request: Option<Request>, now: int,
                         fault: StoreFault, encoder: PasswordEncoder, byUser: map<int, seq<HistoryEntry>>): (r: map<int, seq<HistoryEntry>>)
    ensures NewHistoryEntry(p, u, pw, request, now, fault, encoder).None? ==> r == byUser
    ensures forall id :: id in byUser && (u.id.None? || id != u.id.value) ==> id in r && r[id] == byUser[id]
  {
    if NewHistoryEntry(p, u, pw, request, now, fault, encoder).None? then byUser
    else
      var id := u.id.value;
      byUser[id := HistoryAfterSave(p, u, pw, request, now, fault, encoder, if id in byUser then byUser[id] else [])]
  }

  /**
   * A successful save leaves the new entry first and the newest
   * min(`rememberPreviousPasswords`, size) entries; when nothing is
   * written the history is as before.
   */
  lemma HistoryAfterSaveKeepsNewest(p: PolicySettings, u: User, pw: string, request: Option<Request>, now: int,
                                    encoder: PasswordEncoder, before: seq<HistoryEntry>)
    ensures var e := NewHistoryEntry(p, u, pw, request, now, NoFault, encoder);
            var r := HistoryAfterSave(p, u, pw, request, now, NoFault, encoder, before);
            if e.None? then r == before
            else |r| == (if |before| < p.rememberPreviousPasswords then |before| + 1 else p.rememberPreviousPasswords) &&
                 r[0] == e.value && r == ([e.value] + before)[..|r|] &&
                 (|before| < p.rememberPreviousPasswords ==> r == [e.value] + before)
  {
  }

  /** After saving `pw`, validating it again under a sound encoder reports it as recently used. */
  lemma SavedPasswordIsRecentlyUsed(t: Tables, p: PolicySettings, u: User, pw: string, request: Option<Request>, now: int,
                                    encoder: PasswordEncoder, before: seq<HistoryEntry>, res: ValidationResult)
    requires encoder.matches(pw, encoder.encode(pw))
    requires NewHistoryEntry(p, u, pw, request, now, NoFault, encoder).Some?
    requires Validate(t, p, pw, Some(u), HistoryAfterSave(p, u, pw, request, now, NoFault, encoder, before),
                      encoder.matches) == Success(res)
    ensures RecentlyUsed in res.violations && !res.valid
  {
    AdjustedChangesOnlyMinLengthAndLenientChecks(p);
    var hist := HistoryAfterSave(p, u, pw, request, now, NoFault, encoder, before);
    var rep := Checks(t, Adjusted(p), pw, Some(u), hist, encoder.matches).value;
    assert hist[0].passwordHash == encoder.encode(pw);
    assert UsedWithin(pw, hist, CheckCount(Adjusted(p).rememberPreviousPasswords, |hist|), encoder.matches);
    ReuseReported(rep, Adjusted(p), pw, Some(u), hist, encoder.matches);
  }

  // ---------------------------------------------------------------- service

  class PasswordPolicyService {
    const policy: PasswordPolicyProperties
    const history: PasswordHistoryRepository
    const encoder: PasswordEncoder
    const tables: Tables

    constructor(policy: PasswordPolicyProperties, history: PasswordHistoryRepository, encoder: PasswordEncoder)
      ensures this.policy == policy && this.history == history && this.encoder == encoder && tables == Fixed
    {
      this.policy, this.history, this.encoder, this.tables := policy, history, encoder, Fixed;
    }

    /** The history the reuse check reads for `user`. */
    function UserHistory(user: Option<User>): seq<HistoryEntry>
      reads history
    {
      if user.Some? && user.value.id.Some? then history.NewestFirst(user.value.id.value) else []
    }

    /**
     * `validatePassword`. Fetching the adjusted policy rewrites the stored
     * one whenever enforcement is on.
     */
    method ValidatePassword(pw: string, user: Option<User>) returns (r: Result<ValidationResult, string>)
      modifies policy
      ensures r == Validate(tables, old(policy.Settings()), pw, user, UserHistory(user), encoder.matches)
      ensures policy.Settings() ==
                if IsEnforcementEnabled(old(policy.Settings())) then Adjusted(old(policy.Settings()))
                else old(policy.Settings())
    {
      if !IsEnforcementEnabled(policy.Settings()) {
        return Success(Passed);
      }
      var adjusted := policy.GetAdjustedForEnforcementLevel();
      var a := adjusted.Settings();
      var violations := CollectViolations(a, pw, user);
      if violations.None? {
        return Failure(SplitFailure);
      }
      r := Success(ValidationResult(violations.value == [], violations.value, Requirements(a)));
    }

    /**
     * The checks of `validatePassword` under the adjusted policy `a`, each
     * appending to the violations list in turn; `None` when the
     * personal-information check throws.
     */
    method CollectViolations(a: PolicySettings, pw: string, user: Option<User>) returns (r: Option<seq<Violation>>)
      ensures r == Violations(tables, a, pw, user, UserHistory(user), encoder.matches)
    {
      var violations := LengthViolations(a, pw) + CompositionViolations(a, pw);
      var common := [];
      if a.noCommonPasswords {
        common := CommonViolations(a, pw, tables.common);
      }
      violations := violations + common;
      var personal: seq<Violation> := [];
      if a.noPersonalInfo && user.Some? {
        var checked := PersonalViolations(pw, user.value);
        if checked.None? {
          return None;
        }
        personal := checked.value;
      }
      violations := violations + personal;
      var keyboard := [];
      if a.noKeyboardPatterns {
        var found := FindPattern(LowerCase(pw), tables.keyboard);
        if found.Some? {
          keyboard := [HasKeyboardPattern(found.value)];
        }
      }
      violations := violations + keyboard;
      var reuse := [];
      if user.Some? && a.rememberPreviousPasswords > 0 && user.value.id.Some? {
        var hist := history.NewestFirst(user.value.id.value);
        var reused := FindReuse(pw, hist, CheckCount(a.rememberPreviousPasswords, |hist|), encoder.matches);
        if reused {
          reuse := [RecentlyUsed];
        }
      }
      violations := violations + reuse + RepeatViolations(a, pw);
      ghost var rep := Report(LengthViolations(a, pw), CompositionViolations(a, pw), common, personal,
                              keyboard, reuse, RepeatViolations(a, pw));
      assert Checks(tables, a, pw, user, UserHistory(user), encoder.matches) == Some(rep);
      r := Some(violations);
    }

    /** `savePasswordToHistory` at time `now`; `fault` says which repository call, if any, fails. */
    method SavePasswordToHistory(u: User, pw: string, request: Option<Request>, now: int, fault: StoreFault)
      modifies history
      ensures history.byUser == StoredHistory(policy.Settings(), u, pw, request, now, fault, encoder, old(history.byUser))
    {
      var entry := NewHistoryEntry(policy.Settings(), u, pw, request, now, fault, encoder);
      if entry.None? {
        return;
      }
      var id := u.id.value;
      history.Save(id, entry.value);
      if fault == CleanupFails {
        return;
      }
      var all := history.NewestFirst(id);
      if |all| > policy.rememberPreviousPasswords {
        history.DeleteAllAfter(id, policy.rememberPreviousPasswords);
      }
    }

    /** `checkPasswordExpiry` at time `now`, read against the stored policy. */
    method CheckPasswordExpiry(u: User, now: int) returns (info: ExpiryInfo)
      ensures info == Expiry(policy.Settings(), u, now)
    {
      info := Expiry(policy.Settings(), u, now);
    }

    /**
     * `generatePasswordSuggestions`, which also fetches (and so applies) the
     * adjusted policy. The hints are collected in order and then rendered.
     */
    method GeneratePasswordSuggestions() returns (suggestions: seq<string>)
      modifies policy
      ensures suggestions == Suggestions(Adjusted(old(policy.Settings())))
      ensures policy.Settings() ==
                if old(policy.enforcementLevel) == DISABLED then old(policy.Settings()) else Adjusted(old(policy.Settings()))
    {
      var adjusted := policy.GetAdjustedForEnforcementLevel();
      var a := adjusted.Settings();
      var hints := CollectHints(a);
      suggestions := Texts(hints);
    }
  }
}
