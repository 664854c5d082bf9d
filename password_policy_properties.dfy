/**
 * The password-policy configuration object: its defaults, the adjustment of
 * the policy to the configured enforcement level, the start-up validation of
 * the length bounds, and the fixed special-character and keyboard-pattern
 * tables.
 */
module PolicyProperties {
  import opened Wrappers

  datatype EnforcementLevel = DISABLED | LENIENT | MODERATE | STRICT

  /** The values of all fields of a `PasswordPolicyProperties` object. */
  datatype PolicySettings = PolicySettings(
    minLength: int,
    maxLength: int,
    requireUppercase: bool,
    requireLowercase: bool,
    requireDigits: bool,
    requireSpecialChars: bool,
    minSpecialChars: int,
    minDigits: int,
    noCommonPasswords: bool,
    noPersonalInfo: bool,
    noKeyboardPatterns: bool,
    maxRepeatedChars: int,
    rememberPreviousPasswords: int,
    expiryDays: int,
    warnBeforeExpiryDays: int,
    maxViolationsBeforeLockout: int,
    lockoutDurationMinutes: int,
    enforcementLevel: EnforcementLevel)

  /** The field initialisers of a freshly constructed object. */
  const Defaults: PolicySettings :=
    PolicySettings(8, 128, true, true, true, true, 1, 1, true, true, true, 3, 5, 90, 7, 5, 30, STRICT)

  /** Special characters that count towards `minSpecialChars`. */
  const AllowedSpecialChars: string := "!@#$%^&*()_+-=[]{}|;:,.<>?"

  /** Keyboard sequences that a password must not contain, in the order they are tried. */
  const KeyboardPatterns: seq<string> := [
    "qwerty", "asdf", "zxcv", "1234", "abcd",
    "qwertyuiop", "asdfghjkl", "zxcvbnm",
    "123456789", "987654321", "abcdefgh"]

  function Max(a: int, b: int): (r: int)
    ensures r >= a && r >= b && (r == a || r == b)
  {
    if a >= b then a else b
  }

  predicate IsEnforcementEnabled(p: PolicySettings) {
    p.enforcementLevel != DISABLED
  }

  predicate IsStrictEnforcement(p: PolicySettings) {
    p.enforcementLevel == STRICT
  }

  /** The smallest minimum length an enforcing level allows. */
  function LevelFloor(level: EnforcementLevel): int {
    match level
    case DISABLED => 1
    case LENIENT => 6
    case MODERATE => 8
    case STRICT => 10
  }

  /** What `getAdjustedForEnforcementLevel` makes of the settings `p`. */
  function Adjusted(p: PolicySettings): PolicySettings {
    match p.enforcementLevel
    case DISABLED =>
      Defaults.(minLength := 1, requireUppercase := false, requireLowercase := false,
                requireDigits := false, requireSpecialChars := false,
                noCommonPasswords := false, noPersonalInfo := false, noKeyboardPatterns := false,
                enforcementLevel := DISABLED)
    case LENIENT =>
      p.(noCommonPasswords := false, noKeyboardPatterns := false, minLength := Max(6, p.minLength))
    case MODERATE => p.(minLength := Max(8, p.minLength))
    case STRICT => p.(minLength := Max(10, p.minLength))
  }

  /** Adjusting keeps the enforcement level. */
  lemma AdjustedKeepsLevel(p: PolicySettings)
    ensures Adjusted(p).enforcementLevel == p.enforcementLevel
  {
    if IsEnforcementEnabled(p) {
      AdjustedWhenEnforcing(p);
    }
  }

  /**
   * An enforcing level raises the minimum length to the level's floor,
   * turns off the common-password and keyboard-pattern checks when it is
   * LENIENT, and keeps every other setting.
   */
  lemma AdjustedWhenEnforcing(p: PolicySettings)
    requires IsEnforcementEnabled(p)
    ensures Adjusted(p) == p.(minLength := Max(LevelFloor(p.enforcementLevel), p.minLength),
                              noCommonPasswords := p.enforcementLevel != LENIENT && p.noCommonPasswords,
                              noKeyboardPatterns := p.enforcementLevel != LENIENT && p.noKeyboardPatterns)
  {
  }

  /**
   * An enforcing level raises the configured minimum length to the level's
   * floor and never lowers it.
   */
  lemma AdjustedMinLength(p: PolicySettings)
    requires IsEnforcementEnabled(p)
    ensures Adjusted(p).minLength >= LevelFloor(p.enforcementLevel)
    ensures Adjusted(p).minLength >= p.minLength
    ensures Adjusted(p).minLength == p.minLength || Adjusted(p).minLength == LevelFloor(p.enforcementLevel)
  {
    AdjustedWhenEnforcing(p);
  }

  /** Enforcement is on exactly when the effective minimum length is at least 6. */
  lemma EnforcementEnabledIffFloor(p: PolicySettings)
    ensures IsEnforcementEnabled(p) <==> Adjusted(p).minLength >= 6
  {
    if IsEnforcementEnabled(p) {
      AdjustedWhenEnforcing(p);
    }
  }

  /**
   * DISABLED yields fresh defaults with every check off and a minimum length
   * of 1, whatever was configured.
   */
  lemma DisabledIgnoresConfiguration(p: PolicySettings, q: PolicySettings)
    requires p.enforcementLevel == DISABLED && q.enforcementLevel == DISABLED
    ensures Adjusted(p) == Adjusted(q)
    ensures var a := Adjusted(p);
            a.minLength == 1 && !a.requireUppercase && !a.requireLowercase && !a.requireDigits &&
            !a.requireSpecialChars && !a.noCommonPasswords && !a.noPersonalInfo && !a.noKeyboardPatterns
    ensures var a := Adjusted(p);
            a.maxLength == Defaults.maxLength && a.maxRepeatedChars == Defaults.maxRepeatedChars &&
            a.rememberPreviousPasswords == Defaults.rememberPreviousPasswords &&
            a.expiryDays == Defaults.expiryDays
  {
  }

  /**
   * LENIENT turns off the common-password and keyboard-pattern checks; an
   * enforcing level changes nothing else but the minimum length.
   */
  lemma AdjustedChangesOnlyMinLengthAndLenientChecks(p: PolicySettings)
    requires IsEnforcementEnabled(p)
    ensures p.enforcementLevel == LENIENT ==> !Adjusted(p).noCommonPasswords && !Adjusted(p).noKeyboardPatterns
    ensures p.enforcementLevel != LENIENT ==>
              Adjusted(p).noCommonPasswords == p.noCommonPasswords &&
              Adjusted(p).noKeyboardPatterns == p.noKeyboardPatterns
    ensures Adjusted(p).(minLength := p.minLength, noCommonPasswords := p.noCommonPasswords,
                         noKeyboardPatterns := p.noKeyboardPatterns) == p
  {
    AdjustedWhenEnforcing(p);
  }

  /** Adjusting twice is adjusting once. */
  lemma AdjustedIdempotent(p: PolicySettings)
    ensures Adjusted(Adjusted(p)) == Adjusted(p)
  {
    if IsEnforcementEnabled(p) {
      AdjustedWhenEnforcing(p);
      AdjustedKeepsLevel(p);
      AdjustedWhenEnforcing(Adjusted(p));
    }
  }

  /** Start-up warnings that only go to the log. */
  datatype ConfigWarning = WeakMinimumLength(minLength: int) | HighMaximumLength(maxLength: int)

  /**
   * `validateConfiguration`: the warnings it logs, or the message of the
   * IllegalStateException it throws.
   */
  function ValidateConfiguration(p: PolicySettings): (r: Result<seq<ConfigWarning>, string>)
    ensures r.Failure? <==> p.minLength > p.maxLength
    ensures r.Failure? ==> r.error == "Minimum password length cannot be greater than maximum length"
    ensures r.Success? ==> (WeakMinimumLength(p.minLength) in r.value <==> p.minLength < 4)
    ensures r.Success? ==> (HighMaximumLength(p.maxLength) in r.value <==> p.maxLength > 256)
    ensures r.Success? ==> |r.value| <= 2
  {
    var weak := if p.minLength < 4 then [WeakMinimumLength(p.minLength)] else [];
    var high := if p.maxLength > 256 then [HighMaximumLength(p.maxLength)] else [];
    if p.minLength > p.maxLength then Failure("Minimum password length cannot be greater than maximum length")
    else Success(weak + high)
  }

  /** The `@ConfigurationProperties` bean, whose fields Spring binds and `getAdjustedForEnforcementLevel` rewrites. */
  class PasswordPolicyProperties {
    var minLength: int
    var maxLength: int
    var requireUppercase: bool
    var requireLowercase: bool
    var requireDigits: bool
    var requireSpecialChars: bool
    var minSpecialChars: int
    var minDigits: int
    var noCommonPasswords: bool
    var noPersonalInfo: bool
    var noKeyboardPatterns: bool
    var maxRepeatedChars: int
    var rememberPreviousPasswords: int
    var expiryDays: int
    var warnBeforeExpiryDays: int
    var maxViolationsBeforeLockout: int
    var lockoutDurationMinutes: int
    var enforcementLevel: EnforcementLevel

    function Settings(): PolicySettings
      reads this
    {
      PolicySettings(minLength, maxLength, requireUppercase, requireLowercase, requireDigits,
                     requireSpecialChars, minSpecialChars, minDigits, noCommonPasswords,
                     noPersonalInfo, noKeyboardPatterns, maxRepeatedChars, rememberPreviousPasswords,
                     expiryDays, warnBeforeExpiryDays, maxViolationsBeforeLockout,
                     lockoutDurationMinutes, enforcementLevel)
    }

    /** `new PasswordPolicyProperties()`: every field at its initialiser. */
    constructor()
      ensures Settings() == Defaults
    {
      minLength, maxLength := 8, 128;
      requireUppercase, requireLowercase, requireDigits, requireSpecialChars := true, true, true, true;
      minSpecialChars, minDigits := 1, 1;
      noCommonPasswords, noPersonalInfo, noKeyboardPatterns := true, true, true;
      maxRepeatedChars := 3;
      rememberPreviousPasswords, expiryDays, warnBeforeExpiryDays := 5, 90, 7;
      maxViolationsBeforeLockout, lockoutDurationMinutes := 5, 30;
      enforcementLevel := STRICT;
    }

    /** The bean after property binding has set its fields to `p`. */
    constructor Bound(p: PolicySettings)
      ensures Settings() == p
    {
      minLength, maxLength := p.minLength, p.maxLength;
      requireUppercase, requireLowercase := p.requireUppercase, p.requireLowercase;
      requireDigits, requireSpecialChars := p.requireDigits, p.requireSpecialChars;
      minSpecialChars, minDigits := p.minSpecialChars, p.minDigits;
      noCommonPasswords, noPersonalInfo, noKeyboardPatterns := p.noCommonPasswords, p.noPersonalInfo, p.noKeyboardPatterns;
      maxRepeatedChars := p.maxRepeatedChars;
      rememberPreviousPasswords, expiryDays, warnBeforeExpiryDays := p.rememberPreviousPasswords, p.expiryDays, p.warnBeforeExpiryDays;
      maxViolationsBeforeLockout, lockoutDurationMinutes := p.maxViolationsBeforeLockout, p.lockoutDurationMinutes;
      enforcementLevel := p.enforcementLevel;
    }

    /**
     * For DISABLED a fresh object is adjusted and this one is left alone; for
     * every other level the object adjusts and returns itself, so the stored
     * configuration changes.
     */
    method GetAdjustedForEnforcementLevel() returns (adjusted: PasswordPolicyProperties)
      modifies this
      ensures adjusted.Settings() == Adjusted(old(Settings()))
      ensures old(enforcementLevel) == DISABLED ==> fresh(adjusted) && Settings() == old(Settings())
      ensures old(enforcementLevel) != DISABLED ==> adjusted == this
    {
      if enforcementLevel == DISABLED {
        adjusted := new PasswordPolicyProperties.Bound(Adjusted(Settings()));
      } else {
        adjusted := this;
        match enforcementLevel {
          case LENIENT =>
            adjusted.noCommonPasswords := false;
            adjusted.noKeyboardPatterns := false;
            adjusted.minLength := Max(6, this.minLength);
          case MODERATE =>
            adjusted.minLength := Max(8, this.minLength);
          case STRICT =>
            adjusted.minLength := Max(10, this.minLength);
        }
        adjusted.enforcementLevel := this.enforcementLevel;
      }
    }
  }
}
