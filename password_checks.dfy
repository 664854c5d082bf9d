/**
 * The individual rules of password validation and the report they add up to.
 * Each rule is a function of the adjusted policy and the candidate password
 * (and, for some, the user and the user's history); the word tables are
 * parameters, so every property here holds whatever the tables contain.
 *
 * Text is compared after ASCII lower-casing; a digit is an ASCII digit.
 */
module PasswordChecks {
  import opened Wrappers
  import opened Text
  import opened Users
  import opened PolicyProperties
  import opened Stores

  /** The two fixed word lists: common passwords and keyboard sequences. */
  datatype Tables = Tables(common: set<string>, keyboard: seq<string>)

  /** One rule a password breaks; `Message` gives the text the user sees. */
  datatype Violation =
    | TooShort(minLength: int)
    | TooLong(maxLength: int)
    | NoUppercase
    | NoLowercase
    | TooFewDigits(minDigits: int)
    | TooFewSpecial(minSpecial: int)
    | TooCommon
    | HasFirstName
    | HasLastName
    | HasEmailUsername
    | HasKeyboardPattern(pattern: string)
    | RecentlyUsed
    | TooManyRepeated(maxRepeated: int)

  function Message(v: Violation): string {
    match v
    case TooShort(n) => "Password must be at least " + IntToString(n) + " characters long"
    case TooLong(n) => "Password must not exceed " + IntToString(n) + " characters"
    case NoUppercase => "Password must contain at least one uppercase letter"
    case NoLowercase => "Password must contain at least one lowercase letter"
    case TooFewDigits(n) => "Password must contain at least " + IntToString(n) + " digit(s)"
    case TooFewSpecial(n) =>
      "Password must contain at least " + IntToString(n) + " special character(s) from: " + AllowedSpecialChars
    case TooCommon => "Password is too common and easily guessable"
    case HasFirstName => "Password should not contain your first name"
    case HasLastName => "Password should not contain your last name"
    case HasEmailUsername => "Password should not contain your email username"
    case HasKeyboardPattern(p) => "Password should not contain keyboard patterns like '" + p + "'"
    case RecentlyUsed => "Password has been used recently. Please choose a different password."
    case TooManyRepeated(n) =>
      "Password should not contain more than " + IntToString(n) + " consecutive identical characters"
  }

  /** The check a violation comes from. */
  datatype Rule = LengthRule | CompositionRule | CommonRule | PersonalRule | KeyboardRule | HistoryRule | RepeatRule

  function RuleOf(v: Violation): Rule {
    match v
    case TooShort(_) => LengthRule
    case TooLong(_) => LengthRule
    case NoUppercase => CompositionRule
    case NoLowercase => CompositionRule
    case TooFewDigits(_) => CompositionRule
    case TooFewSpecial(_) => CompositionRule
    case TooCommon => CommonRule
    case HasFirstName => PersonalRule
    case HasLastName => PersonalRule
    case HasEmailUsername => PersonalRule
    case HasKeyboardPattern(_) => KeyboardRule
    case RecentlyUsed => HistoryRule
    case TooManyRepeated(_) => RepeatRule
  }

  predicate AllFrom(vs: seq<Violation>, k: Rule) {
    forall i :: 0 <= i < |vs| ==> RuleOf(vs[i]) == k
  }

  // ---------------------------------------------------------------- length

  /** `validateLength`. */
  function LengthViolations(a: PolicySettings, pw: string): (r: seq<Violation>)
    ensures AllFrom(r, LengthRule)
  {
    (if |pw| < a.minLength then [TooShort(a.minLength)] else []) +
    (if |pw| > a.maxLength then [TooLong(a.maxLength)] else [])
  }

  /** Each length bound adds its own violation exactly when the password is outside it. */
  lemma LengthRules(a: PolicySettings, pw: string)
    ensures TooShort(a.minLength) in LengthViolations(a, pw) <==> |pw| < a.minLength
    ensures TooLong(a.maxLength) in LengthViolations(a, pw) <==> |pw| > a.maxLength
    ensures a.minLength <= a.maxLength ==> |LengthViolations(a, pw)| <= 1
  {
  }

  // ----------------------------------------------------------- composition

  /** The characters `.` does not match in a Java regular expression. */
  predicate IsLineTerminator(c: char) {
    c == '\n' || c == '\r' || c == '\U{85}' || c == '\U{2028}' || c == '\U{2029}'
  }

  /**
   * `s.matches(".*[lo-hi].*")`: the whole text must match, and `.` stops at a
   * line terminator, so the text needs a character in the range and no line
   * terminator anywhere.
   */
  predicate MatchesWithCharIn(s: string, lo: char, hi: char) {
    (exists i :: 0 <= i < |s| && lo <= s[i] <= hi) &&
    (forall i :: 0 <= i < |s| ==> !IsLineTerminator(s[i]))
  }

  predicate IsDigit(c: char) {
    '0' <= c <= '9'
  }

  predicate IsSpecial(c: char) {
    c in AllowedSpecialChars
  }

  /** The number of digits in `s`. */
  function DigitCount(s: string): (r: nat)
    ensures r <= |s|
  {
    if s == [] then 0 else DigitCount(s[..|s| - 1]) + (if IsDigit(s[|s| - 1]) then 1 else 0)
  }

  /** The number of characters of `s` from the allowed special characters. */
  function SpecialCount(s: string): (r: nat)
    ensures r <= |s|
  {
    if s == [] then 0 else SpecialCount(s[..|s| - 1]) + (if IsSpecial(s[|s| - 1]) then 1 else 0)
  }

  /** Counting is additive over concatenation. */
  lemma {:induction false} CountsOfConcat(s: string, t: string)
    ensures DigitCount(s + t) == DigitCount(s) + DigitCount(t)
    ensures SpecialCount(s + t) == SpecialCount(s) + SpecialCount(t)
    decreases |t|
  {
    if t == [] {
      assert s + t == s;
    } else {
      assert (s + t)[..|s + t| - 1] == s + t[..|t| - 1];
      CountsOfConcat(s, t[..|t| - 1]);
    }
  }

  /** `validateCharacterComposition`. */
  function CompositionViolations(a: PolicySettings, pw: string): (r: seq<Violation>)
    ensures AllFrom(r, CompositionRule)
  {
    (if a.requireUppercase && !MatchesWithCharIn(pw, 'A', 'Z') then [NoUppercase] else []) +
    (if a.requireLowercase && !MatchesWithCharIn(pw, 'a', 'z') then [NoLowercase] else []) +
    (if a.requireDigits && DigitCount(pw) < a.minDigits then [TooFewDigits(a.minDigits)] else []) +
    (if a.requireSpecialChars && SpecialCount(pw) < a.minSpecialChars then [TooFewSpecial(a.minSpecialChars)] else [])
  }

  /** Each composition rule adds its violation exactly when it is on and unmet. */
  lemma CompositionRules(a: PolicySettings, pw: string)
    ensures NoUppercase in CompositionViolations(a, pw) <==> a.requireUppercase && !MatchesWithCharIn(pw, 'A', 'Z')
    ensures NoLowercase in CompositionViolations(a, pw) <==> a.requireLowercase && !MatchesWithCharIn(pw, 'a', 'z')
    ensures TooFewDigits(a.minDigits) in CompositionViolations(a, pw) <==> a.requireDigits && DigitCount(pw) < a.minDigits
    ensures TooFewSpecial(a.minSpecialChars) in CompositionViolations(a, pw) <==>
              a.requireSpecialChars && SpecialCount(pw) < a.minSpecialChars
  {
  }

  /** A line terminator anywhere defeats both letter tests, whatever the letters. */
  lemma LineTerminatorFailsLetterTests(a: PolicySettings, pw: string, i: nat)
    requires i < |pw| && IsLineTerminator(pw[i])
    requires a.requireUppercase && a.requireLowercase
    ensures NoUppercase in CompositionViolations(a, pw) && NoLowercase in CompositionViolations(a, pw)
  {
  }

  // ---------------------------------------------------------------- common

  /** `validateCommonPasswords`: exact match after lower-casing. */
  function CommonViolations(a: PolicySettings, pw: string, common: set<string>): (r: seq<Violation>)
    ensures AllFrom(r, CommonRule)
    ensures TooCommon in r <==> a.noCommonPasswords && LowerCase(pw) in common
  {
    if a.noCommonPasswords && LowerCase(pw) in common then [TooCommon] else []
  }

  /** The common-password test ignores case. */
  lemma CommonIgnoresCase(a: PolicySettings, pw: string, other: string, common: set<string>)
    requires EqualsIgnoreCase(pw, other)
    ensures CommonViolations(a, pw, common) == CommonViolations(a, other, common)
  {
  }

  // ------------------------------------------------------ personal details

  /**
   * The three personal-detail tests on the lower-cased password `lower`:
   * each detail is flagged exactly when `lower` contains it lower-cased.
   */
  function PersonalFlags(lower: string, first: Option<string>, last: Option<string>, local: string): (r: seq<Violation>)
    ensures AllFrom(r, PersonalRule)
    ensures HasFirstName in r <==> first.Some? && Contains(lower, LowerCase(first.value))
    ensures HasLastName in r <==> last.Some? && Contains(lower, LowerCase(last.value))
    ensures HasEmailUsername in r <==> Contains(lower, LowerCase(local))
  {
    (if first.Some? && Contains(lower, LowerCase(first.value)) then [HasFirstName] else []) +
    (if last.Some? && Contains(lower, LowerCase(last.value)) then [HasLastName] else []) +
    (if Contains(lower, LowerCase(local)) then [HasEmailUsername] else [])
  }

  /**
   * `validatePersonalInfo`: `None` is the exception the email split raises
   * for an email made only of '@' characters; otherwise the email's part is
   * what comes before its first '@'.
   */
  function PersonalViolations(pw: string, u: User): (r: Option<seq<Violation>>)
    ensures r.None? <==> u.email != [] && forall i :: 0 <= i < |u.email| ==> u.email[i] == '@'
    ensures r.Some? ==> r.value == PersonalFlags(LowerCase(pw), u.firstName, u.lastName, Before(u.email, '@'))
  {
    match SplitFirstAsWritten(u.email, '@')
    case None => None
    case Some(local) => Some(PersonalFlags(LowerCase(pw), u.firstName, u.lastName, local))
  }

  /** The personal-information check runs only for a given user with the rule on. */
  function PersonalCheck(a: PolicySettings, pw: string, user: Option<User>): (r: Option<seq<Violation>>)
    ensures r.Some? ==> AllFrom(r.value, PersonalRule)
    ensures r.None? <==> a.noPersonalInfo && user.Some? && PersonalViolations(pw, user.value).None?
  {
    if a.noPersonalInfo && user.Some? then PersonalViolations(pw, user.value) else Some([])
  }

  // ------------------------------------------------------ keyboard patterns

  /** The first pattern, in table order, that occurs in `s`. */
  function FirstMatch(s: string, patterns: seq<string>): (r: Option<string>)
    ensures r.Some? ==> Contains(s, r.value)
    ensures r.None? <==> forall i :: 0 <= i < |patterns| ==> !Contains(s, patterns[i])
    ensures r.Some? ==> exists i :: 0 <= i < |patterns| && patterns[i] == r.value &&
                                    forall j :: 0 <= j < i ==> !Contains(s, patterns[j])
    decreases |patterns|
  {
    if patterns == [] then None
    else if Contains(s, patterns[0]) then Some(patterns[0])
    else
      var r := FirstMatch(s, patterns[1..]);
      assert forall i :: 1 <= i < |patterns| ==> patterns[i] == patterns[1..][i - 1];
      if r.Some? then
        var k :| 0 <= k < |patterns[1..]| && patterns[1..][k] == r.value &&
                 forall j :: 0 <= j < k ==> !Contains(s, patterns[1..][j]);
        assert patterns[k + 1] == r.value;
        r
      else r
  }

  /** The loop of `validateKeyboardPatterns`: scan the patterns in order, stop at the first hit. */
  method FindPattern(lower: string, patterns: seq<string>) returns (found: Option<string>)
    ensures found == FirstMatch(lower, patterns)
  {
    found := None;
    var i := 0;
    while i < |patterns|
      invariant 0 <= i <= |patterns|
      invariant FirstMatch(lower, patterns[i..]) == FirstMatch(lower, patterns)
    {
      if Contains(lower, patterns[i]) {
        found := Some(patterns[i]);
        return;
      }
      assert patterns[i..][1..] == patterns[i + 1..];
      i := i + 1;
    }
  }

  /** `validateKeyboardPatterns`: at most one violation, naming the first pattern found. */
  function KeyboardViolations(a: PolicySettings, pw: string, patterns: seq<string>): (r: seq<Violation>)
    ensures |r| <= 1 && AllFrom(r, KeyboardRule)
    ensures r != [] <==> a.noKeyboardPatterns && exists i :: 0 <= i < |patterns| && Contains(LowerCase(pw), patterns[i])
    ensures forall q :: HasKeyboardPattern(q) in r <==> a.noKeyboardPatterns && FirstMatch(LowerCase(pw), patterns) == Some(q)
  {
    if !a.noKeyboardPatterns then []
    else match FirstMatch(LowerCase(pw), patterns)
      case None => []
      case Some(p) => [HasKeyboardPattern(p)]
  }

  // ---------------------------------------------------------------- history

  /** How many of the newest history entries are compared: min(N, size). */
  function CheckCount(remember: int, size: nat): (r: int)
    ensures r <= size && r <= remember
    ensures r == remember || r == size
  {
    if remember < size then remember else size
  }

  /** Some of the first `n` entries of `hist` holds a hash `pw` matches. */
  predicate UsedWithin(pw: string, hist: seq<HistoryEntry>, n: int, matches: (string, string) -> bool) {
    exists i :: 0 <= i < n && i < |hist| && matches(pw, hist[i].passwordHash)
  }

  /** The loop of `validatePasswordHistory`: compare the first `n` entries, stop at a match. */
  method FindReuse(pw: string, hist: seq<HistoryEntry>, n: int, matches: (string, string) -> bool)
    returns (found: bool)
    requires n <= |hist|
    ensures found == UsedWithin(pw, hist, n, matches)
  {
    found := false;
    var i := 0;
    while i < n
      invariant 0 <= i <= if n < 0 then 0 else n
      invariant forall j :: 0 <= j < i ==> !matches(pw, hist[j].passwordHash)
    {
      if matches(pw, hist[i].passwordHash) {
        found := true;
        return;
      }
      i := i + 1;
    }
  }

  /**
   * `validatePasswordHistory`, run when a user is given and retention is on;
   * a user without an id (not yet saved) is skipped.
   */
  function HistoryViolations(a: PolicySettings, pw: string, user: Option<User>, hist: seq<HistoryEntry>,
                             matches: (string, string) -> bool): (r: seq<Violation>)
    ensures |r| <= 1 && AllFrom(r, HistoryRule)
    ensures r != [] <==>
              user.Some? && user.value.id.Some? && a.rememberPreviousPasswords > 0 &&
              UsedWithin(pw, hist, CheckCount(a.rememberPreviousPasswords, |hist|), matches)
  {
    if user.Some? && a.rememberPreviousPasswords > 0 && user.value.id.Some? &&
       UsedWithin(pw, hist, CheckCount(a.rememberPreviousPasswords, |hist|), matches)
    then [RecentlyUsed]
    else []
  }

  /** Entries beyond the first `rememberPreviousPasswords` never cause a reuse violation. */
  lemma OnlyRecentEntriesCount(a: PolicySettings, pw: string, user: Option<User>, hist: seq<HistoryEntry>,
                               older: seq<HistoryEntry>, matches: (string, string) -> bool)
    requires 0 < a.rememberPreviousPasswords <= |hist|
    ensures HistoryViolations(a, pw, user, hist + older, matches) == HistoryViolations(a, pw, user, hist, matches)
  {
    var n := a.rememberPreviousPasswords;
    assert forall i :: 0 <= i < n ==> (hist + older)[i] == hist[i];
  }

  // ------------------------------------------------------ repeated characters

  /** `s[i+1..i+k+1]` are all copies of `s[i]`. */
  predicate Repeats(s: string, i: nat, k: nat)
    requires i + k < |s|
  {
    forall j :: i < j <= i + k ==> s[j] == s[i]
  }

  /** `Pattern.compile("(.)\\1{n,}").matcher(s).find()`. */
  predicate RepeatFound(s: string, n: nat) {
    exists i: nat, k: nat | i < |s| && k < |s| :: n <= k && i + k < |s| && !IsLineTerminator(s[i]) && Repeats(s, i, k)
  }

  /** The length of the run of copies of `s[i]` that starts at `i`. */
  function RunLength(s: string, i: nat): (r: nat)
    requires i < |s|
    ensures 1 <= r <= |s| - i
    decreases |s| - i
  {
    if i + 1 < |s| && s[i + 1] == s[i] then 1 + RunLength(s, i + 1) else 1
  }

  lemma {:induction false} RunLengthRepeats(s: string, i: nat, k: nat)
    requires i < |s|
    ensures RunLength(s, i) > k <==> i + k < |s| && Repeats(s, i, k)
    decreases k
  {
    if k > 0 {
      if i + 1 < |s| && s[i + 1] == s[i] {
        RunLengthRepeats(s, i + 1, k - 1);
        if i + k < |s| && Repeats(s, i, k) {
          assert Repeats(s, i + 1, k - 1);
        }
      } else {
        if i + k < |s| {
          assert !(s[i + 1] == s[i]);
        }
      }
    }
  }

  /** The regular expression finds a match exactly where some run is longer than `n`. */
  lemma RepeatFoundIffLongRun(s: string, n: nat)
    ensures RepeatFound(s, n) <==> exists i: nat :: i < |s| && !IsLineTerminator(s[i]) && RunLength(s, i) > n
  {
    if RepeatFound(s, n) {
      var i: nat, k: nat :| n <= k && i + k < |s| && !IsLineTerminator(s[i]) && Repeats(s, i, k);
      RunLengthRepeats(s, i, k);
    }
    if exists i: nat :: i < |s| && !IsLineTerminator(s[i]) && RunLength(s, i) > n {
      var i: nat :| i < |s| && !IsLineTerminator(s[i]) && RunLength(s, i) > n;
      RunLengthRepeats(s, i, n);
      assert n <= n && i + n < |s| && !IsLineTerminator(s[i]) && Repeats(s, i, n);
    }
  }

  /** `validateRepeatedCharacters`. */
  function RepeatViolations(a: PolicySettings, pw: string): (r: seq<Violation>)
    ensures AllFrom(r, RepeatRule)
    ensures r != [] <==> a.maxRepeatedChars > 0 && RepeatFound(pw, a.maxRepeatedChars)
  {
    if a.maxRepeatedChars > 0 && RepeatFound(pw, a.maxRepeatedChars) then [TooManyRepeated(a.maxRepeatedChars)] else []
  }

  // ---------------------------------------------------------------- report

  /** What each check reported, in the order `validatePassword` runs them. */
  datatype Report = Report(
    length: seq<Violation>,
    composition: seq<Violation>,
    common: seq<Violation>,
    personal: seq<Violation>,
    keyboard: seq<Violation>,
    history: seq<Violation>,
    repeat: seq<Violation>)

  /** The violations list: every check appends to it in turn. */
  function Flatten(r: Report): seq<Violation> {
    r.length + r.composition + r.common + r.personal + r.keyboard + r.history + r.repeat
  }

  function Part(r: Report, k: Rule): seq<Violation> {
    match k
    case LengthRule => r.length
    case CompositionRule => r.composition
    case CommonRule => r.common
    case PersonalRule => r.personal
    case KeyboardRule => r.keyboard
    case HistoryRule => r.history
    case RepeatRule => r.repeat
  }

  /** Every check reports only violations of its own kind. */
  predicate WellKinded(r: Report) {
    AllFrom(r.length, LengthRule) && AllFrom(r.composition, CompositionRule) && AllFrom(r.common, CommonRule) &&
    AllFrom(r.personal, PersonalRule) && AllFrom(r.keyboard, KeyboardRule) && AllFrom(r.history, HistoryRule) &&
    AllFrom(r.repeat, RepeatRule)
  }

  /** The entries of `vs` that come from check `k`, in order. */
  function FromRule(vs: seq<Violation>, k: Rule): (r: seq<Violation>)
  {
    if vs == [] then []
    else (if RuleOf(vs[0]) == k then [vs[0]] else []) + FromRule(vs[1..], k)
  }

  /** `FromRule` keeps exactly the entries of kind `k`. */
  lemma {:induction false} FromRuleMembers(vs: seq<Violation>, k: Rule, v: Violation)
    ensures v in FromRule(vs, k) <==> v in vs && RuleOf(v) == k
  {
    if vs != [] {
      FromRuleMembers(vs[1..], k, v);
      assert vs == [vs[0]] + vs[1..];
    }
  }

  lemma {:induction false} FromRuleConcat(xs: seq<Violation>, ys: seq<Violation>, k: Rule)
    ensures FromRule(xs + ys, k) == FromRule(xs, k) + FromRule(ys, k)
  {
    if xs == [] {
      assert xs + ys == ys;
    } else {
      assert (xs + ys)[1..] == xs[1..] + ys;
      FromRuleConcat(xs[1..], ys, k);
    }
  }

  lemma {:induction false} FromRuleOfPart(xs: seq<Violation>, j: Rule, k: Rule)
    requires AllFrom(xs, j)
    ensures FromRule(xs, k) == if j == k then xs else []
  {
    if xs != [] {
      FromRuleOfPart(xs[1..], j, k);
    }
  }

  /** Appending a part of kind `j` adds that part to the kind-`k` entries exactly when `j == k`. */
  lemma FromRuleAppend(xs: seq<Violation>, ys: seq<Violation>, j: Rule, k: Rule)
    requires AllFrom(ys, j)
    ensures j == k ==> FromRule(xs + ys, k) == FromRule(xs, k) + ys
    ensures j != k ==> FromRule(xs + ys, k) == FromRule(xs, k)
  {
    FromRuleConcat(xs, ys, k);
    FromRuleOfPart(ys, j, k);
  }

  /**
   * The checks are independent: the violations of each kind in the list are
   * exactly those that check reported, in its own order.
   */
  lemma ChecksIndependent(r: Report, k: Rule)
    requires WellKinded(r)
    ensures FromRule(Flatten(r), k) == Part(r, k)
  {
    var L, C, Co, P, K, H, R := r.length, r.composition, r.common, r.personal, r.keyboard, r.history, r.repeat;
    FromRuleOfPart(L, LengthRule, k);
    FromRuleAppend(L, C, CompositionRule, k);
    FromRuleAppend(L + C, Co, CommonRule, k);
    FromRuleAppend(L + C + Co, P, PersonalRule, k);
    FromRuleAppend(L + C + Co + P, K, KeyboardRule, k);
    FromRuleAppend(L + C + Co + P + K, H, HistoryRule, k);
    FromRuleAppend(L + C + Co + P + K + H, R, RepeatRule, k);
    match k
    case LengthRule =>
    case CompositionRule =>
    case CommonRule =>
    case PersonalRule =>
    case KeyboardRule =>
    case HistoryRule =>
    case RepeatRule =>
  }

  /** A violation is in the list exactly when its own check reported it. */
  lemma InFlattenIffReported(r: Report, v: Violation)
    requires WellKinded(r)
    ensures v in Flatten(r) <==> v in Part(r, RuleOf(v))
  {
    ChecksIndependent(r, RuleOf(v));
    FromRuleMembers(Flatten(r), RuleOf(v), v);
  }

  /**
   * Run every check of `validatePassword` under the adjusted policy `a`;
   * `None` is the exception the personal-information check can raise, which
   * stops validation. Each part of the report is what that check alone
   * reports.
   */
  function Checks(t: Tables, a: PolicySettings, pw: string, user: Option<User>, hist: seq<HistoryEntry>,
                  matches: (string, string) -> bool): (r: Option<Report>)
    ensures r.None? <==> PersonalCheck(a, pw, user).None?
    ensures r.Some? ==> WellKinded(r.value)
    ensures r.Some? ==>
              r.value.length == LengthViolations(a, pw) && r.value.composition == CompositionViolations(a, pw) &&
              r.value.common == CommonViolations(a, pw, t.common) && r.value.personal == PersonalCheck(a, pw, user).value &&
              r.value.keyboard == KeyboardViolations(a, pw, t.keyboard) &&
              r.value.history == HistoryViolations(a, pw, user, hist, matches) && r.value.repeat == RepeatViolations(a, pw)
  {
    match PersonalCheck(a, pw, user)
    case None => None
    case Some(personal) =>
      Some(Report(LengthViolations(a, pw), CompositionViolations(a, pw), CommonViolations(a, pw, t.common),
                  personal, KeyboardViolations(a, pw, t.keyboard), HistoryViolations(a, pw, user, hist, matches),
                  RepeatViolations(a, pw)))
  }

  // The lemmas below read a report's violations list rule by rule: each
  // violation is in the list exactly when its rule is broken.

  lemma LengthReported(rep: Report, a: PolicySettings, pw: string)
    requires WellKinded(rep) && rep.length == LengthViolations(a, pw)
    ensures TooShort(a.minLength) in Flatten(rep) <==> |pw| < a.minLength
    ensures TooLong(a.maxLength) in Flatten(rep) <==> |pw| > a.maxLength
  {
    LengthRules(a, pw);
    InFlattenIffReported(rep, TooShort(a.minLength));
    InFlattenIffReported(rep, TooLong(a.maxLength));
  }

  lemma CompositionReported(rep: Report, a: PolicySettings, pw: string)
    requires WellKinded(rep) && rep.composition == CompositionViolations(a, pw)
    ensures NoUppercase in Flatten(rep) <==> a.requireUppercase && !MatchesWithCharIn(pw, 'A', 'Z')
    ensures NoLowercase in Flatten(rep) <==> a.requireLowercase && !MatchesWithCharIn(pw, 'a', 'z')
    ensures TooFewDigits(a.minDigits) in Flatten(rep) <==> a.requireDigits && DigitCount(pw) < a.minDigits
    ensures TooFewSpecial(a.minSpecialChars) in Flatten(rep) <==>
              a.requireSpecialChars && SpecialCount(pw) < a.minSpecialChars
  {
    CompositionRules(a, pw);
    InFlattenIffReported(rep, NoUppercase);
    InFlattenIffReported(rep, NoLowercase);
    InFlattenIffReported(rep, TooFewDigits(a.minDigits));
    InFlattenIffReported(rep, TooFewSpecial(a.minSpecialChars));
  }

  lemma CommonReported(rep: Report, a: PolicySettings, pw: string, common: set<string>)
    requires WellKinded(rep) && rep.common == CommonViolations(a, pw, common)
    ensures TooCommon in Flatten(rep) <==> a.noCommonPasswords && LowerCase(pw) in common
  {
    InFlattenIffReported(rep, TooCommon);
  }

  /**
   * The personal details are flagged exactly when a user is given, the rule
   * is on, and the lower-cased password contains the lower-cased first name,
   * last name or part of the email before the first '@'.
   */
  lemma PersonalReported(rep: Report, a: PolicySettings, pw: string, user: Option<User>)
    requires WellKinded(rep) && PersonalCheck(a, pw, user).Some? && rep.personal == PersonalCheck(a, pw, user).value
    ensures HasFirstName in Flatten(rep) <==>
              a.noPersonalInfo && user.Some? && user.value.firstName.Some? &&
              Contains(LowerCase(pw), LowerCase(user.value.firstName.value))
    ensures HasLastName in Flatten(rep) <==>
              a.noPersonalInfo && user.Some? && user.value.lastName.Some? &&
              Contains(LowerCase(pw), LowerCase(user.value.lastName.value))
    ensures HasEmailUsername in Flatten(rep) <==>
              a.noPersonalInfo && user.Some? && Contains(LowerCase(pw), LowerCase(Before(user.value.email, '@')))
  {
    InFlattenIffReported(rep, HasFirstName);
    InFlattenIffReported(rep, HasLastName);
    InFlattenIffReported(rep, HasEmailUsername);
    PersonalPart(a, pw, user);
  }

  /** The personal-information check on its own flags exactly the details the password contains. */
  lemma PersonalPart(a: PolicySettings, pw: string, user: Option<User>)
    requires PersonalCheck(a, pw, user).Some?
    ensures var vs := PersonalCheck(a, pw, user).value;
            (HasFirstName in vs <==>
              a.noPersonalInfo && user.Some? && user.value.firstName.Some? &&
              Contains(LowerCase(pw), LowerCase(user.value.firstName.value))) &&
            (HasLastName in vs <==>
              a.noPersonalInfo && user.Some? && user.value.lastName.Some? &&
              Contains(LowerCase(pw), LowerCase(user.value.lastName.value))) &&
            (HasEmailUsername in vs <==>
              a.noPersonalInfo && user.Some? && Contains(LowerCase(pw), LowerCase(Before(user.value.email, '@'))))
  {
  }

  /**
   * At most one keyboard pattern is named: the first of the table that the
   * lower-cased password contains; and one is named whenever the password
   * contains some pattern and the rule is on.
   */
  lemma KeyboardReported(rep: Report, a: PolicySettings, pw: string, patterns: seq<string>, q: string)
    requires WellKinded(rep) && rep.keyboard == KeyboardViolations(a, pw, patterns)
    ensures HasKeyboardPattern(q) in Flatten(rep) <==> a.noKeyboardPatterns && FirstMatch(LowerCase(pw), patterns) == Some(q)
    ensures HasKeyboardPattern(q) in Flatten(rep) ==> Contains(LowerCase(pw), q)
    ensures a.noKeyboardPatterns && (exists i :: 0 <= i < |patterns| && Contains(LowerCase(pw), patterns[i])) ==>
              exists p :: HasKeyboardPattern(p) in Flatten(rep)
  {
    InFlattenIffReported(rep, HasKeyboardPattern(q));
    var fm := FirstMatch(LowerCase(pw), patterns);
    if a.noKeyboardPatterns && fm.Some? {
      InFlattenIffReported(rep, HasKeyboardPattern(fm.value));
    }
  }

  /**
   * Reuse is reported exactly when one of the first min(N, size) history
   * hashes matches, for a saved user with retention on; a user not yet saved
   * is never told the password was used recently.
   */
  lemma ReuseReported(rep: Report, a: PolicySettings, pw: string, user: Option<User>, hist: seq<HistoryEntry>,
                      matches: (string, string) -> bool)
    requires WellKinded(rep) && rep.history == HistoryViolations(a, pw, user, hist, matches)
    ensures RecentlyUsed in Flatten(rep) <==>
              user.Some? && user.value.id.Some? && a.rememberPreviousPasswords > 0 &&
              UsedWithin(pw, hist, CheckCount(a.rememberPreviousPasswords, |hist|), matches)
    ensures user.Some? && user.value.id.None? ==> RecentlyUsed !in Flatten(rep)
  {
    InFlattenIffReported(rep, RecentlyUsed);
    assert RecentlyUsed in rep.history <==> rep.history != [];
  }

  lemma RepeatReported(rep: Report, a: PolicySettings, pw: string)
    requires WellKinded(rep) && rep.repeat == RepeatViolations(a, pw)
    ensures TooManyRepeated(a.maxRepeatedChars) in Flatten(rep) <==> a.maxRepeatedChars > 0 && RepeatFound(pw, a.maxRepeatedChars)
  {
    InFlattenIffReported(rep, TooManyRepeated(a.maxRepeatedChars));
    assert TooManyRepeated(a.maxRepeatedChars) in rep.repeat <==> rep.repeat != [];
  }
}
