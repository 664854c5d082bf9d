# LocalBite account security, modelled in Dafny

This project models the account-security core of the LocalBite Spring backend and proves properties of it:

- the password policy engine and its enforcement levels;
- registration, login with failed-attempt locking, and the administrator's account actions;
- the per-endpoint token-bucket rate limiter and the servlet filter in front of it;
- the JWT signing-key derivation, claim sets and token checks, and the bearer-token filter;
- the OAuth2 account linker;
- the email-verification stub;
- the REST error classifier.

There is one Dafny module per source file:

- `Users` (`User`, `Role`, `AuthProvider`);
- `Stores` (the three repositories as in-memory tables);
- `PolicyProperties` and `PasswordChecks`/`PolicyService` (`PasswordPolicyProperties` and `PasswordPolicyService`);
- `Accounts` (`UserService`);
- `RateLimits` (`RateLimitService` with the `RateLimitProperties` limits);
- `RateLimitFiltering` (`RateLimitFilter`);
- `JwtConfig` (`JwtProperties`), `Jwt` (`JwtUtil`) and `JwtFilter` (`JwtAuthenticationFilter`);
- `OAuth2Accounts` (`OAuth2UserService`);
- `EmailVerification` (`EmailVerificationService`);
- `ErrorHandling` (`GlobalExceptionHandler`).

Four helper modules support these:

- `Wrappers` (`Option`, `Result`);
- `Text` (ASCII casing, `contains`, `trim`, `split(..)[0]`, `String.join`, decimal rendering, Java's `/` and 32-bit wrap-around);
- `Http` (the request fields the code reads);
- `Base64` (the basic alphabet of section 4 of RFC 4648, with `Decode(Encode(b)) == Some(b)`).

The model follows the source's own form:

- **Services, filters and repositories are classes.** Their methods change the fields the source changes: the user, role and history tables, the bucket cache, the cached signing key, the security context, the policy bean the adjustment rewrites, and the mail outbox.
- **Each method is specified by a pure function of the old state.** For example, `Login`, `Administer`, `Filter`, `Process`, `Validate` and `ManualVerification` give the answer and the new tables.
- **The lemmas prove what the source promises about those functions.**
- **Loops stay loops.** This covers the keyboard and history scans, the violation collection, the JSON builder and the field-error map.

External code becomes parameters:

- **Password hashing** is a pair of functions, `encode` and `matches`.
- **JWT signing and parsing** are also a pair of functions. `parse` returns `None` for every token jjwt rejects.
- **Time** is an integer in milliseconds.
- **A request** is its method, URI, headers and peer address.

Exceptions become `Result` failures that carry their message.

## Model

| member | source | states |
|---|---|---|
| Users.ProviderValueOf | backend/src/main/java/com/localbite/backend/auth/entity/User.java:128-130 | `AuthProvider.valueOf`: a name it accepts is the name of the constant it returns. |
| Users.ProviderNameRoundTrip | backend/src/main/java/com/localbite/backend/auth/entity/User.java:128-130 | Every provider's name maps back to that provider. |
| Users.Built | backend/src/main/java/com/localbite/backend/auth/entity/User.java:24-85 | The builder defaults: not verified, not locked, enabled, provider LOCAL, 0 failed attempts, no id, no password, no roles, both timestamps at the build time. |
| Users.AuthoritiesDefault | backend/src/main/java/com/localbite/backend/auth/entity/User.java:89-92 | A user without roles has exactly the one authority ROLE_BUYER. |
| Users.AuthoritiesOfRoles | backend/src/main/java/com/localbite/backend/auth/entity/User.java:93-95 | With roles, `ROLE_<n>` is an authority iff `n` is a role, and every authority is "ROLE_" followed by a role name. |
| Users.RoleAuthorityInjective | backend/src/main/java/com/localbite/backend/auth/entity/User.java:93-95 | Distinct role names give distinct authorities, so there is one authority per role. |
| Users.EligibleIsUserDetailsView | backend/src/main/java/com/localbite/backend/auth/entity/User.java:99-121 | Login eligibility equals verified email ∧ `isAccountNonLocked` ∧ `isEnabled` ∧ the two expiry accessors, which always hold. |
| Users.PreUpdate | backend/src/main/java/com/localbite/backend/auth/entity/User.java:123-126 | `@PreUpdate` sets `updatedAt` to the flush time and changes no other field. |
| Stores.Saved | backend/src/main/java/com/localbite/backend/auth/repository/UserRepository.java:14-16 | After `save`, looking up the row's email finds the stored row, every other email finds what it found before, and no row disappears. A new row gets the next identity value, which then advances by one. A merged row keeps its id and leaves the counter alone. |
| Stores.SavedKeepsOtherRows | backend/src/main/java/com/localbite/backend/auth/repository/UserRepository.java:14-16 | A save keeps the table keyed by email, leaves every other row alone, and makes `findByEmail` return the stored row. |
| Stores.SavedChangeStampsUpdatedAt | backend/src/main/java/com/localbite/backend/auth/entity/User.java:123-126 | A save that changes a persisted row gives it `updatedAt` = the save time; a save of an unchanged row changes nothing. |
| Stores.UserRepository.Save | backend/src/main/java/com/localbite/backend/auth/repository/UserRepository.java:14-16 | The method returns the stored row and leaves the table as `Saved` describes. |
| Stores.UserRepository.Rollback | backend/src/main/java/com/localbite/backend/auth/service/UserService.java:157-251 | An exception in a transaction discards its writes: the table returns to its state at the start. |
| Stores.RoleRepository.Save | backend/src/main/java/com/localbite/backend/auth/repository/RoleRepository.java:13-16 | A new role gets the next id and is stored under its name, and nothing else changes. |
| Stores.PasswordHistoryRepository.Save | backend/src/main/java/com/localbite/backend/auth/repository/PasswordHistoryRepository.java:14-19 | A new entry becomes the newest of its user's history, and no other user's history changes. |
| Stores.PasswordHistoryRepository.DeleteAllAfter | backend/src/main/java/com/localbite/backend/auth/service/PasswordPolicyService.java:267-278 | `deleteAll(subList(keep, size))`: the user keeps only the first `keep` entries, which are the newest. |
| PolicyProperties.PasswordPolicyProperties.constructor | backend/src/main/java/com/localbite/backend/auth/config/PasswordPolicyProperties.java:16-39 | A new bean has every field at its initialiser. |
| PolicyProperties.PasswordPolicyProperties.Bound | backend/src/main/java/com/localbite/backend/auth/config/PasswordPolicyProperties.java:16-39 | After property binding, the bean holds the bound settings. |
| PolicyProperties.AdjustedKeepsLevel | backend/src/main/java/com/localbite/backend/auth/config/PasswordPolicyProperties.java:111-146 | The adjusted policy carries the original enforcement level, DISABLED included. |
| PolicyProperties.AdjustedWhenEnforcing | backend/src/main/java/com/localbite/backend/auth/config/PasswordPolicyProperties.java:111-146 | For LENIENT, MODERATE and STRICT, the adjusted policy is the stored one with minLength = max(floor, minLength). LENIENT also turns off the common-password and keyboard checks. |
| PolicyProperties.AdjustedMinLength | backend/src/main/java/com/localbite/backend/auth/config/PasswordPolicyProperties.java:127-141 | The effective minimum is at least the level's floor (10, 8 or 6) and at least the configured value, and it is one of the two. |
| PolicyProperties.EnforcementEnabledIffFloor | backend/src/main/java/com/localbite/backend/auth/config/PasswordPolicyProperties.java:79-81 | Enforcement is on (level ≠ DISABLED) exactly when the effective minimum length is at least 6. |
| PolicyProperties.DisabledIgnoresConfiguration | backend/src/main/java/com/localbite/backend/auth/config/PasswordPolicyProperties.java:112-124 | DISABLED yields the same fresh object whatever is configured: minLength 1, every require and advanced flag off, every other field at its default. |
| PolicyProperties.AdjustedChangesOnlyMinLengthAndLenientChecks | backend/src/main/java/com/localbite/backend/auth/config/PasswordPolicyProperties.java:125-146 | Apart from minLength and LENIENT's two checks, an enforcing adjustment keeps every setting. |
| PolicyProperties.AdjustedIdempotent | backend/src/main/java/com/localbite/backend/auth/config/PasswordPolicyProperties.java:111-146 | Adjusting twice gives the same policy as adjusting once. |
| PolicyProperties.ValidateConfiguration | backend/src/main/java/com/localbite/backend/auth/config/PasswordPolicyProperties.java:48-74 | The check fails iff minLength > maxLength, with the source's message. Otherwise it only warns, once for minLength < 4 and once for maxLength > 256. |
| PolicyProperties.PasswordPolicyProperties.GetAdjustedForEnforcementLevel | backend/src/main/java/com/localbite/backend/auth/config/PasswordPolicyProperties.java:111-146 | The result holds the adjusted settings. For DISABLED it is a fresh object and the bean is unchanged. For every other level the result is the bean itself, now rewritten. |
| PasswordChecks.LengthViolations | backend/src/main/java/com/localbite/backend/auth/service/PasswordPolicyService.java:167-174 | Every violation it reports is a length violation. |
| PasswordChecks.LengthRules | backend/src/main/java/com/localbite/backend/auth/service/PasswordPolicyService.java:167-174 | "Too short" is reported iff length < minLength, and "too long" iff length > maxLength. At most one is reported when min ≤ max. |
| PasswordChecks.CountsOfConcat | backend/src/main/java/com/localbite/backend/auth/service/PasswordPolicyService.java:183-198 | The digit and special-character counts add up over concatenation. |
| PasswordChecks.CompositionViolations | backend/src/main/java/com/localbite/backend/auth/service/PasswordPolicyService.java:176-199 | Every violation it reports is a composition violation. |
| PasswordChecks.CompositionRules | backend/src/main/java/com/localbite/backend/auth/service/PasswordPolicyService.java:176-199 | Each of the four rules is reported iff it is on and unmet: no upper-case letter, no lower-case letter, fewer than minDigits digits, fewer than minSpecialChars allowed special characters. |
| PasswordChecks.LineTerminatorFailsLetterTests | backend/src/main/java/com/localbite/backend/auth/service/PasswordPolicyService.java:177-182 | `matches(".*[A-Z].*")` fails on any line terminator, so such a password fails both letter rules whatever letters it has. |
| PasswordChecks.CommonViolations | backend/src/main/java/com/localbite/backend/auth/service/PasswordPolicyService.java:201-205 | "Too common" is reported iff the rule is on and the lower-cased password is in the fixed set. |
| PasswordChecks.CommonIgnoresCase | backend/src/main/java/com/localbite/backend/auth/service/PasswordPolicyService.java:28-35 | Passwords equal up to case get the same common-password verdict. |
| PasswordChecks.PersonalFlags | backend/src/main/java/com/localbite/backend/auth/service/PasswordPolicyService.java:207-222 | Each detail is flagged iff the lower-cased password contains that detail, lower-cased. |
| PasswordChecks.PersonalViolations | backend/src/main/java/com/localbite/backend/auth/service/PasswordPolicyService.java:207-222 | The check raises exactly for a non-empty email made only of '@'. Otherwise it compares first name, last name and the email part before '@'. |
| PasswordChecks.PersonalCheck | backend/src/main/java/com/localbite/backend/auth/service/PasswordPolicyService.java:59-61 | The check runs only when a user is given and the flag is on. It raises exactly when its email split does. |
| PasswordChecks.FirstMatch | backend/src/main/java/com/localbite/backend/auth/service/PasswordPolicyService.java:224-232 | The result is the first pattern, in table order, that the text contains. It is `None` iff the text contains none of them. |
| PasswordChecks.FindPattern | backend/src/main/java/com/localbite/backend/auth/service/PasswordPolicyService.java:224-232 | The loop with `break` finds exactly `FirstMatch`. |
| PasswordChecks.KeyboardViolations | backend/src/main/java/com/localbite/backend/auth/service/PasswordPolicyService.java:224-232 | At most one violation, reported iff the rule is on and some pattern occurs. It names the first pattern found. |
| PasswordChecks.CheckCount | backend/src/main/java/com/localbite/backend/auth/service/PasswordPolicyService.java:243 | The count compared is min(N, size). |
| PasswordChecks.FindReuse | backend/src/main/java/com/localbite/backend/auth/service/PasswordPolicyService.java:245-251 | The loop with `break` finds a match among the first `n` entries exactly when one exists. |
| PasswordChecks.HistoryViolations | backend/src/main/java/com/localbite/backend/auth/service/PasswordPolicyService.java:234-255 | At most one violation, reported iff the user is given and saved, retention is on, and one of the first min(N, size) hashes matches. |
| PasswordChecks.OnlyRecentEntriesCount | backend/src/main/java/com/localbite/backend/auth/service/PasswordPolicyService.java:242-251 | Entries beyond the newest N never affect the verdict. |
| PasswordChecks.RunLengthRepeats | backend/src/main/java/com/localbite/backend/auth/service/PasswordPolicyService.java:257-265 | Run length characterises consecutive copies: the run at `i` is longer than `k` iff the next `k` characters equal `s[i]`. |
| PasswordChecks.RepeatFoundIffLongRun | backend/src/main/java/com/localbite/backend/auth/service/PasswordPolicyService.java:257-265 | `(.)\1{n,}` finds a match iff some character other than a line terminator starts a run longer than n. |
| PasswordChecks.RepeatViolations | backend/src/main/java/com/localbite/backend/auth/service/PasswordPolicyService.java:257-265 | A repeated-character violation occurs iff maxRepeatedChars > 0 and the regex finds a match. |
| PasswordChecks.ChecksIndependent | backend/src/main/java/com/localbite/backend/auth/service/PasswordPolicyService.java:45-75 | In the accumulated list, the violations of each kind are exactly those that kind's check reported, in order. |
| PasswordChecks.InFlattenIffReported | backend/src/main/java/com/localbite/backend/auth/service/PasswordPolicyService.java:45-75 | A violation is in the list iff its own check reported it. |
| PasswordChecks.Checks | backend/src/main/java/com/localbite/backend/auth/service/PasswordPolicyService.java:45-73 | Every check runs under the adjusted policy, and each part is that check's own result. The only exception is the personal-information split. |
| PasswordChecks.LengthReported | backend/src/main/java/com/localbite/backend/auth/service/PasswordPolicyService.java:167-174 | In the full list, each length violation appears iff its bound is broken. |
| PasswordChecks.CompositionReported | backend/src/main/java/com/localbite/backend/auth/service/PasswordPolicyService.java:176-199 | In the full list, each composition violation appears iff its rule is on and unmet. |
| PasswordChecks.CommonReported | backend/src/main/java/com/localbite/backend/auth/service/PasswordPolicyService.java:201-205 | In the full list, "too common" appears iff the rule is on and the password lower-cased is in the set. |
| PasswordChecks.PersonalReported | backend/src/main/java/com/localbite/backend/auth/service/PasswordPolicyService.java:207-222 | In the full list, first name, last name and email part are each flagged iff user given ∧ flag on ∧ contained, ignoring case. |
| PasswordChecks.PersonalPart | backend/src/main/java/com/localbite/backend/auth/service/PasswordPolicyService.java:207-222 | The personal check alone flags exactly the details that the password contains. |
| PasswordChecks.KeyboardReported | backend/src/main/java/com/localbite/backend/auth/service/PasswordPolicyService.java:224-232 | At most one pattern is named, the first one contained. One is named whenever the rule is on and some pattern occurs. |
| PasswordChecks.ReuseReported | backend/src/main/java/com/localbite/backend/auth/service/PasswordPolicyService.java:234-255 | Reuse is reported iff one of the first min(N, size) entries matches, for a saved user with retention on. It is never reported for a user without an id. |
| PasswordChecks.RepeatReported | backend/src/main/java/com/localbite/backend/auth/service/PasswordPolicyService.java:257-265 | The repeated-character violation appears in the full list iff the regex finds a match and the limit is positive. |
| PolicyService.ViolationsMessage | backend/src/main/java/com/localbite/backend/auth/service/PasswordPolicyService.java:328-330 | The result is "" for no violations. Otherwise it starts with the first message, and a single violation gives exactly its message. |
| PolicyService.Violations | backend/src/main/java/com/localbite/backend/auth/service/PasswordPolicyService.java:45-73 | The accumulated list is the checks' parts, concatenated in the source's order. It fails exactly when the personal-information check raises. |
| PolicyService.Validate | backend/src/main/java/com/localbite/backend/auth/service/PasswordPolicyService.java:40-86 | With enforcement DISABLED: valid, no violations, requirements "". Otherwise `valid` ⇔ no violations, the list is exactly what the checks found under the adjusted policy, and the requirements describe that policy. The only exception is the email split, and only when the personal check runs. |
| PolicyService.ValidateReportsEachRule | backend/src/main/java/com/localbite/backend/auth/service/PasswordPolicyService.java:45-75 | End to end, a violation is in the result iff the check of its kind reports it under the adjusted policy. |
| PolicyService.RequirementItemsListFlags | backend/src/main/java/com/localbite/backend/auth/service/PasswordPolicyService.java:280-297 | Each requirement word is listed iff its flag is on. The "must include" part is empty iff all four flags are off. |
| PolicyService.HintsShape | backend/src/main/java/com/localbite/backend/auth/service/PasswordPolicyService.java:141-163 | There are three fixed hints plus one per enabled rule. The list opens with the mixed-case hint, always names the minimum length, and closes with the passphrase hint. |
| PolicyService.CollectHints | backend/src/main/java/com/localbite/backend/auth/service/PasswordPolicyService.java:141-163 | The appends produce exactly the hints of the adjusted policy, in order. |
| PolicyService.DisabledSuggestions | backend/src/main/java/com/localbite/backend/auth/service/PasswordPolicyService.java:141-163 | With enforcement off, only the three fixed hints remain, and they name a minimum length of 1. |
| PolicyService.Expiry | backend/src/main/java/com/localbite/backend/auth/service/PasswordPolicyService.java:122-136 | (false, false, 0) when enforcement is off or expiryDays ≤ 0. A warning implies not expired, the day count is never negative, and an expired password shows 0 days. |
| PolicyService.ExpiryCharacterized | backend/src/main/java/com/localbite/backend/auth/service/PasswordPolicyService.java:127-135 | The reference is updatedAt, or createdAt when updatedAt is null. Expired iff now is past reference + expiryDays. Warning iff past the warning date and not expired. The count is the whole days left, truncated. |
| PolicyService.SaveRestartsExpiry | backend/src/main/java/com/localbite/backend/auth/entity/User.java:123-126 | A save stamps updatedAt, so right after a save the password is not expired and has the full expiryDays left. |
| PolicyService.Pruned | backend/src/main/java/com/localbite/backend/auth/service/PasswordPolicyService.java:267-278 | Exactly min(`keep`, size) entries remain, and they are the newest. A short history is kept whole. |
| PolicyService.StoredHistory | backend/src/main/java/com/localbite/backend/auth/service/PasswordPolicyService.java:92-117 | No entry is written when enforcement is off, retention ≤ 0 or the save fails. No other user's history ever changes. |
| PolicyService.HistoryAfterSaveKeepsNewest | backend/src/main/java/com/localbite/backend/auth/service/PasswordPolicyService.java:92-117 | After a successful save, the new entry comes first. The history keeps the newest min(rememberPreviousPasswords, size + 1) entries. When nothing is written, the history is unchanged. |
| PolicyService.SavedPasswordIsRecentlyUsed | backend/src/main/java/com/localbite/backend/auth/service/PasswordPolicyService.java:234-255 | Once `pw` is saved to the history, validating `pw` again reports it as recently used and invalid (given an encoder whose `matches` accepts its own `encode`). |
| PolicyService.PasswordPolicyService.ValidatePassword | backend/src/main/java/com/localbite/backend/auth/service/PasswordPolicyService.java:40-86 | The method answers `Validate` on the stored policy. Fetching the adjusted policy rewrites the bean whenever enforcement is on. |
| PolicyService.PasswordPolicyService.CollectViolations | backend/src/main/java/com/localbite/backend/auth/service/PasswordPolicyService.java:45-73 | The appends to the shared list, one check after another, build exactly `Violations`. |
| PolicyService.PasswordPolicyService.SavePasswordToHistory | backend/src/main/java/com/localbite/backend/auth/service/PasswordPolicyService.java:92-117 | The history store afterwards is `StoredHistory`. Every repository failure is swallowed. |
| PolicyService.PasswordPolicyService.CheckPasswordExpiry | backend/src/main/java/com/localbite/backend/auth/service/PasswordPolicyService.java:122-136 | The answer is `Expiry` under the stored policy. |
| PolicyService.PasswordPolicyService.GeneratePasswordSuggestions | backend/src/main/java/com/localbite/backend/auth/service/PasswordPolicyService.java:141-163 | The suggestions are those of the adjusted policy. As a side effect, the stored policy is rewritten unless it is DISABLED. |
| Accounts.ValidRoles | backend/src/main/java/com/localbite/backend/auth/service/UserService.java:259-268 | The blank test adds nothing: exactly BUYER and SELLER pass, in any casing, and ADMIN never does. |
| Accounts.Registration | backend/src/main/java/com/localbite/backend/auth/service/UserService.java:56-148 | A failed registration changes neither the users nor the roles table. |
| Accounts.RegistrationGates | backend/src/main/java/com/localbite/backend/auth/service/UserService.java:60-96 | The checks run in order. An existing email gets the success-shaped empty response and no change. A bad role fails with "Invalid role specified". An invalid password fails with "Password policy violation: " + the "; "-joined violations. An account is created iff all gates pass. |
| Accounts.RegistrationCreatesAccount | backend/src/main/java/com/localbite/backend/auth/service/UserService.java:98-147 | The created account has: the next id; not verified, not locked, enabled; provider LOCAL; 0 failed attempts; the encoded password; exactly one role. The answer has no tokens, and no other row changes. |
| Accounts.RegistrationCreated | backend/src/main/java/com/localbite/backend/auth/service/UserService.java:98-147 | A creating registration ends with the new row saved, the role created if missing, and the row's details in the answer. |
| Accounts.RoleKeptAsTyped | backend/src/main/java/com/localbite/backend/auth/service/UserService.java:273-293 | The role is stored under the name as typed, so "buyer" links a role row "buyer" with description "Basic user role". |
| Accounts.DisabledPolicyAdmitsAll | backend/src/main/java/com/localbite/backend/auth/service/UserService.java:81-96 | With enforcement disabled, any new email with an allowed role registers, whatever the password. |
| Accounts.AfterFailedLogin | backend/src/main/java/com/localbite/backend/auth/service/UserService.java:318-335 | One more failed attempt (null counts as 0), and a lock once the count reaches 5. Only the counter, the lock and updatedAt change. |
| Accounts.Login | backend/src/main/java/com/localbite/backend/auth/service/UserService.java:157-251 | A successful answer has tokenType "Bearer". |
| Accounts.LoginDecision | backend/src/main/java/com/localbite/backend/auth/service/UserService.java:157-251 | Success iff: the account exists, is verified, unlocked and enabled, the password matches, the password has not expired, and a key exists. Every earlier rejection gives the one "Invalid email or password". An expired password gives its own message. |
| Accounts.FailedLoginCounts | backend/src/main/java/com/localbite/backend/auth/service/UserService.java:241-250 | A rejected login on a stored account raises its counter by exactly 1, whatever its state, and locks it when the counter reaches ≥ 5. No other row changes, and an unknown email changes nothing. |
| Accounts.SuccessfulLogin | backend/src/main/java/com/localbite/backend/auth/service/UserService.java:206-231 | Success sets the counter to 0 and lastLogin to now. It returns both tokens, signed over the updated row, with expiresIn = expiration/1000 (3600 by default). |
| Accounts.LockedStaysLocked | backend/src/main/java/com/localbite/backend/auth/service/UserService.java:173-204 | A locked account never logs in, and a rejected attempt leaves it locked. |
| Accounts.FailedLoginsAccumulate | backend/src/main/java/com/localbite/backend/auth/service/UserService.java:318-335 | After n rejected logins, the counter has grown by n, and the account is locked once the count reaches 5. |
| Accounts.LoginAsWritten | backend/src/main/java/com/localbite/backend/auth/service/UserService.java:157-251 | As written, the login answers exactly like the intended login. |
| Accounts.LoginAsWrittenNeverCounts | backend/src/main/java/com/localbite/backend/auth/service/UserService.java:318-335 | As written, a wrong password leaves the table unchanged, because the counter update is rolled back. The intended login raises the counter by 1. |
| Accounts.Applied | backend/src/main/java/com/localbite/backend/auth/service/UserService.java:347-440 | The saved row is in the action's target state and stamped now. |
| Accounts.Administer | backend/src/main/java/com/localbite/backend/auth/service/UserService.java:347-440 | A refused action changes nothing. |
| Accounts.AdministerOutcome | backend/src/main/java/com/localbite/backend/auth/service/UserService.java:347-440 | Success iff the account is stored and not already in the target state. An unknown email fails with "User not found: <email>", and the "already …" message covers a no-op. On success, the account is in its target state (unlock also zeroes the counter) and no other row changes. |
| Accounts.AdministerTwiceRefused | backend/src/main/java/com/localbite/backend/auth/service/UserService.java:347-440 | Repeating an action is refused with its "already" message and changes nothing. |
| Accounts.UnlockRestoresLogin | backend/src/main/java/com/localbite/backend/auth/service/UserService.java:372-389 | Unlocking a verified, enabled account makes it eligible to log in, with a counter of 0. |
| Accounts.ResetAttempts | backend/src/main/java/com/localbite/backend/auth/service/UserService.java:481-494 | A failed reset changes nothing. |
| Accounts.ResetClearsCounterOnly | backend/src/main/java/com/localbite/backend/auth/service/UserService.java:481-494 | A reset sets the counter to 0 and reports the previous value. Unlike unlock, it keeps the lock and the enabled flag. |
| Accounts.UserByEmail | backend/src/main/java/com/localbite/backend/auth/service/UserService.java:502-505 | Returns the stored row iff the email is known. Otherwise it fails with "User not found: <email>". |
| Accounts.UserService.RegisterUser | backend/src/main/java/com/localbite/backend/auth/service/UserService.java:56-148 | The answer and the tables are `Registration` of the old state. A verification mail goes out and the password is recorded exactly when an account is created. Gates that fail before the policy check leave the policy bean alone. |
| Accounts.UserService.RegisterChecked | backend/src/main/java/com/localbite/backend/auth/service/UserService.java:76-147 | After the email gate, the method does exactly what `Registration` says for that password check. |
| Accounts.UserService.CreateAccount | backend/src/main/java/com/localbite/backend/auth/service/UserService.java:98-147 | The method links the role, saves the account, records the password and sends one mail, and answers with the saved row. |
| Accounts.UserService.LoginUser | backend/src/main/java/com/localbite/backend/auth/service/UserService.java:157-251 | The answer and the users table are the intended `Login` of the old table. |
| Accounts.UserService.HandleFailedLogin | backend/src/main/java/com/localbite/backend/auth/service/UserService.java:318-335 | A stored row is saved with `AfterFailedLogin`, and an unknown email changes nothing. |
| Accounts.UserService.Act | backend/src/main/java/com/localbite/backend/auth/service/UserService.java:347-440 | The answer and the table are `Administer` of the old table. |
| Accounts.UserService.LockUserAccount | backend/src/main/java/com/localbite/backend/auth/service/UserService.java:347-363 | `Administer` with Lock; the reason is only logged. |
| Accounts.UserService.UnlockUserAccount | backend/src/main/java/com/localbite/backend/auth/service/UserService.java:372-389 | `Administer` with Unlock. |
| Accounts.UserService.EnableUserAccount | backend/src/main/java/com/localbite/backend/auth/service/UserService.java:398-414 | `Administer` with Enable. |
| Accounts.UserService.DisableUserAccount | backend/src/main/java/com/localbite/backend/auth/service/UserService.java:424-440 | `Administer` with Disable. |
| Accounts.UserService.ResetFailedLoginAttempts | backend/src/main/java/com/localbite/backend/auth/service/UserService.java:481-494 | The answer and the table are `ResetAttempts`. |
| Accounts.UserService.GetUserByEmail | backend/src/main/java/com/localbite/backend/auth/service/UserService.java:502-505 | The answer is `UserByEmail` on the current table, with no change. |
| RateLimits.TypeName | backend/src/main/java/com/localbite/backend/auth/service/RateLimitService.java:264-271 | Every class's `name()` is non-empty and contains no ':'. |
| RateLimits.TypeNameInjective | backend/src/main/java/com/localbite/backend/auth/service/RateLimitService.java:264-271 | Distinct classes have distinct names. |
| RateLimits.BandwidthOf | backend/src/main/java/com/localbite/backend/auth/service/RateLimitService.java:161-210 | Under valid limits, each class gets a bandwidth the bucket builder accepts. GLOBAL uses the global limit. |
| RateLimits.EndpointLimitOf | backend/src/main/java/com/localbite/backend/auth/service/RateLimitService.java:215-228 | GLOBAL and ADMIN have no endpoint limit. The four authentication classes have one, and it is their bandwidth. |
| RateLimits.TryConsume | backend/src/main/java/com/localbite/backend/auth/service/RateLimitService.java:48-69 | A token is taken iff one is available, and the flag says whether it was. A refusal leaves the bucket unchanged. A valid bucket stays valid. |
| RateLimits.KeyClass | backend/src/main/java/com/localbite/backend/auth/service/RateLimitService.java:123-133 | The text of an IP key or a user key before its first ':' is its class name. |
| RateLimits.KeysSeparateClasses | backend/src/main/java/com/localbite/backend/auth/service/RateLimitService.java:123-133 | Equal keys of one shape mean the same class and the same client. An IP key equal to a user key has that user key's class. |
| RateLimits.IpKeyCanBeUserKey | backend/src/main/java/com/localbite/backend/auth/service/RateLimitService.java:123-133 | The two key shapes are not kept apart: the IP key of the address "user:<id>" is that user's key. |
| RateLimits.ClientIp | backend/src/main/java/com/localbite/backend/auth/service/RateLimitService.java:233-252 | The lookup raises exactly when the first usable header is an X-Forwarded-For made only of commas. There `split(",")[0]` indexes an empty array. |
| RateLimits.ClientIpPriority | backend/src/main/java/com/localbite/backend/auth/service/RateLimitService.java:233-252 | The first usable header wins: X-Forwarded-For (its first entry, trimmed), then X-Real-IP, then X-Forwarded, and the peer address only when none is usable. |
| RateLimits.BucketFor | backend/src/main/java/com/localbite/backend/auth/service/RateLimitService.java:138-159 | A cached bucket is returned unchanged. A missing one is built full, at its class's capacity. |
| RateLimits.ConsumeTakesOne | backend/src/main/java/com/localbite/backend/auth/service/RateLimitService.java:48-88 | A request is allowed iff its key's bucket has a token, and exactly one is then taken. The first request of a key is allowed. No other bucket changes, and the cache stays valid. |
| RateLimits.DenialChangesNothing | backend/src/main/java/com/localbite/backend/auth/service/RateLimitService.java:48-69 | A denied request leaves the whole cache as it was. |
| RateLimits.RequestsAllowedUpToTokens | backend/src/main/java/com/localbite/backend/auth/service/RateLimitService.java:48-69 | Of n requests in a row on one key, exactly min(n, tokens) are allowed, and the bucket ends down by that many. |
| RateLimits.DefaultLoginAllowsFive | backend/src/main/java/com/localbite/backend/auth/service/RateLimitService.java:48-69 | Under the default limits, a new client gets five logins and the sixth is refused. |
| RateLimits.Allowed | backend/src/main/java/com/localbite/backend/auth/service/RateLimitService.java:48-69 | When the address lookup raises, no bucket is touched. |
| RateLimits.RefillPeriod | backend/src/main/java/com/localbite/backend/auth/service/RateLimitService.java:102-118 | The refill period is the class's own, except for GLOBAL and ADMIN, which use the global one. |
| RateLimits.Wait | backend/src/main/java/com/localbite/backend/auth/service/RateLimitService.java:102-118 | The wait is 0 while a token remains. Otherwise it is the refill period × 60, wrapped to 32-bit `int`. |
| RateLimits.QueriesDoNotConsume | backend/src/main/java/com/localbite/backend/auth/service/RateLimitService.java:93-118 | The remaining count is the bucket's tokens, and the wait is 0 while tokens remain. Neither query spends a token, so the next request sees the same bucket. |
| RateLimits.WaitForEmptyBucket | backend/src/main/java/com/localbite/backend/auth/service/RateLimitService.java:102-118 | An empty bucket waits its class's refill period in seconds (the global period for ADMIN). Under the defaults that is 300 s for LOGIN and 60 s for ADMIN. |
| RateLimits.RateLimitService.constructor | backend/src/main/java/com/localbite/backend/auth/service/RateLimitService.java:30-40 | The cache starts empty. |
| RateLimits.RateLimitService.GetBucket | backend/src/main/java/com/localbite/backend/auth/service/RateLimitService.java:138-146 | It returns `BucketFor` and caches the bucket under its key. |
| RateLimits.RateLimitService.TryConsumeOne | backend/src/main/java/com/localbite/backend/auth/service/RateLimitService.java:48-69 | The answer and the new cache are `Consume` of the old cache. |
| RateLimits.RateLimitService.IsRequestAllowed | backend/src/main/java/com/localbite/backend/auth/service/RateLimitService.java:48-69 | The answer and the new cache are `Allowed` on the IP key. |
| RateLimits.RateLimitService.IsRequestAllowedForUser | backend/src/main/java/com/localbite/backend/auth/service/RateLimitService.java:73-88 | The answer and the new cache are `AllowedForUser` on the user key. |
| RateLimits.RateLimitService.GetRemainingRequests | backend/src/main/java/com/localbite/backend/auth/service/RateLimitService.java:93-97 | The answer and the new cache are `Remaining`. |
| RateLimits.RateLimitService.GetTimeUntilRefill | backend/src/main/java/com/localbite/backend/auth/service/RateLimitService.java:102-118 | The answer and the new cache are `TimeUntilRefill`. |
| RateLimitFiltering.RouteClasses | backend/src/main/java/com/localbite/backend/auth/security/RateLimitFilter.java:95-125 | The four authentication classes are chosen only for POST, and a non-POST admin path is ADMIN. No class is chosen exactly for a path outside /api/ and the admin prefixes that no POST rule names. |
| RateLimitFiltering.AdminManualVerifyIsEmailVerification | backend/src/main/java/com/localbite/backend/auth/security/RateLimitFilter.java:97-117 | The POST rules come before the admin prefix: a POST to an /api/auth/admin/ path with "/manual-verify" is EMAIL_VERIFICATION. |
| RateLimitFiltering.RateLimitInfoIsDefaults | backend/src/main/java/com/localbite/backend/auth/security/RateLimitFilter.java:204-222 | The advertised capacity is the default configuration's, and so is the other figure (the refill period), whatever the actual configuration. |
| RateLimitFiltering.FilterClientIpAgrees | backend/src/main/java/com/localbite/backend/auth/security/RateLimitFilter.java:250-262 | The filter's address lookup fails on the same requests as the service's. The two differ only when X-Forwarded is the first usable header. |
| RateLimitFiltering.Opened | backend/src/main/java/com/localbite/backend/auth/security/RateLimitFilter.java:227-245 | The text built so far always starts with '{'. |
| RateLimitFiltering.OpenedSnoc | backend/src/main/java/com/localbite/backend/auth/security/RateLimitFilter.java:230-242 | Each entry appends a comma (except before the first), then its quoted key, a colon and its value. |
| RateLimitFiltering.Json | backend/src/main/java/com/localbite/backend/auth/security/RateLimitFilter.java:227-245 | The body opens with '{' and closes with '}'. |
| RateLimitFiltering.JsonSingleEntry | backend/src/main/java/com/localbite/backend/auth/security/RateLimitFilter.java:227-245 | A one-entry object is the key and the value verbatim: only numbers go unquoted, and nothing is escaped. |
| RateLimitFiltering.CountedKeyOfClass | backend/src/main/java/com/localbite/backend/auth/security/RateLimitFilter.java:50-150 | A request without a class counts as GLOBAL. The key names its class. It is the user's key exactly for an authenticated, non-anonymous ADMIN request, and the client address's key otherwise. |
| RateLimitFiltering.CheckedKeyKnown | backend/src/main/java/com/localbite/backend/auth/security/RateLimitFilter.java:130-150 | Without per-user keying, the key is known iff the address lookup succeeds. A check that did not raise counted against a known key, through the service's consume. |
| RateLimitFiltering.CheckConsumesCountedKey | backend/src/main/java/com/localbite/backend/auth/security/RateLimitFilter.java:130-150 | A check that did not raise consumed from the counted key's bucket. |
| RateLimitFiltering.SkippedPassThrough | backend/src/main/java/com/localbite/backend/auth/security/RateLimitFilter.java:44-90 | Skipped paths continue the chain with no header and no bucket touched. |
| RateLimitFiltering.CountedRequest | backend/src/main/java/com/localbite/backend/auth/security/RateLimitFilter.java:34-71 | In the corrected filter, every other request is counted. It continues iff its bucket had a token, which it then spends. X-RateLimit-Remaining shows the tokens left in the charged bucket, and the policy header names the class. As written, this holds for every request counted by address (`AsWrittenAgreesWhenIpKeyed`) but not for per-user ADMIN requests (`PerUserPassReadsIpBucket`). |
| RateLimitFiltering.RefusedRequest | backend/src/main/java/com/localbite/backend/auth/security/RateLimitFilter.java:155-185 | The corrected refusal is 429 with Remaining "0" and Retry-After set to the refusing class's refill period in seconds. No bucket changes. |
| RateLimitFiltering.PerUserRefusalReportsNoWait | backend/src/main/java/com/localbite/backend/auth/security/RateLimitFilter.java:155-185 | As written, a per-user ADMIN refusal whose IP bucket was never used says Retry-After "0". As written, the IP bucket also gets created. The corrected filter reports the global period and leaves the cache unchanged. |
| RateLimitFiltering.AsWrittenAgreesWhenIpKeyed | backend/src/main/java/com/localbite/backend/auth/security/RateLimitFilter.java:34-71 | For a request counted by client address, `doFilter` as written and the corrected filter give the same outcome and the same cache. |
| RateLimitFiltering.PerUserPassReadsIpBucket | backend/src/main/java/com/localbite/backend/auth/security/RateLimitFilter.java:190-199 | As written, a passing per-user ADMIN request whose IP bucket is not cached reports the full ADMIN capacity as remaining, and the IP bucket gets created. When the address lookup raises, the request fails with IndexOutOfBounds. The corrected filter reports the charged user bucket's tokens minus one and caches nothing more. |
| RateLimitFiltering.RateLimitFilter.constructor | backend/src/main/java/com/localbite/backend/auth/security/RateLimitFilter.java:34-71 | The filter starts with the chain never invoked. |
| RateLimitFiltering.RateLimitFilter.ConvertToJson | backend/src/main/java/com/localbite/backend/auth/security/RateLimitFilter.java:227-245 | The StringBuilder loop produces exactly `Json` of the entries. |
| RateLimitFiltering.RateLimitFilter.CheckRateLimit | backend/src/main/java/com/localbite/backend/auth/security/RateLimitFilter.java:130-150 | The answer and the new cache are `Check`. On success the key returned is the counted key, now cached. |
| RateLimitFiltering.RateLimitFilter.DoFilter | backend/src/main/java/com/localbite/backend/auth/security/RateLimitFilter.java:34-71 | The outcome and the new cache are those of the corrected `Filter`, which reads the headers from the charged bucket. The chain runs once exactly when the request continues. The source's differences from it are listed under Findings. |
| JwtConfig.ValidateConfiguration | backend/src/main/java/com/localbite/backend/auth/config/JwtProperties.java:23-44 | A configuration is accepted iff the secret is present, non-blank, Base64 and at least 32 bytes decoded. Otherwise the error says which test failed: missing or blank, not Base64, or too short. |
| JwtConfig.DefaultsRejected | backend/src/main/java/com/localbite/backend/auth/config/JwtProperties.java:17-29 | The shipped defaults have no secret, so start-up fails with the missing-secret error. |
| Jwt.CreateSigningKey | backend/src/main/java/com/localbite/backend/auth/security/JwtUtil.java:44-72 | A key exists iff the secret is present, non-blank, and its trimmed text is Base64 of at least 32 bytes. The key is those bytes. A missing or blank secret is its own failure. |
| Jwt.DecodableIsTrimmed | backend/src/main/java/com/localbite/backend/auth/security/JwtUtil.java:47-52 | Base64 text is its own trim. |
| Jwt.ConfiguredSecretMakesKey | backend/src/main/java/com/localbite/backend/auth/config/JwtProperties.java:33-38 | A secret that passes the start-up check (decoded untrimmed) also yields a key (decoded trimmed), with the same bytes. |
| Jwt.AccessClaims | backend/src/main/java/com/localbite/backend/auth/security/JwtUtil.java:87-134 | An access token carries exactly the user id, names, verified flag, role authorities and provider. Its subject is the email, with the configured issuer and audience, and it expires `expiration` ms after issue. |
| Jwt.RefreshClaims | backend/src/main/java/com/localbite/backend/auth/security/JwtUtil.java:106-134 | A refresh token carries only the user id and `tokenType = "refresh"`, and expires `refreshExpiration` ms after issue. |
| Jwt.ValidTokenFacts | backend/src/main/java/com/localbite/backend/auth/security/JwtUtil.java:153-222 | A valid token parses under the key, names the user's email as subject, and has an expiry not yet passed. |
| Jwt.NoKeyFailsClosed | backend/src/main/java/com/localbite/backend/auth/security/JwtUtil.java:184-239 | Without a key, no token validates, every token counts as expired, and none is a refresh token. |
| Jwt.ParsedTokenChecks | backend/src/main/java/com/localbite/backend/auth/security/JwtUtil.java:184-239 | For a token that parses: it validates iff its subject is the user's email and its expiry has not passed, and it is a refresh token iff its `tokenType` claim is "refresh". |
| Jwt.AccessTokenChecks | backend/src/main/java/com/localbite/backend/auth/security/JwtUtil.java:87-239 | A token of `generateToken`'s claims is never a refresh token. It validates for its user exactly until issue + expiration. |
| Jwt.RefreshTokenChecks | backend/src/main/java/com/localbite/backend/auth/security/JwtUtil.java:106-239 | A token of the refresh claims is a refresh token. It validates until issue + refreshExpiration. |
| Jwt.JwtUtil.constructor | backend/src/main/java/com/localbite/backend/auth/security/JwtUtil.java:32-42 | The utility starts with no cached key. |
| Jwt.JwtUtil.InitializeSigningKey | backend/src/main/java/com/localbite/backend/auth/security/JwtUtil.java:32-42 | It caches the derived key, or fails start-up and leaves the cache as it was. |
| Jwt.JwtUtil.GetSigningKey | backend/src/main/java/com/localbite/backend/auth/security/JwtUtil.java:74-85 | The result is always the derivation's. A cached key is returned unchanged. Otherwise the key is derived and cached only on success. |
| Jwt.JwtUtil.GenerateToken | backend/src/main/java/com/localbite/backend/auth/security/JwtUtil.java:87-104 | With a key, the result is the signed access claims. Without one, it is the wrapped generation error. A cached key stays. |
| Jwt.JwtUtil.GenerateRefreshToken | backend/src/main/java/com/localbite/backend/auth/security/JwtUtil.java:106-117 | With a key, the result is the signed refresh claims. Without one, it is the wrapped error. |
| Jwt.JwtUtil.CheckToken | backend/src/main/java/com/localbite/backend/auth/security/JwtUtil.java:195-222 | The answer is `ValidateToken` under the derived key. |
| Jwt.JwtUtil.CheckExpired | backend/src/main/java/com/localbite/backend/auth/security/JwtUtil.java:184-193 | The answer is `IsTokenExpired` under the derived key. |
| Jwt.JwtUtil.CheckRefreshToken | backend/src/main/java/com/localbite/backend/auth/security/JwtUtil.java:224-239 | The answer is `IsRefreshToken` under the derived key. |
| JwtFilter.BearerToken | backend/src/main/java/com/localbite/backend/auth/security/JwtAuthenticationFilter.java:36-42 | A token is found iff the header starts with "Bearer ", and the header is that prefix followed by the token. |
| JwtFilter.AccountValidIsLoginEligible | backend/src/main/java/com/localbite/backend/auth/security/JwtAuthenticationFilter.java:81-107 | A token authenticates exactly the accounts that may log in with a password. |
| JwtFilter.Authenticated | backend/src/main/java/com/localbite/backend/auth/security/JwtAuthenticationFilter.java:45-61 | An existing authentication is kept. A new one is for a stored user with a valid account, carrying that user's authorities. |
| JwtFilter.AuthenticatedIff | backend/src/main/java/com/localbite/backend/auth/security/JwtAuthenticationFilter.java:36-61 | A request becomes authenticated iff its bearer token parses, names a stored user, validates for that user, and the user's account is valid. |
| JwtFilter.NoBearerNoChange | backend/src/main/java/com/localbite/backend/auth/security/JwtAuthenticationFilter.java:36-39 | Without a bearer header, the context is left alone. |
| JwtFilter.JwtAuthenticationFilter.constructor | backend/src/main/java/com/localbite/backend/auth/security/JwtAuthenticationFilter.java:30-76 | The filter starts with no authentication and the chain never invoked. |
| JwtFilter.JwtAuthenticationFilter.DoFilterInternal | backend/src/main/java/com/localbite/backend/auth/security/JwtAuthenticationFilter.java:30-76 | The new context is `Authenticated` of the old one, and the chain runs exactly once. |
| OAuth2Accounts.AttributeMapping | backend/src/main/java/com/localbite/backend/auth/service/OAuth2UserService.java:156-216 | Each provider reads its own attribute names. Facebook's image URL is built from the id. |
| OAuth2Accounts.UserInfoFor | backend/src/main/java/com/localbite/backend/auth/service/OAuth2UserService.java:220-230 | A profile reader keeps the attributes given. An unsupported id fails with an error naming it. |
| OAuth2Accounts.DispatchIsEqualsIgnoreCase | backend/src/main/java/com/localbite/backend/auth/service/OAuth2UserService.java:220-230 | The factory accepts exactly "google" and "facebook" in any letter case, and picks Google's reader exactly for "google". |
| OAuth2Accounts.DispatchedProviderExists | backend/src/main/java/com/localbite/backend/auth/service/OAuth2UserService.java:220-230 | Every id the factory accepts upper-cases to an existing `AuthProvider`, the one of its reader. |
| OAuth2Accounts.RolesWithBuyer | backend/src/main/java/com/localbite/backend/auth/service/OAuth2UserService.java:126-134 | Afterwards the buyer role exists. A table that already had it is unchanged. |
| OAuth2Accounts.NewOAuthUserIsEligible | backend/src/main/java/com/localbite/backend/auth/service/OAuth2UserService.java:60-86 | A new provider account can log in at once: verified, unlocked, enabled, no password, no failed attempts, the provider and its id, the profile's names, and only the buyer role. |
| OAuth2Accounts.Linked | backend/src/main/java/com/localbite/backend/auth/service/OAuth2UserService.java:95-100 | A different provider replaces the provider and its id. Nothing else changes. |
| OAuth2Accounts.Verified | backend/src/main/java/com/localbite/backend/auth/service/OAuth2UserService.java:102-105 | An unverified email becomes verified. Nothing else changes. |
| OAuth2Accounts.WithFirstName | backend/src/main/java/com/localbite/backend/auth/service/OAuth2UserService.java:107-110 | A present first name replaces the stored one. Nothing else changes. |
| OAuth2Accounts.WithLastName | backend/src/main/java/com/localbite/backend/auth/service/OAuth2UserService.java:112-115 | A present last name replaces the stored one. Nothing else changes. |
| OAuth2Accounts.RefreshedFields | backend/src/main/java/com/localbite/backend/auth/service/OAuth2UserService.java:88-124 | After an update, the provider is the signing-in one, and its id is replaced only with a provider change. The email is verified. Each name is the profile's when present, else the old one. |
| OAuth2Accounts.RefreshedKeepsOtherColumns | backend/src/main/java/com/localbite/backend/auth/service/OAuth2UserService.java:88-124 | No other column changes. |
| OAuth2Accounts.NeedsUpdateIffChanged | backend/src/main/java/com/localbite/backend/auth/service/OAuth2UserService.java:88-124 | The save flag is raised exactly when the row changed. |
| OAuth2Accounts.RefreshedIdempotent | backend/src/main/java/com/localbite/backend/auth/service/OAuth2UserService.java:88-124 | Updating twice from the same profile changes nothing the second time. |
| OAuth2Accounts.Process | backend/src/main/java/com/localbite/backend/auth/service/OAuth2UserService.java:41-58 | A refused sign-in changes neither table. |
| OAuth2Accounts.ProcessRefusals | backend/src/main/java/com/localbite/backend/auth/service/OAuth2UserService.java:41-58 | First an unsupported provider is refused, then a missing or empty email. Nothing else is refused, and a refusal changes no table. |
| OAuth2Accounts.ProcessCreates | backend/src/main/java/com/localbite/backend/auth/service/OAuth2UserService.java:49-86 | An unknown email gets a new, login-eligible account under the next id, with only the buyer role, created if missing. No other row changes. |
| OAuth2Accounts.ProcessUpdates | backend/src/main/java/com/localbite/backend/auth/service/OAuth2UserService.java:49-124 | A known email's row is written back, stamped with the sign-in time, exactly when a field changed. Otherwise both tables stay. |
| OAuth2Accounts.ProcessIdempotent | backend/src/main/java/com/localbite/backend/auth/service/OAuth2UserService.java:41-124 | Signing in twice with the same profile changes nothing the second time. |
| OAuth2Accounts.OAuth2UserService.constructor | backend/src/main/java/com/localbite/backend/auth/service/OAuth2UserService.java:23-26 | The service holds the two repositories. |
| OAuth2Accounts.OAuth2UserService.ProcessOAuth2User | backend/src/main/java/com/localbite/backend/auth/service/OAuth2UserService.java:41-58 | The result and both new tables are `Process` of the old ones. |
| OAuth2Accounts.OAuth2UserService.RegisterNewUser | backend/src/main/java/com/localbite/backend/auth/service/OAuth2UserService.java:60-86 | The buyer role is ensured, and the new account is saved. |
| OAuth2Accounts.OAuth2UserService.UpdateExistingUser | backend/src/main/java/com/localbite/backend/auth/service/OAuth2UserService.java:88-124 | The refreshed row, stamped, is saved iff something changed. Otherwise nothing is written. |
| OAuth2Accounts.OAuth2UserService.CreateDefaultRole | backend/src/main/java/com/localbite/backend/auth/service/OAuth2UserService.java:126-134 | A new role with the default description is stored under the next id. |
| EmailVerification.VerificationQueries | backend/src/main/java/com/localbite/backend/auth/service/EmailVerificationService.java:71-186 | A missing token never verifies. A token verifies iff it has a character above U+0020. An unknown address is never verified. A resend fails exactly for unknown or verified addresses. |
| EmailVerification.VerificationMails | backend/src/main/java/com/localbite/backend/auth/service/EmailVerificationService.java:33-62 | A verified user gets no mail. Any other user gets one to their own address. |
| EmailVerification.Resend | backend/src/main/java/com/localbite/backend/auth/service/EmailVerificationService.java:127-146 | A resend fails iff the address is unknown or already verified, always with the same wrapped message. Otherwise one mail goes to the account. |
| EmailVerification.ManualVerification | backend/src/main/java/com/localbite/backend/auth/service/EmailVerificationService.java:154-174 | It fails (wrapped, table unchanged) exactly for an unknown address. |
| EmailVerification.ManualVerificationVerifies | backend/src/main/java/com/localbite/backend/auth/service/EmailVerificationService.java:154-174 | Afterwards the address is verified and every other row is untouched. A changed row carries the verification time. |
| EmailVerification.ManualVerificationIdempotent | backend/src/main/java/com/localbite/backend/auth/service/EmailVerificationService.java:154-174 | Verifying twice has the effect of verifying once. |
| EmailVerification.EmailVerificationService.constructor | backend/src/main/java/com/localbite/backend/auth/service/EmailVerificationService.java:33-62 | The outbox starts empty. |
| EmailVerification.EmailVerificationService.SendVerificationEmail | backend/src/main/java/com/localbite/backend/auth/service/EmailVerificationService.java:33-62 | The outbox grows by `VerificationMails(u)`. |
| EmailVerification.EmailVerificationService.ResendVerificationEmail | backend/src/main/java/com/localbite/backend/auth/service/EmailVerificationService.java:127-146 | It fails with the wrapped message and no mail exactly where `Resend` fails. Otherwise the outbox grows by `Resend`'s mail. |
| EmailVerification.EmailVerificationService.ManuallyVerifyEmail | backend/src/main/java/com/localbite/backend/auth/service/EmailVerificationService.java:154-174 | The result and the new table are `ManualVerification` of the old table. |
| ErrorHandling.AuthenticationRelatedWords | backend/src/main/java/com/localbite/backend/exception/GlobalExceptionHandler.java:111-119 | The first test adds nothing. A message is authentication-related iff, lower-cased, it mentions "invalid" and "password", "authentication failed" or "credentials". A null message never is. |
| ErrorHandling.RuntimeStatusCases | backend/src/main/java/com/localbite/backend/exception/GlobalExceptionHandler.java:68-142 | A runtime exception gets 400, 401 or 404, never 500. It gets 401 iff the message is authentication-related, and 404 iff it says "not found" without validation wording. |
| ErrorHandling.LoginFailureIsUnauthorized | backend/src/main/java/com/localbite/backend/exception/GlobalExceptionHandler.java:68-119 | The message of every failed login (`Invalid email or password`) is answered with 401. |
| ErrorHandling.UnknownUserIsNotFound | backend/src/main/java/com/localbite/backend/exception/GlobalExceptionHandler.java:125-142 | "User not found: <email>" is answered with 404, unless the email itself carries a word of an earlier test. |
| ErrorHandling.FieldErrorMapDomain | backend/src/main/java/com/localbite/backend/exception/GlobalExceptionHandler.java:27-47 | The map has an entry for exactly the fields some error names. |
| ErrorHandling.FieldErrorMapLastWins | backend/src/main/java/com/localbite/backend/exception/GlobalExceptionHandler.java:27-47 | A field's entry is the message of the last error naming it. |
| ErrorHandling.HandlerResponses | backend/src/main/java/com/localbite/backend/exception/GlobalExceptionHandler.java:27-106 | A bad-credentials failure gets the same 401 and fixed message, whatever its own message. An unexpected failure gets the same 500. A validation failure gets 400 with its field errors. A runtime exception gets its own message under the classified status. |
| ErrorHandling.HandleValidationErrors | backend/src/main/java/com/localbite/backend/exception/GlobalExceptionHandler.java:27-47 | The loop builds exactly the response `Handle` gives for the validation failure. |
| Text.SplitFirstAsWritten | backend/src/main/java/com/localbite/backend/auth/service/RateLimitService.java:238 | Java's `split(sep)[0]` raises exactly on non-empty text made only of separators. Otherwise it is the text before the first separator. |
| Text.BlankIffAllControls | backend/src/main/java/com/localbite/backend/auth/security/JwtUtil.java:47 | Text is blank after `trim` iff every character is at most U+0020. |
| Base64.DecodeEncode | backend/src/main/java/com/localbite/backend/auth/config/JwtProperties.java:33 | Decoding the RFC 4648 encoding of any byte string gives it back. |
| Base64.DecodedLength | backend/src/main/java/com/localbite/backend/auth/config/JwtProperties.java:33-38 | The decoded length follows from the text length and padding, which is what the 32-byte test measures. Unpadded text of length n gives 3 bytes per full quantum, plus one byte less than the length of the final partial quantum. Text ending in '=' has a multiple of four characters and gives one or two bytes fewer than 3 per quantum. |
| Stores.UserRepository.constructor | backend/src/main/java/com/localbite/backend/auth/repository/UserRepository.java:14-22 | The repository holds the given table. |
| Stores.RoleRepository.constructor | backend/src/main/java/com/localbite/backend/auth/repository/RoleRepository.java:13-16 | The repository holds the given table. |
| Stores.PasswordHistoryRepository.constructor | backend/src/main/java/com/localbite/backend/auth/repository/PasswordHistoryRepository.java:14-19 | The repository holds the given histories. |
| PolicyService.PasswordPolicyService.constructor | backend/src/main/java/com/localbite/backend/auth/service/PasswordPolicyService.java:20-35 | The service holds its policy bean, history repository and encoder, together with the fixed common-password list. |
| Accounts.UserService.constructor | backend/src/main/java/com/localbite/backend/auth/service/UserService.java:36-47 | The service holds the repositories and the collaborating services it delegates to. |

## Left out

- **Unicode.** Casing, `Character.isDigit` and the regular-expression classes are modelled on ASCII only. Other letters and digits count as "other" characters.
- **Header-name case.** Header names are matched exactly, not case-insensitively as the servlet container does.
- **Null inputs.** Null passwords, emails and request bodies are left out. Bean validation rejects them before the services run. Null optional columns are modelled as `Option`. The `Boolean` columns `emailVerified`, `accountLocked` and `enabled` are modelled as never null. A null one makes the source throw a NullPointerException where it unboxes the flag (for example `!user.getEmailVerified()`), and the model does not capture that.
- **History order.** `findByUserOrderByCreatedAtDesc` is modelled as a per-user list kept newest first. Ordering by timestamp is not re-derived.
- **`PasswordHistory.isWithinRestrictionPeriod`.** Nothing in the core calls it.
- **Base64.** Both secret decodings are modelled by `java.util.Base64`'s basic decoder. It uses the RFC 4648 alphabet, and padding of the final quantum is optional. That is exact for the start-up check. The key derivation really goes through jjwt's `Decoders.BASE64`, which also skips line breaks and non-alphabet characters at the ends, and the model does not capture that leniency.
- **Token parsing.** JWT parsing, signature checking and clock skew are left to the `parse` parameter.
- **Claim names.** A parsed token's unknown claim `Other("tokenType")` and the named claim `TokenType` are two model values for one JSON key. Parse results are not constrained to keep them apart.
- **Null claims.** jjwt drops a claim whose value is null (the `userId` of an unsaved user, an absent name). The model keeps it as `Null`.
- **Claim times.** JWT `iat` and `exp` are whole seconds. `AccessTokenChecks` and `RefreshTokenChecks` assume the milliseconds survive `parse`, so "valid until issue + expiration" can overstate validity by up to 999 ms.
- **Key derivation.** The type of the key derivation's failure is kept, but not the exception's wording.
- **Dummy hashing.** `loginUser` calls `passwordEncoder.matches` against a dummy hash to equalise timing for unknown emails. Timing is not modelled.
- **`getUserAccountStatus`.** It only formats a string for logs and is not modelled.
- **Integer widths.** `Long` and `Integer` are unbounded, except the 32-bit product in `getTimeUntilRefill`, which is modelled with `Int32`.
- **Logging.** Every log statement is left out, including the rate-limit filter's warning line and the exception handler's messages.
- **Security context.** `SecurityContextHolder` is one field of the JWT filter. Its thread-local scope is not modelled.
- **Mail.** The verification mail is only logged. The model records its address in an outbox list.
- **Bucket refill.** Bucket4j's interval refill (`Refill.intervally`) over time is not modelled. A bucket holds its tokens until taken, so `Wait` is the full refill period `getTimeUntilRefill` reports.
- **Cache limits.** Guava's cache size limit and expiry are not modelled. The cache is an unbounded map.
- **`getBucket` fallback.** The branch that builds an uncached bucket when the cache load fails is left out, because the map-backed cache cannot fail.
- **JSON field order.** `convertToJson` iterates a `HashMap`. The model takes the entries in a given order, and its lemmas hold for any order.
- **Invalid limits.** Rate limits that Bucket4j would reject are excluded by `ValidLimits` on the service's constructor.
- **`RateLimitProperties.validateConfiguration`.** It only logs and is not modelled.
- **Verification tokens.** `generateVerificationToken` returns a random UUID and is left out. Any token the model is given stands for one.
- **OAuth2 details.** `super.loadUser` (the provider round trip) and `loadUser`'s wrapping of exceptions into `OAuth2AuthenticationException` are left out. So are non-string attribute values and the `CustomOAuth2User` wrapper. The model starts at `processOAuth2User` with the attribute map.
- CountedRequest: stated for the corrected filter. The as-written filter agrees with it for requests counted by address (`AsWrittenAgreesWhenIpKeyed`) and departs from it for per-user ADMIN requests, shown by `PerUserPassReadsIpBucket`.
- DoFilter: specified by the corrected `Filter`. The source reads the Retry-After and Remaining headers from the IP bucket, creates that bucket, and can raise on a per-user request after it was let through. These differences are the second and third findings.
- **Other repository queries.** `UserRepository` queries that the core never calls are not modelled.
- **Error-response details.** The handler's timestamp entry is left out, and so is the cast of each binding error to `FieldError` (every error is taken to be one).
- **Other files.** `AuthController`, the security configuration, the DTO classes and the rest of the application are not part of this model.
- **Concurrency and transactions.** Neither is modelled. The single exception is the rollback of `loginUser`'s transaction, which is what the first finding is about.

## Findings

| source | as written | input that shows it | evidently intended | confidence | as-written member | corrected member |
|---|---|---|---|---|---|---|
| backend/src/main/java/com/localbite/backend/auth/service/UserService.java:318-335 | `handleFailedLogin` is a private method called on `this`. Its `REQUIRES_NEW` annotation therefore does not apply. The counter save joins `loginUser`'s transaction, and that transaction rolls back on the RuntimeException thrown at line 249. | A stored, eligible account and a wrong password, repeated any number of times | Each failure raises the stored counter, and the fifth failure locks the account. | not executed | Accounts.LoginAsWrittenNeverCounts | Accounts.FailedLoginCounts |
| backend/src/main/java/com/localbite/backend/auth/security/RateLimitFilter.java:155-166 | `handleRateLimitExceeded` takes Retry-After from `getTimeUntilRefill(request, type)`, which reads the client's IP bucket. This happens even when the refusal came from the per-user ADMIN bucket, and the read creates and caches the IP bucket. | An authenticated admin whose user bucket is empty, from an address whose ADMIN IP bucket was never used | Retry-After is the refill period of the refusing bucket, 60 s under the defaults. As written it is 0. | not executed | RateLimitFiltering.PerUserRefusalReportsNoWait | RateLimitFiltering.RefusedRequest |
| backend/src/main/java/com/localbite/backend/auth/security/RateLimitFilter.java:190-199 | `addRateLimitHeaders` takes X-RateLimit-Remaining from `getRemainingRequests(request, type)`, which reads the IP bucket and creates it when it is missing, even for a request charged to the per-user ADMIN bucket. The address lookup there can raise after the request was let through. | An authenticated admin whose user bucket holds 3 tokens, from an address whose ADMIN IP bucket was never used. Alternatively, the same admin with an X-Forwarded-For made only of commas | Remaining is "2", the charged bucket's count, with no extra bucket cached. As written it is the ADMIN capacity ("50" under the defaults). With the comma header the request continues, where as written doFilter throws IndexOutOfBounds. | not executed | RateLimitFiltering.PerUserPassReadsIpBucket | RateLimitFiltering.CountedRequest |
