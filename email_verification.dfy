/**
 * The email-verification service as it stands: no token store and no mail
 * transport yet. Sending a verification mail is recorded in an outbox (the
 * service only logs it), any non-blank token verifies, and an administrator
 * can mark an address verified directly.
 */
module EmailVerification {
  import opened Wrappers
  import opened Text
  import opened Users
  import opened Stores

  const ResendFailed := "Failed to resend verification email"
  const VerifyFailed := "Failed to verify email"

  /** `verifyEmail`: the simulation accepts every token that is present and not blank. */
  predicate VerifyEmail(token: Option<string>) {
    token.Some? && !IsBlank(token.value)
  }

  /** `isEmailVerified`: the stored flag, false for an unknown address. */
  predicate IsEmailVerified(t: UserTable, email: string) {
    email in t.byEmail && t.byEmail[email].emailVerified
  }

  /**
   * A token verifies exactly when it has a character above U+0020, and only
   * a stored account can count as verified; a resend fails exactly where the
   * address is unknown or already verified.
   */
  lemma VerificationQueries(token: Option<string>, t: UserTable, email: string)
    ensures !VerifyEmail(None)
    ensures token.Some? ==> (VerifyEmail(token) <==> exists i :: 0 <= i < |token.value| && token.value[i] > ' ')
    ensures email !in t.byEmail ==> !IsEmailVerified(t, email)
    ensures Resend(t, email).Failure? <==> email !in t.byEmail || IsEmailVerified(t, email)
  {
    if token.Some? {
      BlankIffAllControls(token.value);
    }
  }

  /** The addresses a verification mail goes to when `sendVerificationEmail(u)` runs: none for a verified user. */
  function VerificationMails(u: User): (m: seq<string>)
    ensures u.emailVerified <==> m == []
    ensures !u.emailVerified ==> m == [u.email]
  {
    if u.emailVerified then [] else [u.email]
  }

  /**
   * `resendVerificationEmail`: an unknown or already-verified address fails,
   * with every cause wrapped in the same message; otherwise one mail goes out.
   */
  function Resend(t: UserTable, email: string): (r: Result<seq<string>, string>)
    ensures r.Failure? <==> !(email in t.byEmail && !t.byEmail[email].emailVerified)
    ensures r.Failure? ==> r.error == ResendFailed
    ensures r.Success? ==> r.value == [t.byEmail[email].email]
  {
    match Lookup(t, email)
    case None => Failure(ResendFailed)
    case Some(u) => if u.emailVerified then Failure(ResendFailed) else Success(VerificationMails(u))
  }

  /**
   * `manuallyVerifyEmail` at time `now`: the result and the table afterwards.
   * An unknown address fails (wrapped), a verified account is left as it is,
   * any other one is saved verified.
   */
  function ManualVerification(t: UserTable, email: string, now: int): (out: (Result<(), string>, UserTable))
    ensures out.0.Failure? <==> email !in t.byEmail
    ensures out.0.Failure? ==> out.0.error == VerifyFailed && out.1 == t
  {
    match Lookup(t, email)
    case None => (Failure(VerifyFailed), t)
    case Some(u) =>
      if u.emailVerified then (Success(()), t)
      else (Success(()), Saved(t, u.(emailVerified := true, updatedAt := Some(now)), now))
  }

  /**
   * After a manual verification the address is verified, every other row is
   * untouched, and a changed row carries the verification time.
   */
  lemma ManualVerificationVerifies(t: UserTable, email: string, other: string, now: int)
    requires KeyedByEmail(t) && email in t.byEmail
    ensures KeyedByEmail(ManualVerification(t, email, now).1)
    ensures IsEmailVerified(ManualVerification(t, email, now).1, email)
    ensures other != email ==> Lookup(ManualVerification(t, email, now).1, other) == Lookup(t, other)
    ensures !t.byEmail[email].emailVerified ==>
              ManualVerification(t, email, now).1.byEmail[email] ==
                t.byEmail[email].(emailVerified := true, updatedAt := Some(now))
  {
    var u := t.byEmail[email];
    if !u.emailVerified {
      SavedKeepsOtherRows(t, u.(emailVerified := true, updatedAt := Some(now)), now, other);
    }
  }

  /** Verifying twice is verifying once: the second call changes nothing. */
  lemma ManualVerificationIdempotent(t: UserTable, email: string, now: int, later: int)
    requires KeyedByEmail(t)
    ensures var once := ManualVerification(t, email, now);
            ManualVerification(once.1, email, later) == (once.0, once.1)
  {
    if email in t.byEmail {
      ManualVerificationVerifies(t, email, email, now);
    }
  }

  class EmailVerificationService {
    const userRepository: UserRepository
    /** The addresses verification mails have been sent to, oldest first. */
    var outbox: seq<string>

    constructor(userRepository: UserRepository)
      ensures this.userRepository == userRepository && outbox == []
    {
      this.userRepository := userRepository;
      outbox := [];
    }

    /** `sendVerificationEmail(u)`: nothing for a verified user, else one mail. */
    method SendVerificationEmail(u: User)
      modifies this
      ensures outbox == old(outbox) + VerificationMails(u)
    {
      if u.emailVerified {
        return;
      }
      outbox := outbox + [u.email];
    }

    /** `resendVerificationEmail(email)`. */
    method ResendVerificationEmail(email: string) returns (r: Result<(), string>)
      modifies this
      ensures Resend(userRepository.Table(), email).Failure? ==>
                r == Failure(ResendFailed) && outbox == old(outbox)
      ensures Resend(userRepository.Table(), email).Success? ==>
                r.Success? && outbox == old(outbox) + Resend(userRepository.Table(), email).value
    {
      var user := userRepository.FindByEmail(email);
      if user.None? || user.value.emailVerified {
        return Failure(ResendFailed);
      }
      SendVerificationEmail(user.value);
      r := Success(());
    }

    /** `manuallyVerifyEmail(email)` at time `now`. */
    method ManuallyVerifyEmail(email: string, now: int) returns (r: Result<(), string>)
      modifies userRepository
      ensures (r, userRepository.Table()) == ManualVerification(old(userRepository.Table()), email, now)
    {
      var user := userRepository.FindByEmail(email);
      if user.None? {
        return Failure(VerifyFailed);
      }
      var u := user.value;
      if u.emailVerified {
        return Success(());
      }
      var _ := userRepository.Save(u.(emailVerified := true, updatedAt := Some(now)), now);
      r := Success(());
    }
  }
}
