/**
 * The REST error responses: which handler an exception reaches, the status
 * each answers with, and how a runtime exception's message is classified so
 * that every authentication-related failure gets the same 401.
 *
 * Messages are compared after ASCII lower-casing; a null message is `None`.
 */
module ErrorHandling {
  import opened Wrappers
  import opened Text
  import Accounts

  datatype Status = BadRequest | Unauthorized | NotFound | InternalServerError

  /** `HttpStatus.value()`. */
  function Code(s: Status): int {
    match s
    case BadRequest => 400
    case Unauthorized => 401
    case NotFound => 404
    case InternalServerError => 500
  }

  // ---------------------------------------------------------------- classifying a message

  /** `isAuthenticationRelatedError`. */
  predicate IsAuthenticationRelatedError(message: Option<string>) {
    message.Some? &&
    var lower := LowerCase(message.value);
    Contains(lower, "invalid email or password") ||
    Contains(lower, "authentication failed") ||
    (Contains(lower, "invalid") && Contains(lower, "password")) ||
    Contains(lower, "credentials")
  }

  /** `determineStatusCode`: 400 for validation wording, 404 for "not found", 400 otherwise. */
  function DetermineStatusCode(message: Option<string>): Status {
    if message.None? then BadRequest
    else
      var lower := LowerCase(message.value);
      if Contains(lower, "validation") || Contains(lower, "required") || Contains(lower, "invalid format") then BadRequest
      else if Contains(lower, "not found") then NotFound
      else BadRequest
  }

  /** The status `handleRuntimeException` answers with: the authentication test first. */
  function RuntimeStatus(message: Option<string>): Status {
    if IsAuthenticationRelatedError(message) then Unauthorized else DetermineStatusCode(message)
  }

  lemma InvalidEmailOrPasswordWords()
    ensures Contains("invalid email or password", "invalid") && Contains("invalid email or password", "password")
  {
    OccursGivesContains("invalid email or password", "invalid", 0);
    OccursGivesContains("invalid email or password", "password", 17);
  }

  /**
   * The first test adds nothing: a message is authentication-related exactly
   * when it mentions "invalid" and "password", "authentication failed" or
   * "credentials", in any letter case; a null message never is.
   */
  lemma AuthenticationRelatedWords(message: Option<string>)
    ensures !IsAuthenticationRelatedError(None)
    ensures message.Some? ==>
              var lower := LowerCase(message.value);
              (IsAuthenticationRelatedError(message) <==>
                 (Contains(lower, "invalid") && Contains(lower, "password")) ||
                 Contains(lower, "authentication failed") || Contains(lower, "credentials"))
  {
    if message.Some? && Contains(LowerCase(message.value), "invalid email or password") {
      InvalidEmailOrPasswordWords();
      ContainsTransitive(LowerCase(message.value), "invalid email or password", "invalid");
      ContainsTransitive(LowerCase(message.value), "invalid email or password", "password");
    }
  }

  /**
   * A runtime exception is answered with 400, 401 or 404, never 500: 401
   * exactly for the authentication-related messages, 404 exactly for the
   * other messages that say "not found" without validation wording, and
   * 400 for the rest, null included.
   */
  lemma RuntimeStatusCases(message: Option<string>)
    ensures RuntimeStatus(message) in {BadRequest, Unauthorized, NotFound}
    ensures RuntimeStatus(message) == Unauthorized <==> IsAuthenticationRelatedError(message)
    ensures RuntimeStatus(message) == NotFound <==>
              !IsAuthenticationRelatedError(message) && message.Some? &&
              var lower := LowerCase(message.value);
              !Contains(lower, "validation") && !Contains(lower, "required") && !Contains(lower, "invalid format") &&
              Contains(lower, "not found")
  {
  }

  /** The message of every failed login is answered with 401. */
  lemma LoginFailureIsUnauthorized()
    ensures RuntimeStatus(Some(Accounts.InvalidCredentials)) == Unauthorized
  {
    assert LowerCase("Invalid email or password") == "invalid email or password";
    OccursGivesContains("invalid email or password", "invalid email or password", 0);
  }

  lemma NotFoundPrefixLowered()
    ensures LowerCase("User not found: ") == "user not found: "
    ensures Contains("user not found: ", "not found")
  {
    OccursGivesContains("user not found: ", "not found", 5);
  }

  lemma NotFoundMessageLowered(email: string)
    ensures LowerCase(Accounts.NotFound(email)) == "user not found: " + LowerCase(email)
    ensures Contains("user not found: " + LowerCase(email), "not found")
  {
    NotFoundPrefixLowered();
    LowerCaseConcat("User not found: ", email);
    ContainsInConcat("user not found: ", LowerCase(email), "not found");
  }

  /** Words whose first letter the prefix lacks are in the lowered message only if the email has them. */
  lemma NotFoundMessageWords(lower: string)
    requires !Contains(lower, "invalid") && !Contains(lower, "authentication failed") &&
             !Contains(lower, "credentials") && !Contains(lower, "validation")
    ensures var m := "user not found: " + lower;
            !Contains(m, "invalid") && !Contains(m, "authentication failed") && !Contains(m, "credentials") &&
            !Contains(m, "validation")
  {
    var prefix := "user not found: ";
    NoFactorAfter(prefix, lower, "invalid");
    NoFactorAfter(prefix, lower, "authentication failed");
    NoFactorAfter(prefix, lower, "credentials");
    NoFactorAfter(prefix, lower, "validation");
  }

  /** The prefix's one "r" is followed by a space, so "required" can only come from the email. */
  lemma NotFoundMessageRequired(lower: string)
    requires !Contains(lower, "required")
    ensures !Contains("user not found: " + lower, "required")
  {
    NoFactorAcross("user not found: ", lower, "required");
  }

  /** A message without "invalid" has neither of the longer phrases that start with it. */
  lemma WithoutInvalid(m: string)
    requires !Contains(m, "invalid")
    ensures !Contains(m, "invalid email or password") && !Contains(m, "invalid format")
  {
    if Contains(m, "invalid email or password") {
      InvalidEmailOrPasswordWords();
      ContainsTransitive(m, "invalid email or password", "invalid");
    }
    if Contains(m, "invalid format") {
      OccursGivesContains("invalid format", "invalid", 0);
      ContainsTransitive(m, "invalid format", "invalid");
    }
  }

  /**
   * The administrator's "User not found: <email>" is answered with 404,
   * unless the email itself carries words of the earlier tests. (An email
   * such as "invalid.password@x" turns it into 401.)
   */
  lemma UnknownUserIsNotFound(email: string)
    requires var lower := LowerCase(email);
             !Contains(lower, "invalid") && !Contains(lower, "authentication failed") &&
             !Contains(lower, "credentials") && !Contains(lower, "validation") && !Contains(lower, "required")
    ensures RuntimeStatus(Some(Accounts.NotFound(email))) == NotFound
  {
    NotFoundMessageLowered(email);
    NotFoundMessageWords(LowerCase(email));
    NotFoundMessageRequired(LowerCase(email));
    WithoutInvalid("user not found: " + LowerCase(email));
  }

  // ---------------------------------------------------------------- the handlers

  /** One `FieldError` of a failed `@Valid` binding. */
  datatype FieldError = FieldError(field: string, defaultMessage: Option<string>)

  /** The exception a controller let escape, by the handler Spring picks for it. */
  datatype Thrown =
    | ArgumentNotValid(errors: seq<FieldError>)
    | BadCredentials(message: Option<string>)
    | Runtime(message: Option<string>)
    | Unexpected(message: Option<string>)

  /** The response: its status (also the body's "status"), and the body's other entries. */
  datatype ErrorResponse = ErrorResponse(
    status: Status,
    error: string,
    message: Option<string>,
    fieldErrors: Option<map<string, Option<string>>>)

  /** The field errors, each put under its field in order, so a later error for a field replaces an earlier one. */
  function FieldErrorMap(errors: seq<FieldError>): map<string, Option<string>>
    decreases |errors|
  {
    if errors == [] then map[]
    else
      var last := errors[|errors| - 1];
      FieldErrorMap(errors[..|errors| - 1])[last.field := last.defaultMessage]
  }

  /** Only the fields some error names have an entry. */
  lemma {:induction false} FieldErrorMapDomain(errors: seq<FieldError>, field: string)
    ensures field in FieldErrorMap(errors) <==> exists i :: 0 <= i < |errors| && errors[i].field == field
    decreases |errors|
  {
    if errors != [] {
      var init := errors[..|errors| - 1];
      FieldErrorMapDomain(init, field);
      if exists i :: 0 <= i < |init| && init[i].field == field {
        var i :| 0 <= i < |init| && init[i].field == field;
        assert errors[i].field == field;
      }
      if exists i :: 0 <= i < |errors| && errors[i].field == field {
        var i :| 0 <= i < |errors| && errors[i].field == field;
        if i < |init| {
          assert init[i].field == field;
        }
      }
    }
  }

  /** A field's entry is the message of the last error naming it. */
  lemma {:induction false} FieldErrorMapLastWins(errors: seq<FieldError>, i: nat)
    requires i < |errors|
    requires forall j :: i < j < |errors| ==> errors[j].field != errors[i].field
    ensures errors[i].field in FieldErrorMap(errors)
    ensures FieldErrorMap(errors)[errors[i].field] == errors[i].defaultMessage
    decreases |errors|
  {
    if i < |errors| - 1 {
      var init := errors[..|errors| - 1];
      assert init[i] == errors[i];
      FieldErrorMapLastWins(init, i);
    }
  }

  const ValidationFailed := "Validation failed"
  const FixedCredentialsMessage := "Invalid email or password"
  const UnexpectedMessage := "An unexpected error occurred. Please try again later."

  /** The response the handler chosen for `ex` produces. */
  function Handle(ex: Thrown): ErrorResponse {
    match ex
    case ArgumentNotValid(errors) =>
      ErrorResponse(BadRequest, ValidationFailed, Some("Please check the provided data"), Some(FieldErrorMap(errors)))
    case BadCredentials(_) =>
      ErrorResponse(Unauthorized, "Authentication failed", Some(FixedCredentialsMessage), None)
    case Runtime(m) =>
      ErrorResponse(RuntimeStatus(m), "Operation failed", m, None)
    case Unexpected(_) =>
      ErrorResponse(InternalServerError, "Internal server error", Some(UnexpectedMessage), None)
  }

  /**
   * What each handler discloses: a bad-credentials or unexpected failure is
   * answered the same whatever its message (401 and 500), a validation
   * failure with 400 and its field errors, and a runtime exception with its
   * own message under the classified status.
   */
  lemma HandlerResponses(ex: Thrown, other: Option<string>)
    ensures ex.BadCredentials? ==> Handle(ex) == Handle(BadCredentials(other)) && Code(Handle(ex).status) == 401 &&
                                   Handle(ex).message == Some(FixedCredentialsMessage)
    ensures ex.Unexpected? ==> Handle(ex) == Handle(Unexpected(other)) && Code(Handle(ex).status) == 500
    ensures ex.ArgumentNotValid? ==> Code(Handle(ex).status) == 400 && Handle(ex).fieldErrors == Some(FieldErrorMap(ex.errors))
    ensures ex.Runtime? ==> Handle(ex).message == ex.message && Code(Handle(ex).status) in {400, 401, 404}
  {
    if ex.Runtime? {
      RuntimeStatusCases(ex.message);
    }
  }

  /** `handleValidationErrors`: the field errors collected one by one into a fresh map. */
  method HandleValidationErrors(errors: seq<FieldError>) returns (response: ErrorResponse)
    ensures response == Handle(ArgumentNotValid(errors))
  {
    var fieldErrors: map<string, Option<string>> := map[];
    var i := 0;
    while i < |errors|
      invariant 0 <= i <= |errors|
      invariant fieldErrors == FieldErrorMap(errors[..i])
    {
      assert errors[..i + 1][..i] == errors[..i];
      fieldErrors := fieldErrors[errors[i].field := errors[i].defaultMessage];
      i := i + 1;
    }
    assert errors[..i] == errors;
    response := ErrorResponse(BadRequest, ValidationFailed, Some("Please check the provided data"), Some(fieldErrors));
  }
}
