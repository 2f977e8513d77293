/**
 * `handleError` of src/utils/errorHandler.ts: a total, precedence-ordered
 * mapping from whatever was thrown to a fixed user-facing message and a
 * log / no-log decision. The message of an `Error` is inspected for four
 * groups of substrings (case-sensitive); failing that, a `code` property is
 * switched on (PostgreSQL SQLSTATE codes, PostgreSQL documentation Appendix A).
 */
module ErrorHandler {
  import opened JsText

  datatype ErrorResponse = ErrorResponse(userMessage: string, shouldLog: bool)

  // The message catalogue.
  const SubmissionFailed := "There was an error submitting your feedback. Please try again."
  const ValidationFailed := "Please check your input and try again."
  const NetworkError := "Connection error. Please check your internet connection and try again."
  const RateLimitMessage := "Too many attempts. Please try again later."
  const AuthError := "Authentication error. Please try again."
  const ServerError := "Server error. Please try again later."
  const DefaultMessage := "An unexpected error occurred. Please try again."
  /** The one message written inline in the code switch rather than in the catalogue. */
  const AlreadySubmitted := "This feedback has already been submitted."

  const Catalogue: set<string> :=
    {SubmissionFailed, ValidationFailed, NetworkError, RateLimitMessage, AuthError, ServerError, DefaultMessage}

  /** What a thrown object holds under the key `code`. */
  datatype CodeField =
    | NoCode                  // no `code` property at all
    | TextCode(code: string)  // a string value, compared with `===`
    | OtherCode               // any non-string value: matches no case

  /** The shapes of value `handleError` distinguishes. */
  datatype Thrown =
    | Falsy                                            // undefined, null, false, 0, NaN, ""
    | ErrorValue(message: string, codeField: CodeField) // `instanceof Error`, possibly with a code
    | ObjectValue(codeField: CodeField)                // any other non-null object
    | OtherTruthy                                      // non-empty string, non-zero number, true, function, ...

  const DefaultResponse := ErrorResponse(DefaultMessage, true)

  predicate IsNetworkMessage(m: string) { Contains(m, "connection") || Contains(m, "network") }
  predicate IsValidationMessage(m: string) { Contains(m, "validation") || Contains(m, "invalid") }
  predicate IsRateLimitMessage(m: string) { Contains(m, "rate limit") || Contains(m, "too many requests") }
  predicate IsAuthMessage(m: string) { Contains(m, "auth") || Contains(m, "unauthorized") }

  /** True when one of the four message tests fires. */
  predicate MessageMatches(m: string) {
    IsNetworkMessage(m) || IsValidationMessage(m) || IsRateLimitMessage(m) || IsAuthMessage(m)
  }

  /** The `switch (code)` on a value that has a `code` property. */
  function CodeResponse(code: CodeField): ErrorResponse {
    match code
    case TextCode("23505") => ErrorResponse(AlreadySubmitted, false)        // unique_violation
    case TextCode("23503") => ErrorResponse(ValidationFailed, true)         // foreign_key_violation
    case TextCode("23502") => ErrorResponse(ValidationFailed, true)         // not_null_violation
    case TextCode("42501") => ErrorResponse(AuthError, true)                // insufficient_privilege
    case TextCode("42P01") => ErrorResponse(ServerError, true)              // undefined_table
    case TextCode("42P02") => ErrorResponse(ServerError, true)              // undefined_parameter
    case _ => DefaultResponse
  }

  /** `typeof error === 'object' && 'code' in error`, then the switch; otherwise the default. */
  function CodeStage(error: Thrown): ErrorResponse {
    match error
    case ErrorValue(_, c) => if c.NoCode? then DefaultResponse else CodeResponse(c)
    case ObjectValue(c) => if c.NoCode? then DefaultResponse else CodeResponse(c)
    case _ => DefaultResponse
  }

  /** `handleError`. */
  function HandleError(error: Thrown): (r: ErrorResponse)
    ensures r.userMessage in Catalogue || r.userMessage == AlreadySubmitted
  {
    match error
    case Falsy => DefaultResponse
    case ErrorValue(m, _) =>
      if IsNetworkMessage(m) then ErrorResponse(NetworkError, true)
      else if IsValidationMessage(m) then ErrorResponse(ValidationFailed, false)
      else if IsRateLimitMessage(m) then ErrorResponse(RateLimitMessage, false)
      else if IsAuthMessage(m) then ErrorResponse(AuthError, true)
      else CodeStage(error)
    case _ => CodeStage(error)
  }

  lemma FalsyGivesDefault()
    ensures HandleError(Falsy) == ErrorResponse(DefaultMessage, true)
  {
  }

  /** The message tests apply in a fixed order: network, validation, rate limit, auth; any code is then ignored. */
  lemma MessagePrecedence(m: string, c: CodeField)
    ensures IsNetworkMessage(m) ==> HandleError(ErrorValue(m, c)) == ErrorResponse(NetworkError, true)
    ensures !IsNetworkMessage(m) && IsValidationMessage(m) ==>
              HandleError(ErrorValue(m, c)) == ErrorResponse(ValidationFailed, false)
    ensures !IsNetworkMessage(m) && !IsValidationMessage(m) && IsRateLimitMessage(m) ==>
              HandleError(ErrorValue(m, c)) == ErrorResponse(RateLimitMessage, false)
    ensures !IsNetworkMessage(m) && !IsValidationMessage(m) && !IsRateLimitMessage(m) && IsAuthMessage(m) ==>
              HandleError(ErrorValue(m, c)) == ErrorResponse(AuthError, true)
    ensures MessageMatches(m) ==> HandleError(ErrorValue(m, c)) == HandleError(ErrorValue(m, NoCode))
  {
  }

  /** An `Error` whose message matches nothing falls through to the code switch, exactly like a plain object with that code. */
  lemma UnmatchedErrorUsesCode(m: string, c: CodeField)
    requires !MessageMatches(m)
    ensures HandleError(ErrorValue(m, c)) == HandleError(ObjectValue(c))
    ensures c != NoCode ==> HandleError(ObjectValue(c)) == CodeResponse(c)
    ensures c == NoCode ==> HandleError(ObjectValue(c)) == DefaultResponse
  {
  }

  /** The SQLSTATE mapping. */
  lemma CodeMapping(code: string)
    ensures code == "23505" ==> CodeResponse(TextCode(code)) == ErrorResponse(AlreadySubmitted, false)
    ensures code == "23503" || code == "23502" ==> CodeResponse(TextCode(code)) == ErrorResponse(ValidationFailed, true)
    ensures code == "42501" ==> CodeResponse(TextCode(code)) == ErrorResponse(AuthError, true)
    ensures code == "42P01" || code == "42P02" ==> CodeResponse(TextCode(code)) == ErrorResponse(ServerError, true)
    ensures code !in {"23505", "23503", "23502", "42501", "42P01", "42P02"} ==> CodeResponse(TextCode(code)) == DefaultResponse
  {
  }

  /** Which outcomes are not logged: validation and rate-limit messages, and a duplicate row. */
  lemma ShouldLogFalseIff(error: Thrown)
    ensures !HandleError(error).shouldLog <==>
      || (error.ErrorValue? && !IsNetworkMessage(error.message)
          && (IsValidationMessage(error.message) || IsRateLimitMessage(error.message)))
      || ((error.ErrorValue? ==> !MessageMatches(error.message))
          && (error.ErrorValue? || error.ObjectValue?) && error.codeField == TextCode("23505"))
  {
    if error.ErrorValue? && !MessageMatches(error.message) {
      UnmatchedErrorUsesCode(error.message, error.codeField);
    }
  }

  /**
   * The answer depends on the message only through the eight substring tests:
   * two errors that agree on them (and on the code) get the same response, so the
   * text of the error itself never reaches the user.
   */
  lemma ResponseIgnoresMessageText(m1: string, m2: string, c: CodeField)
    requires IsNetworkMessage(m1) == IsNetworkMessage(m2)
    requires IsValidationMessage(m1) == IsValidationMessage(m2)
    requires IsRateLimitMessage(m1) == IsRateLimitMessage(m2)
    requires IsAuthMessage(m1) == IsAuthMessage(m2)
    ensures HandleError(ErrorValue(m1, c)) == HandleError(ErrorValue(m2, c))
  {
  }

  /** A message that starts with the pattern contains it. */
  lemma StartsWithContains(m: string, pat: string)
    requires |pat| <= |m| && m[..|pat|] == pat
    ensures Contains(m, pat)
  {
  }

  /** A plain network failure is logged and reported as a connection problem. */
  lemma NetworkTimeoutExample()
    ensures HandleError(ErrorValue("network timeout", NoCode)) == ErrorResponse(NetworkError, true)
  {
    var m := "network timeout";
    assert m[..7] == "network";
    StartsWithContains(m, "network");
  }

  /** A message mentioning both a network problem and an invalid value is a network error, whatever its code. */
  lemma NetworkBeatsValidationExample()
    ensures HandleError(ErrorValue("network invalid", TextCode("23505"))) == ErrorResponse(NetworkError, true)
  {
    var m := "network invalid";
    assert m[..7] == "network";
    StartsWithContains(m, "network");
  }
}
