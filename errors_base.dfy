/**
 * The base error handler (`useBaseErrorHandler`): the backend's error codes, the
 * common fallback that turns an `ApiError` into a message, the validation-error
 * formatter, and the `error`/`errorMessage` pair that every area handler built on
 * it shares.
 *
 * A missing `code` is modelled as the empty string: every handler compares codes
 * with `===` or `includes`, and neither can tell `undefined` from ''.
 */
module BaseErrorHandler {
  import opened Base
  import opened Query

  /** `ApiError`: the HTTP status, the backend's code, its message and free-form details. */
  datatype ApiError = ApiError(status: int, code: string, message: string, details: Option<Json>)

  // The backend's error codes (`ErrorCodes`).
  const Unauthorized := "UNAUTHORIZED"
  const InvalidCredentials := "INVALID_CREDENTIALS"
  const TokenExpired := "TOKEN_EXPIRED"
  const TokenInvalid := "TOKEN_INVALID"
  const Forbidden := "FORBIDDEN"
  const InsufficientPermissions := "INSUFFICIENT_PERMISSIONS"
  const NotFound := "NOT_FOUND"
  const AlreadyExists := "ALREADY_EXISTS"
  const ValidationError := "VALIDATION_ERROR"
  const InvalidInput := "INVALID_INPUT"
  const DbError := "DB_ERROR"
  const UniqueViolation := "23505"
  const ForeignKeyViolation := "23503"
  const NotNullViolation := "23502"
  const InternalError := "INTERNAL_ERROR"
  const ServiceUnavailable := "SERVICE_UNAVAILABLE"
  const NetworkError := "NETWORK_ERROR"
  const RequestTimeout := "REQUEST_TIMEOUT"

  const DefaultMessage := "An error occurred"

  const NetworkText := "Network error. Please check your connection"
  const TimeoutText := "Request timed out. Please try again"
  const InternalText := "An internal server error occurred. Please try again later"
  const UnavailableText := "The service is currently unavailable. Please try again later"

  /** The four transport and server codes the common handler words itself. */
  predicate CommonCode(code: string)
  {
    code == NetworkError || code == RequestTimeout || code == InternalError || code == ServiceUnavailable
  }

  /**
   * The message `handleCommonError` gives for an error that is present: a fixed
   * text for the four common codes, otherwise the error's own message, or the
   * default when that is empty.
   */
  function CommonMessage(e: ApiError, defaultMessage: string): (r: string)
    ensures e.code == NetworkError ==> r == NetworkText
    ensures e.code == RequestTimeout ==> r == TimeoutText
    ensures e.code == InternalError ==> r == InternalText
    ensures e.code == ServiceUnavailable ==> r == UnavailableText
    ensures !CommonCode(e.code) ==> r == (if e.message != "" then e.message else defaultMessage)
  {
    match e.code
    case "NETWORK_ERROR" => NetworkText
    case "REQUEST_TIMEOUT" => TimeoutText
    case "INTERNAL_ERROR" => InternalText
    case "SERVICE_UNAVAILABLE" => UnavailableText
    case _ => OrElse(Some(e.message), defaultMessage)
  }

  /** The common message is never empty unless the error's message and the default both are. */
  lemma CommonMessageNonEmpty(e: ApiError, defaultMessage: string)
    requires defaultMessage != ""
    ensures CommonMessage(e, defaultMessage) != ""
  {
  }

  /** The error as the plain object JavaScript sees: `details` only when it was given. */
  function ErrorJson(e: ApiError): Json
  {
    JObj([("status", JNum(e.status)), ("code", JStr(e.code)), ("message", JStr(e.message))]
         + (if e.details.Some? then [("details", e.details.value)] else []))
  }

  /** `v.details?.errors`: present only when `details` is an object with that member. */
  function DetailsErrors(v: Json): Option<Json>
  {
    var d := Member(v, "details");
    if d.Some? then Member(d.value, "errors") else None
  }

  /** `e.message` of one element, as `map(...).join` renders it: missing or null gives ''. */
  function MessageTexts(items: seq<Json>): (r: seq<string>)
    ensures |r| == |items|
  {
    if items == [] then []
    else
      var m := Member(items[0], "message");
      [if m.None? || m.value == JNull then "" else ToText(m.value)] + MessageTexts(items[1..])
  }

  /**
   * `formatValidationErrors(v)` applied to whatever value it is handed: the messages
   * of a `details.errors` array, or the value's own truthy `message`, or
   * 'Invalid credentials'.
   */
  function FormatValidationValue(v: Json): string
  {
    var errs := DetailsErrors(v);
    if errs.Some? && JsonTruthy(errs.value) && errs.value.JArr? then
      "Validation error: " + Join(MessageTexts(errs.value.items), ", ")
    else
      var m := Member(v, "message");
      if m.Some? && JsonTruthy(m.value) then ToText(m.value) else "Invalid credentials"
  }

  /** `formatValidationErrors(apiError)` */
  function FormatValidationErrors(e: ApiError): string
  {
    FormatValidationValue(ErrorJson(e))
  }

  lemma ErrorJsonMembers(e: ApiError)
    ensures Member(ErrorJson(e), "details") == e.details
    ensures Member(ErrorJson(e), "message") == Some(JStr(e.message))
  {
    var base := [("status", JNum(e.status)), ("code", JStr(e.code)), ("message", JStr(e.message))];
    assert base[..2][..1] == [base[0]] && base[..2] == [base[0], base[1]];
    if e.details.Some? {
      var ms := base + [("details", e.details.value)];
      assert ms[..|ms| - 1] == base;
      assert MemberIn(ms, "message") == MemberIn(base, "message");
    }
  }

  /**
   * What `formatValidationErrors` gives for an `ApiError`: with a `details.errors`
   * array, 'Validation error: ' and the element messages joined by ', '; otherwise
   * the error's message, or 'Invalid credentials' when it is empty.
   */
  lemma FormatValidationErrorsCases(e: ApiError)
    ensures var errs := if e.details.Some? then Member(e.details.value, "errors") else None;
      if errs.Some? && errs.value.JArr? then
        FormatValidationErrors(e) == "Validation error: " + Join(MessageTexts(errs.value.items), ", ")
      else
        FormatValidationErrors(e) == (if e.message != "" then e.message else "Invalid credentials")
  {
    ErrorJsonMembers(e);
  }

  /**
   * The `VALIDATION_ERROR` branch of the create and update handlers: when
   * `details.errors` is truthy it is handed to `formatValidationErrors` itself (not
   * the error), otherwise the area's own `fallback` text is used.
   */
  function ValidationText(e: ApiError, fallback: string): string
  {
    var errs := if e.details.Some? then Member(e.details.value, "errors") else None;
    if errs.Some? && JsonTruthy(errs.value) then "Validation errors: " + FormatValidationValue(errs.value)
    else fallback
  }

  /**
   * Because `details.errors` is handed over instead of the error, an array of field
   * errors (the shape the backend sends) always comes out as
   * 'Validation errors: Invalid credentials': the field messages are lost.
   */
  lemma ValidationTextOfArray(e: ApiError, fallback: string)
    requires e.details.Some? && Member(e.details.value, "errors").Some?
    requires Member(e.details.value, "errors").value.JArr?
    ensures ValidationText(e, fallback) == "Validation errors: Invalid credentials"
  {
  }

  /** Without a truthy `details.errors` the area's own text is used. */
  lemma ValidationTextWithoutDetails(e: ApiError, fallback: string)
    requires e.details.None?
    ensures ValidationText(e, fallback) == fallback
  {
  }

  /**
   * The two refs a handler built on the base shares: the last error it recorded and
   * the last message it produced.
   */
  class BaseErrorHandler {
    var error: Option<ApiError>
    var errorMessage: Option<string>

    constructor()
      ensures error.None? && errorMessage.None?
    {
      error := None;
      errorMessage := None;
    }

    /**
     * `handleCommonError(apiError, defaultMessage)`: records the error (null when
     * there is none) and returns the message it stores.
     */
    method HandleCommonError(apiError: Option<ApiError>, defaultMessage: string) returns (r: string)
      modifies this
      ensures error == apiError && errorMessage == Some(r)
      ensures apiError.None? ==> r == defaultMessage
      ensures apiError.Some? ==> r == CommonMessage(apiError.value, defaultMessage)
    {
      if apiError.None? {
        error := None;
        errorMessage := Some(defaultMessage);
        return defaultMessage;
      }
      error := apiError;
      errorMessage := Some(CommonMessage(apiError.value, defaultMessage));
      r := errorMessage.value;
    }

    /** `clearError()` */
    method ClearError()
      modifies this
      ensures error.None? && errorMessage.None?
    {
      error := None;
      errorMessage := None;
    }

    /** `isErrorCode(code)` */
    predicate IsErrorCode(code: string)
      reads this
    {
      error.Some? && error.value.code == code
    }

    /**
     * The shape of every events, seasons and weeks handler: without an error the
     * default is stored; a code the area's own `table` words gets that text and
     * leaves `error` alone; any other code goes to the common handler with the
     * handler's default. The result is always the stored message.
     */
    method HandleInArea(apiError: Option<ApiError>, defaultMessage: string, table: ApiError -> Option<string>)
      returns (r: string)
      modifies this
      ensures errorMessage == Some(r)
      ensures apiError.None? ==> r == defaultMessage && error == old(error)
      ensures apiError.Some? && table(apiError.value).Some? ==>
                r == table(apiError.value).value && error == old(error)
      ensures apiError.Some? && table(apiError.value).None? ==>
                r == CommonMessage(apiError.value, defaultMessage) && error == apiError
    {
      if apiError.None? {
        errorMessage := Some(defaultMessage);
        return defaultMessage;
      }
      var own := table(apiError.value);
      if own.Some? {
        errorMessage := own;
      } else {
        var _ := HandleCommonError(apiError, defaultMessage);
      }
      r := errorMessage.value;
    }

    /**
     * The shape of the profile and auth handlers: without an error the common
     * handler runs (and nulls `error`); a code the `table` words gets that text and
     * is recorded as the error; any other code goes to the common handler.
     */
    method HandleRecorded(apiError: Option<ApiError>, defaultMessage: string, table: ApiError -> Option<string>)
      returns (r: string)
      modifies this
      ensures errorMessage == Some(r) && error == apiError
      ensures apiError.None? ==> r == defaultMessage
      ensures apiError.Some? && table(apiError.value).Some? ==> r == table(apiError.value).value
      ensures apiError.Some? && table(apiError.value).None? ==> r == CommonMessage(apiError.value, defaultMessage)
    {
      if apiError.None? {
        r := HandleCommonError(apiError, defaultMessage);
        return;
      }
      var own := table(apiError.value);
      if own.None? {
        r := HandleCommonError(apiError, defaultMessage);
        return;
      }
      errorMessage := own;
      error := apiError;
      r := errorMessage.value;
    }
  }

  /** After `clearError`, `isErrorCode` is false for every code. */
  method ClearThenIsErrorCode(h: BaseErrorHandler, code: string) returns (b: bool)
    modifies h
    ensures !b
  {
    h.ClearError();
    b := h.IsErrorCode(code);
  }
}
