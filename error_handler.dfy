/**
 * The generic error handler (`useErrorHandler`): it sorts whatever was thrown into a
 * category, picks a message a user can read, decides whether the failure is worth
 * retrying, and records the result as the current error and in the `api` store.
 */
module ErrorHandler {
  import opened Base
  import ApiStore

  /**
   * What was thrown: a plain string, or an object with the fields the handler reads
   * (`code`, `status`, `name`, `message`, `data.message`, `data.error`).
   */
  datatype Thrown =
    | StrErr(text: string)
    | ObjErr(code: Option<Code>, status: Option<Code>, name: Option<string>, message: Option<string>,
             dataMessage: Option<string>, dataError: Option<string>)

  datatype Category = Api | Validation | Network | Auth | Permission | Unknown

  function CategoryName(c: Category): string
  {
    match c
    case Api => "api"
    case Validation => "validation"
    case Network => "network"
    case Auth => "auth"
    case Permission => "permission"
    case Unknown => "unknown"
  }

  /** `ErrorInfo`: the message, `code || status`, the category and `Date.now()`. */
  datatype ErrorInfo = ErrorInfo(message: string, code: Option<Code>, category: Category, timestamp: int)

  predicate IsDigits(s: string)
  {
    forall i :: 0 <= i < |s| ==> '0' <= s[i] <= '9'
  }

  /**
   * The number a relational comparison sees: a number as is, a string of decimal
   * digits as its value ('' is 0), `undefined` as NaN (None). Every other string is
   * taken as NaN too, although JavaScript also converts some of them (see the
   * README's list of what is left out).
   */
  function NumberOf(c: Option<Code>): (r: Option<int>)
    ensures c.Some? && c.value.NumCode? ==> r == Some(c.value.n)
    ensures c.None? ==> r.None?
  {
    match c
    case None => None
    case Some(NumCode(n)) => Some(n)
    case Some(StrCode(s)) => if IsDigits(s) then Some(DigitsValue(s)) else None
  }

  function CodeOf(err: Thrown): Option<Code>
  {
    if err.ObjErr? then err.code else None
  }

  function MessageOf(err: Thrown): Option<string>
  {
    if err.ObjErr? then err.message else None
  }

  /** `err.message?.includes(word)` */
  predicate MessageHas(err: Thrown, word: string)
  {
    MessageOf(err).Some? && Contains(MessageOf(err).value, word)
  }

  /**
   * `categorizeError(err)`: 401/403 are auth, 422 validation, 500 and above api, a
   * `NetworkError` or a message mentioning 'network' is network, everything else is
   * unknown. The later test for 403 comes after 403 was already taken, so 'permission'
   * is never the answer.
   */
  function Categorize(err: Thrown): (r: Category)
    ensures r != Permission
    ensures CodeOf(err) == Some(NumCode(401)) || CodeOf(err) == Some(NumCode(403)) <==> r == Auth
    ensures r == Validation <==> CodeOf(err) == Some(NumCode(422))
    ensures r == Api <==> (r != Auth && r != Validation && NumberOf(CodeOf(err)).Some? && NumberOf(CodeOf(err)).value >= 500)
    ensures r == Network <==>
      (r != Auth && r != Validation && r != Api && ((err.ObjErr? && err.name == Some("NetworkError")) || MessageHas(err, "network")))
  {
    var code := CodeOf(err);
    if code == Some(NumCode(401)) || code == Some(NumCode(403)) then Auth
    else if code == Some(NumCode(422)) then Validation
    else if NumberOf(code).Some? && NumberOf(code).value >= 500 then Api
    else if (err.ObjErr? && err.name == Some("NetworkError")) || MessageHas(err, "network") then Network
    else if code == Some(NumCode(403)) then Permission
    else Unknown
  }

  const NetworkText := "Network connection error. Please check your internet connection."
  const TimeoutText := "Request timed out. Please try again."
  const FallbackText := "An unexpected error occurred. Please try again."

  /**
   * `extractErrorMessage(err)`: a string is its own message; a truthy message is
   * replaced by a fixed text when it mentions 'fetch' or 'network', or else 'timeout',
   * and kept otherwise; then `data.message`, then `data.error`, then a fallback.
   */
  function ExtractMessage(err: Thrown): (r: string)
    ensures err.StrErr? ==> r == err.text
    ensures err.ObjErr? ==> r != ""
    ensures err.ObjErr? && TruthyStr(err.message) ==>
      r == (if Contains(err.message.value, "fetch") || Contains(err.message.value, "network") then NetworkText
            else if Contains(err.message.value, "timeout") then TimeoutText
            else err.message.value)
    ensures err.ObjErr? && !TruthyStr(err.message) ==>
      r == (if TruthyStr(err.dataMessage) then err.dataMessage.value
            else if TruthyStr(err.dataError) then err.dataError.value
            else FallbackText)
  {
    match err
    case StrErr(s) => s
    case ObjErr(_, _, _, message, dataMessage, dataError) =>
      if TruthyStr(message) then
        var m := message.value;
        if Contains(m, "fetch") || Contains(m, "network") then NetworkText
        else if Contains(m, "timeout") then TimeoutText
        else m
      else if TruthyStr(dataMessage) then dataMessage.value
      else if TruthyStr(dataError) then dataError.value
      else FallbackText
  }

  /** `err.code || err.status` */
  function CodeOrStatus(err: Thrown): (r: Option<Code>)
    ensures TruthyCode(CodeOf(err)) ==> r == CodeOf(err)
    ensures err.ObjErr? && !TruthyCode(err.code) ==> r == err.status
  {
    match err
    case StrErr(_) => None
    case ObjErr(code, status, _, _, _, _) => if TruthyCode(code) then code else status
  }

  /**
   * `isRetryableError(err)`: network failures, a code (or status) in [500, 600) and
   * messages mentioning 'timeout' are retryable; nothing else is.
   */
  predicate Retryable(err: Thrown)
  {
    var n := NumberOf(CodeOrStatus(err));
    Categorize(err) == Network || (n.Some? && 500 <= n.value < 600) || MessageHas(err, "timeout")
  }

  /**
   * A server error in the 5xx range is retryable; a 6xx or larger code is categorised
   * as an api error all the same but is not retryable unless its message says 'timeout'.
   */
  lemma ServerErrorsRetryable(err: Thrown)
    requires err.ObjErr? && err.code.Some? && err.code.value.NumCode?
    ensures 500 <= err.code.value.n < 600 ==> Categorize(err) == Api && Retryable(err)
    ensures err.code.value.n >= 600 ==> Categorize(err) == Api && (Retryable(err) <==> MessageHas(err, "timeout"))
  {
  }

  /** Auth and validation failures are retried only when their message says 'timeout'. */
  lemma ClientErrorsNotRetryable(err: Thrown)
    requires Categorize(err) in {Auth, Validation}
    ensures Retryable(err) <==> MessageHas(err, "timeout")
  {
  }

  /** `getErrorType` and `getErrorColor`: 'info' without an error, 'warning' for validation and network, else 'error'. */
  function Tone(e: Option<ErrorInfo>): (r: string)
    ensures e.None? ==> r == "info"
    ensures e.Some? ==> (r == "warning" <==> e.value.category in {Validation, Network})
    ensures e.Some? ==> (r == "error" <==> e.value.category !in {Validation, Network})
  {
    if e.None? then "info"
    else match e.value.category
      case Auth => "error"
      case Validation => "warning"
      case Network => "warning"
      case Permission => "error"
      case Api => "error"
      case Unknown => "error"
  }

  /** `getErrorIcon` */
  function Icon(e: Option<ErrorInfo>): (r: string)
    ensures e.None? <==> r == "mdi-information"
  {
    if e.None? then "mdi-information"
    else match e.value.category
      case Auth => "mdi-shield-alert"
      case Validation => "mdi-alert-circle"
      case Network => "mdi-wifi-off"
      case Permission => "mdi-shield-lock"
      case Api => "mdi-server-off"
      case Unknown => "mdi-alert"
  }

  /** The `ErrorInfo` that `handleError(err)` builds at time `now`. */
  function InfoOf(err: Thrown, now: int): ErrorInfo
  {
    ErrorInfo(ExtractMessage(err), CodeOrStatus(err), Categorize(err), now)
  }

  /** What `handleError` hands to the `api` store's `addError`. */
  function StoreErrorOf(info: ErrorInfo): ApiStore.ApiError
  {
    ApiStore.ApiError(info.message, info.code, Some(CategoryName(info.category)))
  }

  class ErrorHandler {
    var error: Option<ErrorInfo>
    var isLoading: bool
    const api: ApiStore.ApiStore

    constructor(api: ApiStore.ApiStore)
      ensures this.api == api && error.None? && !isLoading
    {
      this.api := api;
      error := None;
      isLoading := false;
    }

    predicate HasError()
      reads this
    {
      error.Some?
    }

    function ErrorType(): string
      reads this
    {
      Tone(error)
    }

    function ErrorColor(): string
      reads this
    {
      Tone(error)
    }

    function ErrorIcon(): string
      reads this
    {
      Icon(error)
    }

    /**
     * `handleError(err, options)` (and `handleApiError`, `handleValidationError`,
     * `handleNetworkError`, which differ only in their options): the info built from
     * `err` becomes the current error and is offered to the `api` store, which keeps
     * it unless an error with the same message and code is stored already.
     */
    method HandleError(err: Thrown, now: int, storeId: string, storeTimestamp: string) returns (info: ErrorInfo)
      requires api.Inv()
      modifies this, api
      ensures info == InfoOf(err, now) && error == Some(info) && HasError()
      ensures info.message == ExtractMessage(err) && info.category != Permission
      ensures api.Inv() && api.HasErrors()
      ensures ApiStore.HasDuplicate(old(api.errors), StoreErrorOf(info)) ==> api.errors == old(api.errors)
      ensures !ApiStore.HasDuplicate(old(api.errors), StoreErrorOf(info)) ==>
        api.errors == old(api.errors) + [ApiStore.StoredError(StoreErrorOf(info), storeId, storeTimestamp)]
      ensures api.loading == old(api.loading) && api.cache == old(api.cache) && api.requestCount == old(api.requestCount)
      ensures isLoading == old(isLoading)
    {
      info := InfoOf(err, now);
      error := Some(info);
      api.AddError(StoreErrorOf(info), storeId, storeTimestamp);
    }

    /** `clearError()`: no current error, and the `api` store's errors are emptied too. */
    method ClearError()
      modifies this, api
      ensures error.None? && !HasError() && api.Inv() && !api.HasErrors()
      ensures ErrorType() == "info" && ErrorColor() == "info"
      ensures api.loading == old(api.loading) && api.cache == old(api.cache) && api.requestCount == old(api.requestCount)
      ensures isLoading == old(isLoading)
    {
      error := None;
      api.ClearErrors();
    }
  }
}
