/**
 * The changelogs error handler (`useChangelogsErrorHandler`): pure handlers in the
 * style of the bucket ones, deferring unknown codes to a private base handler.
 */
module ChangelogsErrors {
  import opened Base
  import opened BaseErrorHandler

  datatype ChangelogOp = FetchAll | EntityHistory | UserHistory | DateRange | Count

  /** The text a handler gives a code of its own. */
  function ChangelogText(op: ChangelogOp, code: string): Option<string>
  {
    match op
    case FetchAll =>
      (match code
      case "UNAUTHORIZED" => Some("You are not authorized to view changelogs")
      case "FORBIDDEN" => Some("Access to changelogs is forbidden")
      case "NOT_FOUND" => Some("Changelogs not found")
      case "VALIDATION_ERROR" => Some("Invalid changelog query parameters")
      case "INTERNAL_ERROR" => Some("Failed to fetch changelogs due to server error")
      case _ => None)
    case EntityHistory =>
      (match code
      case "UNAUTHORIZED" => Some("You are not authorized to view entity history")
      case "FORBIDDEN" => Some("Access to entity history is forbidden")
      case "NOT_FOUND" => Some("Entity not found")
      case "VALIDATION_ERROR" => Some("Invalid entity history query parameters")
      case "INTERNAL_ERROR" => Some("Failed to fetch entity history due to server error")
      case _ => None)
    case UserHistory =>
      (match code
      case "UNAUTHORIZED" => Some("You are not authorized to view user history")
      case "FORBIDDEN" => Some("Access to user history is forbidden")
      case "NOT_FOUND" => Some("User not found")
      case "VALIDATION_ERROR" => Some("Invalid user history query parameters")
      case "INTERNAL_ERROR" => Some("Failed to fetch user history due to server error")
      case _ => None)
    case DateRange =>
      (match code
      case "UNAUTHORIZED" => Some("You are not authorized to view date range changelogs")
      case "FORBIDDEN" => Some("Access to date range changelogs is forbidden")
      case "VALIDATION_ERROR" => Some("Invalid date range parameters. Please check your dates.")
      case "INTERNAL_ERROR" => Some("Failed to fetch date range changelogs due to server error")
      case _ => None)
    case Count =>
      (match code
      case "UNAUTHORIZED" => Some("You are not authorized to view changelog count")
      case "FORBIDDEN" => Some("Access to changelog count is forbidden")
      case "VALIDATION_ERROR" => Some("Invalid changelog count query parameters")
      case "INTERNAL_ERROR" => Some("Failed to fetch changelog count due to server error")
      case _ => None)
  }

  /** `handle…Error(error)`: the handler's own text, otherwise the common message. */
  function ChangelogErrorMessage(op: ChangelogOp, e: ApiError): (r: string)
    ensures ChangelogText(op, e.code).Some? ==> r == ChangelogText(op, e.code).value
    ensures ChangelogText(op, e.code).None? ==> r == CommonMessage(e, DefaultMessage)
  {
    var own := ChangelogText(op, e.code);
    if own.Some? then own.value else CommonMessage(e, DefaultMessage)
  }

  /**
   * Every changelog handler words exactly the authentication, permission,
   * validation and server codes, and `NOT_FOUND` only when an entity is looked up.
   */
  lemma WordedCodes(op: ChangelogOp, code: string)
    ensures code in {Unauthorized, Forbidden, ValidationError, InternalError} ==> ChangelogText(op, code).Some?
    ensures code == NotFound ==> (ChangelogText(op, code).Some? <==> op in {FetchAll, EntityHistory, UserHistory})
    ensures !(code in {Unauthorized, Forbidden, ValidationError, InternalError, NotFound}) ==> ChangelogText(op, code).None?
  {
  }

  /** A date range or count lookup that finds nothing shows the error's own message. */
  lemma NotFoundDeferred(op: ChangelogOp, e: ApiError)
    requires op in {DateRange, Count} && e.code == NotFound
    ensures ChangelogErrorMessage(op, e) == (if e.message != "" then e.message else DefaultMessage)
  {
  }
}
