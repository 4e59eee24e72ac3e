/**
 * The seasons error handler (`useSeasonsErrorHandler`), built on the base handler
 * like the events one.
 */
module SeasonsErrors {
  import opened Base
  import opened BaseErrorHandler

  datatype SeasonOp = FetchAll | Fetch | Create | Update | Publish | Delete

  /** The `defaultMessage` each handler falls back to when none is passed. */
  function DefaultFor(op: SeasonOp): string
  {
    match op
    case FetchAll => "Failed to load seasons"
    case Fetch => "Failed to load season"
    case Create => "Failed to create season"
    case Update => "Failed to update season"
    case Publish => "Failed to publish season"
    case Delete => "Failed to delete season"
  }

  /** The text a handler gives a code of its own, or None when it defers to the common handler. */
  function SeasonText(op: SeasonOp, e: ApiError): Option<string>
  {
    match op
    case FetchAll =>
      (match e.code
      case "UNAUTHORIZED" => Some("You must be logged in to view seasons")
      case "FORBIDDEN" => Some("You do not have permission to view these seasons")
      case "VALIDATION_ERROR" => Some("Invalid search or filter parameters")
      case "NOT_FOUND" => Some("Seasons not found")
      case "INTERNAL_ERROR" => Some("Server error while loading seasons")
      case _ => None)
    case Fetch =>
      (match e.code
      case "UNAUTHORIZED" => Some("You must be logged in to view this season")
      case "FORBIDDEN" => Some("You do not have permission to view this season")
      case "NOT_FOUND" => Some("Season not found")
      case "INTERNAL_ERROR" => Some("Server error while loading season")
      case _ => None)
    case Create =>
      (match e.code
      case "UNAUTHORIZED" => Some("You must be logged in to create seasons")
      case "FORBIDDEN" => Some("You do not have permission to create seasons")
      case "VALIDATION_ERROR" => Some(ValidationText(e, "Please check your season data and try again"))
      case "ALREADY_EXISTS" => Some("A season with this title already exists")
      case "23505" => Some("Season title must be unique")
      case "INTERNAL_ERROR" => Some("Server error while creating season")
      case _ => None)
    case Update =>
      (match e.code
      case "UNAUTHORIZED" => Some("You must be logged in to update seasons")
      case "FORBIDDEN" => Some("You do not have permission to update this season")
      case "NOT_FOUND" => Some("Season not found")
      case "VALIDATION_ERROR" => Some(ValidationText(e, "Please check your season data and try again"))
      case "INTERNAL_ERROR" => Some("Server error while updating season")
      case _ => None)
    case Publish =>
      (match e.code
      case "UNAUTHORIZED" => Some("You must be logged in to publish seasons")
      case "FORBIDDEN" => Some("You do not have permission to publish this season")
      case "NOT_FOUND" => Some("Season not found")
      case "VALIDATION_ERROR" =>  Some("Season validation failed. Please check all requirements before publishing.")
      case "INTERNAL_ERROR" => Some("Server error while publishing season")
      case _ => None)
    case Delete =>
      (match e.code
      case "UNAUTHORIZED" => Some("You must be logged in to delete seasons")
      case "FORBIDDEN" => Some("You do not have permission to delete this season")
      case "NOT_FOUND" => Some("Season not found")
      case "VALIDATION_ERROR" => Some("Cannot delete published seasons")
      case "INTERNAL_ERROR" => Some("Server error while deleting season")
      case _ => None)
  }

  /** Every seasons handler words authentication, permission and server errors itself. */
  lemma AuthAndServerCodesWorded(op: SeasonOp, e: ApiError)
    requires e.code in {Unauthorized, Forbidden, InternalError}
    ensures SeasonText(op, e).Some?
    ensures e.code == InternalError ==> SeasonText(op, e).value != InternalText
  {
  }

  /** A missing season is worded by every handler except create. */
  lemma NotFoundWorded(op: SeasonOp, e: ApiError)
    requires e.code == NotFound
    ensures SeasonText(op, e).Some? <==> op != Create
  {
  }

  /**
   * Title clashes are worded only by create: an update that collides falls back to
   * the error's own message.
   */
  lemma ConflictWordedOnlyOnCreate(op: SeasonOp, e: ApiError)
    requires e.code == AlreadyExists || e.code == UniqueViolation
    ensures SeasonText(op, e).Some? <==> op == Create
  {
  }

  /** A code none of the handlers words always goes to the common handler. */
  lemma UnknownCodesDeferred(op: SeasonOp, e: ApiError)
    requires !(e.code in {Unauthorized, Forbidden, NotFound, ValidationError, AlreadyExists, UniqueViolation, InternalError})
    ensures SeasonText(op, e).None?
  {
  }

  class SeasonsErrorHandler {
    const base: BaseErrorHandler

    constructor()
      ensures fresh(base) && base.error.None? && base.errorMessage.None?
    {
      base := new BaseErrorHandler();
    }

    /** `handleSeason…Error(apiError, defaultMessage)` for the operation `op`. */
    method Handle(op: SeasonOp, apiError: Option<ApiError>, defaultMessage: Option<string>) returns (r: string)
      modifies base
      ensures base.errorMessage == Some(r)
      ensures var dm := if defaultMessage.Some? then defaultMessage.value else DefaultFor(op);
        && (apiError.None? ==> r == dm && base.error == old(base.error))
        && (apiError.Some? && SeasonText(op, apiError.value).Some? ==>
              r == SeasonText(op, apiError.value).value && base.error == old(base.error))
        && (apiError.Some? && SeasonText(op, apiError.value).None? ==>
              r == CommonMessage(apiError.value, dm) && base.error == apiError)
    {
      var dm := if defaultMessage.Some? then defaultMessage.value else DefaultFor(op);
      r := base.HandleInArea(apiError, dm, e => SeasonText(op, e));
    }
  }
}
