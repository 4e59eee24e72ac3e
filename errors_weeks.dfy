/**
 * The weeks error handler (`useWeeksErrorHandler`), built on the base handler like
 * the events one.
 */
module WeeksErrors {
  import opened Base
  import opened BaseErrorHandler

  datatype WeekOp = FetchAll | Fetch | Create | Update | Delete | FetchBySeason

  /** The `defaultMessage` each handler falls back to when none is passed. */
  function DefaultFor(op: WeekOp): string
  {
    match op
    case FetchAll => "Failed to load weeks"
    case Fetch => "Failed to load week"
    case Create => "Failed to create week"
    case Update => "Failed to update week"
    case Delete => "Failed to delete week"
    case FetchBySeason => "Failed to load weeks for season"
  }

  /** The text a handler gives a code of its own, or None when it defers to the common handler. */
  function WeekText(op: WeekOp, e: ApiError): Option<string>
  {
    match op
    case FetchAll =>
      (match e.code
      case "UNAUTHORIZED" => Some("You must be logged in to view weeks")
      case "FORBIDDEN" => Some("You do not have permission to view these weeks")
      case "VALIDATION_ERROR" => Some("Invalid search or filter parameters")
      case "NOT_FOUND" => Some("Weeks not found")
      case "INTERNAL_ERROR" => Some("Server error while loading weeks")
      case _ => None)
    case Fetch =>
      (match e.code
      case "UNAUTHORIZED" => Some("You must be logged in to view this week")
      case "FORBIDDEN" => Some("You do not have permission to view this week")
      case "NOT_FOUND" => Some("Week not found")
      case "INTERNAL_ERROR" => Some("Server error while loading week")
      case _ => None)
    case Create =>
      (match e.code
      case "UNAUTHORIZED" => Some("You must be logged in to create weeks")
      case "FORBIDDEN" => Some("You do not have permission to create weeks")
      case "VALIDATION_ERROR" => Some(ValidationText(e, "Please check your week data and try again"))
      case "ALREADY_EXISTS" => Some("A week with this number already exists for this season")
      case "INTERNAL_ERROR" => Some("Server error while creating week")
      case _ => None)
    case Update =>
      (match e.code
      case "UNAUTHORIZED" => Some("You must be logged in to update weeks")
      case "FORBIDDEN" => Some("You do not have permission to update this week")
      case "NOT_FOUND" => Some("Week not found")
      case "VALIDATION_ERROR" => Some(ValidationText(e, "Please check your week data and try again"))
      case "INTERNAL_ERROR" => Some("Server error while updating week")
      case _ => None)
    case Delete =>
      (match e.code
      case "UNAUTHORIZED" => Some("You must be logged in to delete weeks")
      case "FORBIDDEN" => Some("You do not have permission to delete this week")
      case "NOT_FOUND" => Some("Week not found")
      case "VALIDATION_ERROR" => Some("Cannot delete week - it may have associated data")
      case "INTERNAL_ERROR" => Some("Server error while deleting week")
      case _ => None)
    case FetchBySeason =>
      (match e.code
      case "UNAUTHORIZED" => Some("You must be logged in to view season weeks")
      case "FORBIDDEN" => Some("You do not have permission to view these weeks")
      case "NOT_FOUND" => Some("Season not found")
      case "INTERNAL_ERROR" => Some("Server error while loading season weeks")
      case _ => None)
  }

  /** Every weeks handler words authentication, permission and server errors itself. */
  lemma AuthAndServerCodesWorded(op: WeekOp, e: ApiError)
    requires e.code in {Unauthorized, Forbidden, InternalError}
    ensures WeekText(op, e).Some?
    ensures e.code == InternalError ==> WeekText(op, e).value != InternalText
  {
  }

  /** A missing week (or season) is worded by every handler except create. */
  lemma NotFoundWorded(op: WeekOp, e: ApiError)
    requires e.code == NotFound
    ensures WeekText(op, e).Some? <==> op != Create
  {
  }

  /**
   * Only create words `ALREADY_EXISTS`, and no weeks handler words the database's
   * unique violation '23505'.
   */
  lemma ConflictWordedOnlyOnCreate(op: WeekOp, e: ApiError)
    ensures e.code == AlreadyExists ==> (WeekText(op, e).Some? <==> op == Create)
    ensures e.code == UniqueViolation ==> WeekText(op, e).None?
  {
  }

  /** Validation failures reach the common handler only from the single-week and by-season fetches. */
  lemma ValidationWorded(op: WeekOp, e: ApiError)
    requires e.code == ValidationError
    ensures WeekText(op, e).None? <==> op in {Fetch, FetchBySeason}
  {
  }

  class WeeksErrorHandler {
    const base: BaseErrorHandler

    constructor()
      ensures fresh(base) && base.error.None? && base.errorMessage.None?
    {
      base := new BaseErrorHandler();
    }

    /** `handleWeek…Error(apiError, defaultMessage)` for the operation `op`. */
    method Handle(op: WeekOp, apiError: Option<ApiError>, defaultMessage: Option<string>) returns (r: string)
      modifies base
      ensures base.errorMessage == Some(r)
      ensures var dm := if defaultMessage.Some? then defaultMessage.value else DefaultFor(op);
        && (apiError.None? ==> r == dm && base.error == old(base.error))
        && (apiError.Some? && WeekText(op, apiError.value).Some? ==>
              r == WeekText(op, apiError.value).value && base.error == old(base.error))
        && (apiError.Some? && WeekText(op, apiError.value).None? ==>
              r == CommonMessage(apiError.value, dm) && base.error == apiError)
    {
      var dm := if defaultMessage.Some? then defaultMessage.value else DefaultFor(op);
      r := base.HandleInArea(apiError, dm, e => WeekText(op, e));
    }
  }
}
