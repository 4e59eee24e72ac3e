/**
 * The events error handler (`useEventsErrorHandler`): one handler per events
 * operation, each wording the codes it knows and handing the rest to the base's
 * common handler, all sharing the base's `error`/`errorMessage` refs.
 */
module EventsErrors {
  import opened Base
  import opened BaseErrorHandler

  datatype EventOp = FetchAll | Fetch | Create | Update | Publish | Archive | Delete

  /** The `defaultMessage` each handler falls back to when none is passed. */
  function DefaultFor(op: EventOp): string
  {
    match op
    case FetchAll => "Failed to load events"
    case Fetch => "Failed to load event"
    case Create => "Failed to create event"
    case Update => "Failed to update event"
    case Publish => "Failed to publish event"
    case Archive => "Failed to archive event"
    case Delete => "Failed to delete event"
  }

  /** The text a handler gives a code of its own, or None when it defers to the common handler. */
  function EventText(op: EventOp, e: ApiError): Option<string>
  {
    match op
    case FetchAll =>
      (match e.code
      case "UNAUTHORIZED" => Some("You must be logged in to view events")
      case "FORBIDDEN" => Some("You do not have permission to view these events")
      case "VALIDATION_ERROR" => Some("Invalid search or filter parameters")
      case "NOT_FOUND" => Some("Events not found")
      case "INTERNAL_ERROR" => Some("Server error while loading events")
      case _ => None)
    case Fetch =>
      (match e.code
      case "UNAUTHORIZED" => Some("You must be logged in to view this event")
      case "FORBIDDEN" => Some("You do not have permission to view this event")
      case "NOT_FOUND" => Some("Event not found")
      case "INTERNAL_ERROR" => Some("Server error while loading event")
      case _ => None)
    case Create =>
      (match e.code
      case "UNAUTHORIZED" => Some("You must be logged in to create events")
      case "FORBIDDEN" => Some("You do not have permission to create events")
      case "VALIDATION_ERROR" => Some(ValidationText(e, "Please check your event data and try again"))
      case "ALREADY_EXISTS" => Some("An event with this name already exists")
      case "23505" => Some("Event name must be unique")
      case "INTERNAL_ERROR" => Some("Server error while creating event")
      case _ => None)
    case Update =>
      (match e.code
      case "UNAUTHORIZED" => Some("You must be logged in to update events")
      case "FORBIDDEN" => Some("You do not have permission to update this event")
      case "NOT_FOUND" => Some("Event not found")
      case "VALIDATION_ERROR" => Some(ValidationText(e, "Please check your event data and try again"))
      case "ALREADY_EXISTS" => Some("An event with this name already exists")
      case "23505" => Some("Event name must be unique")
      case "INTERNAL_ERROR" => Some("Server error while updating event")
      case _ => None)
    case Publish =>
      (match e.code
      case "UNAUTHORIZED" => Some("You must be logged in to publish events")
      case "FORBIDDEN" => Some("Only administrators can publish events")
      case "NOT_FOUND" => Some("Event not found")
      case "VALIDATION_ERROR" => Some("Only draft events can be published")
      case "INTERNAL_ERROR" => Some("Server error while publishing event")
      case _ => None)
    case Archive =>
      (match e.code
      case "UNAUTHORIZED" => Some("You must be logged in to archive events")
      case "FORBIDDEN" => Some("Only administrators can archive events")
      case "NOT_FOUND" => Some("Event not found")
      case "VALIDATION_ERROR" => Some("Only published events can be archived")
      case "INTERNAL_ERROR" => Some("Server error while archiving event")
      case _ => None)
    case Delete =>
      (match e.code
      case "UNAUTHORIZED" => Some("You must be logged in to delete events")
      case "FORBIDDEN" => Some("Only administrators can delete events")
      case "NOT_FOUND" => Some("Event not found")
      case "VALIDATION_ERROR" => Some("Only draft events can be deleted")
      case "INTERNAL_ERROR" => Some("Server error while deleting event")
      case _ => None)
  }

  /**
   * Every events handler words authentication, permission and server errors
   * itself, so those never reach the common handler (whose server-error text is
   * never the one shown).
   */
  lemma AuthAndServerCodesWorded(op: EventOp, e: ApiError)
    requires e.code in {Unauthorized, Forbidden, InternalError}
    ensures EventText(op, e).Some?
    ensures e.code == InternalError ==> EventText(op, e).value != InternalText
  {
  }

  /** A missing entity is worded by every handler except create, which defers it. */
  lemma NotFoundWorded(op: EventOp, e: ApiError)
    requires e.code == NotFound
    ensures EventText(op, e).Some? <==> op != Create
  {
  }

  /** Name clashes (`ALREADY_EXISTS` or the database's unique violation) are worded only when writing. */
  lemma ConflictWordedOnlyOnWrite(op: EventOp, e: ApiError)
    requires e.code == AlreadyExists || e.code == UniqueViolation
    ensures EventText(op, e).Some? <==> op in {Create, Update}
  {
  }

  /** A code none of the handlers words, such as `TOKEN_EXPIRED`, always goes to the common handler. */
  lemma UnknownCodesDeferred(op: EventOp, e: ApiError)
    requires !(e.code in {Unauthorized, Forbidden, NotFound, ValidationError, AlreadyExists, UniqueViolation, InternalError})
    ensures EventText(op, e).None?
  {
  }

  class EventsErrorHandler {
    const base: BaseErrorHandler

    constructor()
      ensures fresh(base) && base.error.None? && base.errorMessage.None?
    {
      base := new BaseErrorHandler();
    }

    /**
     * `handleEvent…Error(apiError, defaultMessage)` for the operation `op`; an
     * absent `defaultMessage` is the handler's own default.
     */
    method Handle(op: EventOp, apiError: Option<ApiError>, defaultMessage: Option<string>) returns (r: string)
      modifies base
      ensures base.errorMessage == Some(r)
      ensures var dm := if defaultMessage.Some? then defaultMessage.value else DefaultFor(op);
        && (apiError.None? ==> r == dm && base.error == old(base.error))
        && (apiError.Some? && EventText(op, apiError.value).Some? ==>
              r == EventText(op, apiError.value).value && base.error == old(base.error))
        && (apiError.Some? && EventText(op, apiError.value).None? ==>
              r == CommonMessage(apiError.value, dm) && base.error == apiError)
    {
      var dm := if defaultMessage.Some? then defaultMessage.value else DefaultFor(op);
      r := base.HandleInArea(apiError, dm, e => EventText(op, e));
    }
  }
}
