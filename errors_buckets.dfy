/**
 * The buckets error handler (`useBucketsErrorHandler`): each handler maps an
 * `ApiError` to a message. The base handler it defers to is private to it, so its
 * refs are never observed and the handlers are pure.
 */
module BucketsErrors {
  import opened Base
  import opened BaseErrorHandler

  datatype BucketOp = FetchAll | Fetch | Create | Update | Delete | Validate

  /** The literal code the bucket handlers match for a name clash (not the database's '23505'). */
  const UniqueViolationName := "UNIQUE_VIOLATION"
  const ConstraintViolation := "CONSTRAINT_VIOLATION"

  /** The text a handler gives a code of its own. */
  function BucketText(op: BucketOp, code: string): Option<string>
  {
    match op
    case FetchAll =>
      (match code
      case "UNAUTHORIZED" => Some("You are not authorized to view buckets")
      case "FORBIDDEN" => Some("Access to buckets is forbidden")
      case "NOT_FOUND" => Some("Buckets not found")
      case "VALIDATION_ERROR" => Some("Invalid bucket query parameters")
      case "INTERNAL_ERROR" => Some("Failed to fetch buckets due to server error")
      case _ => None)
    case Fetch =>
      (match code
      case "UNAUTHORIZED" => Some("You are not authorized to view this bucket")
      case "FORBIDDEN" => Some("Access to this bucket is forbidden")
      case "NOT_FOUND" => Some("Bucket not found")
      case "INTERNAL_ERROR" => Some("Failed to fetch bucket due to server error")
      case _ => None)
    case Create =>
      (match code
      case "UNAUTHORIZED" => Some("You are not authorized to create buckets")
      case "FORBIDDEN" => Some("Only administrators can create buckets")
      case "VALIDATION_ERROR" => Some("Invalid bucket data. Please check your input.")
      case "UNIQUE_VIOLATION" => Some("A bucket with this name already exists for this week")
      case "INTERNAL_ERROR" => Some("Failed to create bucket due to server error")
      case _ => None)
    case Update =>
      (match code
      case "UNAUTHORIZED" => Some("You are not authorized to update buckets")
      case "FORBIDDEN" => Some("Only administrators can update buckets")
      case "NOT_FOUND" => Some("Bucket not found")
      case "VALIDATION_ERROR" => Some("Invalid bucket update data. Please check your input.")
      case "UNIQUE_VIOLATION" => Some("A bucket with this name already exists for this week")
      case "INTERNAL_ERROR" => Some("Failed to update bucket due to server error")
      case _ => None)
    case Delete =>
      (match code
      case "UNAUTHORIZED" => Some("You are not authorized to delete buckets")
      case "FORBIDDEN" => Some("Only administrators can delete buckets")
      case "NOT_FOUND" => Some("Bucket not found")
      case "CONSTRAINT_VIOLATION" => Some("Cannot delete bucket - it is being used by other entities")
      case "INTERNAL_ERROR" => Some("Failed to delete bucket due to server error")
      case _ => None)
    case Validate =>
      (match code
      case "UNAUTHORIZED" => Some("You are not authorized to validate buckets")
      case "FORBIDDEN" => Some("Access to bucket validation is forbidden")
      case "NOT_FOUND" => Some("Season or week not found for validation")
      case "VALIDATION_ERROR" => Some("Invalid validation parameters")
      case "INTERNAL_ERROR" => Some("Failed to validate buckets due to server error")
      case _ => None)
  }

  /**
   * `handleBucket…Error(error)`: the handler's own text for its codes, otherwise
   * the common handler's message with its default 'An error occurred'.
   */
  function BucketErrorMessage(op: BucketOp, e: ApiError): (r: string)
    ensures BucketText(op, e.code).Some? ==> r == BucketText(op, e.code).value
    ensures BucketText(op, e.code).None? ==> r == CommonMessage(e, DefaultMessage)
  {
    var own := BucketText(op, e.code);
    if own.Some? then own.value else CommonMessage(e, DefaultMessage)
  }

  /** Every bucket handler words authentication, permission and server errors itself. */
  lemma AuthAndServerCodesWorded(op: BucketOp, e: ApiError)
    requires e.code in {Unauthorized, Forbidden, InternalError}
    ensures BucketText(op, e.code).Some?
    ensures e.code == InternalError ==> BucketErrorMessage(op, e) != InternalText
  {
  }

  /**
   * The bucket handlers match the literal 'UNIQUE_VIOLATION', so the database's
   * unique-violation code '23505' is never worded as a name clash: it shows the
   * error's own message (or 'An error occurred').
   */
  lemma DatabaseUniqueCodeNotWorded(op: BucketOp, e: ApiError)
    requires e.code == UniqueViolation
    ensures BucketErrorMessage(op, e) == (if e.message != "" then e.message else DefaultMessage)
  {
  }

  /** A name clash is worded only when creating or updating; a constraint violation only when deleting. */
  lemma ClashesWordedOnWrite(op: BucketOp, e: ApiError)
    ensures e.code == UniqueViolationName ==> (BucketText(op, e.code).Some? <==> op in {Create, Update})
    ensures e.code == ConstraintViolation ==> (BucketText(op, e.code).Some? <==> op == Delete)
  {
  }

  /** Validation failures are worded by every handler except the single fetch and delete. */
  lemma ValidationWorded(op: BucketOp, e: ApiError)
    requires e.code == ValidationError
    ensures BucketText(op, e.code).None? <==> op in {Fetch, Delete}
  {
  }
}
