/**
 * The profile error handler (`useProfileErrorHandler`): codes it words are recorded
 * as the current error along with their text; the rest go to the common handler.
 */
module ProfileErrors {
  import opened Base
  import opened Query
  import opened BaseErrorHandler

  datatype ProfileOp = Update | Fetch

  function DefaultFor(op: ProfileOp): string
  {
    match op
    case Update => "Profile update failed"
    case Fetch => "Failed to load profile"
  }

  /** `apiError.details?.field === 'email'` */
  predicate EmailField(e: ApiError)
  {
    e.details.Some? && Member(e.details.value, "field") == Some(JStr("email"))
  }

  const EmailInUse := "This email is already in use by another user"

  /** The text a profile handler gives a code of its own. */
  function ProfileText(op: ProfileOp, e: ApiError): Option<string>
  {
    match op
    case Update =>
      (match e.code
      case "VALIDATION_ERROR" => Some(FormatValidationErrors(e))
      case "INVALID_INPUT" => Some(FormatValidationErrors(e))
      case "UNAUTHORIZED" => Some("You need to login to update your profile")
      case "FORBIDDEN" => Some("You do not have permission to update this profile")
      case "INSUFFICIENT_PERMISSIONS" => Some("You do not have permission to update this profile")
      case "NOT_FOUND" => Some("User profile not found")
      case "ALREADY_EXISTS" =>
        Some(if EmailField(e) then EmailInUse else "A user with this information already exists")
      case "23505" =>
        Some(if EmailField(e) then EmailInUse else "This information conflicts with an existing user")
      case _ => None)
    case Fetch =>
      (match e.code
      case "UNAUTHORIZED" => Some("You need to login to view your profile")
      case "FORBIDDEN" => Some("You do not have permission to view this profile")
      case "INSUFFICIENT_PERMISSIONS" => Some("You do not have permission to view this profile")
      case "NOT_FOUND" => Some("Profile not found")
      case _ => None)
  }

  /**
   * An update that collides on the email field says so whichever of the two
   * clash codes the backend used; any other field gets a code-specific text.
   */
  lemma EmailClash(e: ApiError)
    requires e.code == AlreadyExists || e.code == UniqueViolation
    ensures ProfileText(Update, e).Some?
    ensures (ProfileText(Update, e).value == EmailInUse) <==> EmailField(e)
  {
  }

  /** `FORBIDDEN` and `INSUFFICIENT_PERMISSIONS` read the same in both handlers. */
  lemma PermissionCodesAlike(op: ProfileOp, e: ApiError, e': ApiError)
    requires e.code == Forbidden && e'.code == InsufficientPermissions
    ensures ProfileText(op, e).Some? && ProfileText(op, e) == ProfileText(op, e')
  {
  }

  /** Validation failures of an update are worded by `formatValidationErrors` on the error itself. */
  lemma UpdateValidation(e: ApiError)
    requires e.code == ValidationError || e.code == InvalidInput
    ensures ProfileText(Update, e) == Some(FormatValidationErrors(e))
  {
  }

  /** Fetching words only authentication, permission and not-found codes. */
  lemma FetchWordedCodes(e: ApiError)
    ensures ProfileText(Fetch, e).Some? <==> e.code in {Unauthorized, Forbidden, InsufficientPermissions, NotFound}
  {
  }

  class ProfileErrorHandler {
    const base: BaseErrorHandler

    constructor()
      ensures fresh(base) && base.error.None? && base.errorMessage.None?
    {
      base := new BaseErrorHandler();
    }

    /** `handleProfileUpdateError` / `handleProfileFetchError` */
    method Handle(op: ProfileOp, apiError: Option<ApiError>, defaultMessage: Option<string>) returns (r: string)
      modifies base
      ensures base.errorMessage == Some(r) && base.error == apiError
      ensures var dm := if defaultMessage.Some? then defaultMessage.value else DefaultFor(op);
        && (apiError.None? ==> r == dm)
        && (apiError.Some? && ProfileText(op, apiError.value).Some? ==> r == ProfileText(op, apiError.value).value)
        && (apiError.Some? && ProfileText(op, apiError.value).None? ==> r == CommonMessage(apiError.value, dm))
    {
      var dm := if defaultMessage.Some? then defaultMessage.value else DefaultFor(op);
      r := base.HandleRecorded(apiError, dm, e => ProfileText(op, e));
    }
  }
}
