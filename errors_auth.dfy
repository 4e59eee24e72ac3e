/**
 * The authentication error handler (`useAuthErrorHandler`): sign-in and
 * registration failures, recorded like the profile ones.
 */
module AuthErrors {
  import opened Base
  import opened Query
  import opened BaseErrorHandler
  import ProfileErrors

  datatype AuthOp = SignIn | Registration

  function DefaultFor(op: AuthOp): string
  {
    match op
    case SignIn => "Authentication failed"
    case Registration => "Registration failed"
  }

  /**
   * The text an auth handler gives a code of its own. Both handlers share the two
   * validation cases, so those are decided before the handler's own codes.
   */
  function AuthText(op: AuthOp, e: ApiError): Option<string>
  {
    if e.code == ValidationError || e.code == InvalidInput then Some(FormatValidationErrors(e))
    else
      match op
      case SignIn =>
        (match e.code
        case "INVALID_CREDENTIALS" => Some("Invalid email or password")
        case "UNAUTHORIZED" => Some("You need to login to access this resource")
        case "TOKEN_EXPIRED" => Some("Your session has expired, please login again")
        case "TOKEN_INVALID" => Some("Invalid authentication token")
        case "FORBIDDEN" => Some("You do not have permission to perform this action")
        case "INSUFFICIENT_PERMISSIONS" => Some("You do not have permission to perform this action")
        case _ => None)
      case Registration =>
        (match e.code
        case "ALREADY_EXISTS" =>
          Some(if ProfileErrors.EmailField(e) then "This email is already registered" else "This user already exists")
        case _ => None)
  }

  /** Sign-in words every credential and token code, so none of them shows the backend's own text. */
  lemma SignInWordedCodes(e: ApiError)
    ensures AuthText(SignIn, e).Some? <==>
      e.code in {InvalidCredentials, Unauthorized, TokenExpired, TokenInvalid, Forbidden,
                 InsufficientPermissions, ValidationError, InvalidInput}
  {
  }

  /** Registration words only clashes and validation failures; a clash on the email field says so. */
  lemma RegistrationWordedCodes(e: ApiError)
    ensures AuthText(Registration, e).Some? <==> e.code in {AlreadyExists, ValidationError, InvalidInput}
    ensures e.code == AlreadyExists ==>
      (AuthText(Registration, e).value == "This email is already registered" <==> ProfileErrors.EmailField(e))
  {
  }

  /** Both handlers word a validation failure the same way, with `formatValidationErrors`. */
  lemma ValidationAlike(op: AuthOp, e: ApiError)
    requires e.code == ValidationError || e.code == InvalidInput
    ensures AuthText(op, e) == Some(FormatValidationErrors(e))
  {
  }

  class AuthErrorHandler {
    const base: BaseErrorHandler

    constructor()
      ensures fresh(base) && base.error.None? && base.errorMessage.None?
    {
      base := new BaseErrorHandler();
    }

    /** `handleAuthError` / `handleRegistrationError` */
    method Handle(op: AuthOp, apiError: Option<ApiError>, defaultMessage: Option<string>) returns (r: string)
      modifies base
      ensures base.errorMessage == Some(r) && base.error == apiError
      ensures var dm := if defaultMessage.Some? then defaultMessage.value else DefaultFor(op);
        && (apiError.None? ==> r == dm)
        && (apiError.Some? && AuthText(op, apiError.value).Some? ==> r == AuthText(op, apiError.value).value)
        && (apiError.Some? && AuthText(op, apiError.value).None? ==> r == CommonMessage(apiError.value, dm))
    {
      var dm := if defaultMessage.Some? then defaultMessage.value else DefaultFor(op);
      r := base.HandleRecorded(apiError, dm, e => AuthText(op, e));
    }
  }
}
