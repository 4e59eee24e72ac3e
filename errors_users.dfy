/**
 * The users error handler (`useUsersErrorHandler`): sub-handlers that raise at most
 * one notification for an `ApiError`, and `handleError`, which unwraps whatever
 * was thrown, rejects it when it carries no code and otherwise routes it by the
 * words and shape of its code.
 */
module UsersErrors {
  import opened Base
  import opened Query
  import opened UiStore
  import opened BaseErrorHandler
  import opened NoticeErrors
  import Notifications

  function ErrorNotice(context: string, text: string): Notice
  {
    Notice(Error, Prefix(context) + text)
  }

  /** The codes `handleUserError` words itself. */
  function UserTable(code: string): Option<string>
  {
    match code
    case "USER_NOT_FOUND" => Some("User not found")
    case "USER_ALREADY_EXISTS" => Some("User already exists with this email")
    case "INVALID_USER_DATA" => Some("Invalid user data provided")
    case "USER_UPDATE_FAILED" => Some("Failed to update user")
    case "USER_CREATION_FAILED" => Some("Failed to create user")
    case "USER_DELETION_FAILED" => Some("Failed to delete user")
    case "INSUFFICIENT_PERMISSIONS" => Some("Insufficient permissions to perform this action")
    case "USER_SEARCH_FAILED" => Some("User search failed")
    case "USER_COUNT_FAILED" => Some("Failed to get user count")
    case "PASSWORD_CHANGE_FAILED" => Some("Failed to change password")
    case "ROLE_UPDATE_FAILED" => Some("Failed to update user role")
    case "BLACKLIST_UPDATE_FAILED" => Some("Failed to update blacklist status")
    case "SELF_DELETION_ATTEMPT" => Some("You cannot delete your own account")
    case "SELF_ROLE_CHANGE_ATTEMPT" => Some("You cannot change your own role")
    case "SELF_BLACKLIST_ATTEMPT" => Some("You cannot blacklist your own account")
    case _ => None
  }

  /** `handleUserError(error, context)`: an error notice for its own codes, nothing otherwise. */
  function UserNotice(e: ApiError, context: string): (r: Option<Notice>)
    ensures UserTable(e.code).Some? ==> r == Some(ErrorNotice(context, UserTable(e.code).value))
    ensures UserTable(e.code).None? ==> r.None?
  {
    var t := UserTable(e.code);
    if t.Some? then Some(ErrorNotice(context, t.value)) else None
  }

  /** The keyword chain of the `VALIDATION_ERROR` branch, in the order it is checked. */
  const ValidationRules: seq<Rule> := [
    Rule("Password", "Password is required and must meet security requirements"),
    Rule("Email", "Please provide a valid email address"),
    Rule("Name", "Name must be 2-100 characters"),
    Rule("Role", "Invalid role specified"),
    Rule("Current password", "Current password is required when changing password"),
    Rule("Current password incorrect", "Current password is incorrect")
  ]

  /**
   * `handleUserValidationError(error, context)`: one error notice — the field
   * errors of a non-empty `details` array, else a keyword's text for
   * `VALIDATION_ERROR`, a fixed text for `INVALID_INPUT`, or the message — or the
   * throw of a field error.
   */
  function ValidationNotice(e: ApiError, context: string): (r: Outcome<Notice>)
    ensures r.Threw? <==> FieldErrorsMessage(e.details).Threw?
    ensures r.Returned? ==> r.value.kind == Error && StartsWith(r.value.message, Prefix(context))
    ensures var f := FieldErrorsMessage(e.details);
      f.Returned? && f.value.Some? ==> r == Returned(ErrorNotice(context, f.value.value))
    ensures FieldErrorsMessage(e.details) == Returned(None) && e.code == ValidationError ==>
      r.Returned? && r.value.message == Prefix(context) + (var k := FirstMatch(ValidationRules, e.message); if k.Some? then k.value else e.message)
    ensures FieldErrorsMessage(e.details) == Returned(None) && e.code == InvalidInput ==>
      r.Returned? && r.value.message == Prefix(context) + "Invalid input provided"
    ensures FieldErrorsMessage(e.details) == Returned(None) && e.code != ValidationError && e.code != InvalidInput ==>
      r.Returned? && r.value.message == Prefix(context) + (if e.message != "" then e.message else "Validation failed")
  {
    var fields := FieldErrorsMessage(e.details);
    if fields.Threw? then Threw(fields.message)
    else if fields.value.Some? then Returned(ErrorNotice(context, fields.value.value))
    else if e.code == ValidationError then
      var k := FirstMatch(ValidationRules, e.message);
      Returned(ErrorNotice(context, if k.Some? then k.value else e.message))
    else if e.code == InvalidInput then Returned(ErrorNotice(context, "Invalid input provided"))
    else Returned(ErrorNotice(context, if e.message != "" then e.message else "Validation failed"))
  }

  /**
   * 'Current password incorrect' is checked after 'Current password', which it
   * contains: its text can never be shown.
   */
  lemma IncorrectPasswordTextUnreachable(message: string)
    ensures FirstMatch(ValidationRules, message) != Some("Current password is incorrect")
  {
    var rules := ValidationRules;
    assert StartsWith(rules[5].keyword, rules[4].keyword);
    StartsWithContains(rules[5].keyword, rules[4].keyword);
    ShadowedRule(rules, 4, 5, message);
  }

  /** `handleUserAuthError(error, context)`: always one error notice. */
  function AuthNotice(e: ApiError, context: string): (r: Notice)
    ensures r.kind == Error
    ensures e.code !in {Unauthorized, TokenExpired, TokenInvalid, InvalidCredentials} ==>
      r.message == Prefix(context) + "Authentication failed"
  {
    ErrorNotice(context,
      match e.code
      case "UNAUTHORIZED" => "Authentication required"
      case "TOKEN_EXPIRED" => "Your session has expired. Please log in again"
      case "TOKEN_INVALID" => "Invalid authentication token"
      case "INVALID_CREDENTIALS" => "Invalid email or password"
      case _ => "Authentication failed")
  }

  /** `handleUserAuthorizationError(error, context)`: always one error notice. */
  function AuthorizationNotice(e: ApiError, context: string): (r: Notice)
    ensures r.kind == Error
    ensures e.code !in {Forbidden, InsufficientPermissions, "ADMIN_REQUIRED", "MOD_OR_ADMIN_REQUIRED"} ==>
      r.message == Prefix(context) + "Authorization failed"
  {
    ErrorNotice(context,
      match e.code
      case "FORBIDDEN" => "Access denied"
      case "INSUFFICIENT_PERMISSIONS" => "You don't have permission to perform this action"
      case "ADMIN_REQUIRED" => "Admin role required for this operation"
      case "MOD_OR_ADMIN_REQUIRED" => "Moderator or Admin role required for this operation"
      case _ => "Authorization failed")
  }

  /** `handleUserDatabaseError(error, context)`: always one error notice, keyed by the PostgreSQL code. */
  function DatabaseNotice(e: ApiError, context: string): (r: Notice)
    ensures r.kind == Error
    ensures e.code == UniqueViolation ==>
      (r.message == Prefix(context) + "Email address already exists" <==> Contains(e.message, "email"))
    ensures e.code !in {UniqueViolation, ForeignKeyViolation, NotNullViolation} ==>
      r.message == Prefix(context) + "Database operation failed"
  {
    ErrorNotice(context,
      match e.code
      case "23505" =>
        if Contains(e.message, "email") then "Email address already exists" else "User with this information already exists"
      case "23503" => "Cannot delete user due to existing references"
      case "23502" => "Required field is missing"
      case _ => "Database operation failed")
  }

  /** `/^23\d{3}$/`: five characters, '23' and three digits. */
  predicate PostgresCode(code: string)
  {
    |code| == 5 && code[0] == '2' && code[1] == '3' && forall i :: 2 <= i < 5 ==> '0' <= code[i] <= '9'
  }

  datatype Route = ToValidation | ToAuth | ToAuthorization | ToDatabase | ToUser

  /** The routing of `handleError` for a present code. */
  function RouteOf(code: string): Route
  {
    if Contains(code, "VALIDATION") || code == InvalidInput then ToValidation
    else if Contains(code, "AUTH") || code == Unauthorized || code == TokenExpired || code == TokenInvalid then ToAuth
    else if Contains(code, "FORBIDDEN") || code == InsufficientPermissions then ToAuthorization
    else if PostgresCode(code) then ToDatabase
    else ToUser
  }

  /** The notice of the sub-handler an error is routed to, or the throw of its field errors. */
  function RoutedNotice(e: ApiError, context: string): (r: Outcome<Option<Notice>>)
    ensures r.Threw? ==> RouteOf(e.code) == ToValidation
    ensures RouteOf(e.code) == ToValidation ==>
      (r.Threw? <==> ValidationNotice(e, context).Threw?) && (r.Returned? ==> r.value == Some(ValidationNotice(e, context).value))
    ensures RouteOf(e.code) == ToAuth ==> r == Returned(Some(AuthNotice(e, context)))
    ensures RouteOf(e.code) == ToAuthorization ==> r == Returned(Some(AuthorizationNotice(e, context)))
    ensures RouteOf(e.code) == ToDatabase ==> r == Returned(Some(DatabaseNotice(e, context)))
    ensures RouteOf(e.code) == ToUser ==> r == Returned(UserNotice(e, context))
  {
    match RouteOf(e.code)
    case ToValidation =>
      var v := ValidationNotice(e, context);
      if v.Threw? then Threw(v.message) else Returned(Some(v.value))
    case ToAuth => Returned(Some(AuthNotice(e, context)))
    case ToAuthorization => Returned(Some(AuthorizationNotice(e, context)))
    case ToDatabase => Returned(Some(DatabaseNotice(e, context)))
    case ToUser => Returned(UserNotice(e, context))
  }

  /** `error?.error || error`: a truthy nested `error` member is preferred. */
  function Unwrap(thrown: Json): (r: Json)
    ensures Member(thrown, "error").Some? && JsonTruthy(Member(thrown, "error").value) ==> r == Member(thrown, "error").value
    ensures !(Member(thrown, "error").Some? && JsonTruthy(Member(thrown, "error").value)) ==> r == thrown
  {
    var inner := Member(thrown, "error");
    if inner.Some? && JsonTruthy(inner.value) then inner.value else thrown
  }

  /** The `ApiError` view of an unwrapped value whose code is the string `code`. */
  function ApiErrorOf(v: Json, code: string): ApiError
  {
    var status := Member(v, "status");
    var message := Member(v, "message");
    ApiError(if status.Some? && status.value.JNum? then status.value.n else 0,
             code,
             if message.Some? && message.value.JStr? then message.value.s else "",
             Member(v, "details"))
  }

  /** `${context || 'User operation'}: An unexpected error occurred` */
  function UnexpectedNotice(context: string): Notice
  {
    Notice(Error, (if context != "" then context else "User operation") + ": An unexpected error occurred")
  }

  /**
   * `handleError(error, context)` on the value thrown (null for a missing one): the
   * notice it raises, or a throw when the code is truthy but not a string or when
   * a field error throws.
   */
  function HandleErrorNotice(thrown: Json, context: string): (r: Outcome<Option<Notice>>)
    ensures var v := Unwrap(thrown); var code := Member(v, "code");
      !JsonTruthy(v) || code.None? || !JsonTruthy(code.value) ==> r == Returned(Some(UnexpectedNotice(context)))
    ensures var v := Unwrap(thrown); var code := Member(v, "code");
      code.Some? && code.value.JStr? && code.value.s != "" ==> r == RoutedNotice(ApiErrorOf(v, code.value.s), context)
  {
    var v := Unwrap(thrown);
    var code := Member(v, "code");
    if !JsonTruthy(v) || code.None? || !JsonTruthy(code.value) then Returned(Some(UnexpectedNotice(context)))
    else if code.value.JStr? then RoutedNotice(ApiErrorOf(v, code.value.s), context)
    else Threw("apiError.code.includes is not a function")
  }

  /**
   * Every routed code except the generic user route shows exactly one notice; only
   * the validation route can throw, and only through its field errors.
   */
  lemma RoutedAlwaysShown(e: ApiError, context: string)
    requires RouteOf(e.code) != ToUser
    ensures RoutedNotice(e, context).Threw? <==> RouteOf(e.code) == ToValidation && FieldErrorsMessage(e.details).Threw?
    ensures RoutedNotice(e, context).Returned? ==>
      RoutedNotice(e, context).value.Some? && RoutedNotice(e, context).value.value.kind == Error
  {
  }

  /** Any code of the PostgreSQL shape that names no other family reaches the database handler. */
  lemma PostgresCodesRouted(code: string)
    requires PostgresCode(code)
    ensures RouteOf(code) == ToDatabase
  {
    assert |code| < |"VALIDATION"| && |code| < |"FORBIDDEN"|;
    assert code != InvalidInput && code != Unauthorized && code != TokenExpired && code != TokenInvalid;
    assert code != InsufficientPermissions;
    MissingChar(code, "AUTH", 'A');
  }

  /**
   * `INVALID_CREDENTIALS` contains none of the routing words, so `handleError`
   * hands it to the generic user handler, which shows nothing: the auth handler's
   * 'Invalid email or password' is never reached that way.
   */
  lemma InvalidCredentialsShowsNothing(e: ApiError, context: string)
    requires e.code == InvalidCredentials
    ensures RouteOf(e.code) == ToUser && RoutedNotice(e, context) == Returned(None)
  {
    CredentialsRoute(e.code);
  }

  lemma CredentialsRoute(c: string)
    requires c == InvalidCredentials
    ensures RouteOf(c) == ToUser
  {
    CredentialsWordless(c);
  }

  lemma CredentialsWordless(c: string)
    requires c == InvalidCredentials
    ensures !Contains(c, "VALIDATION") && !Contains(c, "AUTH") && !Contains(c, "FORBIDDEN")
  {
    LacksChar(c, "VALIDATION", 'O');
    LacksChar(c, "AUTH", 'U');
    LacksChar(c, "FORBIDDEN", 'B');
  }

  /** One of the characters `InvalidCredentials` lacks rules out one routing word. */
  lemma LacksChar(c: string, word: string, ch: char)
    requires c == InvalidCredentials && ch in word && ch in "OUB"
    ensures !Contains(c, word)
  {
    MissingChar(c, word, ch);
  }

  /** The store entry a notice becomes: no title, its kind's default duration. */
  function Shown(n: Option<Notice>, storeId: string, timestamp: string): (r: seq<Notification>)
    ensures |r| == (if n.Some? then 1 else 0)
  {
    if n.Some? then [Notification(storeId, n.value.kind, "", n.value.message,
                                  Some(Notifications.DefaultDurationFor(n.value.kind)), timestamp)]
    else []
  }

  class UsersErrorHandler {
    const notifications: Notifications.Notifications

    constructor(notifications: Notifications.Notifications)
      ensures this.notifications == notifications
    {
      this.notifications := notifications;
    }

    /**
     * `handleError(error, context)`: the notice, if any, is added to the UI store with
     * its kind's default duration; a non-string code makes it throw before showing anything.
     */
    method HandleError(thrown: Json, context: string, storeId: string, timestamp: string, generatedId: string)
      returns (r: Outcome<()>)
      modifies notifications.ui
      ensures var n := HandleErrorNotice(thrown, context);
        n.Threw? ==> r.Threw? && notifications.ui.notifications == old(notifications.ui.notifications)
      ensures var n := HandleErrorNotice(thrown, context);
        n.Returned? ==> r.Returned? && notifications.ui.notifications == old(notifications.ui.notifications) + Shown(n.value, storeId, timestamp)
      ensures var n := HandleErrorNotice(thrown, context);
        notifications.ui.scheduled == old(notifications.ui.scheduled) +
          (if n.Returned? && n.value.Some? then [(storeId, Notifications.DefaultDurationFor(n.value.value.kind))] else [])
      ensures notifications.ui.modals == old(notifications.ui.modals) && notifications.ui.theme == old(notifications.ui.theme)
      ensures notifications.ui.sidebarOpen == old(notifications.ui.sidebarOpen)
      ensures notifications.ui.loadingOverlay == old(notifications.ui.loadingOverlay)
    {
      var n := HandleErrorNotice(thrown, context);
      if n.Threw? {
        return Threw(n.message);
      }
      if n.value.Some? {
        var _ := notifications.Show(n.value.value.kind, n.value.value.message, None, None, false, storeId, timestamp, generatedId);
      }
      r := Returned(());
    }
  }
}
