/**
 * The players error handler (`usePlayersErrorHandler`): sub-handlers that raise at
 * most one notification for an `ApiError`, and `handleError`, which routes an
 * error to one of them by the words in its code. Where a sub-handler defers to the
 * base's common handler nothing is shown: that handler's refs are private here.
 */
module PlayersErrors {
  import opened Base
  import opened Query
  import opened UiStore
  import opened BaseErrorHandler
  import opened NoticeErrors
  import Notifications

  function ErrorNotice(context: string, text: string): Notice
  {
    Notice(Error, Prefix(context) + text)
  }

  /** `handlePlayerError(error, context)` */
  function PlayerNotice(e: ApiError, context: string): (r: Option<Notice>)
    ensures r.Some? ==> r.value.kind == Error
  {
    var text :=
      match e.code
      case "PLAYER_NOT_FOUND" => Some("Player not found")
      case "PLAYER_ALREADY_EXISTS" => Some("Player already exists with this information")
      case "INVALID_PLAYER_DATA" => Some("Invalid player data provided")
      case "PLAYER_UPDATE_FAILED" => Some("Failed to update player")
      case "CHANGELOG_CREATION_FAILED" => Some("Failed to create changelog entry")
      case "INSUFFICIENT_PERMISSIONS" => Some("Insufficient permissions to perform this action")
      case "PLAYER_SEARCH_FAILED" => Some("Player search failed")
      case "PLAYER_COUNT_FAILED" => Some("Failed to get player count")
      case "CHANGELOG_RETRIEVAL_FAILED" => Some("Failed to retrieve changelog")
      case _ => None;
    if text.Some? then Some(ErrorNotice(context, text.value)) else None
  }

  /** The keyword chain of the `VALIDATION_ERROR` branch, in the order it is checked. */
  const ValidationRules: seq<Rule> := [
    Rule("Username", "Username must be 3-50 characters, alphanumeric with underscores and hyphens only"),
    Rule("Display name", "Display name must be 2-100 characters"),
    Rule("Email", "Please provide a valid email address"),
    Rule("Language tag", "Language tag must be in format: en, en-US, etc."),
    Rule("Location", "Location must be 2-100 characters"),
    Rule("Timezone", "Timezone must be 3-50 characters"),
    Rule("Avatar URL", "Avatar URL must be a valid URL"),
    Rule("Wallet coins", "Wallet coins must be between 0 and 999,999,999"),
    Rule("Wallet bonus cash", "Wallet bonus cash must be between 0 and 999,999,999"),
    Rule("Chat role", "Chat role must be 0 (User), 1 (Mod), or 2 (Admin)"),
    Rule("Greens in Regulation", "Greens in Regulation must be between 0 and 100"),
    Rule("Win ratio", "Win ratio must be between 0 and 100"),
    Rule("Longest drive", "Longest drive must be between 0 and 1000"),
    Rule("Longest putt", "Longest putt must be between 0 and 1000"),
    Rule("Longest chip", "Longest chip must be between 0 and 1000"),
    Rule("Hole in one count", "Hole in one count must be between 0 and 1000"),
    Rule("Total attempted", "Total attempted must be between 0 and 100,000"),
    Rule("Speed King", "Speed King count must be between 0 and 1000"),
    Rule("Putt Master", "Putt Master count must be between 0 and 1000"),
    Rule("Perfect Round", "Perfect Round count must be between 0 and 1000"),
    Rule("Sharp Shooter", "Sharp Shooter count must be between 0 and 1000"),
    Rule("Recovery Master", "Recovery Master count must be between 0 and 1000"),
    Rule("Earnings ranking", "Earnings ranking must be between 1 and 1,000,000"),
    Rule("Cash earned", "Cash earned must be between 0 and 999,999,999"),
    Rule("Coins earned", "Coins earned must be between 0 and 999,999,999"),
    Rule("Career XP", "Career XP must be between 0 and 999,999,999"),
    Rule("Career level", "Career level must be between 1 and 1000"),
    Rule("Career league", "Career league must be between 1 and 100"),
    Rule("Avatar type", "Avatar type must be between 0 and 100"),
    Rule("Avatar index", "Avatar index must be between 0 and 1000"),
    Rule("Change reason", "Change reason must be 5-500 characters"),
    Rule("Limit", "Limit must be between 1 and 100"),
    Rule("Skip", "Skip must be 0 or greater"),
    Rule("Search", "Search term must be 1-50 characters"),
    Rule("Date", "Please provide a valid date")
  ]

  /**
   * `handlePlayerValidationError(error, context)`: one error notice — the field
   * errors of a non-empty `details` array, else for `VALIDATION_ERROR` the first
   * keyword's text (or the raw message), else the raw message — or the throw of a
   * field error.
   */
  function ValidationNotice(e: ApiError, context: string): (r: Outcome<Notice>)
    ensures r.Threw? <==> FieldErrorsMessage(e.details).Threw?
    ensures r.Returned? ==> r.value.kind == Error && StartsWith(r.value.message, Prefix(context))
    ensures var f := FieldErrorsMessage(e.details);
      f.Returned? && f.value.Some? ==> r == Returned(ErrorNotice(context, f.value.value))
    ensures FieldErrorsMessage(e.details) == Returned(None) && e.code == ValidationError ==>
      r.Returned? && r.value.message == Prefix(context) + (var k := FirstMatch(ValidationRules, e.message); if k.Some? then k.value else e.message)
    ensures FieldErrorsMessage(e.details) == Returned(None) && e.code != ValidationError ==>
      r.Returned? && r.value.message == Prefix(context) + e.message
  {
    var fields := FieldErrorsMessage(e.details);
    if fields.Threw? then Threw(fields.message)
    else if fields.value.Some? then Returned(ErrorNotice(context, fields.value.value))
    else if e.code == ValidationError then
      var k := FirstMatch(ValidationRules, e.message);
      Returned(ErrorNotice(context, if k.Some? then k.value else e.message))
    else Returned(ErrorNotice(context, e.message))
  }

  /** `handlePlayerDatabaseError(error, context)` */
  function DatabaseNotice(e: ApiError, context: string): (r: Option<Notice>)
    ensures r.Some? ==> r.value.kind == Error
  {
    var text :=
      match e.code
      case "UNIQUE_VIOLATION" =>
        Some(if Contains(e.message, "email") then "Email address is already in use"
             else if Contains(e.message, "username") then "Username is already taken"
             else "Duplicate value violates unique constraint")
      case "FOREIGN_KEY_VIOLATION" => Some("Referenced record does not exist")
      case "NOT_NULL_VIOLATION" => Some("Required field is missing")
      case "CHECK_VIOLATION" => Some("Value does not meet requirements")
      case "INVALID_TEXT_REPRESENTATION" => Some("Invalid data format provided")
      case "INVALID_DATETIME_FORMAT" => Some("Invalid date/time format")
      case "INVALID_NUMERIC_VALUE" => Some("Invalid numeric value provided")
      case _ => None;
    if text.Some? then Some(ErrorNotice(context, text.value)) else None
  }

  /** A handler's own wording for a code: the notice's kind and its text before the prefix. */
  datatype Worded = Worded(kind: Kind, text: string)

  function Prefixed(context: string, w: Worded): Notice
  {
    Notice(w.kind, Prefix(context) + w.text)
  }

  /** The codes `handlePlayerSearchError` words itself. */
  function SearchTable(code: string): Option<Worded>
  {
    match code
    case "INVALID_SEARCH_PARAMETER" => Some(Worded(Error, "Invalid search parameter provided"))
    case "INVALID_FILTER_VALUE" => Some(Worded(Error, "Invalid filter value provided"))
    case "INVALID_SORT_PARAMETER" => Some(Worded(Error, "Invalid sort parameter provided"))
    case "INVALID_DATE_RANGE" => Some(Worded(Error, "Invalid date range provided"))
    case "SEARCH_TOO_BROAD" => Some(Worded(Warning, "Search criteria too broad, please refine your search"))
    case "NO_RESULTS_FOUND" => Some(Worded(Info, "No players found matching your criteria"))
    case _ => None
  }

  /** Of the search handler's own codes, a too-broad search warns, an empty result informs, the rest are errors. */
  lemma SearchTableKinds(code: string)
    requires SearchTable(code).Some?
    ensures SearchTable(code).value.kind == (if code == "SEARCH_TOO_BROAD" then Warning
                                              else if code == "NO_RESULTS_FOUND" then Info else Error)
  {
  }

  /** `handlePlayerSearchError(error, context)`: its own codes, else the generic player handler. */
  function SearchNotice(e: ApiError, context: string): (r: Option<Notice>)
    ensures SearchTable(e.code).Some? ==> r == Some(Prefixed(context, SearchTable(e.code).value))
    ensures SearchTable(e.code).None? ==> r == PlayerNotice(e, context)
  {
    var w := SearchTable(e.code);
    if w.Some? then Some(Prefixed(context, w.value)) else PlayerNotice(e, context)
  }

  /** The codes `handlePlayerUpdateError` words itself. */
  function UpdateTable(code: string): Option<Worded>
  {
    match code
    case "NO_CHANGES_DETECTED" => Some(Worded(Warning, "No changes were made to the player"))
    case "CHANGE_REASON_REQUIRED" => Some(Worded(Error, "Change reason is required for all updates"))
    case "INVALID_CHANGE_DATA" => Some(Worded(Error, "Invalid data provided for update"))
    case "PLAYER_LOCKED" => Some(Worded(Error, "Player is currently locked and cannot be updated"))
    case "UPDATE_CONFLICT" => Some(Worded(Error, "Player was modified by another user, please refresh and try again"))
    case _ => None
  }

  /** Only an update without changes is a warning; the update handler's other codes are errors. */
  lemma UpdateTableKinds(code: string)
    requires UpdateTable(code).Some?
    ensures UpdateTable(code).value.kind == (if code == "NO_CHANGES_DETECTED" then Warning else Error)
  {
  }

  /** `handlePlayerUpdateError(error, context)`: its own codes, else the generic player handler. */
  function UpdateNotice(e: ApiError, context: string): (r: Option<Notice>)
    ensures UpdateTable(e.code).Some? ==> r == Some(Prefixed(context, UpdateTable(e.code).value))
    ensures UpdateTable(e.code).None? ==> r == PlayerNotice(e, context)
  {
    var w := UpdateTable(e.code);
    if w.Some? then Some(Prefixed(context, w.value)) else PlayerNotice(e, context)
  }

  /** The codes `handleChangelogError` words itself, all as errors. */
  function ChangelogTable(code: string): (r: Option<Worded>)
    ensures r.Some? ==> r.value.kind == Error
  {
    match code
    case "CHANGELOG_NOT_FOUND" => Some(Worded(Error, "Changelog entry not found"))
    case "INVALID_CHANGELOG_QUERY" => Some(Worded(Error, "Invalid changelog query parameters"))
    case "CHANGELOG_CREATION_FAILED" => Some(Worded(Error, "Failed to create changelog entry"))
    case "CHANGELOG_RETRIEVAL_FAILED" => Some(Worded(Error, "Failed to retrieve changelog entries"))
    case _ => None
  }

  /** `handleChangelogError(error, context)`: its own codes, else the generic player handler. */
  function ChangelogNotice(e: ApiError, context: string): (r: Option<Notice>)
    ensures ChangelogTable(e.code).Some? ==> r == Some(Prefixed(context, ChangelogTable(e.code).value))
    ensures ChangelogTable(e.code).None? ==> r == PlayerNotice(e, context)
  {
    var w := ChangelogTable(e.code);
    if w.Some? then Some(Prefixed(context, w.value)) else PlayerNotice(e, context)
  }

  /**
   * The changelog handler words creation and retrieval failures differently from
   * the generic player handler, which words the same two codes too.
   */
  lemma ChangelogRetrievalWording(e: ApiError, context: string)
    requires e.code == "CHANGELOG_RETRIEVAL_FAILED"
    ensures ChangelogNotice(e, context) == Some(Notice(Error, Prefix(context) + "Failed to retrieve changelog entries"))
    ensures PlayerNotice(e, context) == Some(Notice(Error, Prefix(context) + "Failed to retrieve changelog"))
  {
  }

  datatype Route = ToValidation | ToDatabase | ToSearch | ToUpdate | ToChangelog | ToPlayer

  /** The routing of `handleError`: the first family of words the code contains. */
  function RouteOf(code: string): Route
  {
    if Contains(code, "VALIDATION") || code == InvalidInput then ToValidation
    else if Contains(code, "DATABASE") || Contains(code, "DB_") then ToDatabase
    else if Contains(code, "SEARCH") || Contains(code, "FILTER") then ToSearch
    else if Contains(code, "UPDATE") || Contains(code, "MODIFY") then ToUpdate
    else if Contains(code, "CHANGELOG") then ToChangelog
    else ToPlayer
  }

  /** `handleError(error, context)`: the notice of the sub-handler the code is routed to, or its throw. */
  function HandleErrorNotice(e: ApiError, context: string): (r: Outcome<Option<Notice>>)
    ensures r.Threw? ==> RouteOf(e.code) == ToValidation
    ensures RouteOf(e.code) == ToValidation ==>
      (r.Threw? <==> ValidationNotice(e, context).Threw?) && (r.Returned? ==> r.value == Some(ValidationNotice(e, context).value))
    ensures RouteOf(e.code) == ToDatabase ==> r == Returned(DatabaseNotice(e, context))
    ensures RouteOf(e.code) == ToSearch ==> r == Returned(SearchNotice(e, context))
    ensures RouteOf(e.code) == ToUpdate ==> r == Returned(UpdateNotice(e, context))
    ensures RouteOf(e.code) == ToChangelog ==> r == Returned(ChangelogNotice(e, context))
    ensures RouteOf(e.code) == ToPlayer ==> r == Returned(PlayerNotice(e, context))
  {
    match RouteOf(e.code)
    case ToValidation =>
      var v := ValidationNotice(e, context);
      if v.Threw? then Threw(v.message) else Returned(Some(v.value))
    case ToDatabase => Returned(DatabaseNotice(e, context))
    case ToSearch => Returned(SearchNotice(e, context))
    case ToUpdate => Returned(UpdateNotice(e, context))
    case ToChangelog => Returned(ChangelogNotice(e, context))
    case ToPlayer => Returned(PlayerNotice(e, context))
  }

  /** A code without a 'B' never reaches the database handler. */
  lemma NoDatabaseRouteWithoutB(code: string)
    requires 'B' !in code
    ensures RouteOf(code) != ToDatabase
  {
    MissingChar(code, "DATABASE", 'B');
    MissingChar(code, "DB_", 'B');
  }

  /** The codes the database handler words. */
  predicate IsDatabaseCode(code: string)
  {
    code in {"UNIQUE_VIOLATION", "FOREIGN_KEY_VIOLATION", "NOT_NULL_VIOLATION",
    "CHECK_VIOLATION", "INVALID_TEXT_REPRESENTATION", "INVALID_DATETIME_FORMAT", "INVALID_NUMERIC_VALUE"}
  }

  lemma DatabaseNoticeCodes(e: ApiError, context: string)
    ensures DatabaseNotice(e, context).Some? <==> IsDatabaseCode(e.code)
  {
  }

  /**
   * None of the codes the database handler words can be routed to it, so through
   * `handleError` a database failure never shows its worded notice.
   */
  lemma DatabaseCodesNeverRouted(c: string)
    requires IsDatabaseCode(c)
    ensures RouteOf(c) != ToDatabase
  {
    DatabaseCodesLackB(c);
    NoDatabaseRouteWithoutB(c);
  }

  lemma DatabaseCodesLackB(c: string)
    requires IsDatabaseCode(c)
    ensures 'B' !in c
  {
  }

  /** A code lacking one letter of each routing word reaches the generic player handler. */
  lemma PlayerRouteByMissingChars(c: string, v: char, s: char, f: char, u: char, m: char, h: char)
    requires c != InvalidInput && 'B' !in c
    requires v in "VALIDATION" && v !in c && s in "SEARCH" && s !in c && f in "FILTER" && f !in c
    requires u in "UPDATE" && u !in c && m in "MODIFY" && m !in c && h in "CHANGELOG" && h !in c
    ensures RouteOf(c) == ToPlayer
  {
    MissingChar(c, "VALIDATION", v); MissingChar(c, "DATABASE", 'B'); MissingChar(c, "DB_", 'B');
    MissingChar(c, "SEARCH", s); MissingChar(c, "FILTER", f); MissingChar(c, "UPDATE", u);
    MissingChar(c, "MODIFY", m); MissingChar(c, "CHANGELOG", h);
  }

  /**
   * A validation-routed error shows exactly one error notice, unless its field
   * errors throw.
   */
  lemma ValidationAlwaysShown(e: ApiError, context: string)
    requires Contains(e.code, "VALIDATION") || e.code == InvalidInput
    ensures HandleErrorNotice(e, context).Threw? <==> FieldErrorsMessage(e.details).Threw?
    ensures HandleErrorNotice(e, context).Returned? ==>
      HandleErrorNotice(e, context).value.Some? && HandleErrorNotice(e, context).value.value.kind == Error
  {
  }

  /** A null field error makes `handleError` throw for a validation code, before anything is shown. */
  lemma NullFieldErrorThrows(e: ApiError, context: string)
    requires e.code == ValidationError && e.details == Some(JArr([JNull]))
    ensures HandleErrorNotice(e, context).Threw?
  {
    assert MatchesAt(e.code, "VALIDATION", 0);
    NullDetailThrows([JNull], 0);
  }

  /** The rules are tried in order: a message naming 'Username' gets the username text, whatever later keywords it also names. */
  lemma ValidationRulesFirstMatch(message: string)
    requires Contains(message, "Username")
    ensures FirstMatch(ValidationRules, message) == Some(ValidationRules[0].text)
  {
  }

  class PlayersErrorHandler {
    const notifications: Notifications.Notifications

    constructor(notifications: Notifications.Notifications)
      ensures this.notifications == notifications
    {
      this.notifications := notifications;
    }

    /**
     * `handleError(error, context)`: the notice of the routed sub-handler, if any,
     * is added to the UI store with its kind's default duration; a field error that
     * throws leaves the store as it was.
     */
    method HandleError(e: ApiError, context: string, storeId: string, timestamp: string, generatedId: string)
      returns (r: Outcome<()>)
      modifies notifications.ui
      ensures var n := HandleErrorNotice(e, context);
        n.Threw? ==> r.Threw? && notifications.ui.notifications == old(notifications.ui.notifications)
      ensures var n := HandleErrorNotice(e, context);
        n.Returned? ==>
          && r.Returned?
          && notifications.ui.notifications == old(notifications.ui.notifications) +
               (if n.value.Some? then [Notification(storeId, n.value.value.kind, "", n.value.value.message,
                                                    Some(Notifications.DefaultDurationFor(n.value.value.kind)), timestamp)]
                else [])
      ensures var n := HandleErrorNotice(e, context);
        notifications.ui.scheduled == old(notifications.ui.scheduled) +
          (if n.Returned? && n.value.Some? then [(storeId, Notifications.DefaultDurationFor(n.value.value.kind))] else [])
      ensures notifications.ui.modals == old(notifications.ui.modals) && notifications.ui.theme == old(notifications.ui.theme)
      ensures notifications.ui.sidebarOpen == old(notifications.ui.sidebarOpen)
      ensures notifications.ui.loadingOverlay == old(notifications.ui.loadingOverlay)
    {
      var n := HandleErrorNotice(e, context);
      if n.Threw? {
        return Threw(n.message);
      }
      if n.value.Some? {
        var _ := notifications.Show(n.value.value.kind, n.value.value.message, None, None, false, storeId, timestamp, generatedId);
      }
      r := Returned(());
    }
  }
}
