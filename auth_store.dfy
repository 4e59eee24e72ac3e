/**
 * The `auth` store: the session (token, user, flags) persisted under the
 * `auth_token` and `auth_user` keys of the browser storage, the role getters,
 * and the permission rules.
 *
 * The storage is the shared browser storage; off the browser the helpers read
 * nothing and write nothing. `JSON.parse` of the stored user is the parameter
 * `parse` (`None` when it throws).
 */
module AuthStore {
  import opened Base
  import opened Types
  import opened BrowserStorage

  const TokenKey := "auth_token"
  const UserKey := "auth_user"

  /** `['admin', 'mod'].includes(user?.role || '')` */
  predicate Staff(user: Option<User>)
  {
    user.Some? && (user.value.role == "admin" || user.value.role == "mod")
  }

  /** The fixed permission lists of `hasPermission`; any other role has none. */
  function Permissions(role: string): (r: seq<string>)
    ensures role != "admin" && role != "mod" && role != "user" ==> r == []
  {
    if role == "admin" then ["manage_users", "delete_users", "promote_users", "blacklist_users", "view_all"]
    else if role == "mod" then ["manage_users", "delete_users", "blacklist_users", "view_users"]
    else if role == "user" then ["view_own_profile", "edit_own_profile"]
    else []
  }

  function HasPermission(user: Option<User>, permission: string): (r: bool)
    ensures user.None? ==> !r
  {
    user.Some? && permission in Permissions(user.value.role)
  }

  /** Which permission belongs to which role: promotion is admin-only, and plain users hold only the own-profile pair. */
  lemma PermissionTable(user: Option<User>, permission: string)
    ensures HasPermission(user, "promote_users") <==> user.Some? && user.value.role == "admin"
    ensures HasPermission(user, "view_users") <==> user.Some? && user.value.role == "mod"
    ensures HasPermission(user, "view_all") <==> user.Some? && user.value.role == "admin"
    ensures HasPermission(user, "manage_users") <==> Staff(user)
    ensures HasPermission(user, "delete_users") <==> Staff(user)
    ensures HasPermission(user, "blacklist_users") <==> Staff(user)
    ensures HasPermission(user, permission) && user.value.role == "user" ==>
              permission == "view_own_profile" || permission == "edit_own_profile"
  {
  }

  /** `canPerformAction(action, targetUser)` */
  function CanPerformAction(user: Option<User>, action: string, target: Option<User>): (r: bool)
    ensures user.None? ==> !r
    ensures user.Some? && target.Some? && user.value.id == target.value.id ==>
              (r <==> action == "view_own_profile" || action == "edit_own_profile")
  {
    if user.None? then false
    else if target.Some? && user.value.id == target.value.id then
      action == "view_own_profile" || action == "edit_own_profile"
    else if action == "delete_user" || action == "blacklist_user" then
      Staff(user) && target.Some? && target.value.role != "admin"
    else if action == "promote_user" then
      user.value.role == "admin" && target.Some? && target.value.role != "admin"
    else if action == "view_user" then
      Staff(user)
    else false
  }

  /** The role rules for actions on someone else. */
  lemma CanPerformActionRules(user: Option<User>, action: string, target: Option<User>)
    requires target.None? || user.None? || user.value.id != target.value.id
    ensures action == "delete_user" || action == "blacklist_user" ==>
              (CanPerformAction(user, action, target) <==> Staff(user) && target.Some? && target.value.role != "admin")
    ensures action == "promote_user" ==>
              (CanPerformAction(user, action, target) <==>
                 user.Some? && user.value.role == "admin" && target.Some? && target.value.role != "admin")
    ensures action == "view_user" ==> (CanPerformAction(user, action, target) <==> Staff(user))
    ensures CanPerformAction(user, action, target) ==>
              action == "delete_user" || action == "blacklist_user" || action == "promote_user" || action == "view_user"
  {
  }

  /** Nobody may act on an admin other than themselves, except to view them. */
  lemma AdminTargetProtected(user: Option<User>, action: string, target: User)
    requires target.role == "admin"
    requires CanPerformAction(user, action, Some(target))
    ensures action == "view_user" || user.value.id == target.id
  {
  }

  class AuthStore {
    var isAuthenticated: bool
    var token: Option<string>
    var user: Option<User>
    var isLoading: bool
    var isInitializing: bool
    const storage: Storage

    constructor(storage: Storage)
      ensures this.storage == storage
      ensures !isAuthenticated && token.None? && user.None? && !isLoading && isInitializing
    {
      this.storage := storage;
      isAuthenticated := false;
      token := None;
      user := None;
      isLoading := false;
      isInitializing := true;
    }

    function IsAdmin(): bool reads this { user.Some? && user.value.role == "admin" }
    function IsModerator(): bool reads this { user.Some? && user.value.role == "mod" }
    function IsUser(): bool reads this { user.Some? && user.value.role == "user" }
    function CanManageUsers(): bool reads this { Staff(user) }
    function CanDeleteUsers(): bool reads this { Staff(user) }
    function CanPromoteUsers(): bool reads this { IsAdmin() }
    function CanBlacklistUsers(): bool reads this { Staff(user) }

    /** `user?.name || 'Unknown User'` */
    function UserName(): (r: string)
      reads this
      ensures user.None? ==> r == "Unknown User"
      ensures user.Some? && user.value.name != "" ==> r == user.value.name
      ensures r != ""
    {
      if user.Some? && user.value.name != "" then user.value.name else "Unknown User"
    }

    function UserEmail(): (r: string)
      reads this
      ensures user.None? ==> r == ""
      ensures user.Some? ==> r == user.value.email
    {
      if user.Some? then user.value.email else ""
    }

    /** `user?.id || null`: an id of 0 is falsy and reads as null too. */
    function UserId(): (r: Option<int>)
      reads this
      ensures r.Some? <==> user.Some? && user.value.id != 0
      ensures r.Some? ==> r.value == user.value.id
    {
      if user.Some? && user.value.id != 0 then Some(user.value.id) else None
    }

    function UserRole(): (r: string)
      reads this
      ensures user.None? ==> r == "guest"
      ensures user.Some? && user.value.role != "" ==> r == user.value.role
    {
      if user.Some? && user.value.role != "" then user.value.role else "guest"
    }

    predicate HasValidToken()
      reads this
    {
      TruthyStr(token)
    }

    /** The `Authorization` value of `authHeaders`; a missing token is interpolated as 'null'. */
    function AuthorizationHeader(): (r: string)
      reads this
      ensures StartsWith(r, "Bearer ")
      ensures token.Some? ==> r[7..] == token.value
      ensures token.None? ==> r[7..] == "null"
    {
      "Bearer " + (if token.Some? then token.value else "null")
    }

    /** `setAuth(authResponse)` */
    method SetAuth(response: AuthResponse)
      modifies this, storage
      ensures token == Some(response.accessToken) && user == Some(response.user) && isAuthenticated
      ensures storage.available ==>
        storage.items == old(storage.items)[TokenKey := response.accessToken][UserKey := UserJson(response.user)]
      ensures !storage.available ==> storage.items == old(storage.items)
      ensures isLoading == old(isLoading) && isInitializing == old(isInitializing)
    {
      token := Some(response.accessToken);
      user := Some(response.user);
      isAuthenticated := true;
      storage.Set(TokenKey, response.accessToken);
      storage.Set(UserKey, UserJson(response.user));
    }

    /** `clearAuth()` */
    method ClearAuth()
      modifies this, storage
      ensures token.None? && user.None? && !isAuthenticated
      ensures storage.items == if storage.available then old(storage.items) - {TokenKey, UserKey} else old(storage.items)
      ensures isLoading == old(isLoading) && isInitializing == old(isInitializing)
    {
      token := None;
      user := None;
      isAuthenticated := false;
      storage.Remove(TokenKey);
      storage.Remove(UserKey);
      assert storage.available ==> storage.items == old(storage.items) - {TokenKey} - {UserKey};
    }

    /**
     * `initializeAuth()`: restores the session when both keys are stored (and non-empty);
     * a stored user that does not parse ends in `clearAuth`; `isInitializing` ends false.
     */
    method InitializeAuth(parse: string -> Option<User>)
      modifies this, storage
      ensures !isInitializing && isLoading == old(isLoading)
      ensures
        if !(TruthyStr(old(storage.Get(TokenKey))) && TruthyStr(old(storage.Get(UserKey)))) then
          token == old(token) && user == old(user) && isAuthenticated == old(isAuthenticated)
          && storage.items == old(storage.items)
        else if parse(old(storage.items)[UserKey]).Some? then
          token == Some(old(storage.items)[TokenKey]) && user == parse(old(storage.items)[UserKey]) && isAuthenticated
          && storage.items == old(storage.items)
        else
          token.None? && user.None? && !isAuthenticated && storage.items == old(storage.items) - {TokenKey, UserKey}
    {
      isInitializing := true;
      var storedToken := storage.Get(TokenKey);
      var storedUser := storage.Get(UserKey);
      if TruthyStr(storedToken) && TruthyStr(storedUser) {
        token := storedToken;
        var parsed := parse(storedUser.value);
        if parsed.Some? {
          user := parsed;
          isAuthenticated := true;
        } else {
          ClearAuth();
        }
      }
      isInitializing := false;
    }

    /** `updateUser(userData)`: overlays the given fields and re-persists the user; no-op without a user. */
    method UpdateUser(patch: UserPatch)
      modifies this, storage
      ensures old(user).None? ==> user.None? && storage.items == old(storage.items)
      ensures old(user).Some? ==> user == Some(Overlay(old(user).value, patch))
      ensures old(user).Some? && storage.available ==> storage.items == old(storage.items)[UserKey := UserJson(user.value)]
      ensures !storage.available ==> storage.items == old(storage.items)
      ensures token == old(token) && isAuthenticated == old(isAuthenticated)
      ensures isLoading == old(isLoading) && isInitializing == old(isInitializing)
    {
      if user.Some? {
        user := Some(Overlay(user.value, patch));
        storage.Set(UserKey, UserJson(user.value));
      }
    }
  }

  /**
   * A session written by `setAuth` is restored by a later `initializeAuth` in the browser,
   * given a parser that reads back what `JSON.stringify` wrote.
   */
  method SetAuthThenInitialize(s: AuthStore, response: AuthResponse, parse: string -> Option<User>)
    requires s.storage.available && response.accessToken != ""
    requires parse(UserJson(response.user)) == Some(response.user)
    modifies s, s.storage
    ensures s.token == Some(response.accessToken) && s.user == Some(response.user) && s.isAuthenticated
    ensures !s.isInitializing
  {
    s.SetAuth(response);
    assert s.storage.items[UserKey] == UserJson(response.user);
    assert UserJson(response.user) != "";
    s.InitializeAuth(parse);
  }

  /** After `clearAuth`, `initializeAuth` finds nothing to restore and the session stays empty. */
  method ClearAuthThenInitialize(s: AuthStore, parse: string -> Option<User>)
    modifies s, s.storage
    ensures s.token.None? && s.user.None? && !s.isAuthenticated && !s.isInitializing
  {
    s.ClearAuth();
    s.InitializeAuth(parse);
  }
}
