/**
 * The `user` store: a second session store (user, token, loading flag and last
 * error) that keeps its token in step with `authApi`.
 *
 * The awaited replies of `authApi.login` and `authApi.getCurrentUser` are the
 * parameters `reply`; `Threw` stands for a rejected promise.
 */
module UserStore {
  import opened Base
  import opened Query
  import opened Types
  import opened HttpClient
  import opened BrowserStorage
  import opened AuthApi

  /** The argument of `hasRole`: one role or an array of roles. */
  datatype RoleQuery = OneRole(role: string) | AnyRole(roles: seq<string>)

  function HasRole(user: Option<User>, q: RoleQuery): (r: bool)
    ensures user.None? ==> !r
    ensures user.Some? && q.OneRole? ==> (r <==> user.value.role == q.role)
    ensures user.Some? && q.AnyRole? ==> (r <==> user.value.role in q.roles)
  {
    if user.None? then false
    else match q
      case OneRole(role) => user.value.role == role
      case AnyRole(roles) => exists i :: 0 <= i < |roles| && roles[i] == user.value.role
  }

  /** `{ success, error? }` as `login` resolves it. */
  datatype LoginResult = LoginResult(success: bool, error: Option<string>)

  class UserStore {
    var user: Option<User>
    var token: Option<string>
    var isLoading: bool
    var error: Option<string>
    const api: AuthApi

    constructor(api: AuthApi)
      ensures this.api == api
      ensures user.None? && token.None? && !isLoading && error.None?
    {
      this.api := api;
      user := None;
      token := None;
      isLoading := false;
      error := None;
    }

    /** `!!token && !!user` */
    predicate IsAuthenticated()
      reads this
    {
      TruthyStr(token) && user.Some?
    }

    function IsAdmin(): (r: bool)
      reads this
      ensures r <==> user.Some? && user.value.role == "admin"
    {
      HasRole(user, OneRole("admin"))
    }

    /** `hasRole(['admin', 'mod'])`: admins count as moderators. */
    function IsModerator(): (r: bool)
      reads this
      ensures r <==> user.Some? && (user.value.role == "admin" || user.value.role == "mod")
    {
      HasRole(user, AnyRole(["admin", "mod"]))
    }

    method SetUser(newUser: Option<User>)
      modifies this
      ensures user == newUser && token == old(token) && isLoading == old(isLoading) && error == old(error)
    {
      user := newUser;
    }

    /** `setToken(newToken)`: the store's token, and `authApi.setToken` or `authApi.logout`. */
    method SetToken(newToken: Option<string>)
      modifies this, api.client, api.storage
      ensures token == newToken && user == old(user) && isLoading == old(isLoading) && error == old(error)
      ensures TruthyStr(newToken) ==> api.client.headers == old(api.client.headers)[AuthorizationKey := "Bearer " + newToken.value]
      ensures !TruthyStr(newToken) ==> AuthorizationKey !in api.client.headers
      ensures api.storage.available && TruthyStr(newToken) ==> api.storage.items == old(api.storage.items)[TokenKey := newToken.value]
      ensures api.storage.available && !TruthyStr(newToken) ==> api.storage.items == old(api.storage.items) - {TokenKey}
      ensures !api.storage.available ==> api.storage.items == old(api.storage.items)
    {
      token := newToken;
      if TruthyStr(newToken) {
        api.SetToken(newToken);
      } else {
        api.Logout();
      }
    }

    /**
     * `login(email, password)`: a successful reply with data installs its token and user;
     * anything else leaves them and records the reply's message, 'Login failed', or the
     * thrown message. `isLoading` is false on exit.
     */
    method Login(email: string, password: string, reply: Outcome<ApiResponse<AuthResponse>>)
      returns (r: LoginResult)
      modifies this, api.client, api.storage
      ensures !isLoading
      ensures r.success <==> reply.Returned? && reply.value.success && reply.value.data.Some?
      ensures r.success ==> token == Some(reply.value.data.value.accessToken) && user == Some(reply.value.data.value.user)
      ensures r.success ==> error.None? && r.error.None?
      ensures !r.success ==> user == old(user) && token == old(token) && error.Some? && r.error == error
      ensures !r.success && reply.Returned? ==> error == Some(MessageOr(reply.value.message, "Login failed"))
      ensures reply.Threw? ==> error == Some(OrElse(Some(reply.message), "An unexpected error occurred"))
    {
      isLoading := true;
      error := None;
      if reply.Returned? && reply.value.success && reply.value.data.Some? {
        SetToken(Some(reply.value.data.value.accessToken));
        SetUser(Some(reply.value.data.value.user));
        r := LoginResult(true, None);
      } else if reply.Returned? {
        error := Some(MessageOr(reply.value.message, "Login failed"));
        r := LoginResult(false, error);
      } else {
        error := Some(OrElse(Some(reply.message), "An unexpected error occurred"));
        r := LoginResult(false, error);
      }
      isLoading := false;
    }

    /** `logout()`: no user, no token, so not authenticated. */
    method Logout()
      modifies this, api.client, api.storage
      ensures user.None? && token.None? && !IsAuthenticated()
      ensures AuthorizationKey !in api.client.headers
      ensures isLoading == old(isLoading) && error == old(error)
    {
      SetUser(None);
      SetToken(None);
    }

    /**
     * `checkAuth()`: without a token from `authApi.getToken` it returns false and changes
     * nothing; otherwise the token is installed and the current user kept on a successful
     * reply, or the session is logged out.
     */
    method CheckAuth(reply: Outcome<ApiResponse<User>>) returns (ok: bool)
      modifies this, api.client, api.storage
      ensures !TruthyStr(old(api.TokenLookup())) ==>
                !ok && user == old(user) && token == old(token) && isLoading == old(isLoading) && error == old(error)
                && api.client.headers == old(api.client.headers) && api.storage.items == old(api.storage.items)
      ensures ok <==> TruthyStr(old(api.TokenLookup())) && reply.Returned? && reply.value.success && reply.value.data.Some?
      ensures ok ==> token == old(api.TokenLookup()) && user == reply.value.data && IsAuthenticated() && !isLoading
      ensures TruthyStr(old(api.TokenLookup())) && !ok ==> user.None? && token.None? && !IsAuthenticated() && !isLoading
      ensures error == old(error)
    {
      var stored := api.GetToken();
      if !TruthyStr(stored) {
        ok := false;
        return;
      }
      SetToken(stored);
      isLoading := true;
      if reply.Returned? && reply.value.success && reply.value.data.Some? {
        SetUser(reply.value.data);
        ok := true;
      } else {
        Logout();
        ok := false;
      }
      isLoading := false;
    }
  }

  /** `response.message || default` for a message that may be any JSON value. */
  function MessageOr(m: Option<Json>, d: string): (r: string)
    ensures m.Some? && m.value.JStr? && m.value.s != "" ==> r == m.value.s
    ensures !(m.Some? && m.value.JStr? && m.value.s != "") ==> r == d
  {
    if m.Some? && m.value.JStr? && m.value.s != "" then m.value.s else d
  }
}
