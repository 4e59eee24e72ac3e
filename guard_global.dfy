/**
 * The global route middleware (`auth.global.ts`): on the client it first
 * restores the session if that has not happened yet, then decides from the path
 * and the auth store's flags whether to redirect.
 */
module GlobalGuard {
  import opened Base
  import opened Types
  import AuthStore

  const ProtectedRoutes: seq<string> := ["/dashboard", "/profile", "/admin", "/users"]
  const AuthRoutes: seq<string> := ["/login", "/register"]

  /** `routes.some(route => path.startsWith(route))` */
  predicate AnyPrefix(path: string, routes: seq<string>)
  {
    exists i :: 0 <= i < |routes| && StartsWith(path, routes[i])
  }

  const Login := RedirectTo("/login", [])
  const Dashboard := RedirectTo("/dashboard", [])

  /**
   * The decision, rule by rule: a protected path without a session goes to the
   * login page; a login or register path with a session goes to the dashboard;
   * an '/admin' path without the admin role, or a '/mod' path without the 'mod'
   * role, goes to the dashboard; anything else stays.
   */
  function Decide(path: string, authenticated: bool, isAdmin: bool, isModerator: bool): (r: Redirect)
    ensures AnyPrefix(path, ProtectedRoutes) && !authenticated ==> r == Login
    ensures !(AnyPrefix(path, ProtectedRoutes) && !authenticated) && AnyPrefix(path, AuthRoutes) && authenticated ==>
              r == Dashboard
    ensures r.NoRedirect? <==>
              !(AnyPrefix(path, ProtectedRoutes) && !authenticated)
              && !(AnyPrefix(path, AuthRoutes) && authenticated)
              && !(StartsWith(path, "/admin") && !isAdmin)
              && !(StartsWith(path, "/mod") && !isModerator)
    ensures r == NoRedirect || r == Login || r == Dashboard
  {
    if AnyPrefix(path, ProtectedRoutes) && !authenticated then Login
    else if AnyPrefix(path, AuthRoutes) && authenticated then Dashboard
    else if StartsWith(path, "/admin") && !isAdmin then Dashboard
    else if StartsWith(path, "/mod") && !isModerator then Dashboard
    else NoRedirect
  }

  /** An '/admin' path: signed-out visitors go to the login page, signed-in non-admins to the dashboard. */
  lemma AdminPath(path: string, authenticated: bool, isAdmin: bool, isModerator: bool)
    requires StartsWith(path, "/admin")
    ensures !authenticated ==> Decide(path, authenticated, isAdmin, isModerator) == Login
    ensures authenticated && !isAdmin ==> Decide(path, authenticated, isAdmin, isModerator) == Dashboard
    ensures authenticated && isAdmin ==> Decide(path, authenticated, isAdmin, isModerator) == NoRedirect
  {
    assert StartsWith(path, ProtectedRoutes[2]);
    if authenticated {
      assert !AnyPrefix(path, AuthRoutes) by {
        forall i | 0 <= i < |AuthRoutes| ensures !StartsWith(path, AuthRoutes[i]) {
          assert path[1] == 'a';
        }
      }
      assert !StartsWith(path, "/mod") by { assert path[1] == 'a'; }
    }
  }

  /**
   * Prefix matching: '/usersettings' is treated as protected, so a signed-out
   * visitor is sent to the login page.
   */
  lemma PrefixCountsAsProtected(isAdmin: bool, isModerator: bool)
    ensures Decide("/usersettings", false, isAdmin, isModerator) == Login
  {
    assert StartsWith("/usersettings", ProtectedRoutes[3]);
  }

  /** `isModerator` of the auth store means exactly 'mod', so an admin on a '/mod' path is redirected. */
  lemma AdminRedirectedFromModPath(store: AuthStore.AuthStore, path: string)
    requires StartsWith(path, "/mod") && store.isAuthenticated
    requires store.user.Some? && store.user.value.role == "admin"
    ensures Decide(path, store.isAuthenticated, store.IsAdmin(), store.IsModerator()) == Dashboard
  {
    assert !AnyPrefix(path, AuthRoutes) by {
      forall i | 0 <= i < |AuthRoutes| ensures !StartsWith(path, AuthRoutes[i]) {
        assert path[1] == 'm';
      }
    }
    assert !StartsWith(path, "/admin") by { assert path[1] == 'm'; }
  }

  /**
   * The middleware: on the client, while the store is still initialising, the
   * session is restored first from the stored token and user (or cleared when the
   * user does not parse); the decision then reads the store as it is.
   */
  method Guard(store: AuthStore.AuthStore, path: string, onClient: bool, parse: string -> Option<User>)
    returns (r: Redirect)
    modifies store, store.storage
    ensures onClient && old(store.isInitializing) ==> !store.isInitializing
    ensures onClient && old(store.isInitializing) ==>
      if !(TruthyStr(old(store.storage.Get(AuthStore.TokenKey))) && TruthyStr(old(store.storage.Get(AuthStore.UserKey)))) then
        store.token == old(store.token) && store.user == old(store.user) && store.isAuthenticated == old(store.isAuthenticated)
        && store.storage.items == old(store.storage.items)
      else if parse(old(store.storage.items)[AuthStore.UserKey]).Some? then
        store.token == Some(old(store.storage.items)[AuthStore.TokenKey])
        && store.user == parse(old(store.storage.items)[AuthStore.UserKey]) && store.isAuthenticated
        && store.storage.items == old(store.storage.items)
      else
        store.token.None? && store.user.None? && !store.isAuthenticated
        && store.storage.items == old(store.storage.items) - {AuthStore.TokenKey, AuthStore.UserKey}
    ensures !(onClient && old(store.isInitializing)) ==>
              store.user == old(store.user) && store.isAuthenticated == old(store.isAuthenticated)
              && store.token == old(store.token) && store.isInitializing == old(store.isInitializing)
              && store.storage.items == old(store.storage.items)
    ensures r == Decide(path, store.isAuthenticated, store.IsAdmin(), store.IsModerator())
  {
    if onClient && store.isInitializing {
      store.InitializeAuth(parse);
    }
    r := Decide(path, store.isAuthenticated, store.IsAdmin(), store.IsModerator());
  }
}
