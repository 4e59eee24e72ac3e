/** The `auth` route middleware: routes that ask for a session send signed-out visitors to log in. */
module AuthGuard {
  import opened Base
  import UserStore

  /** `navigateTo({ path: '/login', query: { redirect: fullPath } })` */
  function LoginFor(fullPath: string): Redirect
  {
    RedirectTo("/login", [("redirect", fullPath)])
  }

  /** The decision for a route whose `requiresAuth` meta is truthy or not. */
  function Decide(requiresAuth: bool, authenticated: bool, fullPath: string): (r: Redirect)
    ensures !requiresAuth ==> r == NoRedirect
    ensures requiresAuth && !authenticated ==> r == LoginFor(fullPath)
    ensures requiresAuth && authenticated ==> r == NoRedirect
  {
    if !requiresAuth then NoRedirect
    else if !authenticated then LoginFor(fullPath)
    else NoRedirect
  }

  /** The middleware reads the user store's `isAuthenticated`: both a token and a user. */
  method Guard(store: UserStore.UserStore, requiresAuth: bool, fullPath: string) returns (r: Redirect)
    ensures r.RedirectTo? <==> requiresAuth && !(TruthyStr(store.token) && store.user.Some?)
    ensures r.RedirectTo? ==> r == LoginFor(fullPath)
  {
    if !requiresAuth {
      return NoRedirect;
    }
    r := Decide(requiresAuth, store.IsAuthenticated(), fullPath);
  }

  /** The login redirect always brings the visitor back to where they were going. */
  lemma RedirectKeepsPath(authenticated: bool, fullPath: string)
    requires Decide(true, authenticated, fullPath).RedirectTo?
    ensures Decide(true, authenticated, fullPath).query == [("redirect", fullPath)]
  {
  }
}
