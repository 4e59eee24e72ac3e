/** The `admin` route middleware: a session first, then the admin role. */
module AdminGuard {
  import opened Base
  import opened Types
  import UserStore
  import AuthGuard

  const AdminDenied := RedirectTo("/access-denied", [("reason", "admin-required")])

  function Decide(authenticated: bool, isAdmin: bool, fullPath: string): (r: Redirect)
    ensures !authenticated ==> r == AuthGuard.LoginFor(fullPath)
    ensures authenticated && !isAdmin ==> r == AdminDenied
    ensures authenticated && isAdmin ==> r == NoRedirect
  {
    if !authenticated then AuthGuard.LoginFor(fullPath)
    else if !isAdmin then AdminDenied
    else NoRedirect
  }

  /** The login check comes first: a signed-out visitor never sees the access-denied page. */
  lemma SignedOutNeverDenied(isAdmin: bool, fullPath: string)
    ensures Decide(false, isAdmin, fullPath) != AdminDenied
  {
  }

  /** The middleware against the user store's getters. */
  method Guard(store: UserStore.UserStore, fullPath: string) returns (r: Redirect)
    ensures !store.IsAuthenticated() ==> r == AuthGuard.LoginFor(fullPath)
    ensures store.IsAuthenticated() ==>
              (r == NoRedirect <==> store.user.value.role == "admin")
              && (r != NoRedirect ==> r == AdminDenied)
  {
    r := Decide(store.IsAuthenticated(), store.IsAdmin(), fullPath);
  }
}
