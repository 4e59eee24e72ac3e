/** The `moderator` route middleware: a session first, then the 'mod' or 'admin' role. */
module ModeratorGuard {
  import opened Base
  import opened Types
  import UserStore
  import AuthGuard

  const ModeratorDenied := RedirectTo("/access-denied", [("reason", "moderator-required")])

  function Decide(authenticated: bool, isModerator: bool, fullPath: string): (r: Redirect)
    ensures !authenticated ==> r == AuthGuard.LoginFor(fullPath)
    ensures authenticated && !isModerator ==> r == ModeratorDenied
    ensures authenticated && isModerator ==> r == NoRedirect
  {
    if !authenticated then AuthGuard.LoginFor(fullPath)
    else if !isModerator then ModeratorDenied
    else NoRedirect
  }

  /** The login check comes first: a signed-out visitor never sees the access-denied page. */
  lemma SignedOutNeverDenied(isModerator: bool, fullPath: string)
    ensures Decide(false, isModerator, fullPath) != ModeratorDenied
  {
  }

  /** The middleware against the user store, whose `isModerator` admits both 'mod' and 'admin'. */
  method Guard(store: UserStore.UserStore, fullPath: string) returns (r: Redirect)
    ensures !store.IsAuthenticated() ==> r == AuthGuard.LoginFor(fullPath)
    ensures store.IsAuthenticated() ==>
              (r == NoRedirect <==> store.user.value.role == "admin" || store.user.value.role == "mod")
              && (r != NoRedirect ==> r == ModeratorDenied)
  {
    r := Decide(store.IsAuthenticated(), store.IsModerator(), fullPath);
  }
}
