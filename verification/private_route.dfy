/** The route guard in front of every signed-in page: a loading indicator
    while the session is being restored, a redirect to the sign-in page when
    logged out, and the guarded page otherwise. */
module RouteGuard {
  import opened Auth

  /** What the guard renders. */
  datatype View = Spinner | Redirect(to: string, replace: bool) | Children

  /** `PrivateRoute` for the context's `isLoading` and `isLoggedIn`. */
  function PrivateRoute(isLoading: bool, isLoggedIn: bool): (v: View)
    ensures v.Spinner? <==> isLoading
    ensures v.Redirect? <==> !isLoading && !isLoggedIn
    ensures v.Children? <==> !isLoading && isLoggedIn
    ensures v.Redirect? ==> v.to == "/login" && v.replace
  {
    if isLoading then Spinner
    else if !isLoggedIn then Redirect("/login", true)
    else Children
  }

  /** Once start-up has run the guard never shows the loading indicator: it
      renders the page exactly when a stored credential was read back, and
      redirects to the sign-in page otherwise. */
  lemma GuardAfterStartup(persisted: Store, now: int)
    ensures var ss := AfterInit(Mounted(persisted), now);
            PrivateRoute(ss.isLoading, ss.isLoggedIn)
            == if StoredAuth(persisted, now).Some? then Children else Redirect("/login", true)
  {
    StartupRestoresStoredIdentity(persisted, now);
  }
}
