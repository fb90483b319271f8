/** The header's sign-out: a best-effort call to the remote logout endpoint,
    then a local logout and navigation to the sign-in page on every path.
    The endpoint's answer is the abstract argument `remoteOk`. */
module Header {
  import opened Js
  import opened Auth
  import opened RouteGuard

  const LoginPath: string := "/login"

  /** `user?.userId` is truthy. */
  predicate HasUserId(user: Option<Identity>) {
    user.Some? && user.value.userId != ""
  }

  /** The session after `handleLogout`, whether the endpoint was called, and
      where the user is sent. */
  datatype SignOutResult = SignOutResult(session: Session, remoteCalled: bool, destination: string)

  /** `handleLogout()`: without a user ID, log out locally; otherwise call the
      endpoint, and on success also remove the refresh token; log out and go
      to the sign-in page in every case. */
  function SignOut(ss: Session, remoteOk: bool): (r: SignOutResult)
    ensures r.remoteCalled <==> HasUserId(ss.user)
    ensures r.destination == LoginPath
    ensures !r.session.isLoggedIn && r.session.user.None? && r.session.isLoading == ss.isLoading
    ensures !Complete(r.session.store)
    ensures r.session.store.refreshToken == if r.remoteCalled && remoteOk then None else ss.store.refreshToken
    ensures r.session == AfterLogout(ss.(store := ss.store.(refreshToken := r.session.store.refreshToken)))
  {
    if !HasUserId(ss.user) then SignOutResult(AfterLogout(ss), false, LoginPath)
    else if remoteOk then
      SignOutResult(AfterLogout(ss.(store := ss.store.(refreshToken := None))), true, LoginPath)
    else SignOutResult(AfterLogout(ss), true, LoginPath)
  }

  /** Every sign-out path leaves a session that the route guard sends to the
      sign-in page (once loaded) and that reads back no credential. */
  lemma SignOutLandsOnLogin(ss: Session, remoteOk: bool, later: int)
    requires !ss.isLoading
    ensures PrivateRoute(SignOut(ss, remoteOk).session.isLoading, SignOut(ss, remoteOk).session.isLoggedIn)
         == Redirect(LoginPath, true)
    ensures StoredAuth(SignOut(ss, remoteOk).session.store, later).None?
  {
  }

  /** The refresh token survives a sign-out unless the endpoint was called
      and succeeded; on that path, a later refresh fails closed without a
      network call. */
  lemma RefreshTokenKeptOnFailure(ss: Session, remoteOk: bool)
    ensures !HasUserId(ss.user) || !remoteOk ==>
              SignOut(ss, remoteOk).session.store.refreshToken == ss.store.refreshToken
    ensures HasUserId(ss.user) && remoteOk ==>
              !Truthy(SignOut(ss, remoteOk).session.store.refreshToken)
  {
  }

  method HandleLogout(auth: AuthProvider, remoteOk: bool) returns (destination: string, remoteCalled: bool)
    modifies auth
    ensures auth.Valid()
    ensures auth.State() == SignOut(old(auth.State()), remoteOk).session
    ensures remoteCalled == SignOut(old(auth.State()), remoteOk).remoteCalled
    ensures destination == LoginPath
  {
    if !HasUserId(auth.user) {
      auth.Logout();
      return LoginPath, false;
    }
    remoteCalled := true;
    if remoteOk {
      auth.store := auth.store.(refreshToken := None);
      auth.Logout();
      destination := LoginPath;
    } else {
      auth.Logout();
      destination := LoginPath;
    }
  }
}
