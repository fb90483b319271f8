/** The refresh scheduler: while logged in, a periodic tick renews the
    credential when it has less than five minutes to live, and a renewal
    that fails in any way ends the session. The refresh endpoint is the
    abstract argument `response`. */
module TokenRefresh {
  import opened Js
  import opened Auth

  /** A credential is renewed when fewer than this many milliseconds remain. */
  const RefreshWindow: int := 5 * 60 * 1000

  /** What the refresh endpoint answers: a new identity, token and lifetime
      in seconds, or an error of any kind. */
  datatype RefreshResponse = Refreshed(user: Identity, token: Option<string>, expiresIn: int) | RefreshError

  /** The session after `refreshToken()`, its result, and whether the
      endpoint was called. */
  datatype RefreshResult = RefreshResult(session: Session, ok: bool, contacted: bool)

  /** The session after one scheduler tick, and whether it attempted a refresh. */
  datatype TickResult = TickResult(session: Session, attempted: bool)

  /** The window test of `checkAndRefreshToken`: strictly between now and
      five minutes from now. */
  function InRefreshWindow(expiry: int, now: int): (r: bool)
    ensures r <==> now < expiry < now + 300000
  {
    var timeUntilExpiry := expiry - now;
    timeUntilExpiry < RefreshWindow && timeUntilExpiry > 0
  }

  /** `refreshToken()` at time `now`: fail-closed renewal. */
  function Refresh(ss: Session, response: RefreshResponse, now: int): (r: RefreshResult)
    ensures r.contacted <==> Truthy(ss.store.refreshToken)
    ensures r.ok <==> r.contacted && response.Refreshed?
    ensures r.ok ==> r.session == AfterLogin(ss, response.user, response.token, Some(response.expiresIn * 1000), now)
    ensures !r.ok ==> r.session == AfterLogout(ss)
    ensures r.session.isLoggedIn <==> r.ok
    ensures r.session.store.refreshToken == ss.store.refreshToken
    ensures r.session.isLoading == ss.isLoading
  {
    if !Truthy(ss.store.refreshToken) then RefreshResult(AfterLogout(ss), false, false)
    else match response
      case Refreshed(u, token, expiresIn) =>
        RefreshResult(AfterLogin(ss, u, token, Some(expiresIn * 1000), now), true, true)
      case RefreshError =>
        RefreshResult(AfterLogout(ss), false, true)
  }

  /** One tick of the scheduler at time `now`. No interval runs while logged
      out, so a tick then does nothing. */
  function Tick(ss: Session, response: RefreshResponse, now: int): (r: TickResult)
    ensures r.attempted <==>
              ss.isLoggedIn && ss.store.tokenExpiry.Some? && now < ss.store.tokenExpiry.value < now + 300000
    ensures !r.attempted ==> r.session == ss
    ensures r.attempted ==> r.session == Refresh(ss, response, now).session
  {
    if !ss.isLoggedIn then TickResult(ss, false)
    else if ss.store.tokenExpiry.None? then TickResult(ss, false)
    else if InRefreshWindow(ss.store.tokenExpiry.value, now) then TickResult(Refresh(ss, response, now).session, true)
    else TickResult(ss, false)
  }

  /** With four minutes left a tick refreshes; with six, or at either end of
      the window, it does not. */
  lemma WindowIsStrictAtBothEnds(ss: Session, response: RefreshResponse, now: int)
    requires ss.isLoggedIn
    ensures Tick(ss.(store := ss.store.(tokenExpiry := Some(now + 4 * 60 * 1000))), response, now).attempted
    ensures !Tick(ss.(store := ss.store.(tokenExpiry := Some(now + 6 * 60 * 1000))), response, now).attempted
    ensures !Tick(ss.(store := ss.store.(tokenExpiry := Some(now + RefreshWindow))), response, now).attempted
    ensures !Tick(ss.(store := ss.store.(tokenExpiry := Some(now))), response, now).attempted
  {
  }

  /** A successful renewal installs a credential that is read back at once,
      with expiry `now + expiresIn * 1000`. */
  lemma RefreshRenewsCredential(ss: Session, u: Identity, token: Option<string>, expiresIn: int, now: int)
    requires Truthy(ss.store.refreshToken) && Truthy(token) && expiresIn >= 0
    ensures Refresh(ss, Refreshed(u, token, expiresIn), now).ok
    ensures StoredAuth(Refresh(ss, Refreshed(u, token, expiresIn), now).session.store, now)
         == Some(Credential(token.value, u, now + expiresIn * 1000))
  {
    LoginThenRead(ss, u, token, Some(expiresIn * 1000), now, now);
  }

  /** A renewal longer than the window is not renewed again by the next tick
      at the same time. */
  lemma RenewedSessionLeavesWindow(ss: Session, u: Identity, token: Option<string>, expiresIn: int, now: int, response: RefreshResponse)
    requires Truthy(ss.store.refreshToken) && expiresIn * 1000 >= RefreshWindow
    ensures !Tick(Refresh(ss, Refreshed(u, token, expiresIn), now).session, response, now).attempted
  {
  }

  /** Fail-closed: a failed renewal, or a missing refresh token, ends the
      session even when the stored credential was still live, and nothing is
      read back afterwards. */
  lemma FailedRefreshEndsSession(ss: Session, response: RefreshResponse, now: int, later: int)
    requires response.RefreshError? || !Truthy(ss.store.refreshToken)
    ensures !Refresh(ss, response, now).ok
    ensures !Refresh(ss, response, now).session.isLoggedIn
    ensures StoredAuth(Refresh(ss, response, now).session.store, later).None?
    ensures !Truthy(ss.store.refreshToken) ==> !Refresh(ss, response, now).contacted
  {
  }

  method RefreshToken(auth: AuthProvider, response: RefreshResponse, now: int) returns (ok: bool, contacted: bool)
    modifies auth
    ensures auth.Valid()
    ensures auth.State() == Refresh(old(auth.State()), response, now).session
    ensures ok == Refresh(old(auth.State()), response, now).ok
    ensures contacted == Refresh(old(auth.State()), response, now).contacted
  {
    var refreshToken := auth.store.refreshToken;
    if !Truthy(refreshToken) {
      auth.Logout();
      return false, false;
    }
    contacted := true;
    match response
    case Refreshed(u, token, expiresIn) =>
      auth.Login(u, token, Some(expiresIn * 1000), now);
      ok := true;
    case RefreshError =>
      auth.Logout();
      ok := false;
  }

  method CheckAndRefreshToken(auth: AuthProvider, response: RefreshResponse, now: int) returns (attempted: bool)
    requires auth.Valid()
    modifies auth
    ensures auth.Valid()
    ensures auth.State() == Tick(old(auth.State()), response, now).session
    ensures attempted == Tick(old(auth.State()), response, now).attempted
  {
    if !auth.isLoggedIn {
      return false;
    }
    var tokenExpiry := auth.store.tokenExpiry;
    if tokenExpiry.None? {
      return false;
    }
    var expiryTime := tokenExpiry.value;
    var timeUntilExpiry := expiryTime - now;
    attempted := timeUntilExpiry < RefreshWindow && timeUntilExpiry > 0;
    if attempted {
      var _, _ := RefreshToken(auth, response, now);
    }
  }
}
