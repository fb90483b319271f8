/** The authentication context: the credential kept in browser storage under
    the keys `user`, `authToken` and `tokenExpiry` (beside the `refreshToken`
    key that the sign-in form writes), and the in-memory session flags
    `isLoggedIn`, `user` and `isLoading`. The clock is the argument `now`,
    in milliseconds since the epoch. */
module Auth {
  import opened Js

  /** Lifetime `login` gives a credential when the caller passes none: 24 hours. */
  const DefaultExpiresIn: int := 24 * 60 * 60 * 1000

  /** The identity record the server returns, reduced to the fields the
      session code reads. An absent `userId` is the empty string. */
  datatype Identity = Identity(userId: string, userRole: string)

  /** The text stored under `user`: the serialization of an identity, or text
      that does not parse as one. */
  datatype UserBlob = Serialized(user: Identity) | Unparsable

  /** The storage entries the session code reads and writes; `None` is an
      absent key. Expiry is an absolute time in milliseconds. */
  datatype Store = Store(
    user: Option<UserBlob>,
    authToken: Option<string>,
    tokenExpiry: Option<int>,
    refreshToken: Option<string>)

  /** What a successful read of the stored credential yields. */
  datatype Credential = Credential(token: string, user: Identity, expiry: int)

  /** The whole observable state of the context: the in-memory flags and storage. */
  datatype Session = Session(isLoggedIn: bool, user: Option<Identity>, isLoading: bool, store: Store)

  /** The state at mount, over whatever an earlier visit left in storage. */
  function Mounted(persisted: Store): Session {
    Session(false, None, true, persisted)
  }

  /** All three credential keys hold truthy values. */
  predicate Complete(s: Store) {
    Truthy(s.authToken) && s.user.Some? && s.tokenExpiry.Some?
  }

  /** A complete credential whose expiry lies strictly before `now`. */
  predicate ExpiredAt(s: Store, now: int) {
    Complete(s) && now > s.tokenExpiry.value
  }

  /** The store with the three credential keys removed. */
  function Cleared(s: Store): (r: Store)
    ensures r.user.None? && r.authToken.None? && r.tokenExpiry.None?
    ensures r.refreshToken == s.refreshToken
    ensures !Complete(r)
  {
    s.(user := None, authToken := None, tokenExpiry := None)
  }

  /** The answer of `getStoredAuth` at time `now`. */
  function StoredAuth(s: Store, now: int): (r: Option<Credential>)
    ensures r.Some? ==> Complete(s)
    ensures r.Some? ==>
              && s.authToken == Some(r.value.token)
              && s.user == Some(Serialized(r.value.user))
              && s.tokenExpiry == Some(r.value.expiry)
    ensures r.Some? ==> now <= r.value.expiry
    ensures Complete(s) && !ExpiredAt(s, now) && s.user.value.Serialized? ==> r.Some?
  {
    if !Complete(s) then None
    else if now > s.tokenExpiry.value then None
    else match s.user.value
      case Serialized(u) => Some(Credential(s.authToken.value, u, s.tokenExpiry.value))
      case Unparsable => None
  }

  /** The store after `getStoredAuth` has run at time `now`: an expired
      credential is evicted, anything else is left as it is. */
  function AfterRead(s: Store, now: int): (r: Store)
    ensures r == s || r == Cleared(s)
    ensures r != s <==> ExpiredAt(s, now)
    ensures r.refreshToken == s.refreshToken
    ensures StoredAuth(r, now) == StoredAuth(s, now)
  {
    if ExpiredAt(s, now) then Cleared(s) else s
  }

  /** The lifetime `login` applies: the one given, or 24 hours when the
      argument is left out. */
  function ExpiresInOrDefault(expiresIn: Option<int>): int {
    if expiresIn.Some? then expiresIn.value else DefaultExpiresIn
  }

  /** `login(u, token, expiresIn)` at time `now`. */
  function AfterLogin(ss: Session, u: Identity, token: Option<string>, expiresIn: Option<int>, now: int): (r: Session)
    ensures r.isLoggedIn && r.user == Some(u) && r.isLoading == ss.isLoading
    ensures r.store.user == Some(Serialized(u))
    ensures r.store.tokenExpiry == Some(now + ExpiresInOrDefault(expiresIn))
    ensures Truthy(token) ==> r.store.authToken == token
    ensures !Truthy(token) ==> r.store.authToken == ss.store.authToken
    ensures r.store.refreshToken == ss.store.refreshToken
  {
    var stored := ss.store.(user := Some(Serialized(u)));
    var stored := if Truthy(token) then stored.(authToken := token) else stored;
    Session(true, Some(u), ss.isLoading, stored.(tokenExpiry := Some(now + ExpiresInOrDefault(expiresIn))))
  }

  /** `logout()`. */
  function AfterLogout(ss: Session): (r: Session)
    ensures !r.isLoggedIn && r.user.None? && r.isLoading == ss.isLoading
    ensures r.store == Cleared(ss.store)
  {
    Session(false, None, ss.isLoading, Cleared(ss.store))
  }

  /** The start-up effect: restore the session from storage, then stop loading. */
  function AfterInit(ss: Session, now: int): (r: Session)
    ensures !r.isLoading
    ensures r.store == AfterRead(ss.store, now)
    ensures StoredAuth(ss.store, now).Some? ==>
              r.isLoggedIn && r.user == Some(StoredAuth(ss.store, now).value.user)
    ensures StoredAuth(ss.store, now).None? ==>
              r.isLoggedIn == ss.isLoggedIn && r.user == ss.user
  {
    var cred := StoredAuth(ss.store, now);
    var stored := AfterRead(ss.store, now);
    if cred.Some? then Session(true, Some(cred.value.user), false, stored)
    else ss.(isLoading := false, store := stored)
  }

  /** One tick of the expiry watchdog, which looks at `tokenExpiry` alone. */
  function AfterExpiryCheck(ss: Session, now: int): (r: Session)
    ensures r == ss || r == AfterLogout(ss)
    ensures ExpiredAt(ss.store, now) ==> r == AfterLogout(ss)
    ensures StoredAuth(ss.store, now).Some? ==> r == ss
  {
    if ss.store.tokenExpiry.Some? && now > ss.store.tokenExpiry.value then AfterLogout(ss) else ss
  }

  /** The answer of `getAuthToken` at time `now`. */
  function AuthToken(s: Store, now: int): (r: Option<string>)
    ensures r.Some? <==> StoredAuth(s, now).Some?
    ensures r.Some? ==> Truthy(r) && s.authToken == r
  {
    match StoredAuth(s, now)
    case Some(cred) => Some(cred.token)
    case None => None
  }

  /** Missing keys: `getStoredAuth` answers null and removes nothing, even
      when the remaining keys describe an expired credential. */
  lemma MissingKeyReadsNull(s: Store, now: int)
    requires !Truthy(s.authToken) || s.user.None? || s.tokenExpiry.None?
    ensures StoredAuth(s, now).None? && AfterRead(s, now) == s
  {
  }

  /** Lazy expiry: an expired credential is evicted on read, and every later
      read, at any time, answers null. */
  lemma ExpiredReadEvicts(s: Store, now: int, later: int)
    requires ExpiredAt(s, now)
    ensures StoredAuth(s, now).None?
    ensures AfterRead(s, now) == Cleared(s)
    ensures StoredAuth(AfterRead(s, now), later).None?
    ensures AfterRead(AfterRead(s, now), later) == AfterRead(s, now)
  {
  }

  /** Expiry is strict: at `now == tokenExpiry` the stored values come back. */
  lemma ExpiryIsStrict(s: Store, u: Identity)
    requires Complete(s) && s.user == Some(Serialized(u))
    ensures StoredAuth(s, s.tokenExpiry.value)
         == Some(Credential(s.authToken.value, u, s.tokenExpiry.value))
    ensures AfterRead(s, s.tokenExpiry.value) == s
  {
  }

  /** A user entry that does not parse makes the read answer null, but
      since parsing happens after the expiry test nothing is evicted. */
  lemma UnparsableUserNotEvicted(s: Store, now: int)
    requires Complete(s) && s.user == Some(Unparsable) && now <= s.tokenExpiry.value
    ensures StoredAuth(s, now).None? && AfterRead(s, now) == s
  {
  }

  /** Reading twice at the same time gives the same answer and store. */
  lemma ReadIsIdempotent(s: Store, now: int)
    ensures StoredAuth(AfterRead(s, now), now) == StoredAuth(s, now)
    ensures AfterRead(AfterRead(s, now), now) == AfterRead(s, now)
  {
  }

  /** `getAuthToken() != null` iff `isTokenValid()`, in either order of the
      two calls (the first may evict before the second reads). */
  lemma AuthTokenIffTokenValid(s: Store, now: int)
    ensures AuthToken(s, now).Some? <==> StoredAuth(s, now).Some?
    ensures AuthToken(s, now).Some? <==> StoredAuth(AfterRead(s, now), now).Some?
    ensures AuthToken(AfterRead(s, now), now).Some? <==> StoredAuth(s, now).Some?
  {
  }

  /** A login with a token is read back until its expiry, with the expiry
      `now + expiresIn` and the default of 24 hours. */
  lemma LoginThenRead(ss: Session, u: Identity, token: Option<string>, expiresIn: Option<int>, now: int, later: int)
    requires Truthy(token)
    requires later <= now + ExpiresInOrDefault(expiresIn)
    ensures StoredAuth(AfterLogin(ss, u, token, expiresIn, now).store, later)
         == Some(Credential(token.value, u, now + ExpiresInOrDefault(expiresIn)))
    ensures expiresIn.None? ==>
              StoredAuth(AfterLogin(ss, u, token, expiresIn, now).store, later).value.expiry
              == now + 86400000
  {
  }

  /** A login without a token still logs in, but the credential read back is
      whatever token was stored before: none at all when there was none. */
  lemma TokenlessLoginKeepsOldToken(ss: Session, u: Identity, token: Option<string>, expiresIn: Option<int>, now: int, later: int)
    requires !Truthy(token)
    ensures AfterLogin(ss, u, token, expiresIn, now).isLoggedIn
    ensures AfterLogin(ss, u, token, expiresIn, now).store.authToken == ss.store.authToken
    ensures !Truthy(ss.store.authToken) ==>
              StoredAuth(AfterLogin(ss, u, token, expiresIn, now).store, later).None?
  {
  }

  /** Logging out twice is the same as logging out once, and afterwards
      nothing is read back, whatever the time. */
  lemma LogoutIsIdempotent(ss: Session, later: int)
    ensures AfterLogout(AfterLogout(ss)) == AfterLogout(ss)
    ensures StoredAuth(AfterLogout(ss).store, later).None?
    ensures AfterLogout(ss).store.refreshToken == ss.store.refreshToken
  {
  }

  /** Start-up over persisted storage logs in exactly when a credential is
      read back, with its identity, and always stops loading. */
  lemma StartupRestoresStoredIdentity(persisted: Store, now: int)
    ensures AfterInit(Mounted(persisted), now).isLoggedIn <==> StoredAuth(persisted, now).Some?
    ensures StoredAuth(persisted, now).Some? ==>
              AfterInit(Mounted(persisted), now).user == Some(StoredAuth(persisted, now).value.user)
    ensures StoredAuth(persisted, now).None? ==> AfterInit(Mounted(persisted), now).user.None?
    ensures !AfterInit(Mounted(persisted), now).isLoading
  {
  }

  /** The watchdog acts exactly when `tokenExpiry` is present and past, even
      when the other keys are missing; it then clears what a read would. */
  lemma WatchdogFiresOnPastExpiry(ss: Session, now: int)
    ensures AfterExpiryCheck(ss, now) != ss <==>
              (ss.store.tokenExpiry.Some? && now > ss.store.tokenExpiry.value)
    ensures ExpiredAt(ss.store, now) ==> AfterExpiryCheck(ss, now).store == AfterRead(ss.store, now)
  {
  }

  /** The in-memory session, whose start-up, login, logout and watchdog
      update `isLoggedIn`, `user` and `isLoading` and write browser storage. */
  class AuthProvider {
    var isLoggedIn: bool
    var user: Option<Identity>
    var isLoading: bool
    var store: Store

    function State(): Session
      reads this
    {
      Session(isLoggedIn, user, isLoading, store)
    }

    /** The logged-in flag and the identity are set and cleared together. */
    ghost predicate Valid()
      reads this
    {
      isLoggedIn == user.Some?
    }

    constructor (persisted: Store)
      ensures Valid() && State() == Mounted(persisted)
    {
      isLoggedIn, user, isLoading := false, None, true;
      store := persisted;
    }

    method GetStoredAuth(now: int) returns (r: Option<Credential>)
      modifies this
      ensures r == StoredAuth(old(store), now)
      ensures State() == old(State()).(store := AfterRead(old(store), now))
    {
      var token := store.authToken;
      var userData := store.user;
      var tokenExpiry := store.tokenExpiry;
      if !Truthy(token) || userData.None? || tokenExpiry.None? {
        return None;
      }
      if now > tokenExpiry.value {
        store := store.(authToken := None);
        store := store.(user := None);
        store := store.(tokenExpiry := None);
        return None;
      }
      match userData.value
      case Serialized(u) =>
        r := Some(Credential(token.value, u, tokenExpiry.value));
      case Unparsable =>
        r := None;
    }

    method Initialize(now: int)
      requires Valid()
      modifies this
      ensures Valid() && State() == AfterInit(old(State()), now)
    {
      var storedAuth := GetStoredAuth(now);
      if storedAuth.Some? {
        user := Some(storedAuth.value.user);
        isLoggedIn := true;
      }
      isLoading := false;
    }

    method CheckTokenExpiry(now: int)
      requires Valid()
      modifies this
      ensures Valid() && State() == AfterExpiryCheck(old(State()), now)
    {
      var tokenExpiry := store.tokenExpiry;
      if tokenExpiry.Some? && now > tokenExpiry.value {
        Logout();
      }
    }

    method Login(u: Identity, token: Option<string>, expiresIn: Option<int>, now: int)
      modifies this
      ensures Valid() && State() == AfterLogin(old(State()), u, token, expiresIn, now)
    {
      var expiry := now + ExpiresInOrDefault(expiresIn);
      user := Some(u);
      isLoggedIn := true;
      store := store.(user := Some(Serialized(u)));
      if Truthy(token) {
        store := store.(authToken := token);
      }
      store := store.(tokenExpiry := Some(expiry));
    }

    method Logout()
      modifies this
      ensures Valid() && State() == AfterLogout(old(State()))
    {
      user := None;
      isLoggedIn := false;
      store := store.(user := None);
      store := store.(authToken := None);
      store := store.(tokenExpiry := None);
    }

    method GetAuthToken(now: int) returns (t: Option<string>)
      modifies this
      ensures t == AuthToken(old(store), now)
      ensures State() == old(State()).(store := AfterRead(old(store), now))
    {
      var storedAuth := GetStoredAuth(now);
      t := if storedAuth.Some? && storedAuth.value.token != "" then Some(storedAuth.value.token) else None;
    }

    method IsTokenValid(now: int) returns (b: bool)
      modifies this
      ensures b == StoredAuth(old(store), now).Some?
      ensures State() == old(State()).(store := AfterRead(old(store), now))
    {
      var storedAuth := GetStoredAuth(now);
      b := storedAuth.Some?;
    }
  }
}
