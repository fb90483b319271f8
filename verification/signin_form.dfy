/** The sign-in form: the user-ID sanitiser, the field validation rules, and
    the throttle that blocks submission after five consecutive failures until
    a five-minute timer fires. The login endpoint is the abstract argument
    `response`; the timer firing is the call `Unblock`. */
module Signin {
  import opened Js
  import opened Auth

  /** Consecutive failures that block the form. */
  const MaxAttempts: nat := 5

  predicate IsAsciiLetter(c: char) {
    ('A' <= c <= 'Z') || ('a' <= c <= 'z')
  }

  predicate IsAsciiDigit(c: char) {
    '0' <= c <= '9'
  }

  predicate IsAsciiAlnum(c: char) {
    IsAsciiLetter(c) || IsAsciiDigit(c)
  }

  /** The characters a sanitised user ID is made of: `[A-Z0-9]`. */
  predicate IsIdChar(c: char) {
    ('A' <= c <= 'Z') || IsAsciiDigit(c)
  }

  predicate AllIdChars(s: string) {
    forall i :: 0 <= i < |s| ==> IsIdChar(s[i])
  }

  /** `toUpperCase` on the ASCII letters and digits that reach it. */
  function ToUpper(c: char): (r: char)
    requires IsAsciiAlnum(c)
    ensures IsIdChar(r)
    ensures IsIdChar(c) ==> r == c
    ensures 'a' <= c <= 'z' ==> r as int == c as int - 32
  {
    if 'a' <= c <= 'z' then (c as int - 32) as char else c
  }

  /** `value.replace(/[^A-Z0-9]/gi, "").toUpperCase()`: drop every character
      that is not an ASCII letter or digit, upper-case the rest. */
  function Sanitize(s: string): (r: string)
    ensures |r| <= |s|
    ensures AllIdChars(r)
    ensures |r| == |s| <==> AllAlnum(s)
  {
    if s == [] then []
    else if IsAsciiAlnum(s[0]) then [ToUpper(s[0])] + Sanitize(s[1..])
    else Sanitize(s[1..])
  }

  /** One character: an ASCII letter or digit is kept, upper-cased; anything
      else is dropped. */
  lemma SanitizeChar(c: char)
    ensures Sanitize([c]) == if IsAsciiAlnum(c) then [ToUpper(c)] else []
  {
  }

  /** The sanitiser works character by character. */
  lemma {:induction false} SanitizeAppend(a: string, b: string)
    ensures Sanitize(a + b) == Sanitize(a) + Sanitize(b)
  {
    if a == [] {
      assert a + b == b;
    } else {
      assert (a + b)[0] == a[0];
      assert (a + b)[1..] == a[1..] + b;
      SanitizeAppend(a[1..], b);
    }
  }

  /** A string already made of `[A-Z0-9]` is left as it is. */
  lemma {:induction false} SanitizeFixesClean(s: string)
    requires AllIdChars(s)
    ensures Sanitize(s) == s
  {
    if s != [] {
      assert IsIdChar(s[0]);
      SanitizeFixesClean(s[1..]);
      assert [s[0]] + s[1..] == s;
    }
  }

  /** Sanitising twice is sanitising once. */
  lemma SanitizeIsIdempotent(s: string)
    ensures Sanitize(Sanitize(s)) == Sanitize(s)
  {
    SanitizeFixesClean(Sanitize(s));
  }

  predicate AllAlnum(s: string) {
    forall i :: 0 <= i < |s| ==> IsAsciiAlnum(s[i])
  }

  predicate HasLetter(s: string) {
    exists i :: 0 <= i < |s| && IsAsciiLetter(s[i])
  }

  predicate HasDigit(s: string) {
    exists i :: 0 <= i < |s| && IsAsciiDigit(s[i])
  }

  /** `/^(?=.*[A-Za-z])(?=.*\d)[A-Za-z\d]+$/`. */
  predicate MatchesIdPattern(s: string) {
    |s| > 0 && AllAlnum(s) && HasLetter(s) && HasDigit(s)
  }

  datatype UserIdError = UserIdRequired | UserIdTooShort | UserIdNeedsLettersAndDigits
  datatype PasswordError = PasswordRequired | PasswordTooShort

  /** The form's `errors` state; `None` is a field without an error. */
  datatype FormErrors = FormErrors(userId: Option<UserIdError>, userPassword: Option<PasswordError>, serverError: Option<string>)

  function NoErrors(): FormErrors {
    FormErrors(None, None, None)
  }

  /** The user-ID rules, the first failing one giving the message. */
  function UserIdCheck(id: string): Option<UserIdError> {
    if Blank(id) then Some(UserIdRequired)
    else if |id| < 3 then Some(UserIdTooShort)
    else if !MatchesIdPattern(id) then Some(UserIdNeedsLettersAndDigits)
    else None
  }

  /** The password rules; the length is that of the untrimmed text. */
  function PasswordCheck(pw: string): Option<PasswordError> {
    if Blank(pw) then Some(PasswordRequired)
    else if |pw| < 6 then Some(PasswordTooShort)
    else None
  }

  /** `validate()`: the errors it sets. */
  function Validate(id: string, pw: string): (r: FormErrors)
    ensures r.serverError.None?
    ensures r.userId.None? <==> |id| >= 3 && MatchesIdPattern(id)
    ensures r.userId == Some(UserIdRequired) <==> Blank(id)
    ensures r.userId == Some(UserIdTooShort) <==> !Blank(id) && |id| < 3
    ensures r.userId == Some(UserIdNeedsLettersAndDigits) <==> |id| >= 3 && !Blank(id) && !MatchesIdPattern(id)
    ensures r.userPassword.None? <==> |pw| >= 6 && !Blank(pw)
    ensures r.userPassword == Some(PasswordRequired) <==> Blank(pw)
    ensures r.userPassword == Some(PasswordTooShort) <==> !Blank(pw) && |pw| < 6
  {
    assert MatchesIdPattern(id) ==> !IsWhitespace(id[0]);
    FormErrors(UserIdCheck(id), PasswordCheck(pw), None)
  }

  /** What `validate()` returns. */
  predicate FormValid(e: FormErrors) {
    e.userId.None? && e.userPassword.None?
  }

  /** Which rule reports: a blank ID of three spaces is "required" though it
      is long enough; a two-letter ID is "too short" though it also lacks a
      digit; a long enough ID of letters only lacks a digit. */
  lemma FirstFailingRuleReports()
    ensures Validate("   ", "secret").userId == Some(UserIdRequired)
    ensures Validate("AB", "secret").userId == Some(UserIdTooShort)
    ensures Validate("ABC", "secret").userId == Some(UserIdNeedsLettersAndDigits)
    ensures Validate("AB1", "      ").userPassword == Some(PasswordRequired)
    ensures Validate("AB1", " pw  ").userPassword == Some(PasswordTooShort)
    ensures FormValid(Validate("AB1", "  pw  "))
  {
    assert !Blank("AB") by { assert !IsWhitespace("AB"[0]); }
    assert !Blank("ABC") by { assert !IsWhitespace("ABC"[0]); }
    assert !HasDigit("ABC");
    assert !Blank(" pw  ") by { assert !IsWhitespace(" pw  "[1]); }
    assert !Blank("  pw  ") by { assert !IsWhitespace("  pw  "[2]); }
    assert MatchesIdPattern("AB1") by { assert IsAsciiLetter("AB1"[0]) && IsAsciiDigit("AB1"[2]); }
  }

  /** For a sanitised ID the user-ID rules reduce to: at least three
      characters, one of them a letter and one a digit. */
  lemma SanitizedIdRules(raw: string, pw: string)
    ensures Validate(Sanitize(raw), pw).userId.None? <==>
              var s := Sanitize(raw); |s| >= 3 && HasLetter(s) && HasDigit(s)
    ensures Validate(Sanitize(raw), pw).userId == Some(UserIdRequired) <==> Sanitize(raw) == []
  {
    var s := Sanitize(raw);
    assert AllIdChars(s);
    assert AllAlnum(s);
    if s != [] {
      assert !IsWhitespace(s[0]);
    }
  }

  /** The sign-in throttle: `loginAttempts` and `isBlocked`. */
  datatype Throttle = Throttle(loginAttempts: nat, isBlocked: bool)

  /** The throttle's invariant: the form is blocked exactly at five failures. */
  predicate ThrottleInv(t: Throttle) {
    t.loginAttempts <= MaxAttempts && (t.isBlocked <==> t.loginAttempts == MaxAttempts)
  }

  /** Whether a submission reaches the server. */
  predicate Contacts(t: Throttle, formValid: bool) {
    !t.isBlocked && formValid
  }

  /** The throttle after one submission: a blocked or invalid submission
      leaves it alone, success resets it, failure counts and may block. */
  function Attempt(t: Throttle, formValid: bool, accepted: bool): (r: Throttle)
    ensures !Contacts(t, formValid) ==> r == t
    ensures Contacts(t, formValid) && accepted ==> r == Throttle(0, false)
    ensures Contacts(t, formValid) && !accepted ==>
              r.loginAttempts == t.loginAttempts + 1 && (r.isBlocked <==> r.loginAttempts >= MaxAttempts)
    ensures ThrottleInv(t) ==> ThrottleInv(r)
  {
    if t.isBlocked || !formValid then t
    else if accepted then Throttle(0, false)
    else
      var newAttempts := t.loginAttempts + 1;
      Throttle(newAttempts, t.isBlocked || newAttempts >= MaxAttempts)
  }

  /** The five-minute timer that ends a block. */
  function Unblocked(): (r: Throttle)
    ensures ThrottleInv(r) && r.loginAttempts == 0 && !r.isBlocked
  {
    Throttle(0, false)
  }

  /** `n` consecutive valid submissions that the server rejects. */
  function Failures(t: Throttle, n: nat): Throttle
    decreases n
  {
    if n == 0 then t else Failures(Attempt(t, true, false), n - 1)
  }

  function Min(a: int, b: int): int {
    if a <= b then a else b
  }

  /** From `k` failures (blocked exactly at five), `n` more rejected
      submissions leave `min(k + n, 5)` failures, blocked once five is reached. */
  lemma {:induction false} FailuresFrom(k: nat, n: nat)
    requires k <= MaxAttempts
    ensures Failures(Throttle(k, k == MaxAttempts), n) == Throttle(Min(k + n, MaxAttempts), k + n >= MaxAttempts)
    decreases n
  {
    if n > 0 {
      if k == MaxAttempts {
        FailuresFrom(k, n - 1);
      } else {
        assert Attempt(Throttle(k, false), true, false) == Throttle(k + 1, k + 1 == MaxAttempts);
        FailuresFrom(k + 1, n - 1);
      }
    }
  }

  /** Five rejected submissions from a fresh form block it; a sixth is turned
      away without contacting the server and without counting; once the timer
      fires, the next rejection counts as the first of a new round; any
      success resets the count. */
  lemma LockoutAfterFiveFailures(n: nat)
    ensures Failures(Throttle(0, false), n) == Throttle(Min(n, 5), n >= 5)
    ensures n >= 5 ==> !Contacts(Failures(Throttle(0, false), n), true)
    ensures n >= 5 ==> Attempt(Failures(Throttle(0, false), n), true, false) == Failures(Throttle(0, false), n)
    ensures Attempt(Unblocked(), true, false) == Throttle(1, false)
    ensures n < 5 ==> Attempt(Failures(Throttle(0, false), n), true, true) == Throttle(0, false)
  {
    FailuresFrom(0, n);
  }

  /** The hint under the password field: `5 - loginAttempts` attempts left,
      shown only while some but not all attempts are used. */
  function RemainingAttemptsShown(loginAttempts: int): (r: Option<int>)
    ensures r.Some? <==> 0 < loginAttempts < MaxAttempts
    ensures r.Some? ==> 1 <= r.value < MaxAttempts && r.value + loginAttempts == MaxAttempts
  {
    if loginAttempts > 0 && loginAttempts < MaxAttempts then Some(MaxAttempts - loginAttempts) else None
  }

  /** What the login endpoint answers: the identity, token, refresh token
      and lifetime in seconds (each of the last three may be missing), or an
      error of any kind. */
  datatype LoginResponse =
    | LoginAccepted(user: Identity, token: Option<string>, refreshToken: Option<string>, expiresIn: Option<int>)
    | LoginRejected

  datatype SubmitOutcome =
    | RejectedWhileBlocked
    | RejectedInvalid
    | SignedIn(destination: string)
    | SignInFailed(blocked: bool)

  /** The dashboard a signed-in user is sent to. */
  function DashboardFor(u: Identity): string {
    if u.userRole == "VENDOR" then "/vendor/products" else "/customer/products"
  }

  /** `expiresIn ? expiresIn * 1000 : undefined`. */
  function LoginLifetime(expiresIn: Option<int>): Option<int> {
    if expiresIn.Some? && expiresIn.value != 0 then Some(expiresIn.value * 1000) else None
  }

  /** The session after an accepted sign-in: the refresh token is stored
      when one came back, then `login` runs. */
  function AfterSignIn(ss: Session, response: LoginResponse, now: int): (r: Session)
    requires response.LoginAccepted?
    ensures r.isLoggedIn && r.user == Some(response.user)
    ensures r.store.refreshToken == if Truthy(response.refreshToken) then response.refreshToken else ss.store.refreshToken
    ensures r.store.tokenExpiry == Some(now + ExpiresInOrDefault(LoginLifetime(response.expiresIn)))
    ensures r.store.user == Some(Serialized(response.user))
    ensures r.isLoading == ss.isLoading
    ensures r.store.authToken == if Truthy(response.token) then response.token else ss.store.authToken
  {
    var stored := if Truthy(response.refreshToken) then ss.store.(refreshToken := response.refreshToken) else ss.store;
    AfterLogin(ss.(store := stored), response.user, response.token, LoginLifetime(response.expiresIn), now)
  }

  /** A sign-in whose answer carries a token and no lifetime is read back as
      a 24-hour credential. */
  lemma SignInWithoutLifetimeLastsADay(ss: Session, u: Identity, token: Option<string>, refreshToken: Option<string>, now: int)
    requires Truthy(token)
    ensures StoredAuth(AfterSignIn(ss, LoginAccepted(u, token, refreshToken, None), now).store, now)
         == Some(Credential(token.value, u, now + 86400000))
  {
    var stored := if Truthy(refreshToken) then ss.store.(refreshToken := refreshToken) else ss.store;
    LoginThenRead(ss.(store := stored), u, token, None, now, now);
  }

  /** A sign-in whose answer carries a token and a positive lifetime `e`, in
      seconds, is read back at once as a credential expiring `e * 1000` ms
      later. */
  lemma SignInWithLifetimeIsReadBack(ss: Session, u: Identity, token: Option<string>, refreshToken: Option<string>, e: int, now: int)
    requires Truthy(token) && e > 0
    ensures StoredAuth(AfterSignIn(ss, LoginAccepted(u, token, refreshToken, Some(e)), now).store, now)
         == Some(Credential(token.value, u, now + e * 1000))
  {
    var stored := if Truthy(refreshToken) then ss.store.(refreshToken := refreshToken) else ss.store;
    LoginThenRead(ss.(store := stored), u, token, Some(e * 1000), now, now);
  }

  /** The form's state and its submit handler. */
  class SigninForm {
    const auth: AuthProvider
    var userId: string
    var userPassword: string
    var errors: FormErrors
    var isLoading: bool
    var loginAttempts: nat
    var isBlocked: bool

    function ThrottleState(): Throttle
      reads this
    {
      Throttle(loginAttempts, isBlocked)
    }

    ghost predicate Valid()
      reads this
    {
      ThrottleInv(ThrottleState())
    }

    constructor (auth: AuthProvider)
      ensures Valid() && this.auth == auth
      ensures userId == "" && userPassword == "" && errors == NoErrors()
      ensures !isLoading && loginAttempts == 0 && !isBlocked
    {
      this.auth := auth;
      userId, userPassword := "", "";
      errors := NoErrors();
      isLoading := false;
      loginAttempts, isBlocked := 0, false;
    }

    method HandleUserIdChange(value: string)
      modifies this
      ensures userId == Sanitize(value)
      ensures errors == old(errors).(userId := None, serverError := None)
      ensures userPassword == old(userPassword) && isLoading == old(isLoading)
      ensures ThrottleState() == old(ThrottleState())
    {
      userId := Sanitize(value);
      errors := errors.(userId := None, serverError := None);
    }

    method HandlePasswordChange(value: string)
      modifies this
      ensures userPassword == value
      ensures errors == old(errors).(userPassword := None, serverError := None)
      ensures userId == old(userId) && isLoading == old(isLoading)
      ensures ThrottleState() == old(ThrottleState())
    {
      userPassword := value;
      errors := errors.(userPassword := None, serverError := None);
    }

    method HandleSubmit(response: LoginResponse, now: int) returns (outcome: SubmitOutcome)
      requires Valid()
      modifies this, auth
      ensures Valid()
      ensures userId == old(userId) && userPassword == old(userPassword)
      ensures ThrottleState() == Attempt(old(ThrottleState()), FormValid(Validate(old(userId), old(userPassword))), response.LoginAccepted?)
      ensures old(isBlocked) ==> outcome == RejectedWhileBlocked && errors == old(errors)
      ensures !old(isBlocked) ==> errors == Validate(old(userId), old(userPassword))
      ensures !Contacts(old(ThrottleState()), FormValid(Validate(old(userId), old(userPassword)))) ==>
                isLoading == old(isLoading) && auth.State() == old(auth.State())
      ensures !old(isBlocked) && !FormValid(errors) ==> outcome == RejectedInvalid
      ensures Contacts(old(ThrottleState()), FormValid(Validate(old(userId), old(userPassword)))) ==>
                && !isLoading
                && (response.LoginAccepted? ==>
                      outcome == SignedIn(DashboardFor(response.user))
                      && auth.State() == AfterSignIn(old(auth.State()), response, now))
                && (response.LoginRejected? ==>
                      outcome == SignInFailed(isBlocked) && auth.State() == old(auth.State()))
    {
      if isBlocked {
        return RejectedWhileBlocked;
      }
      errors := Validate(userId, userPassword);
      if !FormValid(errors) {
        return RejectedInvalid;
      }
      isLoading := true;
      match response {
        case LoginAccepted(user, token, refreshToken, expiresIn) =>
          loginAttempts := 0;
          isBlocked := false;
          if Truthy(refreshToken) {
            auth.store := auth.store.(refreshToken := refreshToken);
          }
          auth.Login(user, token, LoginLifetime(expiresIn), now);
          outcome := SignedIn(DashboardFor(user));
        case LoginRejected =>
          var newAttempts := loginAttempts + 1;
          loginAttempts := newAttempts;
          if newAttempts >= MaxAttempts {
            isBlocked := true;
          }
          outcome := SignInFailed(isBlocked);
      }
      isLoading := false;
    }

    /** The five-minute timer set when the form blocks. */
    method Unblock()
      modifies this
      ensures Valid()
      ensures ThrottleState() == Unblocked()
      ensures userId == old(userId) && userPassword == old(userPassword)
      ensures errors == old(errors) && isLoading == old(isLoading)
    {
      isBlocked := false;
      loginAttempts := 0;
    }
  }
}
