# Storefront session lifecycle, modelled in Dafny

This project models the client-side session lifecycle of a React storefront,
together with the two small bounded-counter state machines in its UI handlers.

- **Credential store and session state** (`auth_context.dfy`, module `Auth`).
  Three browser-storage keys hold the credential: `user`, `authToken` and
  `tokenExpiry`. A fourth key, `refreshToken`, is written by the sign-in form.
  The in-memory flags are `isLoggedIn`, `user` and `isLoading`.
  - Storage is a `Store` value.
  - The whole observable state is a `Session` value.
  - Pure functions (`StoredAuth`, `AfterRead`, `AfterLogin`, `AfterLogout`, `AfterInit`,
    `AfterExpiryCheck`, `AuthToken`) give what each operation does.
  - Class `AuthProvider` holds the same state in fields. Each of its methods is proved
    to move `State()` exactly as the matching function does.
- **Refresh scheduler** (`token_refresh.dfy`, module `TokenRefresh`). A tick renews
  the credential when `0 < expiry - now < 300000`. The renewal fails closed.
- **Sign-in form** (`signin_form.dfy`, module `Signin`). It holds the user-ID
  sanitiser, the `validate` rules, and the `loginAttempts`/`isBlocked` throttle.
- **Sign-out** (`header.dfy`, module `Header`) and the **route guard**
  (`private_route.dfy`, module `RouteGuard`).
- **Quantity stepper and add-to-cart guards** (`product_card.dfy`, module `Product`).
- `js.dfy` (module `Js`) holds the JavaScript notions used throughout:
  - absent values (`Option`);
  - the truthiness of an optional string;
  - the white space that `trim` removes.

The clock is the argument `now`, in milliseconds.
Each timer firing is an explicit call:
- `AuthProvider.CheckTokenExpiry(now)` for the 60-second watchdog;
- `TokenRefresh.CheckAndRefreshToken` for the 60-second scheduler;
- `SigninForm.Unblock()` for the 5-minute unblock.

Each network call is an abstract outcome argument:
- `RefreshResponse` for `/auth/refresh`;
- `LoginResponse` for `/user/login`;
- `remoteOk` for `/logout/{id}`;
- `dispatchOk` for the add-to-cart dispatch.

Navigation is a returned path or a `View` value.

Some behaviours of the code are easy to miss, and the model keeps each of them:
- **Unparsable user entry.** `getStoredAuth` returns null and does not evict. The
  parse runs after the expiry test, and its error is caught
  (AuthContext.js:39, 42-45). An expired unparsable entry is therefore still
  evicted, by the expiry test. `UnparsableUserNotEvicted` proves the unexpired
  case, and `ExpiredReadEvicts` the expired one.
- **Token-less login.** `login` writes `authToken` only for a truthy token, but
  always writes `user` and `tokenExpiry` and sets `isLoggedIn`. The token and the
  expiry are therefore not always written together. A token-less login leaves the
  session logged in while the stored credential is missing, or is an older token
  (`TokenlessLoginKeepsOldToken`).
- **The refresh token survives logout.** `logout` never removes `refreshToken`.
  The header removes it only after a successful remote logout
  (`RefreshTokenKeptOnFailure`).
- **Reads can write.** `getAuthToken` and `isTokenValid` go through `getStoredAuth`,
  so they evict an expired credential. They are modelled as methods that may
  change the store.
- **No lock deadline is stored.** The throttle keeps no `lockedUntil` time. Blocking
  schedules a 5-minute timer, modelled as the `Unblock` call.
- **The watchdog reads only `tokenExpiry`.** It logs out when that key is present
  and past, even if the other keys are missing (`WatchdogFiresOnPastExpiry`).

## Model

| member | source | states |
|---|---|---|
| `Auth.StoredAuth` | src/components/common/AuthContext.js:19-46 | a credential is returned only when all three keys are truthy, equal to the stored token, user and expiry, and never past its expiry (`now <= expiry`); every complete, unexpired, parsable entry is returned |
| `Auth.AfterRead` | src/components/common/AuthContext.js:29-35 | a read changes the store exactly when the credential is complete and expired, and then removes only the three credential keys; the eviction does not change the answer of the read |
| `Auth.AfterLogin` | src/components/common/AuthContext.js:71-82 | login sets `user` and `isLoggedIn`, stores the identity and `tokenExpiry = now + expiresIn` (24 h by default), writes `authToken` only for a truthy token and otherwise keeps the previous one, and leaves `refreshToken` alone |
| `Auth.AfterLogout` | src/components/common/AuthContext.js:84-90 | logout clears `user` and `isLoggedIn` and removes the three credential keys, keeping `refreshToken` |
| `Auth.AfterInit` | src/components/common/AuthContext.js:48-56 | start-up always ends loading, stores what the read left, and takes the stored identity and logs in exactly when a credential is read back |
| `Auth.AfterExpiryCheck` | src/components/common/AuthContext.js:58-65 | a watchdog tick either changes nothing or logs out; it always logs out an expired credential and never touches a credential that would still be read back |
| `Auth.AuthToken` | src/components/common/AuthContext.js:92-95 | `getAuthToken` returns a token exactly when a credential is read back, and that token is the truthy stored `authToken` |
| `Auth.MissingKeyReadsNull` | src/components/common/AuthContext.js:19-27 | with any of the three keys missing or falsy, the read returns null and removes nothing |
| `Auth.ExpiredReadEvicts` | src/components/common/AuthContext.js:29-35 | when `now > tokenExpiry`, the read returns null and removes the three keys, and every later read, at any time, returns null |
| `Auth.ExpiryIsStrict` | src/components/common/AuthContext.js:30-41 | at `now == tokenExpiry` the stored token, user and expiry are returned and nothing is evicted |
| `Auth.UnparsableUserNotEvicted` | src/components/common/AuthContext.js:30-45 | an unexpired credential whose user entry does not parse reads as null and no key is removed |
| `Auth.ReadIsIdempotent` | src/components/common/AuthContext.js:19-46 | reading twice at the same time gives the same answer and the same store as reading once |
| `Auth.AuthTokenIffTokenValid` | src/components/common/AuthContext.js:92-100 | `getAuthToken() != null` iff `isTokenValid()`, whichever of the two is called first |
| `Auth.LoginThenRead` | src/components/common/AuthContext.js:71-82 | after a login with a truthy token, every read up to the expiry returns that token and identity with expiry `now + expiresIn`, and the default lifetime is 86,400,000 ms |
| `Auth.TokenlessLoginKeepsOldToken` | src/components/common/AuthContext.js:78-80 | a login without a truthy token still logs in and keeps the previous `authToken`; with no previous token nothing is read back |
| `Auth.LogoutIsIdempotent` | src/components/common/AuthContext.js:84-90 | logging out twice equals logging out once; afterwards nothing is read back and `refreshToken` is untouched |
| `Auth.StartupRestoresStoredIdentity` | src/components/common/AuthContext.js:48-56 | from a freshly mounted provider, start-up logs in iff a credential is read back, with that credential's identity, and always ends loading |
| `Auth.WatchdogFiresOnPastExpiry` | src/components/common/AuthContext.js:60-65 | a watchdog tick changes the session iff `tokenExpiry` is present and `now > tokenExpiry`; for an expired credential it leaves the store a read would leave |
| `Auth.AuthProvider.constructor` | src/components/common/AuthContext.js:13-16 | the provider starts logged out, with no identity and loading, over the persisted store |
| `Auth.AuthProvider.GetStoredAuth` | src/components/common/AuthContext.js:19-46 | returns `StoredAuth` of the old store and leaves the store `AfterRead` left it, nothing else changed |
| `Auth.AuthProvider.Initialize` | src/components/common/AuthContext.js:49-56 | moves the state as `AfterInit` does and keeps `isLoggedIn` tied to the identity |
| `Auth.AuthProvider.CheckTokenExpiry` | src/components/common/AuthContext.js:60-65 | moves the state as `AfterExpiryCheck` does |
| `Auth.AuthProvider.Login` | src/components/common/AuthContext.js:71-82 | moves the state as `AfterLogin` does |
| `Auth.AuthProvider.Logout` | src/components/common/AuthContext.js:84-90 | moves the state as `AfterLogout` does |
| `Auth.AuthProvider.GetAuthToken` | src/components/common/AuthContext.js:92-95 | returns `AuthToken` of the old store; may evict an expired credential |
| `Auth.AuthProvider.IsTokenValid` | src/components/common/AuthContext.js:97-100 | returns whether a credential is read back; may evict an expired credential |
| `TokenRefresh.InRefreshWindow` | src/hooks/useTokenRefresh.js:38-43 | the window test holds iff `now < expiry < now + 300000`, strict at both ends |
| `TokenRefresh.Refresh` | src/hooks/useTokenRefresh.js:8-28 | the endpoint is called iff the refresh token is truthy; success logs in with `expiresIn * 1000` and returns true; any failure logs out and returns false; the session is logged in afterwards iff the result is true; `refreshToken` is neither written nor removed |
| `TokenRefresh.Tick` | src/hooks/useTokenRefresh.js:31-50 | a tick attempts one refresh iff logged in, `tokenExpiry` is present and within the window; otherwise nothing changes |
| `TokenRefresh.WindowIsStrictAtBothEnds` | src/hooks/useTokenRefresh.js:43-45 | with 4 minutes left a tick refreshes; with 6 minutes, exactly 5 minutes or 0 left it does not |
| `TokenRefresh.RefreshRenewsCredential` | src/hooks/useTokenRefresh.js:19-22 | a successful refresh with a truthy token is read back at once with expiry `now + expiresIn * 1000` |
| `TokenRefresh.RenewedSessionLeavesWindow` | src/hooks/useTokenRefresh.js:19-22 | after a renewal of at least five minutes, a tick at the same time does not refresh again |
| `TokenRefresh.FailedRefreshEndsSession` | src/hooks/useTokenRefresh.js:10-27 | a failed refresh, or a missing refresh token, ends the session even when the old credential was live, and nothing is read back; without a refresh token the endpoint is not called |
| `TokenRefresh.RefreshToken` | src/hooks/useTokenRefresh.js:8-28 | moves the provider's state as `Refresh` does and returns its result and whether the endpoint was called |
| `TokenRefresh.CheckAndRefreshToken` | src/hooks/useTokenRefresh.js:31-46 | moves the provider's state as `Tick` does and reports whether a refresh was attempted |
| `Signin.ToUpper` | src/components/common/SigninForm.js:93-94 | upper-casing an ASCII letter or digit gives a character of `[A-Z0-9]`: a lower-case letter becomes its upper-case form (code point minus 32), and `A-Z` and `0-9` are unchanged |
| `Signin.Sanitize` | src/components/common/SigninForm.js:91-94 | the sanitised user ID contains only `A-Z` and `0-9` and is no longer than the input; it keeps the input's length exactly when every input character is an ASCII letter or digit |
| `Signin.SanitizeChar` | src/components/common/SigninForm.js:92-94 | one character is kept upper-cased when it is an ASCII letter or digit, and dropped otherwise; with `SanitizeAppend` this fixes the sanitiser on every input |
| `Signin.SanitizeAppend` | src/components/common/SigninForm.js:92-94 | sanitising works character by character: sanitising a concatenation concatenates the sanitised parts |
| `Signin.SanitizeFixesClean` | src/components/common/SigninForm.js:92-94 | a string already made of `[A-Z0-9]` is left unchanged |
| `Signin.SanitizeIsIdempotent` | src/components/common/SigninForm.js:92-94 | sanitising twice equals sanitising once |
| `Signin.Validate` | src/components/common/SigninForm.js:44-74 | `validate` always resets `serverError`; the user-ID error is absent iff the ID has at least 3 characters, all ASCII letters or digits, with a letter and a digit; the password error is absent iff the password has at least 6 characters and is not blank; the first failing rule picks the error: "required" iff the field is blank, "too short" iff it is not blank but shorter than 3 (ID) or 6 (password, untrimmed) characters, and "letters and digits" iff the ID is long enough and not blank but does not match the pattern |
| `Signin.FirstFailingRuleReports` | src/components/common/SigninForm.js:53-70 | the first failing rule sets the message: three spaces give "required", "AB" gives "too short", "ABC" gives "letters and numbers"; six spaces give "required", a 5-character password "too short" |
| `Signin.SanitizedIdRules` | src/components/common/SigninForm.js:53-62 | for a sanitised ID, validation passes iff it has at least 3 characters with a letter and a digit, and "required" is reported iff it is empty |
| `Signin.Attempt` | src/components/common/SigninForm.js:116-185 | a blocked or invalid submission leaves the counter alone; success resets it to 0 and unblocks; failure adds one and blocks at 5 or more; the invariant "blocked iff exactly 5 failures" is preserved |
| `Signin.Unblocked` | src/components/common/SigninForm.js:182-185 | the unblock timer resets the count to 0 and unblocks |
| `Signin.FailuresFrom` | src/components/common/SigninForm.js:176-185 | from `k` failures, `n` more rejected submissions leave `min(k + n, 5)` failures, blocked iff `k + n >= 5` |
| `Signin.LockoutAfterFiveFailures` | src/components/common/SigninForm.js:119-185 | five rejected submissions block the form; a sixth does not reach the server and does not count; after the unblock a rejection counts as the first; success before the block resets the count |
| `Signin.RemainingAttemptsShown` | src/components/common/SigninForm.js:388-399 | the hint is shown iff `0 < loginAttempts < 5`, and then shows `5 - loginAttempts`, between 1 and 4 |
| `Signin.AfterSignIn` | src/components/common/SigninForm.js:159-164 | an accepted sign-in stores a truthy refresh token (keeping the old one otherwise), then logs in: the identity is stored as `user` and set in the session, `authToken` is the answer's token when truthy and the previous one otherwise, loading is unchanged, and the expiry is `now + expiresIn * 1000`, or the 24-hour default when the answer has no lifetime |
| `Signin.SignInWithoutLifetimeLastsADay` | src/components/common/SigninForm.js:164 | a sign-in answer with a token and no lifetime is read back as a credential expiring 86,400,000 ms later |
| `Signin.SignInWithLifetimeIsReadBack` | src/components/common/SigninForm.js:164 | a sign-in answer with a token and a positive lifetime `e` (seconds) is read back at once as a credential expiring `e * 1000` ms later |
| `Signin.SigninForm.constructor` | src/components/common/SigninForm.js:23-42 | the form starts empty, without errors, not loading, with 0 attempts and not blocked |
| `Signin.SigninForm.HandleUserIdChange` | src/components/common/SigninForm.js:91-106 | the user ID becomes the sanitised input; the user-ID and server errors are cleared |
| `Signin.SigninForm.HandlePasswordChange` | src/components/common/SigninForm.js:76-89 | the password becomes the input; the password and server errors are cleared |
| `Signin.SigninForm.HandleSubmit` | src/components/common/SigninForm.js:116-253 | while blocked, or when `validate` fails, it returns without calling the server, without touching the session and without changing the attempts; otherwise the throttle moves as `Attempt` does, success logs in as `AfterSignIn` and goes to the role's dashboard, failure leaves the session alone, and loading ends false |
| `Signin.SigninForm.Unblock` | src/components/common/SigninForm.js:182-185 | the timer resets the throttle as `Unblocked` does and changes nothing else |
| `Header.SignOut` | src/components/common/HeaderComponent.js:16-40 | the endpoint is called iff the user has an ID; every path logs out, removes the credential keys and goes to `/login`; `refreshToken` is removed only after a successful remote call |
| `Header.SignOutLandsOnLogin` | src/components/common/HeaderComponent.js:16-40 | after any sign-out the route guard redirects to `/login` and no credential is read back |
| `Header.RefreshTokenKeptOnFailure` | src/components/common/HeaderComponent.js:18-39 | without an ID or after a remote failure the refresh token is kept; after a remote success it is gone |
| `Header.HandleLogout` | src/components/common/HeaderComponent.js:16-40 | moves the provider's state as `SignOut` does and always navigates to `/login` |
| `RouteGuard.PrivateRoute` | src/components/common/PrivateRoute.js:5-28 | exactly one outcome per pair: the loading indicator iff loading; a replacing redirect to `/login` iff not loading and logged out; the children iff not loading and logged in |
| `RouteGuard.GuardAfterStartup` | src/components/common/PrivateRoute.js:8-27 | after start-up the guard renders the page iff a stored credential was read back, and redirects to `/login` otherwise |
| `Product.Increased` | src/components/customer/ProductCard.js:72-85 | increase never exceeds the stock or `q + 1`; it gives `q + 1` when that fits and the stock otherwise |
| `Product.Decreased` | src/components/customer/ProductCard.js:87-89 | decrease is `max(0, q - 1)`: `q - 1` for a positive quantity, and 0 for a quantity of 0 or less |
| `Product.Entered` | src/components/customer/ProductCard.js:91-104 | typed entry is never negative and never above a non-negative stock; an in-range value is kept; a value above the stock gives the stock (or 0); non-numeric text counts as 0 |
| `Product.RunStaysInStock` | src/components/customer/ProductCard.js:24-104 | with a non-negative stock, any sequence of increases, decreases and typed entries from a quantity in `[0, stock]` stays in `[0, stock]` |
| `Product.AddRejection` | src/components/customer/ProductCard.js:33-50 | the add is let through iff `0 < quantity <= stock`; a non-positive quantity is reported first, as `SelectPositiveQuantity`; a positive quantity above the stock is reported as `OnlyInStock(stock)` |
| `Product.EnabledAddPassesGuards` | src/components/customer/ProductCard.js:122-123 | an enabled add button always passes both guards; a valid quantity implies the product is in stock; the button is enabled iff the quantity is valid and nothing is loading |
| `Product.EnabledIncreaseAddsOne` | src/components/customer/ProductCard.js:274-276 | when the increase button is enabled it adds exactly one and does not warn |
| `Product.ProductCard.constructor` | src/components/customer/ProductCard.js:22-31 | the card starts at quantity 0, not loading, without a notification |
| `Product.ProductCard.IncreaseQuantity` | src/components/customer/ProductCard.js:72-85 | the quantity becomes `Increased` of the old one; it warns iff `q + 1 > stock`; the stock bound is kept |
| `Product.ProductCard.DecreaseQuantity` | src/components/customer/ProductCard.js:87-89 | the quantity becomes `Decreased` of the old one; the stock bound is kept |
| `Product.ProductCard.HandleQuantityChange` | src/components/customer/ProductCard.js:91-104 | the quantity becomes `Entered` of the input; it warns iff the value exceeds the stock; the stock bound is kept |
| `Product.ProductCard.HandleAddToCart` | src/components/customer/ProductCard.js:33-70 | it dispatches iff `0 < quantity <= stock`, otherwise it raises the guard's notice and changes nothing else; a successful add resets the quantity to 0; a failed add keeps it; loading ends false |

## Left out

- JSX, MUI layout and styling, and the wording of every notification. Notifications
  are modelled only as the kind of notice raised, for the product card.
- The sign-in failure branch's choice of message, and its `errors` updates
  (SigninForm.js:175-248). In the model the failure path leaves `errors` as
  `validate` set them. The code updates `errors` as follows:
  - the failure that reaches five attempts returns before any update;
  - a timeout (`ECONNABORTED`) leaves `errors` untouched;
  - a 401 sets `serverError`;
  - a 429 leaves `errors` untouched;
  - any other response with a body spreads the server's fields into `errors` and
    clears `serverError`;
  - a response without a body leaves `errors` untouched;
  - no response at all sets `serverError`;
  - an unexpected error leaves `errors` untouched.
- The endpoint calls (`/user/login`, `/auth/refresh`, `/logout/{id}`) and the cart
  dispatch. Each is an abstract outcome argument.
- `setInterval`, `setTimeout` and effect wiring. Each timer firing is an explicit call,
  and the clock is an integer argument. The 1.5-second delay before navigating after
  sign-in is not modelled; the destination is returned at once.
- JSON parsing and `parseInt`. The stored user is an opaque `Identity` or
  `Unparsable`, and the expiry is an integer. A NaN expiry, from a non-numeric entry
  or a missing `expiresIn` in a refresh answer, is not modelled.
- An empty string stored under `user` is modelled as an absent key. Both make
  `getStoredAuth` return null without evicting.
- JavaScript numbers are doubles; the model's integers are unbounded.
- Strings are sequences of Unicode characters. JavaScript lengths count UTF-16 code
  units, so the length rules differ for characters outside the Basic Multilingual
  Plane.
- Identities that are `null` or `undefined`, and the errors they would raise in the
  sign-in success path. An identity is always a record here; a missing `userId` is
  the empty string.
- Concurrency is out of scope: stale `useCallback` closures, and a refresh that
  completes after logout. The model is sequential, so each refresh completes within
  its tick.
- Header.HandleLogout: calls `logout` once on every path, which the contract cannot
  distinguish from calling it twice, since logout is idempotent.
- The `useAuth` outside-provider error, console logging, and price and date
  formatting.
- The password visibility toggle, the image-error flag and the closing of
  notifications. These are view state only.
