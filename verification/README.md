# TeamBoard client authentication, modelled in Dafny

This project models the client-side authentication core of the TeamBoard
web frontend:

- The `AuthStateManager` singleton. It has:
  - a state store (`updateState`);
  - a five-minute cache of the authentication marker and the user record, kept in session and local storage;
  - an advisory initialization lock with a five-second timeout;
  - per-name abort controllers;
  - the orchestrations `initialize`, `validateAuthentication`, `login`, `logout` and `handleGoogleAuthSession`.
- How the auth service turns HTTP outcomes into `{success, user, message, errors}` results.
- The HTTP wrapper's status and error classification, its CSRF header rule and cookie parsing, and its query-string rule.
- The reset-password and forgot-password pages' validation and submit logic.
- The route guard's decision.
- The navigation bar's initials.

Modules and files:

| file | module | what it holds |
|---|---|---|
| `optional.dfy` | `Optional` | `Option` |
| `strings.dfy` | `Strings` | JavaScript `indexOf`, `includes` and `split` on a non-empty separator; number formatting |
| `json.dfy` | `Json` | JSON values, truthiness, `||` and `String(x)` |
| `api.dfy` | `Api` | the HTTP wrapper |
| `auth_service.dfy` | `AuthService` | result shaping |
| `store.dfy` | `Store` | the manager record, `updateState`, the set-state helpers, `handleError` |
| `cache.dfy` | `Cache` | `loadCachedState`, `shouldValidateAuth` |
| `lock.dfy` | `Lock` | the lock helpers |
| `requests.dfy` | `Requests` | the abort-controller table |
| `coordinator.dfy` | `Coordinator` | the orchestrations |
| `scenarios.dfy` | `Scenarios` | interleavings |
| `forms.dfy`, `reset_password.dfy`, `forgot_password.dfy` | `Forms`, `ResetPasswordPage`, `ForgotPasswordPage` | the pages |
| `protected_route.dfy`, `navbar.dfy` | `ProtectedRoute`, `Navbar` | the components |

How the model represents the runtime:

- **Storage.** Browser storage is a `map<Key, Entry>` of parsed records. A `Corrupt` entry stands for text that `JSON.parse` rejects. A record of the wrong shape reads the way JavaScript reads it: a missing field is `undefined`, and a missing timestamp compares as `NaN`.
- **Time.** The clock is a parameter `now`, read once per synchronous step.
- **Async operations.** Each one is split at its awaited network call into a start step and a completion step. The completion step takes what the call settled to (`Settled`: a returned value or a thrown `JsError`). Other steps may run in between; `Scenarios.Run` interleaves them freely.
- **Abort controllers.** A controller is a handle number. Aborting adds it to the `aborted` set, which is what `signal.aborted` reads.

The model follows the code as written, including these behaviours:

- **Any failed validation logs out.** `validateAuthentication` signs the user out on any unsuccessful result, and `getCurrentUser` never throws. So a network failure or a server error logs the user out. The comment at `AuthStateManager.js:114-115` says only session expiry should do this. The model follows the code: `Scenarios.NetworkFailureLogsOut`.
- **A late `finally` deletes the wrong controller.** A superseded request's `finally` deletes whatever controller is registered under its name, even its successor's: `Scenarios.SupersededFinallyOrphansSuccessor`.
- **The waiting path still releases the lock.** After `initialize` waits for another initializer, its `finally` still runs. It removes the lock record, even one the other initializer still holds: `Coordinator.InitializeAfterWait`.
- **A new tab can be authenticated without a user.** Local storage carries the marker into a new tab but the user cache lives in session storage. So `initialize` ends authenticated with a null user, and the cache hit's stamp means no validation fetches the user: `Scenarios.NewTabAuthenticatedWithoutUser`.
- **A cold start never validates.** A cache hit's own `updateState` stamps `last_auth_check` with the current time: `Scenarios.ColdStartNeverValidates`.
- **The Google retry loop never retries.** `validateAuthentication` catches everything, so the loop in `handleGoogleAuthSession` stops after the first attempt and reports success: `Coordinator.GoogleSessionViaValidation`.

## Model

| member | source | states |
|---|---|---|
| Store.UpdateState | src/User/services/AuthStateManager.js:376-384 | every field named in the patch takes the patch's value and every other field keeps its value; observers are notified exactly once; `last_auth_check` is written with the current time iff the patch carries `isAuthenticated`; storage is otherwise untouched |
| Store.MergeThen | src/User/services/AuthStateManager.js:377 | merging one patch and then a second gives the same state as one merge of the patch in which every key the second patch carries overrides the first. |
| Store.MergeIdempotent | src/User/services/AuthStateManager.js:377 | applying the same patch twice is applying it once |
| Store.SetAuthenticatedState | src/User/services/AuthStateManager.js:191-211 | the state becomes authenticated with the given user and no error; `last_auth_check` is stamped with the current time; the `{isAuthenticated, authType: 'session', timestamp}` marker goes to both stores and the user cache to session storage; the controllers are untouched and observers are notified once |
| Store.SetUnauthenticatedState | src/User/services/AuthStateManager.js:216-227 | user null, not authenticated, no error; the marker leaves both stores and the user cache leaves session storage |
| Store.HandleError | src/User/services/AuthStateManager.js:405-411 | the error becomes the exception's message or, when that is empty, the context; loading stops; nothing else changes |
| Cache.ConsultedMarker | src/User/services/AuthStateManager.js:270-273 | the marker read is session storage's when present, otherwise local storage's, and none only when neither holds one |
| Cache.LoadCachedState | src/User/services/AuthStateManager.js:268-298 | a missing, unauthenticated, expired or unparseable marker changes nothing, and so does an unparseable user cache; a fresh authenticated marker makes the state authenticated, with the cached user when that record is fresh as well and null otherwise |
| Cache.ShouldValidateAuth | src/User/services/AuthStateManager.js:303-314 | never for an unauthenticated state; always when `last_auth_check` is missing; otherwise exactly when the last check is more than five minutes old (an unparseable stamp never triggers it) |
| Cache.PersistThenLoad | src/User/services/AuthStateManager.js:191-211 | what `setAuthenticatedState` persists is served back by `loadCachedState` exactly while it is younger than five minutes, and is ignored afterwards |
| Cache.ClearThenLoad | src/User/services/AuthStateManager.js:216-227 | after `setUnauthenticatedState`, `loadCachedState` finds nothing to load |
| Cache.UpdateDefersValidation | src/User/services/AuthStateManager.js:381-383 | right after any update that carries `isAuthenticated`, no validation is due |
| Cache.CacheHitDefersValidation | src/User/services/AuthStateManager.js:290-293 | a cache hit authenticates and, by its own update's timestamp, leaves nothing to validate |
| Lock.GetLock | src/User/services/AuthStateManager.js:319-322 | no record reads as no lock; an unparseable record reads as a `SyntaxError` carrying the parse error's message; otherwise the record's timestamp, if it has one |
| Lock.SetLock | src/User/services/AuthStateManager.js:324-329 | the lock record now carries the given timestamp and id |
| Lock.ReleaseLock | src/User/services/AuthStateManager.js:331-333 | the lock record is gone, whoever wrote it |
| Lock.LockExpires | src/User/services/AuthStateManager.js:60 | a lock taken at `t0` blocks another initializer exactly while `t < t0 + 5000` |
| Lock.ReleasedLockIsFree | src/User/services/AuthStateManager.js:331-333 | a released lock blocks nobody |
| Requests.CancelRequest | src/User/services/AuthStateManager.js:360-366 | the named controller, if registered, is aborted and unregistered; otherwise nothing changes; the table stays well formed |
| Requests.CancelAllRequests | src/User/services/AuthStateManager.js:368-371 | every registered controller is aborted and the table emptied |
| Requests.BeginRequest | src/User/services/AuthStateManager.js:93-97 | the earlier controller under the name is aborted and a fresh, live controller takes its place; the other name's controller is untouched |
| Requests.FinishRequest | src/User/services/AuthStateManager.js:122 | whatever controller the name holds is unregistered, not necessarily the caller's own |
| Coordinator.ValidateBegin | src/User/services/AuthStateManager.js:88-99 | any earlier validation is aborted; a fresh live controller is registered; loading starts with no error; storage and the login controller are untouched |
| Coordinator.ValidateComplete | src/User/services/AuthStateManager.js:100-124 | a result for an aborted controller changes neither user nor authentication nor storage; success authenticates with `result.user` and persists it; any unsuccessful result signs out; an AbortError changes nothing; a thrown "Session expired" signs out; any other exception records its message; afterwards nothing is loading and no validation controller is registered |
| Coordinator.LoginBegin | src/User/services/AuthStateManager.js:130-138 | any earlier login is aborted; a fresh live controller is registered; loading starts with no error |
| Coordinator.LoginComplete | src/User/services/AuthStateManager.js:139-163 | a failed result is returned unchanged and its message becomes the error, with user and authentication untouched; success authenticates and returns `{success: true, message}`; an aborted login returns `{success: false, message: 'Request cancelled'}`; an exception records and returns its message or 'Login failed'; loading ends false |
| Coordinator.LogoutBegin | src/User/services/AuthStateManager.js:168-173 | every controller is aborted, the table is emptied and loading starts |
| Coordinator.LogoutComplete | src/User/services/AuthStateManager.js:174-186 | whatever the service call did: signed out, persisted records removed, not loading, `{success: true}` |
| Coordinator.InitFinally | src/User/services/AuthStateManager.js:79-82 | no lock record, initialized, not loading; nothing else changes |
| Coordinator.InitializeBegin | src/User/services/AuthStateManager.js:52-83 | a lock younger than five seconds means wait without validating; an unparseable lock records the parse error's message (or "Initialization failed" when that message is empty) and finishes; otherwise the lock is taken, the cache loaded, and a validation started exactly when `shouldValidateAuth` holds; a finished path ends unlocked and initialized |
| Coordinator.InitializeAfterWait | src/User/services/AuthStateManager.js:62-63 | the cache is loaded only if the wait ended with the lock gone; either way the `finally` runs and the lock record is removed |
| Coordinator.InitializeAfterValidation | src/User/services/AuthStateManager.js:73-82 | the validation's outcome, then unlocked, initialized and not loading |
| Coordinator.Destroy | src/User/services/AuthStateManager.js:416-420 | every controller aborted, the table empty, the lock released, the state untouched |
| Coordinator.HandleGoogleAuthSession | src/User/services/AuthStateManager.js:232-263 | one to three attempts, each on the manager the previous left; attempt `k > 1` preceded by a delay of `1000·k` ms; success exactly when the last attempt did not throw, every earlier one having thrown; on failure three attempts were made, the user is signed out and the third exception's message is returned |
| Coordinator.GoogleSessionViaValidation | src/User/services/AuthStateManager.js:246-248 | with `validateAuthentication` as the attempt, the flow makes one validation and reports success even when that validation signed the user out |
| Scenarios.Step | src/User/services/AuthStateManager.js:52-186 | every step of every operation keeps the controller table well formed, aborted controllers stay aborted, and a state that is initialized stays initialized |
| Scenarios.RunPreservesWf | src/User/services/AuthStateManager.js:360-371 | under any interleaving of steps, the table stays well formed and the aborted set only grows |
| Scenarios.RunKeepsInitialized | src/User/services/AuthStateManager.js:79-82 | `isInitialized` is only ever set to true: after any interleaving of steps an initialized manager is still initialized |
| Scenarios.StaleValidationIsNoOp | src/User/services/AuthStateManager.js:104 | once a validation's controller is aborted, its result, arriving after any interleaving, changes neither user, authentication nor storage |
| Scenarios.SupersededFinallyOrphansSuccessor | src/User/services/AuthStateManager.js:93-97 | after validation 2 supersedes 1 and 1's `finally` runs, validation 3 starts without aborting 2, which stays live, unregistered, and beyond the reach of `cancelAllRequests` |
| Scenarios.ValidationOverwritesLaterLogin | src/User/services/AuthStateManager.js:106-110 | a validation begun before a successful login and failing after it signs the freshly logged-in user out |
| Scenarios.LogoutPreemptsValidation | src/User/services/AuthStateManager.js:168-186 | after logout, even a successful result of a validation begun before it leaves the user signed out |
| Scenarios.NetworkFailureLogsOut | src/User/services/authService.js:204-209 | a failed fetch or a non-ok status other than 419 from `GET /user` signs the user out and clears the persisted records |
| Scenarios.ColdStartNeverValidates | src/User/services/AuthStateManager.js:67-75 | starting unauthenticated, `initialize` never starts a validation |
| Scenarios.ColdStartServesCache | src/User/services/AuthStateManager.js:268-294 | a reload within five minutes of signing in ends initialized, unlocked and authenticated with the cached user, with no request made |
| Scenarios.NewTabAuthenticatedWithoutUser | src/User/services/AuthStateManager.js:268-294 | a new tab opened within five minutes of signing in, where only local storage holds the marker, ends initialized and authenticated with a null user and no validation started |
| Scenarios.LoginRejectsBadCredentials | src/User/services/authService.js:55-58 | a login the server refuses leaves the user signed out, with the server's message as both the reply and the error |
| Api.PrepareHeaders | src/User/services/api.js:46-64 | the token header is sent iff the method is POST, PUT, PATCH or DELETE and a non-empty token was read, and it carries that token; the three base headers are always sent; a token that fails to decode throws "URI malformed" before anything is sent |
| Api.Request | src/User/services/api.js:66-118 | 2xx returns the body; 401 is "Session expired. Please sign in again."; 422 is a ValidationError with the body's message or "Validation failed" and its errors or `{}`; other statuses except 419 (retried; see "## Left out") throw the body's message or "HTTP error! status: N"; a failed fetch throws its message or "Network error occurred"; only a 422 yields a ValidationError and every plain error has a message |
| Api.Rewrap | src/User/services/api.js:112-117 | a ValidationError passes through unchanged; any other error is rethrown with its message or "Network error occurred" |
| Api.RewrapIdempotent | src/User/services/api.js:112-117 | rewrapping an already rewrapped error changes nothing |
| Api.QueryString | src/User/services/api.js:121 | the query is empty exactly when there are no parameters |
| Api.GetUrl | src/User/services/api.js:120-123 | `?query` is appended only for a non-empty query |
| Api.CsrfTokenSound | src/User/services/api.js:144-152 | a token is read only when the cookie string contains the marker exactly once, and it is the decoded text after the marker up to the next `;` |
| Api.GetCsrfToken | src/User/services/api.js:144-152 | a cookie string without the `; XSRF-TOKEN=` marker yields no token, and a token or a decoding failure arises only when the string splits into exactly two pieces around the marker |
| Api.CsrfTokenComplete | src/User/services/api.js:144-152 | a cookie string with exactly one marker yields the decoded text after it up to the next `;` |
| Api.CsrfTokenAbsent | src/User/services/api.js:148-151 | without the marker there is no token |
| Api.CsrfTokenAmbiguous | src/User/services/api.js:148-151 | with the marker twice there is no token |
| Api.CsrfTokenAlone | src/User/services/api.js:146-149 | an `XSRF-TOKEN` cookie first in the string is read up to the next `;` |
| AuthService.FailureFrom | src/User/services/authService.js:47-58 | a ValidationError gives `{success: false, errors, message}` passed through verbatim; any other error gives its message or the operation's default |
| AuthService.RegisterBody | src/User/services/authService.js:7-12 | `confirmPassword` is sent as `password_confirmation`; the other fields are sent unchanged and nothing else is sent |
| AuthService.Register | src/User/services/authService.js:5-32 | success exactly when the request succeeded, with the response's user and message; otherwise the failure mapping with "Registration failed" |
| AuthService.LoginBody | src/User/services/authService.js:37-40 | exactly the email and the password are sent |
| AuthService.Login | src/User/services/authService.js:35-60 | success exactly when the request succeeded; a ValidationError's message and errors pass through; any other error gives its message or "Login failed" |
| AuthService.Logout | src/User/services/authService.js:63-70 | `{success: true}` whether the request succeeded or not |
| AuthService.MessageResult | src/User/services/authService.js:73-122 | for `forgotPassword` and `resetPassword`: success exactly when the request succeeded, carrying the response's message when truthy and the operation's default text otherwise, with no user and no errors; failure is the shared error mapping with the operation's default |
| AuthService.ResetPasswordBody | src/User/services/authService.js:98-103 | email, password, confirmation and token are sent unchanged |
| AuthService.GoogleAuth | src/User/services/authService.js:175-192 | a truthy `redirect_url` redirects; a missing one gives "No redirect URL received"; an error gives its message or "Google authentication failed" |
| AuthService.GetCurrentUser | src/User/services/authService.js:197-210 | on success the user is `response.user` when truthy and the whole response otherwise; any error becomes a failure result with its message or "Failed to get user data" |
| AuthService.ExpiredSessionIsAResult | src/User/services/authService.js:204-209 | a 401 from `GET /user` is a failure result carrying "Session expired. Please sign in again.", not an exception |
| AuthService.LoginPassesValidationErrors | src/User/services/authService.js:47-54 | a 422 login reply reaches the caller with the server's message and field errors verbatim |
| Forms.AfterTyping | src/User/pages/ResetPasswordPage.js:34-36 | typing leaves the error state for idle and no other state changes |
| ResetPasswordPage.Open | src/User/pages/ResetPasswordPage.js:8-24 | a link missing its token or email shows "Invalid reset link. Please request a new password reset." and puts the button in its error state; a complete link starts idle with no message |
| ResetPasswordPage.HandleChange | src/User/pages/ResetPasswordPage.js:26-37 | only the named field changes; that field's error, if shown, is blanked; every other error stays; the error state becomes idle |
| ResetPasswordPage.ValidateForm | src/User/pages/ResetPasswordPage.js:39-56 | the form may be sent iff the password has at least 8 characters and the confirmation equals it, iff no error was set; each field gets its required, length or mismatch message |
| ResetPasswordPage.SubmitBegin | src/User/pages/ResetPasswordPage.js:58-65 | an invalid form stops with its errors shown; a valid one clears the message, starts sending and sends email, password, confirmation and token |
| ResetPasswordPage.SubmitComplete | src/User/pages/ResetPasswordPage.js:67-87 | success shows the message or "Password reset successfully!"; failure shows the message or "Failed to reset password" and, when the result carries field errors, shows those |
| ResetPasswordPage.InvalidLinkStaysDisabled | src/User/pages/ResetPasswordPage.js:177 | a link without token or email can never be submitted, whatever is typed into the password fields |
| ResetPasswordPage.TypingKeepsLink | src/User/pages/ResetPasswordPage.js:26-28 | typing into the password fields leaves token and email as the link gave them |
| ResetPasswordPage.NoDoubleSubmit | src/User/pages/ResetPasswordPage.js:177 | once sent, the button stays disabled until a failure re-enables it |
| ResetPasswordPage.SubmitDisabled | src/User/pages/ResetPasswordPage.js:177 | a link without token or email is always disabled; the button is enabled exactly when it is idle or in error on a link with both |
| ResetPasswordPage.SuccessShowsServiceMessage | src/User/pages/ResetPasswordPage.js:69 | after a successful reset the service's default text ("Password reset successfully") is shown, never the page's own |
| ResetPasswordPage.RejectedResetShowsServerErrors | src/User/pages/ResetPasswordPage.js:81-85 | a 422 reply shows the server's message and replaces the field errors with the server's |
| ForgotPasswordPage.HandleChange | src/User/pages/ForgotPasswordPage.js:13-17 | the email takes the typed value; an email error clears all errors; the error state becomes idle |
| ForgotPasswordPage.ValidateForm | src/User/pages/ForgotPasswordPage.js:19-29 | the email may be sent iff it is non-empty and contains a substring matching `\S+@\S+\.\S+`; an empty email shows "Email is required", one without the shape "Please enter a valid email"; a passing email leaves the errors as they were |
| ForgotPasswordPage.SubmitBegin | src/User/pages/ForgotPasswordPage.js:31-38 | an invalid email stops with its error; a valid one clears the message, starts sending and sends the email |
| ForgotPasswordPage.SubmitCompleteAsWritten | src/User/pages/ForgotPasswordPage.js:40-48 | success shows the message or "Password reset email sent successfully!"; a failure always shows "Failed to send password reset email" |
| ForgotPasswordPage.SubmitComplete | src/User/pages/ForgotPasswordPage.js:40-48 | as written, except that a failure shows the result's message or the default text |
| ForgotPasswordPage.ResetForm | src/User/pages/ForgotPasswordPage.js:51-56 | back to the entry screen with empty email, no message and an idle button; errors are kept |
| ForgotPasswordPage.Unanchored | src/User/pages/ForgotPasswordPage.js:24 | the search is unanchored: surrounding text never stops a matching email from passing |
| ForgotPasswordPage.NeedsAt | src/User/pages/ForgotPasswordPage.js:24 | text without `@` never passes |
| ForgotPasswordPage.PlainAddressPasses | src/User/pages/ForgotPasswordPage.js:24 | `name@host.tld` with space-free, non-empty parts passes |
| ForgotPasswordPage.SpaceInHostFails | src/User/pages/ForgotPasswordPage.js:24 | `a@b c.d` does not pass |
| ForgotPasswordPage.NoDoubleSubmit | src/User/pages/ForgotPasswordPage.js:146 | as written (and equally when corrected), once sent the button stays disabled until a failure re-enables it |
| ForgotPasswordPage.SubmitDisabled | src/User/pages/ForgotPasswordPage.js:146 | the button is enabled exactly when it is idle or in error |
| ForgotPasswordPage.SuccessShowsServiceMessage | src/User/pages/ForgotPasswordPage.js:42 | as written, a successful request shows the service's message or its default text, never the page's own; the corrected page behaves identically on success |
| ForgotPasswordPage.ServerMessageDropped | src/User/pages/ForgotPasswordPage.js:46 | as written, a refusal whose result carries the server's explanation still shows only the default text |
| ForgotPasswordPage.ServerMessageShown | src/User/pages/ForgotPasswordPage.js:46 | reading the result's message, the server's explanation of a refusal reaches the user |
| ProtectedRoute.Decide | src/User/components/ProtectedRoute.js:10-30 | `google_auth=success` renders regardless; any other value gives no bypass; while initializing only the loader shows; afterwards the page renders iff authenticated, else a redirect to `/signin` |
| ProtectedRoute.Guard | src/User/components/ProtectedRoute.js:10-30 | over the manager's state, with `initializing` as `!isInitialized`: off the Google callback the loader shows iff not initialized; the page renders iff Google callback or initialized and authenticated; the redirect happens iff off the callback, initialized and not authenticated |
| ProtectedRoute.NoLoaderAfterInitialize | src/User/components/ProtectedRoute.js:19-28 | once the manager is initialized, the guard never shows the loader again, whatever steps follow |
| ProtectedRoute.SignedOutVisitorIsRedirected | src/User/components/ProtectedRoute.js:30 | a visitor with nothing cached is redirected to sign in as soon as `initialize` has run |
| Navbar.Initials | src/User/components/Navbar.js:15-18 | a missing or empty name gives `U`; otherwise one upper-cased initial per non-empty space-separated word, in order |
| Navbar.InitialsBounded | src/User/components/Navbar.js:17 | there are never more initials than segments, and none is a space |
| Navbar.SingleWord | src/User/components/Navbar.js:17 | a single word gives exactly its upper-cased first letter |
| Navbar.TwoWords | src/User/components/Navbar.js:17 | two words separated by a space give their two initials in order |

## Left out

- Observers: only the number of notifications is modelled. `subscribe` and `getState` are not modelled; they are plain accessors.
- The singleton constructor is left out. So is the dynamic `import('./authService')`: its failure is covered only as one more possible thrown `JsError`.
- `waitForInitialization` is not modelled as a timer loop. Its 100 ms polling and 10 s timeout become one resume step, `Coordinator.InitializeAfterWait`. That step looks at whether the lock is still there.
- Cache.ConsultedMarker: an empty-string `auth_state` in session storage, which JavaScript's `||` would pass over for local storage's, is not modelled: an entry is always a parsed record, and the code never writes an empty string there.
- Storage exceptions are not modelled: a full quota or disabled storage would throw from `setItem`.
- Cross-tab races on the lock are not modelled.
- `Math.random` lock ids are a parameter.
- `Date.now()` is read once per step. `setAuthenticatedState` reads it three times; the model assumes one instant.
- Network I/O and the CSRF handshake (`initializeCsrf`) are left out. What `fetch` delivers is an input, and so is the repeated request after a 419.
- Api.Request: the contract says nothing about the outcome of a 419, since that outcome is classified from the repeated request, which is an input.
- The JSON/text content-type split is not modelled. A text body is a `Json` string, whose properties read as undefined.
- A JSON `null` body is not modelled faithfully. Reading a property of it throws a TypeError in JavaScript; the model reads undefined instead.
- `decodeURIComponent` and the `URLSearchParams` encoding are uninterpreted function parameters.
- `toUpperCase` is modelled for ASCII letters only.
- String lengths count Unicode scalar values. JavaScript counts UTF-16 units, so the two differ for characters outside the Basic Multilingual Plane.
- Non-integer numbers are not modelled.
- Cache.ShouldValidateAuth: `last_auth_check` is read as a parsed number, so `parseInt`'s leniency on trailing text and an empty string (falsy, so it would mean "validate") are not modelled. The code only ever writes a plain number there.
- `verifyEmail` and `resendVerification` are left out. They follow the same result shaping and are outside this core.
- JSX rendering, CSS classes, navigation, `console` logging and `setTimeout` effects are left out. These effects are the two-second redirect, the one-second switch to the confirmation screen and the three-second return to idle.
- ResetPasswordPage.Open: the invalid-link check is modelled when the page mounts. The effect would re-run if the token or email changed, but the page has no input for either.
- ResetPasswordPage.SubmitComplete: a truthy `errors` value that is not an object shows no field errors. JavaScript would index into it.
- Navbar.Initials: a truthy name that is not a string is not modelled. `split` would throw on it.
- The landing, dashboard, sidebar, Google callback and email verification pages are not modelled. Neither is the auth context: it only forwards calls, exposing `initializing` as `!isInitialized` (`ProtectedRoute.Guard`).

## Findings

| source | as written | input that shows it | evidently intended | confidence | as-written member | corrected member |
|---|---|---|---|---|---|---|
| src/User/pages/ForgotPasswordPage.js:46 | a failed submit shows `result.error`. No result of `forgotPassword` has that property; it reports its text as `message`. `ForgotPasswordPage.ServerMessageDropped` exhibits the lost text. | `POST /forgot-password` answers 404 with `{"message": "We can't find a user with that email address."}`. The page shows "Failed to send password reset email". | show `result.message`, as the success branch and the reset page do; `ForgotPasswordPage.ServerMessageShown` proves the server's text then reaches the user | high; not executed | ForgotPasswordPage.SubmitCompleteAsWritten | ForgotPasswordPage.SubmitComplete |
