# Session core of a React login/signup front end, in Dafny

This project models the logic of a single-page login/signup client that talks to a JWT authentication API. It covers four parts of that client.

- **The authentication reducer** (`src/reducers/auth.js`). A pure transition function over the session record `{access, refresh, isAuthenticated, user, loading, error, message}`. It is modelled as `AuthReducer.Reduce` on a `State` datatype, with `isAuthenticated` three-valued (`Yes`/`No`/`Unknown` for `true`/`false`/`null`).
- **The session actions** (`src/actions/auth.js`): login, signup, logout, email verification, password reset and its confirmation, token refresh, `checkAuthenticated` and `loadUser`. Each action is two things:
  - a specification function on `Browser.World`, the value view of local storage, the issued requests, the scripted server answers, the dispatch log and the login redirect;
  - a method on the mutable `Browser.Env` whose `ensures` ties the new environment to that function.

  The shared error-message extractor is a method with a loop, proved equal to a precedence function.
- **The token-renewal interceptor** (`Renewal`). It keeps an `isRefreshing` flag and a `failedQueue`. A 401 either starts the one refresh request or is parked behind it. When the refresh settles, the parked requests are replayed with the new token, or rejected. `Renewal.Coordinator` is the object with that state. Its handlers are proved equal to `OnError`/`OnRefreshSettled`, and the single-flight properties are proved about those functions. The scheme of the replayed Authorization header is a parameter:
  - `Bearer` for `src/actions/auth.js` (section 2.1 of RFC 6750);
  - `JWT` for `src/containers/initialauth.jsx`.
- **The earlier action module** (`src/containers/initialauth.jsx`), modelled as `LegacyActions`. It calls the same endpoints with explicit JSON headers and the `JWT` scheme. Its error messages come from per-action `||` chains, and most of its actions never reject.
- **The signup form** (`src/containers/Signup.jsx`):
  - `validateForm`, as a method filling an error map by successive overwrites, proved against a priority-based reference definition;
  - the `^[^\s@]+@[^\s@]+\.[^\s@]+$` email pattern, with a proved plain-words characterisation;
  - `onChange` and `onSubmit` as methods on a `Form` class.

Three behaviours of the source are modelled as written and exhibited by lemmas:

- **`refreshToken` shadowing in `checkAuthenticated`.** A local constant named `refreshToken` (the stored string) shadows the action creator. After any failed verify, calling it throws, so the outcome is always AUTHENTICATED_FAIL and no refresh request is ever made.
- **The `isRefreshing` leak.** On a first 401 with no refresh token stored, the interceptor clears the tokens and redirects, but never lowers `isRefreshing`. Every later 401 is parked forever.
- **A 401 on the refresh request itself.** The refresh request passes through the same error handler. If it is answered 401, it is parked behind itself.

Tokens are opaque strings (JWTs per RFC 7519 are never parsed). Local storage is a `map<string, string>` with a `faulting` mode in which every call throws and is swallowed. Each awaited HTTP call takes the next scripted `Outcome`; a call the script has no answer for fails at the transport level.

## Model

| member | source | states |
|---|---|---|
| AuthReducer.InitialState | src/reducers/auth.js:27-35 | the tokens are what storage holds (null when absent); isAuthenticated is unknown, user, error and message are null, loading is false |
| AuthReducer.Reduce | src/reducers/auth.js:37-132 | the tokens change only on a token success or LOGOUT; the message only on a request, SIGNUP_SUCCESS, a message success or CLEAR_AUTH_ERRORS; a new non-null error only comes from a *_FAIL payload; loading is on exactly after a request, or when it was on and the action leaves it alone; an unrecognised action changes nothing |
| AuthReducer.RequestStartsLoading | src/reducers/auth.js:41-51 | every *_REQUEST sets loading and clears error and message, and changes nothing else |
| AuthReducer.TokenSuccessStoresTokens | src/reducers/auth.js:53-62 | LOGIN_SUCCESS / TOKEN_REFRESH_SUCCESS store payload.access; they keep the old refresh exactly when payload.refresh is falsy; they authenticate, stop loading and clear error; user and message are untouched |
| AuthReducer.SignupSuccessLeavesLoggedOut | src/reducers/auth.js:64-71 | SIGNUP_SUCCESS sets isAuthenticated false and the fixed activation message; tokens and user are untouched |
| AuthReducer.MessageSuccessStoresMessage | src/reducers/auth.js:86-94 | the reset, reset-confirm and activation successes store their payload as the message and change nothing else but loading and error |
| AuthReducer.FailRecordsError | src/reducers/auth.js:96-109 | every *_FAIL de-authenticates, stops loading and records the payload as error; tokens, user and message are kept |
| AuthReducer.ClearAndUnknown | src/reducers/auth.js:111-131 | CLEAR_AUTH_ERRORS changes only error and message and is idempotent; an unrecognised action returns the state unchanged |
| AuthReducer.LogoutClearsSession | src/reducers/auth.js:118-127 | LOGOUT nulls tokens, user and error, de-authenticates, stops loading and keeps the message; applying it twice equals applying it once |
| AuthReducer.AuthenticationGrantedOnlyBySuccess | src/reducers/auth.js:53-84 | isAuthenticated becomes true only through LOGIN_SUCCESS, TOKEN_REFRESH_SUCCESS or AUTHENTICATED_SUCCESS, and the last changes nothing else |
| AuthReducer.UserChangesOnlyOnLoadOrLogout | src/reducers/auth.js:73-127 | user changes only on USER_LOADED_SUCCESS (to the payload) and LOGOUT (to null) |
| AuthReducer.AuthenticatedRunHasGrant | src/reducers/auth.js:37-132 | over any run of actions, an unauthenticated session ends authenticated only if the run contains a granting action |
| AuthReducer.TokensStayClearedAfterLogout | src/reducers/auth.js:53-127 | once both tokens are null they stay null over any run without a token-success action |
| AuthReducer.UserComesFromLoad | src/reducers/auth.js:73-127 | the user after any run is the initial one, null, or the payload of some USER_LOADED_SUCCESS in the run |
| Browser.World.Get | src/actions/auth.js:32-39 | reading storage yields the stored string exactly when storage works and the key is present |
| Browser.World.SetItem | src/actions/auth.js:41-47 | a write is visible to later reads unless storage throws, and leaves other keys unchanged |
| Browser.World.RemoveItem | src/actions/auth.js:49-55 | after a remove the key reads as absent; other keys are unchanged |
| Browser.World.Authorize | src/actions/auth.js:411-422 | the request interceptor sets `Authorization: Bearer <token>` exactly when it is installed and a non-empty token is stored, and otherwise leaves the headers alone |
| AuthActions.AuthHeaders | src/actions/auth.js:57-62 | getAuthHeaders always yields exactly an Authorization header with the Bearer scheme, `Bearer null` when no token is stored |
| AuthActions.ExtractErrorMessage | src/actions/auth.js:64-81 | the loop over the named fields returns the precedence function's message |
| AuthActions.FirstTruthy | src/actions/auth.js:66-72 | the position it finds is the first field of the list whose value is truthy, and none is found exactly when no field is truthy |
| AuthActions.ExtractedMessageFollowsPrecedence | src/actions/auth.js:64-81 | the message is the default for falsy data or when no field is truthy; otherwise it comes from the first truthy of email, password, first_name, last_name, non_field_errors (element 0 of an array) and detail (as is) |
| AuthActions.ConfirmResetPrecedence | src/actions/auth.js:365-380 | a failed reset confirmation reports new_password (element 0 of an array), then the invalid-token message, then the invalid-link message, then the extracted message, and the plain default without response data |
| AuthActions.Logout | src/actions/auth.js:283-288 | logout performs the logout specification step on the environment |
| AuthActions.LogoutClearsBothTokens | src/actions/auth.js:283-288 | logout removes both tokens, keeps every other key, dispatches exactly one LOGOUT and sends nothing; a second logout leaves the same storage |
| AuthActions.RefreshToken | src/actions/auth.js:173-209 | the method's effects and result are those of the refresh specification |
| AuthActions.RefreshTokenSpec | src/actions/auth.js:173-209 | refreshToken sends at most one request and never withdraws one |
| AuthActions.RefreshWithoutTokenLogsOut | src/actions/auth.js:173-180 | with no refresh token: TOKEN_REFRESH_FAIL, then LOGOUT, both tokens gone, no request, resolves |
| AuthActions.RefreshWithTokenOutcomes | src/actions/auth.js:181-208 | exactly one refresh request carrying the stored token; success stores and returns the new access token and keeps the refresh token; an error answer dispatches the extracted message, logs out and rethrows; an answer without a body throws a TypeError, reported with the default, then logs out |
| AuthActions.LoadUser | src/actions/auth.js:125-167 | the method's effects are those of the load-user specification: immediate USER_LOADED_FAIL without a token; otherwise the profile fetch, and on a 401 one refresh and at most one retry, with every outcome spelled out by the five LoadUser lemmas below |
| AuthActions.LoadUserFetchesFirst | src/actions/auth.js:133-136 | with a stored access token, whatever follows, the first request loadUser sends is the profile fetch with `getAuthHeaders()` |
| AuthActions.LoadUserOutcomes | src/actions/auth.js:133-165 | when the profile fetch does not answer 401, a success reports the profile and any other failure reports the extracted message, with no other request and storage untouched |
| AuthActions.RenewThenRetry | src/actions/auth.js:143-159 | after a 401, the refresh and the retry add at most two requests and withdraw none |
| AuthActions.RetryUnlessThrew | src/actions/auth.js:145-159 | the fetch is retried exactly when the refresh did not throw, and then exactly once |
| AuthActions.LoadUserGivesUpWhenRenewalFails | src/actions/auth.js:143-159 | after a 401, with a refresh token stored and a refresh that fails: exactly one refresh request, both tokens gone, TOKEN_REFRESH_FAIL, LOGOUT, USER_LOADED_FAIL with 'Failed to load user data', and no retry |
| AuthActions.LoadUserRetriesAfterRenewal | src/actions/auth.js:143-159 | after a 401 and a successful refresh: exactly one refresh request and one retry, carrying `Bearer <the access token just stored>`; the refresh token is kept and the retry's outcome is reported |
| AuthActions.LoadUserRetriesWithoutRefreshToken | src/actions/auth.js:143-159 | after a 401 with no refresh token: refreshToken logs out and resolves, so the fetch is retried once with `Bearer null` and its outcome is reported |
| AuthActions.NoAccessTokenNoRequest | src/actions/auth.js:92-97 | with no access token, checkAuthenticated and loadUser dispatch their FAIL event and issue no request |
| AuthActions.CheckAuthenticated | src/actions/auth.js:91-123 | the method's effects are those of the check specification, which keeps the shadowing |
| AuthActions.CheckAuthenticatedNeverRefreshes | src/actions/auth.js:99-122 | checkAuthenticated issues at most the verify request, never touches storage, dispatches exactly one event, reports success exactly when verify answers 200, and reports failure after a failed verify even with a refresh token stored |
| AuthActions.Login | src/actions/auth.js:215-248 | the method's effects and completion are those of the login specification |
| AuthActions.LoginSuccessStoresTokensThenLoadsUser | src/actions/auth.js:219-234 | on success (any body that is not null or undefined) login sends the credentials, always writes access, writes refresh only when the response has one, dispatches LOGIN_SUCCESS with the body, then runs loadUser |
| AuthActions.LoginStoredWrites | src/actions/auth.js:224-232 | the step after the token answer writes access (unless storage throws), writes refresh only when the body has a truthy one, dispatches LOGIN_SUCCESS with the body and sends nothing |
| AuthActions.LoginFailureWritesNothing | src/actions/auth.js:235-247 | on failure login leaves storage untouched, dispatches LOGIN_FAIL with the extracted message and rethrows |
| AuthActions.LoginRoundTrip | src/actions/auth.js:215-248 | after the server answers `{access: A, refresh: R}` the store holds A and R, and the profile fetch that follows carries `Bearer A` |
| AuthActions.FaultingStorageIsContained | src/actions/auth.js:32-55 | with throwing storage no action changes storage, and a successful login still resolves, with loadUser failing without a request |
| AuthActions.Signup | src/actions/auth.js:250-281 | the method's effects and completion are those of the signup specification, which resolves with the whole response (status and body) and throws an Error with the extracted message |
| AuthActions.SignupOutcomes | src/actions/auth.js:250-281 | signup never touches storage and sends exactly one registration request with the five inputs; success dispatches SIGNUP_SUCCESS and resolves with the whole response (status and body); failure dispatches SIGNUP_FAIL with the extracted message and throws an Error carrying it |
| AuthActions.SignupRejectedScenario | src/actions/auth.js:268-280 | a signup rejected with `{email: ["already registered"]}` reports and throws exactly that message and stores nothing |
| AuthActions.VerifyEmail | src/actions/auth.js:294-320 | the method's effects and completion are those of the verification specification |
| AuthActions.ResetPassword | src/actions/auth.js:322-347 | the method's effects and completion are those of the reset specification |
| AuthActions.SimplePostOutcomes | src/actions/auth.js:294-347 | verifyEmail and resetPassword issue exactly one request and never touch storage; success dispatches the fixed message and resolves; failure dispatches the extracted message and rethrows the fault |
| AuthActions.ConfirmPasswordReset | src/actions/auth.js:349-389 | the method's effects and completion are those of the confirmation specification |
| AuthActions.ConfirmResetOutcomes | src/actions/auth.js:349-389 | confirmPasswordReset issues exactly one request and never touches storage; success dispatches the fixed message; failure dispatches the confirm-reset message and rethrows |
| AuthActions.ConfirmResetBadTokenScenario | src/actions/auth.js:365-376 | a confirmation rejected with `{token: ["invalid"]}` reports "Invalid or expired reset token" |
| Renewal.Idle | src/actions/auth.js:395-396 | the interceptor starts not refreshing, with nothing parked, waiting or retried |
| Renewal.Settle | src/actions/auth.js:398-408 | processQueue settles each parked request in order, rejecting every one with the error when there is one and resolving every one otherwise |
| Renewal.Coordinator.constructor | src/actions/auth.js:395-396 | a new coordinator is idle |
| Renewal.Coordinator.ProcessQueue | src/actions/auth.js:398-408 | the forEach loop replays every parked request in order with the new token (or rejects each with the error) and empties the queue |
| Renewal.OnError | src/actions/auth.js:425-484 | the error handler only passes on the error it was given, sends a request (the one refresh) exactly when the request starts waiting on it, parks a request exactly when its reaction is Queued, marks only that request as retried, and settles nothing |
| Renewal.OnRefreshSettled | src/actions/auth.js:449-472 | whatever the refresh outcome, the interceptor ends idle with every parked request and the waiting one settled once, the waiting one last; it is replayed exactly when the refresh answered a body, and then one request per held request is sent; otherwise nothing is sent, both tokens are gone and the page redirects |
| Renewal.Coordinator.OnResponseError | src/actions/auth.js:425-484 | the error handler's effects and reaction are those of the error-handler specification |
| Renewal.Coordinator.RefreshSettled | src/actions/auth.js:449-472 | the refresh continuation's effects are those of the settlement specification |
| Renewal.HandlersKeepCoherence | src/actions/auth.js:430-472 | the handlers keep the invariant that nothing is parked or waiting unless a refresh has started, and the waiting request carries `_retry`; a settled refresh lowers the flag |
| Renewal.OtherErrorsPassThrough | src/actions/auth.js:430-482 | any error other than a 401 on a request without `_retry` is rejected unchanged, with no effect |
| Renewal.FirstUnauthorizedStartsRefresh | src/actions/auth.js:442-452 | the first 401 while idle with a refresh token stored marks the request, raises the flag and issues exactly one refresh request with that token |
| Renewal.MissingRefreshTokenLeavesFlagUp | src/actions/auth.js:473-479 | with no refresh token, the handler clears both tokens, redirects and rejects, but leaves the flag up with no refresh in flight |
| Renewal.StuckParksForever | src/actions/auth.js:431-440 | once the flag is stuck, every further first 401 is parked, nothing is sent and the state stays stuck |
| Renewal.RefreshingParksAll | src/actions/auth.js:431-440 | while a refresh is in flight, any number of 401s are parked in arrival order and issue no request |
| Renewal.ReplayAllIssuesInOrder | src/actions/auth.js:398-408 | the replays append one request per parked request, in queue order, each with its Authorization replaced, and change nothing else |
| Renewal.ReplayHeaderSurvivesRequestInterceptor | src/actions/auth.js:411-422 | the request interceptor leaves a replay's `Bearer <access>` header as it is, since it rewrites it from the token just stored |
| Renewal.SuccessfulRefreshReplaysEveryone | src/actions/auth.js:453-458 | a successful refresh stores the access token, replays every parked request and then the waiting one, settles them all as replayed and leaves the interceptor idle |
| Renewal.ReplaysCarryRenewedToken | src/actions/auth.js:398-458 | every replay a successful refresh releases carries `<scheme> <access>`, also after the request interceptor has run |
| Renewal.BurstStartsOneRefresh | src/actions/auth.js:430-452 | a burst of 401s arriving while idle sends exactly one refresh request; the first request waits and the rest are parked in order |
| Renewal.SingleFlight | src/actions/auth.js:425-484 | after such a burst and a successful refresh, every request of the burst is replayed exactly once after the single refresh request, all with the new token |
| Renewal.FailedRefreshRejectsEveryone | src/actions/auth.js:459-469 | a failed refresh rejects every parked request and the waiting one with the refresh error, clears both tokens, redirects and sends nothing |
| Renewal.UnauthorizedRefreshParksItself | src/actions/auth.js:431-452 | a 401 answer to the refresh request itself is parked behind the refresh it belongs to, so that refresh never settles |
| LegacyActions.LegacyAuthHeaders | src/containers/initialauth.jsx:58-65 | the legacy headers always carry JSON Content-Type and Accept, and carry `JWT <token>` exactly when a non-empty token is stored |
| LegacyActions.DetailOr | src/containers/initialauth.jsx:104 | refresh and user-load failures report a truthy `detail` as is, and otherwise the default |
| LegacyActions.LoginFailMessage | src/containers/initialauth.jsx:236-238 | the login message is always truthy: a truthy detail, else a truthy `non_field_errors?.[0]`, else the default |
| LegacyActions.SignupFailMessage | src/containers/initialauth.jsx:269-280 | the default without response data; otherwise the first truthy of email, password, non_field_errors (element 0 of an array), else the default |
| LegacyActions.VerifyFailMessage | src/containers/initialauth.jsx:310-313 | the verify message is always truthy: the first truthy of detail, `uid?.[0]`, `token?.[0]`, else the default |
| LegacyActions.ResetFailMessage | src/containers/initialauth.jsx:342-344 | the reset message is always truthy: a truthy `email?.[0]`, else a truthy detail, else the default |
| LegacyActions.ConfirmFailMessage | src/containers/initialauth.jsx:373-386 | the default without response data; otherwise new_password (element 0 of an array), then the invalid-token message for token, the invalid-link message for uid, then non_field_errors, else the default; never taken from detail |
| LegacyActions.IfChainsCanReportUndefined | src/containers/initialauth.jsx:268-281 | the signup and confirm if-chains report `undefined` for a field holding an empty array |
| LegacyActions.FilesDisagreeOnLoginMessages | src/containers/initialauth.jsx:235-237 | for the same server answer the two files report different login messages: detail wins over field errors, and a string non_field_errors gives its first character |
| LegacyActions.FilesDisagreeOnConfirmMessages | src/containers/initialauth.jsx:373-386 | for an answer carrying only detail, the modern confirmation reports it and the legacy one reports its default |
| LegacyActions.RefreshToken | src/containers/initialauth.jsx:73-111 | the method's effects and completion are those of the legacy refresh specification |
| LegacyActions.LegacyRefreshOutcomes | src/containers/initialauth.jsx:73-111 | with no refresh token: fail, log out (both tokens removed), no request, resolve; with one, exactly one JSON refresh request carrying it; an error answer reports `detail` or the default, logs out and rethrows; an answer without a body throws a TypeError reported with the default; any other body stores and returns its access token and keeps the refresh token |
| LegacyActions.LoadUser | src/containers/initialauth.jsx:114-161 | the method's effects are those of the legacy load-user specification: immediate USER_LOADED_FAIL without a token; otherwise the `JWT` profile fetch, and on a 401 one refresh and at most one retry, with every outcome spelled out by the five LegacyLoadUser lemmas below |
| LegacyActions.LegacyRefreshTokenSpec | src/containers/initialauth.jsx:73-111 | the legacy refreshToken sends at most one request and never withdraws one |
| LegacyActions.LegacyLoadUserFetchesFirst | src/containers/initialauth.jsx:122-127 | with a stored access token, whatever follows, the first request is the profile fetch carrying `JWT <access>` |
| LegacyActions.LegacyLoadUserOutcomes | src/containers/initialauth.jsx:125-161 | when the profile fetch does not answer 401, a success reports the profile and any other failure reports `detail` or the default, with no other request and storage untouched |
| LegacyActions.LegacyRenewThenRetry | src/containers/initialauth.jsx:135-153 | after a 401, the refresh and the retry add at most two requests and withdraw none |
| LegacyActions.LegacyRetryUnlessThrew | src/containers/initialauth.jsx:137-153 | the fetch is retried exactly when the refresh did not throw, and then exactly once |
| LegacyActions.LegacyLoadUserGivesUpWhenRenewalFails | src/containers/initialauth.jsx:135-153 | after a 401, with a refresh token stored and a refresh that fails: exactly one refresh request, both tokens gone, USER_LOADED_FAIL with the fixed message, and no retry |
| LegacyActions.LegacyLoadUserUsesJwtScheme | src/containers/initialauth.jsx:135-153 | for any stored tokens and any refresh body: the fetch carries `JWT <old access>`, one refresh request follows, and exactly one retry carries `JWT <the access token the refresh returned>` (no Authorization when that token is empty); its outcome is reported |
| LegacyActions.LegacyLoadUserRetriesWithoutRefreshToken | src/containers/initialauth.jsx:135-153 | after a 401 with no refresh token: the refresh logs out and resolves, so the fetch is retried once without Authorization and its outcome is reported |
| LegacyActions.CheckAuthenticated | src/containers/initialauth.jsx:164-205 | the method's effects are those of the legacy check specification, which keeps the shadowing |
| LegacyActions.LegacyCheckAuthenticatedNeverRefreshes | src/containers/initialauth.jsx:190-204 | the legacy check never calls the refresh endpoint nor touches storage; it succeeds exactly when verify answers 200 |
| LegacyActions.Login | src/containers/initialauth.jsx:208-245 | the method's effects are those of the legacy login specification |
| LegacyActions.LegacyLoginOutcomes | src/containers/initialauth.jsx:208-245 | the one request before the user load is the JSON POST of the credentials; a failed legacy login stores nothing and records the login message without rethrowing; a successful one (any body that is not null or undefined) writes access, writes refresh only when it is truthy, dispatches LOGIN_SUCCESS with the body and runs the legacy user load |
| LegacyActions.LegacyLoginSuccessStoresTokens | src/containers/initialauth.jsx:219-234 | a successful legacy login sends the JSON POST of the credentials, writes access, writes refresh only when it is truthy, dispatches LOGIN_SUCCESS with the body, then runs the legacy user load |
| LegacyActions.LegacyLoginFailureWritesNothing | src/containers/initialauth.jsx:219-244 | a failed legacy login (error answer or no body) sends only the credentials POST, leaves storage untouched and records LOGIN_FAIL with the login message |
| LegacyActions.Signup | src/containers/initialauth.jsx:248-289 | the method's effects and completion are those of the legacy signup specification, which resolves with the whole response (status and body) and throws an Error with the if-chain message |
| LegacyActions.LegacySignupOutcomes | src/containers/initialauth.jsx:248-289 | the legacy signup sends the five inputs once; success resolves with the whole response (status and body); failure records email, password or non_field_errors, or the default, and throws an Error carrying it |
| LegacyActions.Verify | src/containers/initialauth.jsx:291-320 | the method's effects are those of the legacy verify specification |
| LegacyActions.ResetPassword | src/containers/initialauth.jsx:323-351 | the method's effects are those of the legacy reset specification |
| LegacyActions.ResetPasswordConfirm | src/containers/initialauth.jsx:354-393 | the method's effects are those of the legacy confirmation specification |
| LegacyActions.AccountActionsReportThroughStore | src/containers/initialauth.jsx:291-393 | verify, reset_password and reset_password_confirm touch no storage, send one request and dispatch the start event and then the success message or their own failure chain's message |
| SignupForm.TrimStart | src/containers/Signup.jsx:72-80 | the result is a suffix of the input with only white space dropped, and it starts with a non-space or is empty |
| SignupForm.TrimEnd | src/containers/Signup.jsx:72-80 | the result is a prefix of the input with only white space dropped, and it ends with a non-space or is empty |
| SignupForm.TrimEmptyIffBlank | src/containers/Signup.jsx:72-80 | `s.trim()` is empty exactly when every character of `s` is white space |
| SignupForm.TrimsToEmpty | src/containers/Signup.jsx:72-80 | `!s.trim()` holds exactly for blank strings |
| SignupForm.EmailPatternCharacterization | src/containers/Signup.jsx:83 | the pattern matches exactly when there is no white space, exactly one `@` that is not first, and a `.` after it that is neither the domain's first nor its last character |
| SignupForm.Fields.With | src/containers/Signup.jsx:45 | a change of a named input updates that field only; other names leave the fields as they are |
| SignupForm.ValidateForm | src/containers/Signup.jsx:58-89 | the successive overwrites produce the priority-based error dictionary |
| SignupForm.ValidIffAllChecksPass | src/containers/Signup.jsx:58-89 | the form is accepted exactly when the passwords match and have 8 or more characters, no field is blank, and the email matches the pattern |
| SignupForm.ErrorKeysAndMessages | src/containers/Signup.jsx:61-86 | only `password` and `general` occur; the password error is present exactly when a password check fails, and the length message wins over the mismatch; a malformed non-empty email overrides any required-field message |
| SignupForm.SpacePasswordIsRequired | src/containers/Signup.jsx:66-80 | an all-space password of 8 or more characters passes the length and match checks but is reported as required |
| SignupForm.FirstBlankFieldIsNamed | src/containers/Signup.jsx:72-80 | the required-field message names the first blank field in the order first name, last name, email |
| SignupForm.Form.constructor | src/containers/Signup.jsx:12-24 | the form starts with empty fields, empty password and general errors, not loading and no account created |
| SignupForm.Form.OnChange | src/containers/Signup.jsx:44-56 | the named field is updated; the password error is cleared when a password input changed, and otherwise is present exactly when it was before, with the same value; a shown general error is cleared; nothing else changes |
| SignupForm.Form.OnSubmit | src/containers/Signup.jsx:91-116 | on validation errors it shows them and sends nothing; otherwise it runs signup with the five inputs, resets the errors, stops loading and records whether signup resolved |
| SignupForm.SubmitGate | src/containers/Signup.jsx:98-108 | a form that passes validation sends exactly its five inputs to the users endpoint, with matching passwords of 8 or more characters |

## Left out

- Numbers and booleans in response bodies are not part of `JsValue.Val`; no modelled code path depends on one.
- Promise scheduling. Each await is a step, and the interceptor's event handlers are run in an explicit order. The replays a successful refresh releases are issued in queue order and before the original request, whereas in the source the parked continuations run as microtasks after the original request is re-sent.
- The outcomes of replayed requests, and their delivery to the callers that awaited them, are not modelled. A replay is recorded as an issued request and a `Replayed` settlement.
- The actions and the response interceptor are modelled separately. An action sees the outcome the interceptor finally hands it, as a scripted `Outcome`.
- Both files install their interceptor on the same HTTP client instance. Each file is modelled in isolation, with its own `Renewal.Coordinator`.
- A response object is only its status and body (`Http.Completion.Responded`); its headers, status text and request config are not modelled.
- The login redirect (`window.location.href = '/login'`) is a boolean flag. Console logging is dropped.
- The Signup form's two `useEffect` hooks are not modelled: clearing auth errors on mount, and copying the store's `authError` into `formErrors.general`. React's batching of state updates is not modelled either; each handler's updates are applied in order.
- Navigation after signup and the JSX rendering are not modelled.
- `AuthReducer.Reduce` requires that a LOGIN_SUCCESS or TOKEN_REFRESH_SUCCESS action carries a payload that is not null or undefined. The source reducer would throw a TypeError reading `payload.access` from such a payload, and every dispatch site reads `.access` from the same body before dispatching, so no such action is ever dispatched.
- `SignupForm.Fields.With`: a name that no input carries leaves the fields unchanged, whereas the source adds a key to `formData` that nothing reads.
- String lengths are lengths of `seq<char>`. JavaScript measures in UTF-16 code units.
- `IsWhitespace` follows the JavaScript white-space and line-terminator set of `\s` and `trim()` by code point.
- `clearAuthErrors` is only the constant action `AuthActions.ClearAuthErrorsAction`; the reducer's handling of it is proved.
- The HTTP client, the endpoints' server side, the store wiring (`combineReducers`, `store.js`) and the other pages are not part of this model.
