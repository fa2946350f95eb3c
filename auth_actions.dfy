/** The session actions of src/actions/auth.js. Each action is specified by
    a function on `World` (what it does to storage, requests, dispatch log)
    and implemented by a method that performs the same steps in order on an
    `Env`. The outcome an action awaits is the one left after the response
    interceptor (module Renewal) has handled it. */
module AuthActions {
  import opened JsValue
  import opened Http
  import opened AuthReducer
  import opened Browser

  const LoginDefault := "Login failed. Please check your credentials."
  const SignupDefault := "Registration failed"
  const ActivationDefault := "Account activation failed. Please check your activation link."
  const ResetDefault := "Failed to send password reset email."
  const ConfirmDefault := "Password reset failed"
  const RefreshDefault := "Token refresh failed"
  const LoadUserDefault := "Failed to load user data"
  const ActivatedMessage := "Account activated successfully!"
  const ResetSentMessage := "Password reset email sent successfully!"
  const ResetDoneMessage := "Password reset successfully!"
  const InvalidTokenMessage := "Invalid or expired reset token"
  const InvalidLinkMessage := "Invalid reset link"

  /** `clearAuthErrors()`: a plain action creator. */
  const ClearAuthErrorsAction := Action(ClearAuthErrors, Undefined)

  // ===========================================================================
  // Error messages
  // ===========================================================================

  /** The named fields `extractErrorMessage` scans, in order. */
  const FieldErrors: seq<string> := ["email", "password", "first_name", "last_name"]

  /** The whole precedence: the named fields, then `non_field_errors`, then `detail`. */
  const Precedence: seq<string> := FieldErrors + ["non_field_errors", "detail"]

  /** The message `extractErrorMessage(errorData, defaultMessage)` returns:
      the default for absent data; otherwise the first truthy field among
      email, password, first_name, last_name and non_field_errors (its first
      element when it is an array), then detail as it is, then the default. */
  function ExtractedMessage(data: Val, default: string): (r: Val) {
    if !Truthy(data) then Str(default)
    else if Truthy(Prop(data, "email")) then HeadIfArray(Prop(data, "email"))
    else if Truthy(Prop(data, "password")) then HeadIfArray(Prop(data, "password"))
    else if Truthy(Prop(data, "first_name")) then HeadIfArray(Prop(data, "first_name"))
    else if Truthy(Prop(data, "last_name")) then HeadIfArray(Prop(data, "last_name"))
    else if Truthy(Prop(data, "non_field_errors")) then HeadIfArray(Prop(data, "non_field_errors"))
    else if Truthy(Prop(data, "detail")) then Prop(data, "detail")
    else Str(default)
  }

  /** `extractErrorMessage`, with its loop over the named fields. */
  method ExtractErrorMessage(data: Val, default: string) returns (m: Val)
    ensures m == ExtractedMessage(data, default)
  {
    if !Truthy(data) {
      return Str(default);
    }
    var i := 0;
    while i < |FieldErrors|
      invariant 0 <= i <= |FieldErrors|
      invariant forall j :: 0 <= j < i ==> !Truthy(Prop(data, FieldErrors[j]))
    {
      var v := Prop(data, FieldErrors[i]);
      if Truthy(v) {
        assert FieldErrors == ["email", "password", "first_name", "last_name"];
        assert i == 0 || !Truthy(Prop(data, FieldErrors[0]));
        assert i <= 1 || !Truthy(Prop(data, FieldErrors[1]));
        assert i <= 2 || !Truthy(Prop(data, FieldErrors[2]));
        return HeadIfArray(v);
      }
      i := i + 1;
    }
    assert forall j :: 0 <= j < 4 ==> !Truthy(Prop(data, FieldErrors[j]));
    assert FieldErrors == ["email", "password", "first_name", "last_name"];
    assert !Truthy(Prop(data, FieldErrors[0])) && !Truthy(Prop(data, FieldErrors[1]));
    assert !Truthy(Prop(data, FieldErrors[2])) && !Truthy(Prop(data, FieldErrors[3]));
    var nonField := Prop(data, "non_field_errors");
    if Truthy(nonField) {
      return HeadIfArray(nonField);
    }
    var detail := Prop(data, "detail");
    if Truthy(detail) {
      return detail;
    }
    return Str(default);
  }

  /** The position of the first truthy field of `fields` in `data`. */
  function FirstTruthy(data: Val, fields: seq<string>): (r: Option<nat>)
    ensures r.Some? ==> (r.value < |fields| && Truthy(Prop(data, fields[r.value]))
      && forall j :: 0 <= j < r.value ==> !Truthy(Prop(data, fields[j])))
    ensures r.None? ==> forall j :: 0 <= j < |fields| ==> !Truthy(Prop(data, fields[j]))
  {
    if fields == [] then None
    else if Truthy(Prop(data, fields[0])) then Some(0)
    else match FirstTruthy(data, fields[1..])
      case None => None
      case Some(k) => Some(k + 1)
  }

  /** The extracted message is determined by the first truthy field of the
      precedence list: every field but detail contributes its first element
      when it is an array, detail contributes itself, and the default is
      used exactly when the data is falsy or no field is truthy. */
  lemma ExtractedMessageFollowsPrecedence(data: Val, default: string)
    ensures !Truthy(data) ==> ExtractedMessage(data, default) == Str(default)
    ensures Truthy(data) && FirstTruthy(data, Precedence).None?
      ==> ExtractedMessage(data, default) == Str(default)
    ensures Truthy(data) && FirstTruthy(data, Precedence).Some?
      ==> var k := FirstTruthy(data, Precedence).value;
          var v := Prop(data, Precedence[k]);
          ExtractedMessage(data, default) == (if k == 5 then v else HeadIfArray(v))
  {
    var r := FirstTruthy(data, Precedence);
    var p := Precedence;
    assert p == ["email", "password", "first_name", "last_name", "non_field_errors", "detail"];
    if Truthy(data) {
      if r.None? {
        assert !Truthy(Prop(data, p[0])) && !Truthy(Prop(data, p[1])) && !Truthy(Prop(data, p[2]));
        assert !Truthy(Prop(data, p[3])) && !Truthy(Prop(data, p[4])) && !Truthy(Prop(data, p[5]));
      } else {
        var k := r.value;
        assert k == 0 || k == 1 || k == 2 || k == 3 || k == 4 || k == 5;
        assert k <= 0 || !Truthy(Prop(data, p[0]));
        assert k <= 1 || !Truthy(Prop(data, p[1]));
        assert k <= 2 || !Truthy(Prop(data, p[2]));
        assert k <= 3 || !Truthy(Prop(data, p[3]));
        assert k <= 4 || !Truthy(Prop(data, p[4]));
      }
    }
  }

  /** The message `confirmPasswordReset` reports on failure. */
  function ConfirmResetMessage(f: Fault): (r: Val) {
    var data := ResponseData(f);
    if !Truthy(data) then Str(ConfirmDefault)
    else if Truthy(Prop(data, "new_password")) then HeadIfArray(Prop(data, "new_password"))
    else if Truthy(Prop(data, "token")) then Str(InvalidTokenMessage)
    else if Truthy(Prop(data, "uid")) then Str(InvalidLinkMessage)
    else ExtractedMessage(data, ConfirmDefault)
  }

  /** The confirm-reset precedence: a new_password error wins, then a token
      error, then a uid error, then the generic extraction; without response
      data the message is the plain default. */
  lemma ConfirmResetPrecedence(f: Fault)
    ensures !Truthy(ResponseData(f)) ==> ConfirmResetMessage(f) == Str(ConfirmDefault)
    ensures var d := ResponseData(f);
      Truthy(d) && Truthy(Prop(d, "new_password"))
      ==> ConfirmResetMessage(f) == HeadIfArray(Prop(d, "new_password"))
    ensures var d := ResponseData(f);
      Truthy(d) && !Truthy(Prop(d, "new_password")) && Truthy(Prop(d, "token"))
      ==> ConfirmResetMessage(f) == Str(InvalidTokenMessage)
    ensures var d := ResponseData(f);
      Truthy(d) && !Truthy(Prop(d, "new_password")) && !Truthy(Prop(d, "token")) && Truthy(Prop(d, "uid"))
      ==> ConfirmResetMessage(f) == Str(InvalidLinkMessage)
    ensures var d := ResponseData(f);
      Truthy(d) && !Truthy(Prop(d, "new_password")) && !Truthy(Prop(d, "token")) && !Truthy(Prop(d, "uid"))
      ==> ConfirmResetMessage(f) == ExtractedMessage(d, ConfirmDefault)
  {
  }

  // ===========================================================================
  // Headers
  // ===========================================================================

  /** `getAuthHeaders()`: always an Authorization header with the Bearer
      scheme, even when no token is stored (`Bearer null`). */
  function AuthHeaders(token: Option<string>): (h: map<string, string>)
    ensures h.Keys == {"Authorization"}
    ensures h["Authorization"] == BearerHeader(JsString(StoredVal(token)))
    ensures token.None? ==> h["Authorization"] == "Bearer null"
  {
    map["Authorization" := BearerHeader(JsString(StoredVal(token)))]
  }

  // ===========================================================================
  // Specifications of the actions
  // ===========================================================================

  function LogoutSpec(w: World): (r: World) {
    w.RemoveItem(AccessKey).RemoveItem(RefreshKey).Dispatch(Action(Tag.Logout, Undefined))
  }

  function RefreshFailure(w: World, f: Fault): (r: (World, Completion)) {
    var msg := ExtractedMessage(ResponseData(f), RefreshDefault);
    (LogoutSpec(w.Dispatch(Action(TokenRefreshFail, msg))), Threw(f))
  }

  /** refreshToken sends at most one request and never withdraws one. */
  function RefreshTokenSpec(w: World): (r: (World, Completion))
    ensures w.requests <= r.0.requests && |r.0.requests| <= |w.requests| + 1
  {
    var refresh := w.Get(RefreshKey);
    if !Truthy(StoredVal(refresh)) then
      (LogoutSpec(w.Dispatch(Action(TokenRefreshFail, Undefined))), Returned(Undefined))
    else
      var resp := w.Response();
      var w1 := w.Send(JwtRefresh, map[], map["refresh" := Str(refresh.value)]);
      match resp
      case Failed(f) => RefreshFailure(w1, f)
      case Ok(_, data) =>
        if data.Undefined? || data.Null? then RefreshFailure(w1, TypeError)
        else
          var access := Prop(data, "access");
          (w1.SetItem(AccessKey, JsString(access)).Dispatch(Action(TokenRefreshSuccess, data)),
           Returned(access))
  }

  /** The GET of the current profile, with the headers `getAuthHeaders` builds. */
  function FetchUser(w: World): (r: World) {
    w.Send(UsersMe, AuthHeaders(w.Get(AccessKey)), map[])
  }

  /** After a 401 on the profile fetch: await the refresh, then, unless it
      threw, retry the fetch once with the headers rebuilt. */
  function RenewThenRetry(w: World): (r: World)
    ensures w.requests <= r.requests && |r.requests| <= |w.requests| + 2
  {
    var p := RefreshTokenSpec(w);
    RetryUnlessThrew(p.0, p.1)
  }

  /** The retry step, once the refresh has completed with `c`: no request
      if the refresh threw, exactly one otherwise. */
  function RetryUnlessThrew(w: World, c: Completion): (r: World)
    ensures w.requests <= r.requests
    ensures |r.requests| == |w.requests| + (if c.Threw? then 0 else 1)
  {
    if c.Threw? then w.Dispatch(Action(UserLoadedFail, Str(LoadUserDefault)))
    else
      var retry := w.Response();
      var w1 := FetchUser(w);
      match retry
      case Ok(_, data) => w1.Dispatch(Action(UserLoadedSuccess, data))
      case Failed(_) => w1.Dispatch(Action(UserLoadedFail, Str(LoadUserDefault)))
  }

  function LoadUserSpec(w: World): (r: World) {
    if !Truthy(StoredVal(w.Get(AccessKey))) then
      w.Dispatch(Action(UserLoadedFail, Undefined))
    else
      var resp := w.Response();
      var w1 := FetchUser(w);
      match resp
      case Ok(_, data) => w1.Dispatch(Action(UserLoadedSuccess, data))
      case Failed(f) =>
        if IsUnauthorized(f) then RenewThenRetry(w1)
        else
          w1.Dispatch(Action(UserLoadedFail, ExtractedMessage(ResponseData(f), LoadUserDefault)))
  }

  /** As written: after a failed verify, the local constant `refreshToken`
      (the stored refresh string) shadows the action creator, so the call
      `refreshToken()` throws a TypeError before any request is made, and
      both branches end in AUTHENTICATED_FAIL. */
  function CheckAuthenticatedSpec(w: World): (r: World) {
    var access := w.Get(AccessKey);
    if !Truthy(StoredVal(access)) then
      w.Dispatch(Action(AuthenticatedFail, Undefined))
    else
      var resp := w.Response();
      var w1 := w.Send(JwtVerify, map[], map["token" := Str(access.value)]);
      match resp
      case Ok(status, _) =>
        if status == 200 then w1.Dispatch(Action(AuthenticatedSuccess, Undefined))
        else w1.Dispatch(Action(AuthenticatedFail, Undefined))
      case Failed(_) =>
        w1.Dispatch(Action(AuthenticatedFail, Undefined))
  }

  function LoginFailure(w: World, f: Fault): (r: (World, Completion)) {
    (w.Dispatch(Action(LoginFail, ExtractedMessage(ResponseData(f), LoginDefault))), Threw(f))
  }

  /** The state login reaches once the tokens are stored and LOGIN_SUCCESS is
      dispatched, just before it starts loadUser. */
  function LoginStored(w: World, data: Val): (r: World) {
    var w1 := w.SetItem(AccessKey, JsString(Prop(data, "access")));
    var w2 := if Truthy(Prop(data, "refresh")) then w1.SetItem(RefreshKey, JsString(Prop(data, "refresh"))) else w1;
    w2.Dispatch(Action(LoginSuccess, data))
  }

  /** What `LoginStored` writes: the access token always (unless storage
      throws), the refresh token only when the body has a truthy one, and
      LOGIN_SUCCESS with the body; no request. */
  lemma LoginStoredWrites(w: World, data: Val)
    ensures var mid := LoginStored(w, data);
      mid.log == w.log + [Action(LoginSuccess, data)]
      && mid.requests == w.requests
      && mid.faulting == w.faulting
      && (!w.faulting ==> mid.Get(AccessKey) == Some(JsString(Prop(data, "access"))))
      && (!w.faulting && Truthy(Prop(data, "refresh"))
          ==> mid.Get(RefreshKey) == Some(JsString(Prop(data, "refresh"))))
      && (!Truthy(Prop(data, "refresh")) ==> mid.Get(RefreshKey) == w.Get(RefreshKey))
  {
  }

  function Credentials(email: string, password: string): (r: map<string, Val>) {
    map["email" := Str(email), "password" := Str(password)]
  }

  function LoginSpec(w: World, email: string, password: string): (r: (World, Completion)) {
    var w1 := w.Dispatch(Action(LoginRequest, Undefined));
    var resp := w1.Response();
    var w2 := w1.Send(JwtCreate, map[], Credentials(email, password));
    match resp
    case Failed(f) => LoginFailure(w2, f)
    case Ok(_, data) =>
      if data.Undefined? || data.Null? then LoginFailure(w2, TypeError)
      else (LoadUserSpec(LoginStored(w2, data)), Returned(Undefined))
  }

  function Registration(firstName: string, lastName: string, email: string, password: string, confirmPassword: string): (r: map<string, Val>) {
    map["first_name" := Str(firstName), "last_name" := Str(lastName), "email" := Str(email),
        "password" := Str(password), "re_password" := Str(confirmPassword)]
  }

  function SignupSpec(w: World, firstName: string, lastName: string, email: string, password: string, confirmPassword: string): (r: (World, Completion)) {
    var w1 := w.Dispatch(Action(SignupRequest, Undefined));
    var resp := w1.Response();
    var w2 := w1.Send(Users, map[], Registration(firstName, lastName, email, password, confirmPassword));
    match resp
    case Ok(status, data) => (w2.Dispatch(Action(SignupSuccess, data)), Responded(status, data))
    case Failed(f) =>
      var msg := ExtractedMessage(ResponseData(f), SignupDefault);
      (w2.Dispatch(Action(SignupFail, msg)), Threw(ErrorObject(msg)))
  }

  /** The shape shared by verifyEmail and resetPassword: request action, one
      POST, a fixed success message or the extracted error, then rethrow. */
  function SimplePostSpec(w: World, start: Tag, endpoint: Endpoint, body: map<string, Val>,
                          success: Tag, successMessage: string, fail: Tag, default: string): (r: (World, Completion))
  {
    var w1 := w.Dispatch(Action(start, Undefined));
    var resp := w1.Response();
    var w2 := w1.Send(endpoint, map[], body);
    match resp
    case Ok(_, _) => (w2.Dispatch(Action(success, Str(successMessage))), Returned(Undefined))
    case Failed(f) => (w2.Dispatch(Action(fail, ExtractedMessage(ResponseData(f), default))), Threw(f))
  }

  function VerifyEmailSpec(w: World, uid: string, token: string): (r: (World, Completion)) {
    SimplePostSpec(w, ActivationRequest, Activation, map["uid" := Str(uid), "token" := Str(token)],
                   ActivationSuccess, ActivatedMessage, ActivationFail, ActivationDefault)
  }

  function ResetPasswordSpec(w: World, email: string): (r: (World, Completion)) {
    SimplePostSpec(w, PasswordResetRequest, Endpoint.ResetPassword, map["email" := Str(email)],
                   PasswordResetSuccess, ResetSentMessage, PasswordResetFail, ResetDefault)
  }

  function ResetConfirmation(uid: string, token: string, newPassword: string, confirmNewPassword: string): (r: map<string, Val>) {
    map["uid" := Str(uid), "token" := Str(token), "new_password" := Str(newPassword),
        "re_new_password" := Str(confirmNewPassword)]
  }

  function ConfirmPasswordResetSpec(w: World, uid: string, token: string, newPassword: string, confirmNewPassword: string): (r: (World, Completion)) {
    var w1 := w.Dispatch(Action(PasswordResetConfirmRequest, Undefined));
    var resp := w1.Response();
    var w2 := w1.Send(ResetPasswordConfirm, map[], ResetConfirmation(uid, token, newPassword, confirmNewPassword));
    match resp
    case Ok(_, _) => (w2.Dispatch(Action(PasswordResetConfirmSuccess, Str(ResetDoneMessage))), Returned(Undefined))
    case Failed(f) => (w2.Dispatch(Action(PasswordResetConfirmFail, ConfirmResetMessage(f))), Threw(f))
  }

  // ===========================================================================
  // The actions
  // ===========================================================================

  method Logout(env: Env)
    modifies env
    ensures env.View() == LogoutSpec(old(env.View()))
  {
    env.RemoveItem(AccessKey);
    env.RemoveItem(RefreshKey);
    env.Dispatch(Action(Tag.Logout, Undefined));
  }

  method RefreshToken(env: Env) returns (c: Completion)
    modifies env
    ensures (env.View(), c) == RefreshTokenSpec(old(env.View()))
  {
    var refresh := env.View().Get(RefreshKey);
    if !Truthy(StoredVal(refresh)) {
      env.Dispatch(Action(TokenRefreshFail, Undefined));
      Logout(env);
      return Returned(Undefined);
    }
    var resp := env.Send(JwtRefresh, map[], map["refresh" := Str(refresh.value)]);
    var fault: Fault;
    match resp {
      case Ok(_, data) =>
        if !(data.Undefined? || data.Null?) {
          var access := Prop(data, "access");
          env.SetItem(AccessKey, JsString(access));
          env.Dispatch(Action(TokenRefreshSuccess, data));
          return Returned(access);
        }
        fault := TypeError;
      case Failed(f) =>
        fault := f;
    }
    var msg := ExtractErrorMessage(ResponseData(fault), RefreshDefault);
    env.Dispatch(Action(TokenRefreshFail, msg));
    Logout(env);
    return Threw(fault);
  }

  method LoadUser(env: Env)
    modifies env
    ensures env.View() == LoadUserSpec(old(env.View()))
  {
    var access := env.View().Get(AccessKey);
    if !Truthy(StoredVal(access)) {
      env.Dispatch(Action(UserLoadedFail, Undefined));
      return;
    }
    var resp := env.Send(UsersMe, AuthHeaders(env.View().Get(AccessKey)), map[]);
    match resp {
      case Ok(_, data) =>
        env.Dispatch(Action(UserLoadedSuccess, data));
      case Failed(f) =>
        if IsUnauthorized(f) {
          var c := RefreshToken(env);
          if c.Threw? {
            env.Dispatch(Action(UserLoadedFail, Str(LoadUserDefault)));
            return;
          }
          var retry := env.Send(UsersMe, AuthHeaders(env.View().Get(AccessKey)), map[]);
          match retry {
            case Ok(_, data) => env.Dispatch(Action(UserLoadedSuccess, data));
            case Failed(_) => env.Dispatch(Action(UserLoadedFail, Str(LoadUserDefault)));
          }
        } else {
          var msg := ExtractErrorMessage(ResponseData(f), LoadUserDefault);
          env.Dispatch(Action(UserLoadedFail, msg));
        }
    }
  }

  method CheckAuthenticated(env: Env)
    modifies env
    ensures env.View() == CheckAuthenticatedSpec(old(env.View()))
  {
    var access := env.View().Get(AccessKey);
    if !Truthy(StoredVal(access)) {
      env.Dispatch(Action(AuthenticatedFail, Undefined));
      return;
    }
    var resp := env.Send(JwtVerify, map[], map["token" := Str(access.value)]);
    match resp {
      case Ok(status, _) =>
        if status == 200 {
          env.Dispatch(Action(AuthenticatedSuccess, Undefined));
        } else {
          env.Dispatch(Action(AuthenticatedFail, Undefined));
        }
      case Failed(_) =>
        // The local `refreshToken` is the stored string, not the action
        // creator: calling it throws, and the inner catch reports failure;
        // without a stored refresh token the else branch reports the same.
        var refreshToken := env.View().Get(RefreshKey);
        env.Dispatch(Action(AuthenticatedFail, Undefined));
    }
  }

  method Login(env: Env, email: string, password: string) returns (c: Completion)
    modifies env
    ensures (env.View(), c) == LoginSpec(old(env.View()), email, password)
  {
    env.Dispatch(Action(LoginRequest, Undefined));
    var resp := env.Send(JwtCreate, map[], Credentials(email, password));
    var fault: Fault;
    match resp {
      case Ok(_, data) =>
        if !(data.Undefined? || data.Null?) {
          env.SetItem(AccessKey, JsString(Prop(data, "access")));
          if Truthy(Prop(data, "refresh")) {
            env.SetItem(RefreshKey, JsString(Prop(data, "refresh")));
          }
          env.Dispatch(Action(LoginSuccess, data));
          LoadUser(env);
          return Returned(Undefined);
        }
        fault := TypeError;
      case Failed(f) =>
        fault := f;
    }
    var msg := ExtractErrorMessage(ResponseData(fault), LoginDefault);
    env.Dispatch(Action(LoginFail, msg));
    return Threw(fault);
  }

  method Signup(env: Env, firstName: string, lastName: string, email: string, password: string, confirmPassword: string)
    returns (c: Completion)
    modifies env
    ensures (env.View(), c) == SignupSpec(old(env.View()), firstName, lastName, email, password, confirmPassword)
  {
    env.Dispatch(Action(SignupRequest, Undefined));
    var resp := env.Send(Users, map[], Registration(firstName, lastName, email, password, confirmPassword));
    match resp {
      case Ok(status, data) =>
        env.Dispatch(Action(SignupSuccess, data));
        return Responded(status, data);
      case Failed(f) =>
        var msg := ExtractErrorMessage(ResponseData(f), SignupDefault);
        env.Dispatch(Action(SignupFail, msg));
        return Threw(ErrorObject(msg));
    }
  }

  method VerifyEmail(env: Env, uid: string, token: string) returns (c: Completion)
    modifies env
    ensures (env.View(), c) == VerifyEmailSpec(old(env.View()), uid, token)
  {
    env.Dispatch(Action(ActivationRequest, Undefined));
    var resp := env.Send(Activation, map[], map["uid" := Str(uid), "token" := Str(token)]);
    match resp {
      case Ok(_, _) =>
        env.Dispatch(Action(ActivationSuccess, Str(ActivatedMessage)));
        return Returned(Undefined);
      case Failed(f) =>
        var msg := ExtractErrorMessage(ResponseData(f), ActivationDefault);
        env.Dispatch(Action(ActivationFail, msg));
        return Threw(f);
    }
  }

  method ResetPassword(env: Env, email: string) returns (c: Completion)
    modifies env
    ensures (env.View(), c) == ResetPasswordSpec(old(env.View()), email)
  {
    env.Dispatch(Action(PasswordResetRequest, Undefined));
    var resp := env.Send(Endpoint.ResetPassword, map[], map["email" := Str(email)]);
    match resp {
      case Ok(_, _) =>
        env.Dispatch(Action(PasswordResetSuccess, Str(ResetSentMessage)));
        return Returned(Undefined);
      case Failed(f) =>
        var msg := ExtractErrorMessage(ResponseData(f), ResetDefault);
        env.Dispatch(Action(PasswordResetFail, msg));
        return Threw(f);
    }
  }

  method ConfirmPasswordReset(env: Env, uid: string, token: string, newPassword: string, confirmNewPassword: string)
    returns (c: Completion)
    modifies env
    ensures (env.View(), c) == ConfirmPasswordResetSpec(old(env.View()), uid, token, newPassword, confirmNewPassword)
  {
    env.Dispatch(Action(PasswordResetConfirmRequest, Undefined));
    var resp := env.Send(ResetPasswordConfirm, map[], ResetConfirmation(uid, token, newPassword, confirmNewPassword));
    match resp {
      case Ok(_, _) =>
        env.Dispatch(Action(PasswordResetConfirmSuccess, Str(ResetDoneMessage)));
        return Returned(Undefined);
      case Failed(f) =>
        var msg := ConfirmResetMessage(f);
        env.Dispatch(Action(PasswordResetConfirmFail, msg));
        return Threw(f);
    }
  }

  // ===========================================================================
  // Properties of the actions
  // ===========================================================================

  /** logout removes both tokens, dispatches exactly one LOGOUT and issues
      no request; it cannot fail, and a second logout leaves the same empty
      store and dispatches the same notification again. */
  lemma LogoutClearsBothTokens(w: World)
    ensures var w' := LogoutSpec(w);
      w'.Get(AccessKey).None? && w'.Get(RefreshKey).None?
      && (forall k :: k != AccessKey && k != RefreshKey ==> w'.Get(k) == w.Get(k))
      && w'.log == w.log + [Action(Tag.Logout, Undefined)]
      && w'.requests == w.requests && w'.responses == w.responses && w'.redirected == w.redirected
    ensures var w' := LogoutSpec(w);
      LogoutSpec(w').storage == w'.storage
      && LogoutSpec(w').log == w'.log + [Action(Tag.Logout, Undefined)]
  {
  }

  /** The world login has reached just after its create-session request. */
  function AfterCreate(w: World, email: string, password: string): (r: World) {
    w.Dispatch(Action(LoginRequest, Undefined)).Send(JwtCreate, map[], Credentials(email, password))
  }

  /** A successful login always writes the access token, writes the refresh
      token only when the response has a truthy one, dispatches LOGIN_SUCCESS
      with the response body, and then runs loadUser. */
  lemma LoginSuccessStoresTokensThenLoadsUser(w: World, email: string, password: string)
    requires w.Response().Ok? && !(w.Response().data.Undefined? || w.Response().data.Null?)
    ensures var data := w.Response().data;
      var mid := LoginStored(AfterCreate(w, email, password), data);
      LoginSpec(w, email, password) == (LoadUserSpec(mid), Returned(Undefined))
      && mid.log == w.log + [Action(LoginRequest, Undefined), Action(LoginSuccess, data)]
      && mid.requests == w.requests + [Request(JwtCreate, w.Authorize(map[]), Credentials(email, password))]
      && (!w.faulting ==> mid.Get(AccessKey) == Some(JsString(Prop(data, "access"))))
      && (!w.faulting && Truthy(Prop(data, "refresh"))
          ==> mid.Get(RefreshKey) == Some(JsString(Prop(data, "refresh"))))
      && (!Truthy(Prop(data, "refresh")) ==> mid.Get(RefreshKey) == w.Get(RefreshKey))
  {
    var w1 := w.Dispatch(Action(LoginRequest, Undefined));
    assert w1.Response() == w.Response();
    assert w1.Authorize(map[]) == w.Authorize(map[]);
  }

  /** A failed login (an error response, no response, or an unreadable body)
      writes nothing to storage, dispatches LOGIN_FAIL with the extracted
      message and rethrows. */
  lemma LoginFailureWritesNothing(w: World, email: string, password: string)
    requires w.Response().Failed? || w.Response().data.Undefined? || w.Response().data.Null?
    ensures var fault := if w.Response().Failed? then w.Response().fault else TypeError;
      var (w', c) := LoginSpec(w, email, password);
      w'.storage == w.storage
      && w'.log == w.log + [Action(LoginRequest, Undefined),
                            Action(LoginFail, ExtractedMessage(ResponseData(fault), LoginDefault))]
      && c == Threw(fault)
      && |w'.requests| == |w.requests| + 1
  {
    var w1 := w.Dispatch(Action(LoginRequest, Undefined));
    assert w1.Response() == w.Response();
  }

  /** Without a stored access token, checkAuthenticated and loadUser report
      failure at once and issue no request. */
  lemma NoAccessTokenNoRequest(w: World)
    requires !Truthy(StoredVal(w.Get(AccessKey)))
    ensures CheckAuthenticatedSpec(w).requests == w.requests
      && CheckAuthenticatedSpec(w).log == w.log + [Action(AuthenticatedFail, Undefined)]
    ensures LoadUserSpec(w).requests == w.requests
      && LoadUserSpec(w).log == w.log + [Action(UserLoadedFail, Undefined)]
  {
  }

  /** As written, checkAuthenticated never calls the refresh endpoint and
      never touches storage: it issues at most the verify request, reports
      success exactly when that request answers 200, and reports failure
      after any failed verify even when a refresh token is stored. */
  lemma CheckAuthenticatedNeverRefreshes(w: World)
    ensures var w' := CheckAuthenticatedSpec(w);
      w'.storage == w.storage
      && |w.requests| <= |w'.requests| <= |w.requests| + 1
      && (forall i :: |w.requests| <= i < |w'.requests| ==> w'.requests[i].endpoint == JwtVerify)
      && |w'.log| == |w.log| + 1 && w'.log[..|w.log|] == w.log
    ensures var w' := CheckAuthenticatedSpec(w);
      w'.log[|w.log|] == Action(AuthenticatedSuccess, Undefined)
      <==> Truthy(StoredVal(w.Get(AccessKey))) && w.Response().Ok? && w.Response().status == 200
    ensures Truthy(StoredVal(w.Get(AccessKey))) && w.Response().Failed?
      ==> CheckAuthenticatedSpec(w).log == w.log + [Action(AuthenticatedFail, Undefined)]
  {
    var w' := CheckAuthenticatedSpec(w);
    assert w'.log[..|w.log|] == w.log;
  }

  /** refreshToken without a stored refresh token: TOKEN_REFRESH_FAIL, then
      logout, and no request. */
  lemma RefreshWithoutTokenLogsOut(w: World)
    requires !Truthy(StoredVal(w.Get(RefreshKey)))
    ensures var (w', c) := RefreshTokenSpec(w);
      w'.requests == w.requests
      && w'.log == w.log + [Action(TokenRefreshFail, Undefined), Action(Tag.Logout, Undefined)]
      && w'.Get(AccessKey).None? && w'.Get(RefreshKey).None?
      && c == Returned(Undefined)
  {
  }

  /** refreshToken success stores the new access token (keeping the refresh
      token), dispatches TOKEN_REFRESH_SUCCESS and returns the token; failure
      dispatches TOKEN_REFRESH_FAIL with the extracted message, logs out and
      rethrows; an answer without a body throws a TypeError at
      `response.data.access`, which the same catch reports with the default.
      Either way exactly one request, to the refresh endpoint, with the
      stored refresh token. */
  lemma RefreshWithTokenOutcomes(w: World)
    requires Truthy(StoredVal(w.Get(RefreshKey)))
    ensures var (w', c) := RefreshTokenSpec(w);
      w'.requests == w.requests + [Request(JwtRefresh, w.Authorize(map[]), map["refresh" := Str(w.Get(RefreshKey).value)])]
    ensures var (w', c) := RefreshTokenSpec(w);
      w.Response().Ok? && !(w.Response().data.Undefined? || w.Response().data.Null?)
      ==> var access := Prop(w.Response().data, "access");
          c == Returned(access)
          && w'.log == w.log + [Action(TokenRefreshSuccess, w.Response().data)]
          && w'.Get(AccessKey) == (if w.faulting then None else Some(JsString(access)))
          && w'.Get(RefreshKey) == w.Get(RefreshKey)
    ensures var (w', c) := RefreshTokenSpec(w);
      w.Response().Failed?
      ==> c == Threw(w.Response().fault)
          && w'.log == w.log + [Action(TokenRefreshFail, ExtractedMessage(ResponseData(w.Response().fault), RefreshDefault)),
                                Action(Tag.Logout, Undefined)]
          && w'.Get(AccessKey).None? && w'.Get(RefreshKey).None?
    ensures var (w', c) := RefreshTokenSpec(w);
      w.Response().Ok? && (w.Response().data.Undefined? || w.Response().data.Null?)
      ==> c == Threw(TypeError)
          && w'.log == w.log + [Action(TokenRefreshFail, Str(RefreshDefault)), Action(Tag.Logout, Undefined)]
          && w'.Get(AccessKey).None? && w'.Get(RefreshKey).None?
  {
  }

  /** The round trip of a successful login: with working storage, after the
      server answers `{access: A, refresh: R}` the store holds A and R, and
      the very next request (loadUser's profile fetch) carries
      `Authorization: Bearer A`; if that fetch succeeds the tokens are still there. */
  lemma LoginRoundTrip(w: World, email: string, password: string, a: string, r: string, profile: Val)
    requires !w.faulting && w.bearerInterceptor && a != "" && r != ""
    requires |w.responses| >= 2
    requires w.responses[0] == Ok(200, Obj(map["access" := Str(a), "refresh" := Str(r)]))
    requires w.responses[1] == Ok(200, profile)
    ensures var (w', c) := LoginSpec(w, email, password);
      c == Returned(Undefined)
      && w'.Get(AccessKey) == Some(a) && w'.Get(RefreshKey) == Some(r)
      && |w'.requests| == |w.requests| + 2
      && w'.requests[|w.requests| + 1].endpoint == UsersMe
      && w'.requests[|w.requests| + 1].headers["Authorization"] == BearerHeader(a)
      && w'.log == w.log + [Action(LoginRequest, Undefined),
                            Action(LoginSuccess, w.responses[0].data),
                            Action(UserLoadedSuccess, profile)]
  {
    var data := w.responses[0].data;
    LoginSuccessStoresTokensThenLoadsUser(w, email, password);
    var mid := LoginStored(AfterCreate(w, email, password), data);
    assert mid.Get(AccessKey) == Some(a);
    assert mid.responses == w.responses[1..];
  }

  /** With a storage that throws on every call nothing is ever stored or
      read, and a successful login still completes normally: loadUser finds
      no token and reports USER_LOADED_FAIL without a request. */
  lemma FaultingStorageIsContained(w: World, email: string, password: string)
    requires w.faulting
    ensures LogoutSpec(w).storage == w.storage
    ensures RefreshTokenSpec(w).0.storage == w.storage
    ensures LoadUserSpec(w).storage == w.storage
    ensures LoginSpec(w, email, password).0.storage == w.storage
    ensures w.Response().Ok? && w.Response().data.Obj?
      ==> LoginSpec(w, email, password).1 == Returned(Undefined)
          && LoginSpec(w, email, password).0.log
             == w.log + [Action(LoginRequest, Undefined), Action(LoginSuccess, w.Response().data),
                         Action(UserLoadedFail, Undefined)]
  {
    var w1 := w.Dispatch(Action(LoginRequest, Undefined));
    assert w1.Response() == w.Response();
  }

  /** A signup the server rejects with `{email: ["already registered"]}`
      reports exactly that message, stores nothing and throws it. */
  lemma SignupRejectedScenario(w: World, firstName: string, lastName: string, email: string, password: string)
    requires w.responses != []
    requires w.responses[0] == Failed(HttpError(400, Obj(map["email" := Arr([Str("already registered")])])))
    ensures var (w', c) := SignupSpec(w, firstName, lastName, email, password, password);
      w'.log == w.log + [Action(SignupRequest, Undefined), Action(SignupFail, Str("already registered"))]
      && w'.storage == w.storage
      && c == Threw(ErrorObject(Str("already registered")))
  {
    var data := Obj(map["email" := Arr([Str("already registered")])]);
    assert Prop(data, "email") == Arr([Str("already registered")]);
    var w1 := w.Dispatch(Action(SignupRequest, Undefined));
    assert w1.Response() == w.responses[0];
  }

  /** A reset confirmation the server rejects with `{token: ["invalid"]}`
      reports "Invalid or expired reset token". */
  lemma ConfirmResetBadTokenScenario(w: World, uid: string, token: string, newPassword: string)
    requires w.responses != []
    requires w.responses[0] == Failed(HttpError(400, Obj(map["token" := Arr([Str("invalid")])])))
    ensures var (w', c) := ConfirmPasswordResetSpec(w, uid, token, newPassword, newPassword);
      w'.log == w.log + [Action(PasswordResetConfirmRequest, Undefined),
                         Action(PasswordResetConfirmFail, Str(InvalidTokenMessage))]
  {
    var data := Obj(map["token" := Arr([Str("invalid")])]);
    assert Prop(data, "new_password") == Undefined;
    assert Prop(data, "token") == Arr([Str("invalid")]);
    var w1 := w.Dispatch(Action(PasswordResetConfirmRequest, Undefined));
    assert w1.Response() == w.responses[0];
  }

  /** verifyEmail and resetPassword never touch storage and issue exactly
      one request; success dispatches the fixed message and resolves, failure
      dispatches the extracted message and rethrows. */
  lemma SimplePostOutcomes(w: World, start: Tag, endpoint: Endpoint, body: map<string, Val>,
                           success: Tag, successMessage: string, fail: Tag, default: string)
    ensures var (w', c) := SimplePostSpec(w, start, endpoint, body, success, successMessage, fail, default);
      w'.storage == w.storage
      && w'.requests == w.requests + [Request(endpoint, w.Authorize(map[]), body)]
      && (w.Response().Ok? ==>
            c == Returned(Undefined)
            && w'.log == w.log + [Action(start, Undefined), Action(success, Str(successMessage))])
      && (w.Response().Failed? ==>
            c == Threw(w.Response().fault)
            && w'.log == w.log + [Action(start, Undefined),
                                  Action(fail, ExtractedMessage(ResponseData(w.Response().fault), default))])
  {
    var w1 := w.Dispatch(Action(start, Undefined));
    assert w1.Response() == w.Response();
    assert w1.Authorize(map[]) == w.Authorize(map[]);
  }

  /** confirmPasswordReset never touches storage and issues exactly one
      request; success dispatches the fixed message, failure the message of
      the confirm-reset precedence, and rethrows. */
  lemma ConfirmResetOutcomes(w: World, uid: string, token: string, p1: string, p2: string)
    ensures var (w', c) := ConfirmPasswordResetSpec(w, uid, token, p1, p2);
      w'.storage == w.storage
      && w'.requests == w.requests + [Request(ResetPasswordConfirm, w.Authorize(map[]), ResetConfirmation(uid, token, p1, p2))]
      && (w.Response().Ok? ==>
            c == Returned(Undefined)
            && w'.log == w.log + [Action(PasswordResetConfirmRequest, Undefined),
                                  Action(PasswordResetConfirmSuccess, Str(ResetDoneMessage))])
      && (w.Response().Failed? ==>
            c == Threw(w.Response().fault)
            && w'.log == w.log + [Action(PasswordResetConfirmRequest, Undefined),
                                  Action(PasswordResetConfirmFail, ConfirmResetMessage(w.Response().fault))])
  {
    var w1 := w.Dispatch(Action(PasswordResetConfirmRequest, Undefined));
    assert w1.Response() == w.Response();
    assert w1.Authorize(map[]) == w.Authorize(map[]);
  }

  /** signup never touches storage and issues exactly one request, the
      registration with its five fields; success dispatches SIGNUP_SUCCESS
      with the body and resolves with the whole response, failure dispatches
      SIGNUP_FAIL with the extracted message and throws an Error carrying it. */
  lemma SignupOutcomes(w: World, firstName: string, lastName: string, email: string, password: string, confirmPassword: string)
    ensures var (w', c) := SignupSpec(w, firstName, lastName, email, password, confirmPassword);
      w'.storage == w.storage
      && w'.requests == w.requests + [Request(Users, w.Authorize(map[]), Registration(firstName, lastName, email, password, confirmPassword))]
      && (w.Response().Ok? ==>
            c == Responded(w.Response().status, w.Response().data)
            && w'.log == w.log + [Action(SignupRequest, Undefined), Action(SignupSuccess, w.Response().data)])
      && (w.Response().Failed? ==>
            var msg := ExtractedMessage(ResponseData(w.Response().fault), SignupDefault);
            c == Threw(ErrorObject(msg))
            && w'.log == w.log + [Action(SignupRequest, Undefined), Action(SignupFail, msg)])
  {
    var w1 := w.Dispatch(Action(SignupRequest, Undefined));
    assert w1.Response() == w.Response();
    assert w1.Authorize(map[]) == w.Authorize(map[]);
  }

  /** What loadUser reports once its retried profile fetch has settled. */
  function RetryReport(o: Outcome): (r: Action) {
    if o.Ok? then Action(UserLoadedSuccess, o.data) else Action(UserLoadedFail, Str(LoadUserDefault))
  }

  /** The profile fetch loadUser sends first, with the headers `getAuthHeaders` builds. */
  function ProfileFetch(w: World): (r: Request) {
    Request(UsersMe, w.Authorize(AuthHeaders(w.Get(AccessKey))), map[])
  }

  /** loadUser with a stored access token, when the profile fetch does not
      answer 401: a success reports the profile, any other failure reports
      the extracted message; neither sends anything else or touches storage. */
  lemma LoadUserOutcomes(w: World)
    requires Truthy(StoredVal(w.Get(AccessKey)))
    ensures w.Response().Ok? ==> var w' := LoadUserSpec(w);
      w'.requests == w.requests + [ProfileFetch(w)] && w'.storage == w.storage
      && w'.log == w.log + [Action(UserLoadedSuccess, w.Response().data)]
    ensures w.Response().Failed? && !IsUnauthorized(w.Response().fault) ==> var w' := LoadUserSpec(w);
      w'.requests == w.requests + [ProfileFetch(w)] && w'.storage == w.storage
      && w'.log == w.log + [Action(UserLoadedFail, ExtractedMessage(ResponseData(w.Response().fault), LoadUserDefault))]
  {
    var w' := LoadUserSpec(w);
    var w1 := FetchUser(w);
    assert w1.requests == w.requests + [ProfileFetch(w)];
    if w.Response().Ok? {
      assert w' == w1.Dispatch(Action(UserLoadedSuccess, w.Response().data));
    } else if !IsUnauthorized(w.Response().fault) {
      assert w' == w1.Dispatch(Action(UserLoadedFail, ExtractedMessage(ResponseData(w.Response().fault), LoadUserDefault)));
    }
  }

  /** Whatever happens next, the first request loadUser sends with a
      stored access token is the profile fetch. */
  lemma LoadUserFetchesFirst(w: World)
    requires Truthy(StoredVal(w.Get(AccessKey)))
    ensures var w' := LoadUserSpec(w);
      w.requests + [ProfileFetch(w)] <= w'.requests
  {
    var w1 := FetchUser(w);
    assert w1.requests == w.requests + [ProfileFetch(w)];
    var resp := w.Response();
    if resp.Failed? && IsUnauthorized(resp.fault) {
      assert LoadUserSpec(w) == RenewThenRetry(w1);
    }
  }

  /** The refresh request loadUser's renewal sends. */
  function RenewalRequest(w: World): (r: Request)
    requires w.Get(RefreshKey).Some?
  {
    Request(JwtRefresh, w.Authorize(map[]), map["refresh" := Str(w.Get(RefreshKey).value)])
  }

  /** loadUser after a 401 with a refresh token stored, when the refresh
      fails (or answers without a body): exactly one refresh request follows
      the fetch, both tokens are gone, USER_LOADED_FAIL reports the fixed
      message, and no retry is sent. */
  lemma LoadUserGivesUpWhenRenewalFails(w: World)
    requires Truthy(StoredVal(w.Get(AccessKey))) && Truthy(StoredVal(w.Get(RefreshKey)))
    requires w.Response().Failed? && IsUnauthorized(w.Response().fault)
    requires w.Upcoming(1).Failed? || w.Upcoming(1).data.Undefined? || w.Upcoming(1).data.Null?
    ensures var w' := LoadUserSpec(w);
      var f := if w.Upcoming(1).Failed? then w.Upcoming(1).fault else TypeError;
      w'.requests == w.requests + [ProfileFetch(w), RenewalRequest(w)]
      && w'.Get(AccessKey).None? && w'.Get(RefreshKey).None?
      && w'.log == w.log + [Action(TokenRefreshFail, ExtractedMessage(ResponseData(f), RefreshDefault)),
                            Action(Tag.Logout, Undefined), Action(UserLoadedFail, Str(LoadUserDefault))]
  {
    var w1 := FetchUser(w);
    assert w1.Response() == w.Upcoming(1);
    assert w1.Get(RefreshKey) == w.Get(RefreshKey);
    assert w1.Authorize(map[]) == w.Authorize(map[]);
    RefreshWithTokenOutcomes(w1);
  }

  /** loadUser after a 401 with a refresh token stored, when the refresh
      succeeds: one refresh request, then exactly one retry of the fetch
      carrying the access token just stored, whose outcome is reported. */
  lemma LoadUserRetriesAfterRenewal(w: World)
    requires Truthy(StoredVal(w.Get(AccessKey))) && Truthy(StoredVal(w.Get(RefreshKey)))
    requires w.Response().Failed? && IsUnauthorized(w.Response().fault)
    requires w.Upcoming(1).Ok? && !(w.Upcoming(1).data.Undefined? || w.Upcoming(1).data.Null?)
    ensures var w' := LoadUserSpec(w);
      var access := JsString(Prop(w.Upcoming(1).data, "access"));
      w'.requests == w.requests + [ProfileFetch(w), RenewalRequest(w), Request(UsersMe, AuthHeaders(Some(access)), map[])]
      && w'.Get(AccessKey) == Some(access) && w'.Get(RefreshKey) == w.Get(RefreshKey)
      && w'.log == w.log + [Action(TokenRefreshSuccess, w.Upcoming(1).data), RetryReport(w.Upcoming(2))]
  {
    var w1 := FetchUser(w);
    assert w1.Response() == w.Upcoming(1);
    assert w1.Get(RefreshKey) == w.Get(RefreshKey);
    assert w1.Authorize(map[]) == w.Authorize(map[]);
    RefreshWithTokenOutcomes(w1);
    var (w2, c) := RefreshTokenSpec(w1);
    var access := JsString(Prop(w.Upcoming(1).data, "access"));
    assert !c.Threw?;
    assert w2.requests == w.requests + [ProfileFetch(w), RenewalRequest(w)];
    assert w2.Get(AccessKey) == Some(access);
    assert w2.Response() == w.Upcoming(2);
    assert w2.Authorize(AuthHeaders(Some(access))) == AuthHeaders(Some(access));
    assert LoadUserSpec(w) == FetchUser(w2).Dispatch(RetryReport(w.Upcoming(2)));
  }

  /** loadUser after a 401 with no refresh token stored: refreshToken logs
      out and returns without throwing, so the fetch is retried once, now
      with `Bearer null`, and its outcome is reported. */
  lemma LoadUserRetriesWithoutRefreshToken(w: World)
    requires Truthy(StoredVal(w.Get(AccessKey))) && !Truthy(StoredVal(w.Get(RefreshKey)))
    requires w.Response().Failed? && IsUnauthorized(w.Response().fault)
    ensures var w' := LoadUserSpec(w);
      w'.requests == w.requests + [ProfileFetch(w), Request(UsersMe, AuthHeaders(None), map[])]
      && w'.Get(AccessKey).None? && w'.Get(RefreshKey).None?
      && w'.log == w.log + [Action(TokenRefreshFail, Undefined), Action(Tag.Logout, Undefined), RetryReport(w.Upcoming(1))]
  {
    var w1 := FetchUser(w);
    assert w1.Get(RefreshKey) == w.Get(RefreshKey);
    var w2 := LogoutSpec(w1.Dispatch(Action(TokenRefreshFail, Undefined)));
    assert RefreshTokenSpec(w1) == (w2, Returned(Undefined));
    assert w2.Response() == w.Upcoming(1);
    assert w2.Get(AccessKey) == None;
    assert w2.Authorize(AuthHeaders(None)) == AuthHeaders(None);
    var w3 := FetchUser(w2);
    assert w3.requests == w.requests + [ProfileFetch(w), Request(UsersMe, AuthHeaders(None), map[])];
    assert LoadUserSpec(w) == w3.Dispatch(RetryReport(w.Upcoming(1)));
  }
}
