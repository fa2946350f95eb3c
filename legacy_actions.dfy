/** The earlier session actions of src/containers/initialauth.jsx. They call
    the same endpoints and dispatch the same action types as module
    AuthActions, but they send explicit JSON headers, use the `JWT`
    Authorization scheme, build each error message with its own `||` chain
    instead of one shared extractor, and only signup, refreshToken and the
    user load report failure to their caller. No request interceptor adds
    tokens here: the worlds these actions run in have `bearerInterceptor`
    off, and their renewal interceptor is `Renewal.Idle(JwtScheme)`.
    Logout is the same code in both files and is `AuthActions.LogoutSpec`. */
module LegacyActions {
  import opened JsValue
  import opened Http
  import opened AuthReducer
  import opened Browser
  import opened AuthActions

  /** The scheme of the Authorization headers this file builds and replays. */
  const JwtScheme := "JWT"

  /** `{'Content-Type': 'application/json'}`, sent with every POST. */
  const JsonHeaders: map<string, string> := map["Content-Type" := "application/json"]

  /** The verify POST also sends `Accept: application/json`. */
  const JsonAcceptHeaders: map<string, string> := JsonHeaders["Accept" := "application/json"]

  /** `getAuthHeaders()`: JSON content headers, plus `Authorization: JWT <token>`
      only when a non-empty token is stored. */
  function LegacyAuthHeaders(token: Option<string>): (h: map<string, string>)
    ensures "Content-Type" in h && h["Content-Type"] == "application/json"
    ensures "Accept" in h && h["Accept"] == "application/json"
    ensures "Authorization" in h <==> Truthy(StoredVal(token))
    ensures "Authorization" in h ==> h["Authorization"] == JwtScheme + " " + token.value
    ensures h.Keys <= {"Content-Type", "Accept", "Authorization"}
  {
    if Truthy(StoredVal(token)) then JsonAcceptHeaders["Authorization" := JwtScheme + " " + token.value]
    else JsonAcceptHeaders
  }

  // ===========================================================================
  // Error messages
  // ===========================================================================

  /** `err.response?.data?.detail || default`: refreshToken, and the user
      load on errors other than 401. */
  function DetailOr(f: Fault, default: string): (r: Val)
    ensures default != "" ==> Truthy(r)
    ensures Truthy(Prop(ResponseData(f), "detail")) ==> r == Prop(ResponseData(f), "detail")
    ensures !Truthy(Prop(ResponseData(f), "detail")) ==> r == Str(default)
  {
    Or(Prop(ResponseData(f), "detail"), Str(default))
  }

  /** login: detail, else the first character or element of
      non_field_errors, else the default. */
  function LoginFailMessage(f: Fault): (r: Val)
    ensures Truthy(r)
    ensures !f.HttpError? ==> r == Str(LoginDefault)
    ensures Truthy(Prop(ResponseData(f), "detail")) ==> r == Prop(ResponseData(f), "detail")
    ensures !Truthy(Prop(ResponseData(f), "detail")) && Truthy(Index0(Prop(ResponseData(f), "non_field_errors")))
      ==> r == Index0(Prop(ResponseData(f), "non_field_errors"))
    ensures !Truthy(Prop(ResponseData(f), "detail")) && !Truthy(Index0(Prop(ResponseData(f), "non_field_errors")))
      ==> r == Str(LoginDefault)
  {
    var d := ResponseData(f);
    Or(Prop(d, "detail"), Or(Index0(Prop(d, "non_field_errors")), Str(LoginDefault)))
  }

  /** signup: the first truthy of email, password, non_field_errors (its first
      element when it is an array), else the default. */
  function SignupFailMessage(f: Fault): (r: Val)
    ensures !f.HttpError? ==> r == Str(SignupDefault)
    ensures Truthy(Prop(ResponseData(f), "email")) ==> r == HeadIfArray(Prop(ResponseData(f), "email"))
    ensures !Truthy(Prop(ResponseData(f), "email")) && Truthy(Prop(ResponseData(f), "password"))
      ==> r == HeadIfArray(Prop(ResponseData(f), "password"))
    ensures !Truthy(Prop(ResponseData(f), "email")) && !Truthy(Prop(ResponseData(f), "password"))
      && Truthy(Prop(ResponseData(f), "non_field_errors"))
      ==> r == HeadIfArray(Prop(ResponseData(f), "non_field_errors"))
    ensures !Truthy(ResponseData(f)) ==> r == Str(SignupDefault)
    ensures !Truthy(Prop(ResponseData(f), "email")) && !Truthy(Prop(ResponseData(f), "password"))
      && !Truthy(Prop(ResponseData(f), "non_field_errors"))
      ==> r == Str(SignupDefault)
    ensures r == Str(SignupDefault) || r == HeadIfArray(Prop(ResponseData(f), "email"))
      || r == HeadIfArray(Prop(ResponseData(f), "password")) || r == HeadIfArray(Prop(ResponseData(f), "non_field_errors"))
  {
    var d := ResponseData(f);
    if !Truthy(d) then Str(SignupDefault)
    else if Truthy(Prop(d, "email")) then HeadIfArray(Prop(d, "email"))
    else if Truthy(Prop(d, "password")) then HeadIfArray(Prop(d, "password"))
    else if Truthy(Prop(d, "non_field_errors")) then HeadIfArray(Prop(d, "non_field_errors"))
    else Str(SignupDefault)
  }

  /** verify: detail, then `uid?.[0]`, then `token?.[0]`, then the default. */
  function VerifyFailMessage(f: Fault): (r: Val)
    ensures Truthy(r)
    ensures !f.HttpError? ==> r == Str(ActivationDefault)
    ensures Truthy(Prop(ResponseData(f), "detail")) ==> r == Prop(ResponseData(f), "detail")
    ensures !Truthy(Prop(ResponseData(f), "detail")) && Truthy(Index0(Prop(ResponseData(f), "uid")))
      ==> r == Index0(Prop(ResponseData(f), "uid"))
    ensures !Truthy(Prop(ResponseData(f), "detail")) && !Truthy(Index0(Prop(ResponseData(f), "uid")))
      && Truthy(Index0(Prop(ResponseData(f), "token")))
      ==> r == Index0(Prop(ResponseData(f), "token"))
    ensures !Truthy(Prop(ResponseData(f), "detail")) && !Truthy(Index0(Prop(ResponseData(f), "uid")))
      && !Truthy(Index0(Prop(ResponseData(f), "token")))
      ==> r == Str(ActivationDefault)
  {
    var d := ResponseData(f);
    Or(Prop(d, "detail"), Or(Index0(Prop(d, "uid")), Or(Index0(Prop(d, "token")), Str(ActivationDefault))))
  }

  /** reset_password: `email?.[0]`, then detail, then the default. */
  function ResetFailMessage(f: Fault): (r: Val)
    ensures Truthy(r)
    ensures !f.HttpError? ==> r == Str(ResetDefault)
    ensures Truthy(Index0(Prop(ResponseData(f), "email"))) ==> r == Index0(Prop(ResponseData(f), "email"))
    ensures !Truthy(Index0(Prop(ResponseData(f), "email"))) && Truthy(Prop(ResponseData(f), "detail"))
      ==> r == Prop(ResponseData(f), "detail")
    ensures !Truthy(Index0(Prop(ResponseData(f), "email"))) && !Truthy(Prop(ResponseData(f), "detail"))
      ==> r == Str(ResetDefault)
  {
    var d := ResponseData(f);
    Or(Index0(Prop(d, "email")), Or(Prop(d, "detail"), Str(ResetDefault)))
  }

  /** reset_password_confirm: new_password, then the fixed token and uid
      messages, then non_field_errors; detail is never consulted. */
  function ConfirmFailMessage(f: Fault): (r: Val)
    ensures !f.HttpError? ==> r == Str(ConfirmDefault)
    ensures Truthy(Prop(ResponseData(f), "new_password")) ==> r == HeadIfArray(Prop(ResponseData(f), "new_password"))
    ensures !Truthy(Prop(ResponseData(f), "new_password")) && Truthy(Prop(ResponseData(f), "token"))
      ==> r == Str(InvalidTokenMessage)
    ensures !Truthy(Prop(ResponseData(f), "new_password")) && !Truthy(Prop(ResponseData(f), "token"))
      && Truthy(Prop(ResponseData(f), "uid"))
      ==> r == Str(InvalidLinkMessage)
    ensures !Truthy(Prop(ResponseData(f), "new_password")) && !Truthy(Prop(ResponseData(f), "token"))
      && !Truthy(Prop(ResponseData(f), "uid")) && Truthy(Prop(ResponseData(f), "non_field_errors"))
      ==> r == HeadIfArray(Prop(ResponseData(f), "non_field_errors"))
    ensures !Truthy(ResponseData(f)) ==> r == Str(ConfirmDefault)
    ensures !Truthy(Prop(ResponseData(f), "new_password")) && !Truthy(Prop(ResponseData(f), "token"))
      && !Truthy(Prop(ResponseData(f), "uid")) && !Truthy(Prop(ResponseData(f), "non_field_errors"))
      ==> r == Str(ConfirmDefault)
    ensures r in {Str(ConfirmDefault), Str(InvalidTokenMessage), Str(InvalidLinkMessage),
                  HeadIfArray(Prop(ResponseData(f), "new_password")),
                  HeadIfArray(Prop(ResponseData(f), "non_field_errors"))}
  {
    var d := ResponseData(f);
    if !Truthy(d) then Str(ConfirmDefault)
    else if Truthy(Prop(d, "new_password")) then HeadIfArray(Prop(d, "new_password"))
    else if Truthy(Prop(d, "token")) then Str(InvalidTokenMessage)
    else if Truthy(Prop(d, "uid")) then Str(InvalidLinkMessage)
    else if Truthy(Prop(d, "non_field_errors")) then HeadIfArray(Prop(d, "non_field_errors"))
    else Str(ConfirmDefault)
  }

  /** Unlike the `||` chains, which always end in a truthy message, the
      if-chains of signup and confirm can report `undefined`, for a field
      holding an empty array. */
  lemma IfChainsCanReportUndefined()
    ensures SignupFailMessage(HttpError(400, Obj(map["email" := Arr([])]))) == Undefined
    ensures ConfirmFailMessage(HttpError(400, Obj(map["new_password" := Arr([])]))) == Undefined
  {
    assert Prop(Obj(map["email" := Arr([])]), "email") == Arr([]);
    assert Prop(Obj(map["new_password" := Arr([])]), "new_password") == Arr([]);
  }

  /** The two files report different login messages for the same server
      answer: the legacy login prefers detail over field errors, and takes
      the first character of a string non_field_errors. */
  lemma FilesDisagreeOnLoginMessages()
    ensures var f := HttpError(400, Obj(map["detail" := Str("D"), "email" := Arr([Str("E")])]));
      ExtractedMessage(ResponseData(f), LoginDefault) == Str("E") && LoginFailMessage(f) == Str("D")
    ensures var f := HttpError(400, Obj(map["non_field_errors" := Str("Bad")]));
      ExtractedMessage(ResponseData(f), LoginDefault) == Str("Bad") && LoginFailMessage(f) == Str("B")
  {
    var m1 := map["detail" := Str("D"), "email" := Arr([Str("E")])];
    assert Prop(Obj(m1), "email") == Arr([Str("E")]);
    assert Prop(Obj(m1), "detail") == Str("D");
    var m2 := map["non_field_errors" := Str("Bad")];
    assert Prop(Obj(m2), "non_field_errors") == Str("Bad");
    assert Prop(Obj(m2), "email") == Undefined && Prop(Obj(m2), "detail") == Undefined;
    assert Index0(Str("Bad")) == Str(['B']);
  }

  /** The legacy reset confirmation ignores detail, which the modern one
      reports. */
  lemma FilesDisagreeOnConfirmMessages()
    ensures var f := HttpError(400, Obj(map["detail" := Str("Expired")]));
      ConfirmResetMessage(f) == Str("Expired") && ConfirmFailMessage(f) == Str(ConfirmDefault)
  {
    var m3 := map["detail" := Str("Expired")];
    assert Prop(Obj(m3), "detail") == Str("Expired");
    assert Prop(Obj(m3), "new_password") == Undefined && Prop(Obj(m3), "non_field_errors") == Undefined;
  }

  // ===========================================================================
  // Specifications of the actions
  // ===========================================================================

  /** The legacy refreshToken sends at most one request and never withdraws one. */
  function LegacyRefreshTokenSpec(w: World): (r: (World, Completion))
    ensures w.requests <= r.0.requests && |r.0.requests| <= |w.requests| + 1
  {
    var refresh := w.Get(RefreshKey);
    if !Truthy(StoredVal(refresh)) then
      (LogoutSpec(w.Dispatch(Action(TokenRefreshFail, Undefined))), Returned(Undefined))
    else
      var resp := w.Response();
      var w1 := w.Send(JwtRefresh, JsonHeaders, map["refresh" := Str(refresh.value)]);
      var fault := if resp.Failed? then resp.fault else TypeError;
      if resp.Ok? && !(resp.data.Undefined? || resp.data.Null?) then
        var access := Prop(resp.data, "access");
        (w1.SetItem(AccessKey, JsString(access)).Dispatch(Action(TokenRefreshSuccess, resp.data)), Returned(access))
      else
        (LogoutSpec(w1.Dispatch(Action(TokenRefreshFail, DetailOr(fault, RefreshDefault)))), Threw(fault))
  }

  /** The GET of the current profile, with the headers `getAuthHeaders` builds. */
  function LegacyFetchUser(w: World): (r: World) {
    w.Send(UsersMe, LegacyAuthHeaders(w.Get(AccessKey)), map[])
  }

  /** After a 401 on the profile fetch: await the refresh, then, unless it
      threw, retry the fetch once with the headers rebuilt. */
  function LegacyRenewThenRetry(w: World): (r: World)
    ensures w.requests <= r.requests && |r.requests| <= |w.requests| + 2
  {
    var p := LegacyRefreshTokenSpec(w);
    LegacyRetryUnlessThrew(p.0, p.1)
  }

  /** The retry step, once the refresh has completed with `c`: no request
      if the refresh threw, exactly one otherwise. */
  function LegacyRetryUnlessThrew(w: World, c: Completion): (r: World)
    ensures w.requests <= r.requests
    ensures |r.requests| == |w.requests| + (if c.Threw? then 0 else 1)
  {
    if c.Threw? then w.Dispatch(Action(UserLoadedFail, Str(LoadUserDefault)))
    else
      var retry := w.Response();
      var w1 := LegacyFetchUser(w);
      match retry
      case Ok(_, data) => w1.Dispatch(Action(UserLoadedSuccess, data))
      case Failed(_) => w1.Dispatch(Action(UserLoadedFail, Str(LoadUserDefault)))
  }

  function LegacyLoadUserSpec(w: World): (r: World) {
    if !Truthy(StoredVal(w.Get(AccessKey))) then
      w.Dispatch(Action(UserLoadedFail, Undefined))
    else
      var resp := w.Response();
      var w1 := LegacyFetchUser(w);
      match resp
      case Ok(_, data) => w1.Dispatch(Action(UserLoadedSuccess, data))
      case Failed(f) =>
        if IsUnauthorized(f) then LegacyRenewThenRetry(w1)
        else
          w1.Dispatch(Action(UserLoadedFail, DetailOr(f, LoadUserDefault)))
  }

  /** As written, with the same shadowing as in AuthActions: after a failed
      verify the local `refreshToken` string is called and throws, so the
      outcome is AUTHENTICATED_FAIL whether or not a refresh token is stored. */
  function LegacyCheckAuthenticatedSpec(w: World): (r: World) {
    var access := w.Get(AccessKey);
    if !Truthy(StoredVal(access)) then
      w.Dispatch(Action(AuthenticatedFail, Undefined))
    else
      var resp := w.Response();
      var w1 := w.Send(JwtVerify, JsonAcceptHeaders, map["token" := Str(access.value)]);
      if resp.Ok? && resp.status == 200 then w1.Dispatch(Action(AuthenticatedSuccess, Undefined))
      else w1.Dispatch(Action(AuthenticatedFail, Undefined))
  }

  /** The legacy login up to the token answer: LOGIN_REQUEST, then the POST
      of the credentials with JSON headers. */
  function LegacyAfterCreate(w: World, email: string, password: string): (r: World) {
    w.Dispatch(Action(LoginRequest, Undefined)).Send(JwtCreate, JsonHeaders, Credentials(email, password))
  }

  /** login; it never rejects. */
  function LegacyLoginSpec(w: World, email: string, password: string): (r: World) {
    var resp := w.Dispatch(Action(LoginRequest, Undefined)).Response();
    var w2 := LegacyAfterCreate(w, email, password);
    var fault := if resp.Failed? then resp.fault else TypeError;
    if resp.Ok? && !(resp.data.Undefined? || resp.data.Null?) then
      LegacyLoadUserSpec(LoginStored(w2, resp.data))
    else
      w2.Dispatch(Action(LoginFail, LoginFailMessage(fault)))
  }

  function LegacySignupSpec(w: World, firstName: string, lastName: string, email: string, password: string, rePassword: string): (r: (World, Completion)) {
    var w1 := w.Dispatch(Action(SignupRequest, Undefined));
    var resp := w1.Response();
    var w2 := w1.Send(Users, JsonHeaders, Registration(firstName, lastName, email, password, rePassword));
    match resp
    case Ok(status, data) => (w2.Dispatch(Action(SignupSuccess, data)), Responded(status, data))
    case Failed(f) =>
      var msg := SignupFailMessage(f);
      (w2.Dispatch(Action(SignupFail, msg)), Threw(ErrorObject(msg)))
  }

  /** The shape shared by verify, reset_password and reset_password_confirm:
      request action, one POST, a fixed success message or the failure
      message; none of them rejects. */
  function LegacyPostSpec(w: World, start: Tag, endpoint: Endpoint, body: map<string, Val>,
                          success: Tag, successMessage: string, fail: Tag, failMessage: Fault -> Val): (r: World)
  {
    var w1 := w.Dispatch(Action(start, Undefined));
    var resp := w1.Response();
    var w2 := w1.Send(endpoint, JsonHeaders, body);
    match resp
    case Ok(_, _) => w2.Dispatch(Action(success, Str(successMessage)))
    case Failed(f) => w2.Dispatch(Action(fail, failMessage(f)))
  }

  function LegacyVerifySpec(w: World, uid: string, token: string): (r: World) {
    LegacyPostSpec(w, ActivationRequest, Activation, map["uid" := Str(uid), "token" := Str(token)],
                   ActivationSuccess, ActivatedMessage, ActivationFail, VerifyFailMessage)
  }

  function LegacyResetPasswordSpec(w: World, email: string): (r: World) {
    LegacyPostSpec(w, PasswordResetRequest, Endpoint.ResetPassword, map["email" := Str(email)],
                   PasswordResetSuccess, ResetSentMessage, PasswordResetFail, ResetFailMessage)
  }

  function LegacyResetConfirmSpec(w: World, uid: string, token: string, newPassword: string, reNewPassword: string): (r: World) {
    LegacyPostSpec(w, PasswordResetConfirmRequest, Endpoint.ResetPasswordConfirm, ResetConfirmation(uid, token, newPassword, reNewPassword),
                   PasswordResetConfirmSuccess, ResetDoneMessage, PasswordResetConfirmFail, ConfirmFailMessage)
  }

  // ===========================================================================
  // The actions
  // ===========================================================================

  method RefreshToken(env: Env) returns (c: Completion)
    modifies env
    ensures (env.View(), c) == LegacyRefreshTokenSpec(old(env.View()))
  {
    var refresh := env.View().Get(RefreshKey);
    if !Truthy(StoredVal(refresh)) {
      env.Dispatch(Action(TokenRefreshFail, Undefined));
      AuthActions.Logout(env);
      return Returned(Undefined);
    }
    var resp := env.Send(JwtRefresh, JsonHeaders, map["refresh" := Str(refresh.value)]);
    var fault := if resp.Failed? then resp.fault else TypeError;
    if resp.Ok? && !(resp.data.Undefined? || resp.data.Null?) {
      var access := Prop(resp.data, "access");
      env.SetItem(AccessKey, JsString(access));
      env.Dispatch(Action(TokenRefreshSuccess, resp.data));
      return Returned(access);
    }
    env.Dispatch(Action(TokenRefreshFail, DetailOr(fault, RefreshDefault)));
    AuthActions.Logout(env);
    return Threw(fault);
  }

  method LoadUser(env: Env)
    modifies env
    ensures env.View() == LegacyLoadUserSpec(old(env.View()))
  {
    var access := env.View().Get(AccessKey);
    if !Truthy(StoredVal(access)) {
      env.Dispatch(Action(UserLoadedFail, Undefined));
      return;
    }
    var resp := env.Send(UsersMe, LegacyAuthHeaders(env.View().Get(AccessKey)), map[]);
    match resp {
      case Ok(_, data) =>
        env.Dispatch(Action(UserLoadedSuccess, data));
      case Failed(f) =>
        if IsUnauthorized(f) {
          var c := RefreshToken(env);
          if c.Threw? {
            env.Dispatch(Action(UserLoadedFail, Str(LoadUserDefault)));
            return;
          }
          var retry := env.Send(UsersMe, LegacyAuthHeaders(env.View().Get(AccessKey)), map[]);
          match retry {
            case Ok(_, data) => env.Dispatch(Action(UserLoadedSuccess, data));
            case Failed(_) => env.Dispatch(Action(UserLoadedFail, Str(LoadUserDefault)));
          }
        } else {
          env.Dispatch(Action(UserLoadedFail, DetailOr(f, LoadUserDefault)));
        }
    }
  }

  method CheckAuthenticated(env: Env)
    modifies env
    ensures env.View() == LegacyCheckAuthenticatedSpec(old(env.View()))
  {
    var access := env.View().Get(AccessKey);
    if !Truthy(StoredVal(access)) {
      env.Dispatch(Action(AuthenticatedFail, Undefined));
      return;
    }
    var resp := env.Send(JwtVerify, JsonAcceptHeaders, map["token" := Str(access.value)]);
    if resp.Ok? && resp.status == 200 {
      env.Dispatch(Action(AuthenticatedSuccess, Undefined));
    } else {
      // A non-200 success, or a rejection whose retry path calls the
      // shadowing `refreshToken` string and fails.
      env.Dispatch(Action(AuthenticatedFail, Undefined));
    }
  }

  method Login(env: Env, email: string, password: string)
    modifies env
    ensures env.View() == LegacyLoginSpec(old(env.View()), email, password)
  {
    env.Dispatch(Action(LoginRequest, Undefined));
    var resp := env.Send(JwtCreate, JsonHeaders, Credentials(email, password));
    if resp.Ok? && !(resp.data.Undefined? || resp.data.Null?) {
      var data := resp.data;
      env.SetItem(AccessKey, JsString(Prop(data, "access")));
      if Truthy(Prop(data, "refresh")) {
        env.SetItem(RefreshKey, JsString(Prop(data, "refresh")));
      }
      env.Dispatch(Action(LoginSuccess, data));
      LoadUser(env);
    } else {
      var fault := if resp.Failed? then resp.fault else TypeError;
      env.Dispatch(Action(LoginFail, LoginFailMessage(fault)));
    }
  }

  method Signup(env: Env, firstName: string, lastName: string, email: string, password: string, rePassword: string)
    returns (c: Completion)
    modifies env
    ensures (env.View(), c) == LegacySignupSpec(old(env.View()), firstName, lastName, email, password, rePassword)
  {
    env.Dispatch(Action(SignupRequest, Undefined));
    var resp := env.Send(Users, JsonHeaders, Registration(firstName, lastName, email, password, rePassword));
    match resp {
      case Ok(status, data) =>
        env.Dispatch(Action(SignupSuccess, data));
        return Responded(status, data);
      case Failed(f) =>
        var msg := SignupFailMessage(f);
        env.Dispatch(Action(SignupFail, msg));
        return Threw(ErrorObject(msg));
    }
  }

  method Verify(env: Env, uid: string, token: string)
    modifies env
    ensures env.View() == LegacyVerifySpec(old(env.View()), uid, token)
  {
    env.Dispatch(Action(ActivationRequest, Undefined));
    var resp := env.Send(Activation, JsonHeaders, map["uid" := Str(uid), "token" := Str(token)]);
    if resp.Ok? {
      env.Dispatch(Action(ActivationSuccess, Str(ActivatedMessage)));
    } else {
      env.Dispatch(Action(ActivationFail, VerifyFailMessage(resp.fault)));
    }
  }

  method ResetPassword(env: Env, email: string)
    modifies env
    ensures env.View() == LegacyResetPasswordSpec(old(env.View()), email)
  {
    env.Dispatch(Action(PasswordResetRequest, Undefined));
    var resp := env.Send(Endpoint.ResetPassword, JsonHeaders, map["email" := Str(email)]);
    if resp.Ok? {
      env.Dispatch(Action(PasswordResetSuccess, Str(ResetSentMessage)));
    } else {
      env.Dispatch(Action(PasswordResetFail, ResetFailMessage(resp.fault)));
    }
  }

  method ResetPasswordConfirm(env: Env, uid: string, token: string, newPassword: string, reNewPassword: string)
    modifies env
    ensures env.View() == LegacyResetConfirmSpec(old(env.View()), uid, token, newPassword, reNewPassword)
  {
    env.Dispatch(Action(PasswordResetConfirmRequest, Undefined));
    var resp := env.Send(Endpoint.ResetPasswordConfirm, JsonHeaders, ResetConfirmation(uid, token, newPassword, reNewPassword));
    if resp.Ok? {
      env.Dispatch(Action(PasswordResetConfirmSuccess, Str(ResetDoneMessage)));
    } else {
      env.Dispatch(Action(PasswordResetConfirmFail, ConfirmFailMessage(resp.fault)));
    }
  }

  // ===========================================================================
  // Properties of the actions
  // ===========================================================================

  /** The account actions report every failure through the store only: the
      world after a failed verify, reset or confirm differs from the one
      before by the request and exactly two actions, and storage is untouched. */
  lemma AccountActionsReportThroughStore(w: World, uid: string, token: string, email: string, p1: string, p2: string)
    ensures var w' := LegacyVerifySpec(w, uid, token);
      w'.storage == w.storage && |w'.requests| == |w.requests| + 1
      && w'.log == w.log + [Action(ActivationRequest, Undefined),
                            if w.Response().Ok? then Action(ActivationSuccess, Str(ActivatedMessage))
                            else Action(ActivationFail, VerifyFailMessage(w.Response().fault))]
    ensures var w' := LegacyResetPasswordSpec(w, email);
      w'.storage == w.storage && |w'.requests| == |w.requests| + 1
      && w'.log == w.log + [Action(PasswordResetRequest, Undefined),
                            if w.Response().Ok? then Action(PasswordResetSuccess, Str(ResetSentMessage))
                            else Action(PasswordResetFail, ResetFailMessage(w.Response().fault))]
    ensures var w' := LegacyResetConfirmSpec(w, uid, token, p1, p2);
      w'.storage == w.storage && |w'.requests| == |w.requests| + 1
      && w'.log == w.log + [Action(PasswordResetConfirmRequest, Undefined),
                            if w.Response().Ok? then Action(PasswordResetConfirmSuccess, Str(ResetDoneMessage))
                            else Action(PasswordResetConfirmFail, ConfirmFailMessage(w.Response().fault))]
  {
    var a := Action(ActivationRequest, Undefined);
    assert w.Dispatch(a).Response() == w.Response();
    var b := Action(PasswordResetRequest, Undefined);
    assert w.Dispatch(b).Response() == w.Response();
    var c := Action(PasswordResetConfirmRequest, Undefined);
    assert w.Dispatch(c).Response() == w.Response();
  }

  /** A failed legacy login writes nothing and records LOGIN_FAIL with the
      `||`-chain message; a successful one (any body that is not null or
      undefined) writes the access token, writes the refresh token only when
      the body has a truthy one, dispatches LOGIN_SUCCESS with the body and
      goes on to the legacy user load. Either way the one request before the
      user load is the POST of the credentials. */
  lemma LegacyLoginOutcomes(w: World, email: string, password: string)
    ensures var resp := w.Response();
      !(resp.Ok? && !(resp.data.Undefined? || resp.data.Null?))
      ==> var w' := LegacyLoginSpec(w, email, password);
          w'.storage == w.storage
          && w'.log == w.log + [Action(LoginRequest, Undefined),
                                Action(LoginFail, LoginFailMessage(if resp.Failed? then resp.fault else TypeError))]
    ensures var resp := w.Response();
      !(resp.Ok? && !(resp.data.Undefined? || resp.data.Null?))
      ==> LegacyLoginSpec(w, email, password).requests
          == w.requests + [Request(JwtCreate, w.Authorize(JsonHeaders), Credentials(email, password))]
    ensures var resp := w.Response();
      resp.Ok? && !(resp.data.Undefined? || resp.data.Null?)
      ==> var data := resp.data;
          var mid := LoginStored(LegacyAfterCreate(w, email, password), data);
          LegacyLoginSpec(w, email, password) == LegacyLoadUserSpec(mid)
          && mid.log == w.log + [Action(LoginRequest, Undefined), Action(LoginSuccess, data)]
          && mid.requests == w.requests + [Request(JwtCreate, w.Authorize(JsonHeaders), Credentials(email, password))]
          && (!w.faulting ==> mid.Get(AccessKey) == Some(JsString(Prop(data, "access"))))
          && (!w.faulting && Truthy(Prop(data, "refresh"))
              ==> mid.Get(RefreshKey) == Some(JsString(Prop(data, "refresh"))))
          && (!Truthy(Prop(data, "refresh")) ==> mid.Get(RefreshKey) == w.Get(RefreshKey))
  {
    var resp := w.Response();
    if resp.Ok? && !(resp.data.Undefined? || resp.data.Null?) {
      LegacyLoginSuccessStoresTokens(w, email, password);
    } else {
      LegacyLoginFailureWritesNothing(w, email, password);
    }
  }

  /** The failing half of `LegacyLoginOutcomes`. */
  lemma LegacyLoginFailureWritesNothing(w: World, email: string, password: string)
    requires !(w.Response().Ok? && !(w.Response().data.Undefined? || w.Response().data.Null?))
    ensures var w' := LegacyLoginSpec(w, email, password);
      var resp := w.Response();
      w'.storage == w.storage
      && w'.log == w.log + [Action(LoginRequest, Undefined),
                            Action(LoginFail, LoginFailMessage(if resp.Failed? then resp.fault else TypeError))]
      && w'.requests == w.requests + [Request(JwtCreate, w.Authorize(JsonHeaders), Credentials(email, password))]
  {
    var w1 := w.Dispatch(Action(LoginRequest, Undefined));
    assert w1.Response() == w.Response();
    assert w1.Authorize(JsonHeaders) == w.Authorize(JsonHeaders);
  }

  /** The successful half of `LegacyLoginOutcomes`: the state the legacy
      login reaches just before its user load. */
  lemma LegacyLoginSuccessStoresTokens(w: World, email: string, password: string)
    requires w.Response().Ok? && !(w.Response().data.Undefined? || w.Response().data.Null?)
    ensures var data := w.Response().data;
      var mid := LoginStored(LegacyAfterCreate(w, email, password), data);
      LegacyLoginSpec(w, email, password) == LegacyLoadUserSpec(mid)
      && mid.log == w.log + [Action(LoginRequest, Undefined), Action(LoginSuccess, data)]
      && mid.requests == w.requests + [Request(JwtCreate, w.Authorize(JsonHeaders), Credentials(email, password))]
      && (!w.faulting ==> mid.Get(AccessKey) == Some(JsString(Prop(data, "access"))))
      && (!w.faulting && Truthy(Prop(data, "refresh"))
          ==> mid.Get(RefreshKey) == Some(JsString(Prop(data, "refresh"))))
      && (!Truthy(Prop(data, "refresh")) ==> mid.Get(RefreshKey) == w.Get(RefreshKey))
  {
    var w1 := w.Dispatch(Action(LoginRequest, Undefined));
    assert w1.Response() == w.Response();
    assert w1.Authorize(JsonHeaders) == w.Authorize(JsonHeaders);
    var w2 := LegacyAfterCreate(w, email, password);
    assert w2.requests == w.requests + [Request(JwtCreate, w.Authorize(JsonHeaders), Credentials(email, password))];
    assert w2.log == w.log + [Action(LoginRequest, Undefined)];
    assert w2.storage == w.storage && w2.faulting == w.faulting;
    LoginStoredWrites(w2, w.Response().data);
    assert LegacyLoginSpec(w, email, password) == LegacyLoadUserSpec(LoginStored(w2, w.Response().data));
  }

  /** The legacy profile fetch, with the headers `getAuthHeaders` builds. */
  function LegacyProfileFetch(w: World): (r: Request) {
    Request(UsersMe, LegacyAuthHeaders(w.Get(AccessKey)), map[])
  }

  /** The refresh request the legacy renewal sends. */
  function LegacyRenewalRequest(w: World): (r: Request)
    requires w.Get(RefreshKey).Some?
  {
    Request(JwtRefresh, JsonHeaders, map["refresh" := Str(w.Get(RefreshKey).value)])
  }

  /** The legacy user load with a stored access token, when the profile
      fetch does not answer 401: a success reports the profile, any other
      failure reports `detail` or the default; neither sends anything else
      or touches storage. */
  lemma LegacyLoadUserOutcomes(w: World)
    requires !w.bearerInterceptor && Truthy(StoredVal(w.Get(AccessKey)))
    ensures w.Response().Ok? ==> var w' := LegacyLoadUserSpec(w);
      w'.requests == w.requests + [LegacyProfileFetch(w)] && w'.storage == w.storage
      && w'.log == w.log + [Action(UserLoadedSuccess, w.Response().data)]
    ensures w.Response().Failed? && !IsUnauthorized(w.Response().fault) ==> var w' := LegacyLoadUserSpec(w);
      w'.requests == w.requests + [LegacyProfileFetch(w)] && w'.storage == w.storage
      && w'.log == w.log + [Action(UserLoadedFail, DetailOr(w.Response().fault, LoadUserDefault))]
  {
    var w' := LegacyLoadUserSpec(w);
    var w1 := LegacyFetchUser(w);
    assert w1.requests == w.requests + [LegacyProfileFetch(w)];
    if w.Response().Ok? {
      assert w' == w1.Dispatch(Action(UserLoadedSuccess, w.Response().data));
    } else if !IsUnauthorized(w.Response().fault) {
      assert w' == w1.Dispatch(Action(UserLoadedFail, DetailOr(w.Response().fault, LoadUserDefault)));
    }
  }

  /** Whatever happens next, the first request the legacy user load sends
      with a stored access token is the profile fetch, carrying
      `JWT <access>`. */
  lemma LegacyLoadUserFetchesFirst(w: World)
    requires !w.bearerInterceptor && Truthy(StoredVal(w.Get(AccessKey)))
    ensures var w' := LegacyLoadUserSpec(w);
      w.requests + [LegacyProfileFetch(w)] <= w'.requests
      && LegacyProfileFetch(w).headers["Authorization"] == JwtScheme + " " + w.Get(AccessKey).value
  {
    var w1 := LegacyFetchUser(w);
    assert w1.requests == w.requests + [LegacyProfileFetch(w)];
    var resp := w.Response();
    if resp.Failed? && IsUnauthorized(resp.fault) {
      assert LegacyLoadUserSpec(w) == LegacyRenewThenRetry(w1);
    }
  }

  /** The legacy user load after a 401 with a refresh token stored, when the
      refresh fails (or answers without a body): one refresh request, both
      tokens gone, USER_LOADED_FAIL with the fixed message, and no retry. */
  lemma LegacyLoadUserGivesUpWhenRenewalFails(w: World)
    requires !w.bearerInterceptor
    requires Truthy(StoredVal(w.Get(AccessKey))) && Truthy(StoredVal(w.Get(RefreshKey)))
    requires w.Response().Failed? && IsUnauthorized(w.Response().fault)
    requires w.Upcoming(1).Failed? || w.Upcoming(1).data.Undefined? || w.Upcoming(1).data.Null?
    ensures var w' := LegacyLoadUserSpec(w);
      var f := if w.Upcoming(1).Failed? then w.Upcoming(1).fault else TypeError;
      w'.requests == w.requests + [LegacyProfileFetch(w), LegacyRenewalRequest(w)]
      && w'.Get(AccessKey).None? && w'.Get(RefreshKey).None?
      && w'.log == w.log + [Action(TokenRefreshFail, DetailOr(f, RefreshDefault)),
                            Action(Tag.Logout, Undefined), Action(UserLoadedFail, Str(LoadUserDefault))]
  {
    var w1 := LegacyFetchUser(w);
    assert w1.Response() == w.Upcoming(1);
    assert w1.Get(RefreshKey) == w.Get(RefreshKey);
  }

  /** The legacy user load after a 401 and a successful refresh: the fetch
      carries `JWT <old access>`, one refresh request follows, and exactly one
      retry carries `JWT <the access token the refresh returned>` (no
      Authorization at all when that token is empty); the retry's outcome is
      reported. */
  lemma LegacyLoadUserUsesJwtScheme(w: World)
    requires !w.bearerInterceptor
    requires Truthy(StoredVal(w.Get(AccessKey))) && Truthy(StoredVal(w.Get(RefreshKey)))
    requires w.Response().Failed? && IsUnauthorized(w.Response().fault)
    requires w.Upcoming(1).Ok? && !(w.Upcoming(1).data.Undefined? || w.Upcoming(1).data.Null?)
    ensures var w' := LegacyLoadUserSpec(w);
      var access := JsString(Prop(w.Upcoming(1).data, "access"));
      var retry := Request(UsersMe, LegacyAuthHeaders(Some(access)), map[]);
      w'.requests == w.requests + [LegacyProfileFetch(w), LegacyRenewalRequest(w), retry]
      && LegacyProfileFetch(w).headers["Authorization"] == JwtScheme + " " + w.Get(AccessKey).value
      && (access != "" ==> retry.headers["Authorization"] == JwtScheme + " " + access)
      && (access == "" ==> "Authorization" !in retry.headers)
      && w'.Get(AccessKey) == Some(access) && w'.Get(RefreshKey) == w.Get(RefreshKey)
      && w'.log == w.log + [Action(TokenRefreshSuccess, w.Upcoming(1).data), RetryReport(w.Upcoming(2))]
  {
    var w1 := LegacyFetchUser(w);
    assert w1.Response() == w.Upcoming(1);
    assert w1.Get(RefreshKey) == w.Get(RefreshKey);
    var (w2, c) := LegacyRefreshTokenSpec(w1);
    var access := JsString(Prop(w.Upcoming(1).data, "access"));
    assert !c.Threw?;
    assert w2.Get(AccessKey) == Some(access);
    assert w2.Response() == w.Upcoming(2);
    assert LegacyLoadUserSpec(w) == LegacyFetchUser(w2).Dispatch(RetryReport(w.Upcoming(2)));
  }

  /** The legacy user load after a 401 with no refresh token stored: the
      refresh logs out and returns, so the fetch is retried once, now without
      an Authorization header, and its outcome is reported. */
  lemma LegacyLoadUserRetriesWithoutRefreshToken(w: World)
    requires !w.bearerInterceptor
    requires Truthy(StoredVal(w.Get(AccessKey))) && !Truthy(StoredVal(w.Get(RefreshKey)))
    requires w.Response().Failed? && IsUnauthorized(w.Response().fault)
    ensures var w' := LegacyLoadUserSpec(w);
      w'.requests == w.requests + [LegacyProfileFetch(w), Request(UsersMe, LegacyAuthHeaders(None), map[])]
      && "Authorization" !in LegacyAuthHeaders(None)
      && w'.Get(AccessKey).None? && w'.Get(RefreshKey).None?
      && w'.log == w.log + [Action(TokenRefreshFail, Undefined), Action(Tag.Logout, Undefined), RetryReport(w.Upcoming(1))]
  {
    var w1 := LegacyFetchUser(w);
    assert w1.Get(RefreshKey) == w.Get(RefreshKey);
    var (w2, c) := LegacyRefreshTokenSpec(w1);
    assert w2.Response() == w.Upcoming(1);
  }

  /** As in AuthActions, the legacy checkAuthenticated never calls the
      refresh endpoint: a failed verify ends in AUTHENTICATED_FAIL even with
      a refresh token stored. */
  lemma LegacyCheckAuthenticatedNeverRefreshes(w: World)
    ensures var w' := LegacyCheckAuthenticatedSpec(w);
      w'.storage == w.storage
      && |w.requests| <= |w'.requests| <= |w.requests| + 1
      && (|w'.requests| == |w.requests| + 1 ==> w'.requests[|w.requests|].endpoint == JwtVerify)
    ensures var w' := LegacyCheckAuthenticatedSpec(w);
      (w'.log == w.log + [Action(AuthenticatedSuccess, Undefined)]
       <==> Truthy(StoredVal(w.Get(AccessKey))) && w.Response().Ok? && w.Response().status == 200)
      && (w'.log == w.log + [Action(AuthenticatedSuccess, Undefined)]
          || w'.log == w.log + [Action(AuthenticatedFail, Undefined)])
  {
    var success := w.log + [Action(AuthenticatedSuccess, Undefined)];
    var failure := w.log + [Action(AuthenticatedFail, Undefined)];
    assert success[|w.log|] != failure[|w.log|];
  }

  /** The legacy refresh reports failures with `detail` alone and, like the
      modern one, logs out and rethrows; an answer without a body throws a
      TypeError at `res.data.access` and is reported with the default.
      Without a refresh token it logs out and resolves; with one it sends
      exactly one request, the refresh token with JSON headers. */
  lemma LegacyRefreshOutcomes(w: World)
    ensures !Truthy(StoredVal(w.Get(RefreshKey)))
      ==> var (w', c) := LegacyRefreshTokenSpec(w);
          c == Returned(Undefined) && w'.requests == w.requests
          && w'.log == w.log + [Action(TokenRefreshFail, Undefined), Action(Tag.Logout, Undefined)]
          && w'.Get(AccessKey).None? && w'.Get(RefreshKey).None?
    ensures Truthy(StoredVal(w.Get(RefreshKey)))
      ==> var (w', c) := LegacyRefreshTokenSpec(w);
          w'.requests == w.requests + [Request(JwtRefresh, w.Authorize(JsonHeaders), map["refresh" := Str(w.Get(RefreshKey).value)])]
    ensures Truthy(StoredVal(w.Get(RefreshKey))) && w.Response().Failed?
      ==> var (w', c) := LegacyRefreshTokenSpec(w);
          c == Threw(w.Response().fault)
          && w'.Get(AccessKey).None? && w'.Get(RefreshKey).None?
          && w'.log == w.log + [Action(TokenRefreshFail, DetailOr(w.Response().fault, RefreshDefault)),
                                Action(Tag.Logout, Undefined)]
    ensures Truthy(StoredVal(w.Get(RefreshKey))) && w.Response().Ok?
      && (w.Response().data.Undefined? || w.Response().data.Null?)
      ==> var (w', c) := LegacyRefreshTokenSpec(w);
          c == Threw(TypeError)
          && w'.Get(AccessKey).None? && w'.Get(RefreshKey).None?
          && w'.log == w.log + [Action(TokenRefreshFail, Str(RefreshDefault)), Action(Tag.Logout, Undefined)]
    ensures Truthy(StoredVal(w.Get(RefreshKey))) && w.Response().Ok?
      && !(w.Response().data.Undefined? || w.Response().data.Null?)
      ==> var (w', c) := LegacyRefreshTokenSpec(w);
          var access := Prop(w.Response().data, "access");
          c == Returned(access)
          && w'.Get(AccessKey) == (if w.faulting then None else Some(JsString(access)))
          && w'.Get(RefreshKey) == w.Get(RefreshKey)
          && w'.log == w.log + [Action(TokenRefreshSuccess, w.Response().data)]
  {
  }

  /** The legacy signup sends the five inputs with JSON headers; success
      resolves with the whole response, failure records the signup `||`-chain
      message and throws an Error carrying it. */
  lemma LegacySignupOutcomes(w: World, firstName: string, lastName: string, email: string, password: string, rePassword: string)
    ensures var (w', c) := LegacySignupSpec(w, firstName, lastName, email, password, rePassword);
      w'.storage == w.storage
      && w'.requests == w.requests + [Request(Users, w.Authorize(JsonHeaders), Registration(firstName, lastName, email, password, rePassword))]
      && (w.Response().Ok? ==>
            c == Responded(w.Response().status, w.Response().data)
            && w'.log == w.log + [Action(SignupRequest, Undefined), Action(SignupSuccess, w.Response().data)])
      && (w.Response().Failed? ==>
            c == Threw(ErrorObject(SignupFailMessage(w.Response().fault)))
            && w'.log == w.log + [Action(SignupRequest, Undefined), Action(SignupFail, SignupFailMessage(w.Response().fault))])
  {
    var w1 := w.Dispatch(Action(SignupRequest, Undefined));
    assert w1.Response() == w.Response();
    assert w1.Authorize(JsonHeaders) == w.Authorize(JsonHeaders);
  }
}
