/** The `auth` slice of the application store (src/reducers/auth.js): one
    record of session state and a pure transition function over the 23
    action types the session actions dispatch. */
module AuthReducer {
  import opened JsValue

  /** The action types. `Other` stands for any type the reducer does not
      recognise (the store's own initialisation action, for one). */
  datatype Tag =
    | LoginRequest | LoginSuccess | LoginFail
    | UserLoadedSuccess | UserLoadedFail
    | AuthenticatedSuccess | AuthenticatedFail
    | PasswordResetRequest | PasswordResetSuccess | PasswordResetFail
    | PasswordResetConfirmRequest | PasswordResetConfirmSuccess | PasswordResetConfirmFail
    | SignupRequest | SignupSuccess | SignupFail
    | ActivationRequest | ActivationSuccess | ActivationFail
    | Logout
    | TokenRefreshSuccess | TokenRefreshFail
    | ClearAuthErrors
    | Other(name: string)

  /** A plain action `{type, payload}`; an action dispatched without a
      payload has payload `undefined`. */
  datatype Action = Action(tag: Tag, payload: Val)

  /** `isAuthenticated`: `true`, `false`, or `null` for "not yet known". */
  datatype Tri = Yes | No | Unknown

  datatype State = State(
    access: Val,
    refresh: Val,
    isAuthenticated: Tri,
    user: Val,
    loading: bool,
    error: Val,
    message: Val)

  predicate IsRequest(t: Tag) {
    t.LoginRequest? || t.SignupRequest? || t.PasswordResetRequest?
    || t.PasswordResetConfirmRequest? || t.ActivationRequest?
  }

  predicate IsFail(t: Tag) {
    t.LoginFail? || t.SignupFail? || t.PasswordResetFail? || t.PasswordResetConfirmFail?
    || t.ActivationFail? || t.UserLoadedFail? || t.AuthenticatedFail? || t.TokenRefreshFail?
  }

  /** The actions that store a token pair from their payload. */
  predicate IsTokenSuccess(t: Tag) {
    t.LoginSuccess? || t.TokenRefreshSuccess?
  }

  /** The success actions that carry a message for the user. */
  predicate IsMessageSuccess(t: Tag) {
    t.PasswordResetSuccess? || t.PasswordResetConfirmSuccess? || t.ActivationSuccess?
  }

  /** `payload.access` throws on a nullish payload; every dispatch of the two
      token actions passes the response body, which is never nullish there. */
  predicate PayloadReadable(a: Action) {
    IsTokenSuccess(a.tag) ==> !(a.payload.Undefined? || a.payload.Null?)
  }

  const SignupMessage := "Signup successful, please activate your account."

  /** The initial state: the tokens are whatever local storage holds (`null`
      when absent), everything else is unknown or empty. */
  function InitialState(storedAccess: Option<string>, storedRefresh: Option<string>): (s: State)
    ensures s.isAuthenticated == Unknown && s.user == Null && !s.loading
    ensures s.error == Null && s.message == Null
    ensures s.access == StoredVal(storedAccess) && s.refresh == StoredVal(storedRefresh)
  {
    State(StoredVal(storedAccess), StoredVal(storedRefresh), Unknown, Null, false, Null, Null)
  }

  /** The reducer: one `{...state, ...}` copy per case. Each field has its
      own small set of actions that may change it, an unrecognised action
      changes nothing, and only a request action starts loading. */
  function Reduce(s: State, a: Action): (r: State)
    requires PayloadReadable(a)
    ensures r.access != s.access || r.refresh != s.refresh ==> IsTokenSuccess(a.tag) || a.tag.Logout?
    ensures r.message != s.message
      ==> IsRequest(a.tag) || a.tag.SignupSuccess? || IsMessageSuccess(a.tag) || a.tag.ClearAuthErrors?
    ensures r.error != s.error ==> !(a.tag.UserLoadedSuccess? || a.tag.AuthenticatedSuccess? || a.tag.Other?)
    ensures r.error != Null && r.error != s.error ==> IsFail(a.tag) && r.error == a.payload
    ensures r.loading <==> IsRequest(a.tag) || (s.loading && (a.tag.AuthenticatedSuccess? || a.tag.ClearAuthErrors? || a.tag.Other?))
    ensures r.isAuthenticated != s.isAuthenticated
      ==> IsTokenSuccess(a.tag) || a.tag.AuthenticatedSuccess? || a.tag.SignupSuccess? || IsFail(a.tag) || a.tag.Logout?
    ensures a.tag.Other? ==> r == s
  {
    match a.tag
    case LoginRequest | SignupRequest | PasswordResetRequest
       | PasswordResetConfirmRequest | ActivationRequest =>
      s.(loading := true, error := Null, message := Null)
    case LoginSuccess | TokenRefreshSuccess =>
      s.(access := Prop(a.payload, "access"),
         refresh := Or(Prop(a.payload, "refresh"), s.refresh),
         isAuthenticated := Yes, loading := false, error := Null)
    case SignupSuccess =>
      s.(loading := false, error := Null, isAuthenticated := No, message := Str(SignupMessage))
    case UserLoadedSuccess =>
      s.(user := a.payload, loading := false)
    case AuthenticatedSuccess =>
      s.(isAuthenticated := Yes)
    case PasswordResetSuccess | PasswordResetConfirmSuccess | ActivationSuccess =>
      s.(loading := false, error := Null, message := a.payload)
    case LoginFail | SignupFail | PasswordResetFail | PasswordResetConfirmFail
       | ActivationFail | UserLoadedFail | AuthenticatedFail | TokenRefreshFail =>
      s.(loading := false, error := a.payload, isAuthenticated := No)
    case ClearAuthErrors =>
      s.(error := Null, message := Null)
    case Logout =>
      s.(access := Null, refresh := Null, isAuthenticated := No, user := Null,
         loading := false, error := Null)
    case Other(_) =>
      s
  }

  // ---------------------------------------------------------------------------
  // One action at a time
  // ---------------------------------------------------------------------------

  /** Every request action raises `loading` and clears error and message, and
      changes nothing else. */
  lemma RequestStartsLoading(s: State, a: Action)
    requires IsRequest(a.tag)
    ensures var r := Reduce(s, a);
      r.loading && r.error == Null && r.message == Null
      && r.access == s.access && r.refresh == s.refresh
      && r.isAuthenticated == s.isAuthenticated && r.user == s.user
  {
  }

  /** A token action stores the payload's access token, keeps the old refresh
      token when the payload's is falsy, authenticates, and leaves user and
      message alone. */
  lemma TokenSuccessStoresTokens(s: State, a: Action)
    requires IsTokenSuccess(a.tag) && PayloadReadable(a)
    ensures var r := Reduce(s, a);
      r.access == Prop(a.payload, "access")
      && (Truthy(Prop(a.payload, "refresh")) ==> r.refresh == Prop(a.payload, "refresh"))
      && (!Truthy(Prop(a.payload, "refresh")) ==> r.refresh == s.refresh)
      && r.isAuthenticated == Yes && !r.loading && r.error == Null
      && r.user == s.user && r.message == s.message
  {
  }

  /** Every failure action de-authenticates, stops loading and records its
      payload (possibly `undefined`) as the error; tokens, user and message
      are kept. */
  lemma FailRecordsError(s: State, a: Action)
    requires IsFail(a.tag)
    ensures var r := Reduce(s, a);
      r.isAuthenticated == No && !r.loading && r.error == a.payload
      && r.access == s.access && r.refresh == s.refresh
      && r.user == s.user && r.message == s.message
  {
  }

  /** Signup does not authenticate: it sets isAuthenticated to false and the
      fixed activation message. */
  lemma SignupSuccessLeavesLoggedOut(s: State, a: Action)
    requires a.tag.SignupSuccess?
    ensures var r := Reduce(s, a);
      r.isAuthenticated == No && r.message == Str(SignupMessage) && !r.loading && r.error == Null
      && r.access == s.access && r.refresh == s.refresh && r.user == s.user
  {
  }

  /** The message successes store their payload as the message. */
  lemma MessageSuccessStoresMessage(s: State, a: Action)
    requires IsMessageSuccess(a.tag)
    ensures var r := Reduce(s, a);
      r.message == a.payload && !r.loading && r.error == Null
      && r.access == s.access && r.refresh == s.refresh
      && r.isAuthenticated == s.isAuthenticated && r.user == s.user
  {
  }

  /** LOGOUT clears tokens, user and error, de-authenticates and stops
      loading, but keeps the message; applying it twice is applying it once. */
  lemma LogoutClearsSession(s: State)
    ensures var r := Reduce(s, Action(Logout, Undefined));
      r.access == Null && r.refresh == Null && r.user == Null && r.error == Null
      && r.isAuthenticated == No && !r.loading && r.message == s.message
    ensures forall p :: Reduce(Reduce(s, Action(Logout, p)), Action(Logout, p)) == Reduce(s, Action(Logout, p))
  {
  }

  /** CLEAR_AUTH_ERRORS touches only error and message and is idempotent;
      an unrecognised action returns the state unchanged. */
  lemma ClearAndUnknown(s: State, p: Val, name: string)
    ensures var r := Reduce(s, Action(ClearAuthErrors, p));
      r == s.(error := Null, message := Null) && Reduce(r, Action(ClearAuthErrors, p)) == r
    ensures Reduce(s, Action(Other(name), p)) == s
  {
  }

  /** isAuthenticated becomes true only through LOGIN_SUCCESS,
      TOKEN_REFRESH_SUCCESS or AUTHENTICATED_SUCCESS, and the last of these
      changes nothing else. */
  lemma AuthenticationGrantedOnlyBySuccess(s: State, a: Action)
    requires PayloadReadable(a)
    ensures Reduce(s, a).isAuthenticated == Yes && s.isAuthenticated != Yes
      ==> IsTokenSuccess(a.tag) || a.tag.AuthenticatedSuccess?
    ensures a.tag.AuthenticatedSuccess? ==> Reduce(s, a) == s.(isAuthenticated := Yes)
  {
  }

  /** The user changes only on USER_LOADED_SUCCESS (to the payload) and on
      LOGOUT (to null). */
  lemma UserChangesOnlyOnLoadOrLogout(s: State, a: Action)
    requires PayloadReadable(a)
    ensures Reduce(s, a).user != s.user ==> a.tag.UserLoadedSuccess? || a.tag.Logout?
    ensures a.tag.UserLoadedSuccess? ==> Reduce(s, a).user == a.payload
    ensures a.tag.Logout? ==> Reduce(s, a).user == Null
  {
  }

  // ---------------------------------------------------------------------------
  // Runs of actions
  // ---------------------------------------------------------------------------

  predicate AllReadable(trace: seq<Action>) {
    forall i :: 0 <= i < |trace| ==> PayloadReadable(trace[i])
  }

  /** The state after dispatching `trace` in order, starting from `s`. */
  function Run(s: State, trace: seq<Action>): (r: State)
    requires AllReadable(trace)
    decreases |trace|
  {
    if trace == [] then s else Run(Reduce(s, trace[0]), trace[1..])
  }

  predicate GrantsAuthentication(t: Tag) {
    IsTokenSuccess(t) || t.AuthenticatedSuccess?
  }

  /** Over any run, a session that was not authenticated ends authenticated
      only if the run contains one of the three granting actions. */
  lemma {:induction false} AuthenticatedRunHasGrant(s: State, trace: seq<Action>)
    requires AllReadable(trace)
    requires s.isAuthenticated != Yes
    requires Run(s, trace).isAuthenticated == Yes
    ensures exists i :: 0 <= i < |trace| && GrantsAuthentication(trace[i].tag)
    decreases |trace|
  {
    if trace == [] {
    } else {
      var s' := Reduce(s, trace[0]);
      if GrantsAuthentication(trace[0].tag) {
      } else {
        AuthenticationGrantedOnlyBySuccess(s, trace[0]);
        assert s'.isAuthenticated != Yes;
        AuthenticatedRunHasGrant(s', trace[1..]);
        var i :| 0 <= i < |trace[1..]| && GrantsAuthentication(trace[1..][i].tag);
        assert trace[i + 1] == trace[1..][i];
      }
    }
  }

  /** After LOGOUT, both tokens stay null until a token action stores new
      ones, whatever else is dispatched meanwhile. */
  lemma {:induction false} TokensStayClearedAfterLogout(s: State, trace: seq<Action>)
    requires AllReadable(trace)
    requires s.access == Null && s.refresh == Null
    requires forall i :: 0 <= i < |trace| ==> !IsTokenSuccess(trace[i].tag)
    ensures Run(s, trace).access == Null && Run(s, trace).refresh == Null
    decreases |trace|
  {
    if trace != [] {
      var s' := Reduce(s, trace[0]);
      assert !IsTokenSuccess(trace[0].tag);
      assert s'.access == Null && s'.refresh == Null;
      assert forall i :: 0 <= i < |trace[1..]| ==> trace[1..][i] == trace[i + 1];
      TokensStayClearedAfterLogout(s', trace[1..]);
    }
  }

  /** The user loaded into the state is always one a USER_LOADED_SUCCESS
      carried, unless it is still the initial one or has been cleared. */
  lemma {:induction false} UserComesFromLoad(s: State, trace: seq<Action>)
    requires AllReadable(trace)
    ensures var u := Run(s, trace).user;
      u == s.user || u == Null
      || exists i :: 0 <= i < |trace| && trace[i].tag.UserLoadedSuccess? && trace[i].payload == u
    decreases |trace|
  {
    if trace != [] {
      var s' := Reduce(s, trace[0]);
      UserChangesOnlyOnLoadOrLogout(s, trace[0]);
      assert forall i :: 0 <= i < |trace[1..]| ==> trace[1..][i] == trace[i + 1];
      UserComesFromLoad(s', trace[1..]);
    }
  }
}
