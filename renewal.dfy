/** The response interceptor that renews an expired access token once and
    replays the requests that failed meanwhile. Both src/actions/auth.js and
    src/containers/initialauth.jsx install one; they differ only in the
    Authorization scheme the replays carry ("Bearer" and "JWT").

    The interceptor keeps three pieces of module state: `isRefreshing`,
    `failedQueue` (the requests parked while a refresh is in flight) and,
    implicitly, the one request whose 401 started the refresh and that is
    waiting on the refresh answer. Each request config can also carry the
    `_retry` mark. `Interceptor` is the value view of this state, and
    `Coordinator` is the object whose methods update it when the HTTP client
    reports an error response or the refresh request settles. */
module Renewal {
  import opened JsValue
  import opened Http
  import opened Browser

  /** Identifies one request config object (the `error.config` the
      interceptor receives, and re-sends on a replay). */
  type ReqId = nat

  /** A request the interceptor holds on to: which config it is, and the
      request as it went out. */
  datatype Pending = Pending(id: ReqId, request: Request)

  /** How a parked or refreshing request was finally settled by the
      interceptor: re-sent with the new token, or rejected with the refresh error. */
  datatype Settlement = Replayed(id: ReqId) | Rejected(id: ReqId, reason: Fault)

  /** What the error handler does with the error it was given. */
  datatype Reaction =
    | Rejects(reason: Fault)   // the caller sees this error
    | Queued                   // parked until the refresh in flight settles
    | AwaitsRefresh            // this request started a refresh and waits on it

  datatype Interceptor = Interceptor(
    scheme: string,
    isRefreshing: bool,
    failedQueue: seq<Pending>,
    awaiting: Option<Pending>,
    retried: set<ReqId>,          // configs that carry `_retry = true`
    settled: seq<Settlement>)

  /** The module state when the interceptor is installed. */
  function Idle(scheme: string): (c: Interceptor)
    ensures !c.isRefreshing && c.failedQueue == [] && c.awaiting.None? && c.retried == {} && c.settled == []
  {
    Interceptor(scheme, false, [], None, {}, [])
  }

  /** The coherence the interceptor keeps: nothing is parked and nothing
      waits unless a refresh has been started, and the request that waits
      on the refresh is marked as retried. */
  predicate Coherent(c: Interceptor) {
    (c.failedQueue != [] ==> c.isRefreshing)
    && (c.awaiting.Some? ==> c.isRefreshing && c.awaiting.value.id in c.retried)
  }

  /** The flag is up but no refresh request is in flight, so nothing will
      ever lower it again. */
  predicate Stuck(c: Interceptor) {
    c.isRefreshing && c.awaiting.None?
  }

  /** The Authorization value a replay is given: `${scheme} ${token}`. */
  function ReplayHeader(scheme: string, token: Val): (r: string) {
    scheme + " " + JsString(token)
  }

  /** Re-send one request with its Authorization header replaced. The
      request interceptors run again on it. */
  function Replay(w: World, p: Pending, header: string): (r: World) {
    w.Issue(p.request.endpoint, p.request.headers["Authorization" := header], p.request.body)
  }

  /** Replay every parked request, in queue order. */
  function ReplayAll(w: World, q: seq<Pending>, header: string): (r: World)
    decreases |q|
  {
    if q == [] then w else Replay(ReplayAll(w, q[..|q| - 1], header), q[|q| - 1], header)
  }

  /** `processQueue(error, token)` as seen from the parked requests: each is
      resolved (and then replayed) or rejected with the refresh error. */
  function Settle(q: seq<Pending>, error: Option<Fault>): (r: seq<Settlement>)
    ensures |r| == |q|
    ensures forall i :: 0 <= i < |q| ==> r[i].id == q[i].id
    ensures forall i :: 0 <= i < |q| ==> (r[i].Rejected? <==> error.Some?)
    ensures forall i :: 0 <= i < |q| && r[i].Rejected? ==> r[i].reason == error.value
    decreases |q|
  {
    if q == [] then []
    else
      var last := q[|q| - 1];
      Settle(q[..|q| - 1], error) + [if error.Some? then Rejected(last.id, error.value) else Replayed(last.id)]
  }

  /** The error handler, run when a request `p` failed with `fault`. It only
      ever passes on the error it was given, sends at most the one refresh
      request, and settles nothing; `p` is marked as retried only when it
      starts a refresh. */
  function OnError(w: World, c: Interceptor, p: Pending, fault: Fault): (r: (World, Interceptor, Reaction))
    ensures r.1.scheme == c.scheme && r.1.settled == c.settled
    ensures c.retried <= r.1.retried <= c.retried + {p.id}
    ensures r.2.Rejects? ==> r.2.reason == fault
    ensures r.2.AwaitsRefresh? <==> r.0.requests != w.requests
    ensures r.2.AwaitsRefresh? ==>
      r.1.awaiting == Some(p) && r.1.isRefreshing && r.0.storage == w.storage
      && |r.0.requests| == |w.requests| + 1 && r.0.requests[..|w.requests|] == w.requests
      && r.0.requests[|w.requests|].endpoint == JwtRefresh
    ensures !r.2.AwaitsRefresh? ==> r.1.awaiting == c.awaiting
    ensures r.2.Queued? <==> r.1.failedQueue != c.failedQueue
    ensures r.2.Queued? ==> r.1.failedQueue == c.failedQueue + [p] && r.0 == w
    ensures r.0.log == w.log
  {
    if !IsUnauthorized(fault) || p.id in c.retried then
      (w, c, Rejects(fault))
    else if c.isRefreshing then
      (w, c.(failedQueue := c.failedQueue + [p]), Queued)
    else
      var c1 := c.(retried := c.retried + {p.id}, isRefreshing := true);
      var refresh := w.Get(RefreshKey);
      if Truthy(StoredVal(refresh)) then
        (w.Issue(JwtRefresh, map[], map["refresh" := Str(refresh.value)]), c1.(awaiting := Some(p)), AwaitsRefresh)
      else
        (w.RemoveItem(AccessKey).RemoveItem(RefreshKey).Redirect(), c1, Rejects(fault))
  }

  /** The rest of the handler, run when the refresh request it awaits
      settles with `o`. A body that is `null` or `undefined` cannot be
      destructured and fails like a rejected refresh. Whatever the outcome,
      the interceptor ends idle with every held request settled once, in
      queue order and the waiting one last. A 401 answer to the refresh
      never reaches this point: the refresh request passes through the same
      error handler, which parks it (see `UnauthorizedRefreshParksItself`);
      such an outcome is handled here like any other failure. */
  function OnRefreshSettled(w: World, c: Interceptor, o: Outcome): (r: (World, Interceptor))
    requires c.awaiting.Some?
    ensures !r.1.isRefreshing && r.1.awaiting.None? && r.1.failedQueue == []
    ensures r.1.scheme == c.scheme && r.1.retried == c.retried
    ensures |r.1.settled| == |c.settled| + |c.failedQueue| + 1 && r.1.settled[..|c.settled|] == c.settled
    ensures r.1.settled[|r.1.settled| - 1].id == c.awaiting.value.id
    ensures r.1.settled[|r.1.settled| - 1].Replayed? <==> o.Ok? && !(o.data.Undefined? || o.data.Null?)
    ensures r.1.settled[|r.1.settled| - 1].Replayed? ==>
      r.0.redirected == w.redirected && |r.0.requests| == |w.requests| + |c.failedQueue| + 1
      && r.0.requests[..|w.requests|] == w.requests
    ensures r.1.settled[|r.1.settled| - 1].Rejected? ==>
      r.0.requests == w.requests && r.0.redirected && r.0.Get(AccessKey).None? && r.0.Get(RefreshKey).None?
    ensures r.0.log == w.log
  {
    var orig := c.awaiting.value;
    var done := c.(isRefreshing := false, awaiting := None, failedQueue := []);
    if o.Ok? && !(o.data.Undefined? || o.data.Null?) then
      var access := Prop(o.data, "access");
      var header := ReplayHeader(c.scheme, access);
      var w1 := ReplayAll(w.SetItem(AccessKey, JsString(access)), c.failedQueue, header);
      ReplayAllIssuesInOrder(w.SetItem(AccessKey, JsString(access)), c.failedQueue, header);
      (Replay(w1, orig, header), done.(settled := c.settled + Settle(c.failedQueue, None) + [Replayed(orig.id)]))
    else
      var f := if o.Failed? then o.fault else TypeError;
      (w.RemoveItem(AccessKey).RemoveItem(RefreshKey).Redirect(),
       done.(settled := c.settled + Settle(c.failedQueue, Some(f)) + [Rejected(orig.id, f)]))
  }

  /** The interceptor object: its own state, plus the environment its
      handler reads and writes. */
  class Coordinator {
    const env: Env
    const scheme: string
    var isRefreshing: bool
    var failedQueue: seq<Pending>
    var awaiting: Option<Pending>
    var retried: set<ReqId>
    var settled: seq<Settlement>

    function View(): (r: Interceptor)
      reads this
    {
      Interceptor(scheme, isRefreshing, failedQueue, awaiting, retried, settled)
    }

    constructor (env: Env, scheme: string)
      ensures this.env == env
      ensures View() == Idle(scheme)
    {
      this.env := env;
      this.scheme := scheme;
      isRefreshing := false;
      failedQueue := [];
      awaiting := None;
      retried := {};
      settled := [];
    }

    /** The error handler. */
    method OnResponseError(p: Pending, fault: Fault) returns (r: Reaction)
      modifies this, env
      ensures (env.View(), View(), r) == OnError(old(env.View()), old(View()), p, fault)
    {
      if !IsUnauthorized(fault) || p.id in retried {
        return Rejects(fault);
      }
      if isRefreshing {
        failedQueue := failedQueue + [p];
        return Queued;
      }
      retried := retried + {p.id};
      isRefreshing := true;
      var refresh := env.View().Get(RefreshKey);
      if refresh.Some? && refresh.value != "" {
        env.Issue(JwtRefresh, map[], map["refresh" := Str(refresh.value)]);
        awaiting := Some(p);
        r := AwaitsRefresh;
      } else {
        env.RemoveItem(AccessKey);
        env.RemoveItem(RefreshKey);
        env.Redirect();
        r := Rejects(fault);
      }
    }

    /** `processQueue(error, token)`. */
    method ProcessQueue(error: Option<Fault>, token: Val)
      modifies this, env
      ensures env.View() == if error.Some? then old(env.View())
                            else ReplayAll(old(env.View()), old(failedQueue), ReplayHeader(scheme, token))
      ensures settled == old(settled) + Settle(old(failedQueue), error)
      ensures failedQueue == []
      ensures isRefreshing == old(isRefreshing) && awaiting == old(awaiting) && retried == old(retried)
    {
      var q := failedQueue;
      var header := ReplayHeader(scheme, token);
      var i := 0;
      while i < |q|
        invariant 0 <= i <= |q|
        invariant env.View() == if error.Some? then old(env.View()) else ReplayAll(old(env.View()), q[..i], header)
        invariant settled == old(settled) + Settle(q[..i], error)
        invariant isRefreshing == old(isRefreshing) && awaiting == old(awaiting) && retried == old(retried)
      {
        assert q[..i + 1][..i] == q[..i];
        var p := q[i];
        if error.Some? {
          settled := settled + [Rejected(p.id, error.value)];
        } else {
          env.Issue(p.request.endpoint, p.request.headers["Authorization" := header], p.request.body);
          settled := settled + [Replayed(p.id)];
        }
        i := i + 1;
      }
      assert q[..|q|] == q;
      failedQueue := [];
    }

    /** The refresh request settled with `o`. */
    method RefreshSettled(o: Outcome)
      requires awaiting.Some?
      modifies this, env
      ensures (env.View(), View()) == OnRefreshSettled(old(env.View()), old(View()), o)
    {
      var orig := awaiting.value;
      if o.Ok? && !(o.data.Undefined? || o.data.Null?) {
        var access := Prop(o.data, "access");
        env.SetItem(AccessKey, JsString(access));
        ProcessQueue(None, access);
        var header := ReplayHeader(scheme, access);
        env.Issue(orig.request.endpoint, orig.request.headers["Authorization" := header], orig.request.body);
        settled := settled + [Replayed(orig.id)];
      } else {
        var f := if o.Failed? then o.fault else TypeError;
        ProcessQueue(Some(f), Undefined);
        env.RemoveItem(AccessKey);
        env.RemoveItem(RefreshKey);
        env.Redirect();
        settled := settled + [Rejected(orig.id, f)];
      }
      isRefreshing := false;
      awaiting := None;
    }
  }

  // ===========================================================================
  // Properties
  // ===========================================================================

  /** Both handlers keep the interceptor coherent. */
  lemma HandlersKeepCoherence(w: World, c: Interceptor, p: Pending, fault: Fault, o: Outcome)
    requires Coherent(c)
    ensures Coherent(OnError(w, c, p, fault).1)
    ensures c.awaiting.Some? ==> Coherent(OnRefreshSettled(w, c, o).1) && !OnRefreshSettled(w, c, o).1.isRefreshing
  {
  }

  /** Errors other than a first 401 are passed on to the caller untouched. */
  lemma OtherErrorsPassThrough(w: World, c: Interceptor, p: Pending, fault: Fault)
    requires !IsUnauthorized(fault) || p.id in c.retried
    ensures OnError(w, c, p, fault) == (w, c, Rejects(fault))
  {
  }

  /** The first 401 while idle, with a refresh token stored, issues exactly
      one refresh request carrying that token and makes the failed request
      wait on it. */
  lemma FirstUnauthorizedStartsRefresh(w: World, c: Interceptor, p: Pending, fault: Fault)
    requires IsUnauthorized(fault) && p.id !in c.retried && !c.isRefreshing
    requires Truthy(StoredVal(w.Get(RefreshKey)))
    ensures var (w', c', r) := OnError(w, c, p, fault);
      r == AwaitsRefresh
      && w'.requests == w.requests + [Request(JwtRefresh, w.Authorize(map[]), map["refresh" := Str(w.Get(RefreshKey).value)])]
      && w'.storage == w.storage
      && c'.isRefreshing && c'.awaiting == Some(p) && p.id in c'.retried
      && c'.failedQueue == c.failedQueue
  {
  }

  /** As written, a first 401 while no refresh token is stored clears the
      tokens, redirects to the login page and rejects, but leaves
      `isRefreshing` up with no refresh in flight. */
  lemma MissingRefreshTokenLeavesFlagUp(w: World, c: Interceptor, p: Pending, fault: Fault)
    requires IsUnauthorized(fault) && p.id !in c.retried && !c.isRefreshing && c.awaiting.None?
    requires !Truthy(StoredVal(w.Get(RefreshKey)))
    ensures var (w', c', r) := OnError(w, c, p, fault);
      r == Rejects(fault)
      && w'.Get(AccessKey).None? && w'.Get(RefreshKey).None? && w'.redirected
      && w'.requests == w.requests
      && Stuck(c')
  {
  }

  /** Once stuck, every further 401 is parked and nothing is ever sent
      again by the interceptor: the state stays stuck, and the refresh
      answer that would drain the queue can no longer arrive. */
  lemma StuckParksForever(w: World, c: Interceptor, p: Pending, fault: Fault)
    requires Stuck(c)
    ensures var (w', c', r) := OnError(w, c, p, fault);
      w' == w && Stuck(c') && c'.settled == c.settled
      && (IsUnauthorized(fault) && p.id !in c.retried ==> r == Queued && c'.failedQueue == c.failedQueue + [p])
  {
  }

  /** 401 responses for a list of requests, handled one after another. */
  function HandleAll(w: World, c: Interceptor, ps: seq<Pending>, fault: Fault): (r: (World, Interceptor))
    decreases |ps|
  {
    if ps == [] then (w, c)
    else
      var (w1, c1, _) := OnError(w, c, ps[0], fault);
      HandleAll(w1, c1, ps[1..], fault)
  }

  /** While a refresh is in flight, any number of further 401s are parked in
      arrival order and issue no request. */
  lemma {:induction false} RefreshingParksAll(w: World, c: Interceptor, ps: seq<Pending>, fault: Fault)
    requires c.isRefreshing && IsUnauthorized(fault)
    requires forall i :: 0 <= i < |ps| ==> ps[i].id !in c.retried
    ensures HandleAll(w, c, ps, fault) == (w, c.(failedQueue := c.failedQueue + ps))
    decreases |ps|
  {
    if ps != [] {
      var c1 := c.(failedQueue := c.failedQueue + [ps[0]]);
      assert OnError(w, c, ps[0], fault) == (w, c1, Queued);
      assert HandleAll(w, c, ps, fault) == HandleAll(w, c1, ps[1..], fault);
      RefreshingParksAll(w, c1, ps[1..], fault);
      assert c1.failedQueue + ps[1..] == c.failedQueue + ps;
    } else {
      assert c.failedQueue + ps == c.failedQueue;
    }
  }

  /** The replays append one request per parked request, in queue order,
      each with its Authorization replaced; nothing else changes. */
  lemma {:induction false} ReplayAllIssuesInOrder(w: World, q: seq<Pending>, header: string)
    ensures var w' := ReplayAll(w, q, header);
      w' == w.(requests := w'.requests)
      && |w'.requests| == |w.requests| + |q|
      && w'.requests[..|w.requests|] == w.requests
      && forall i :: 0 <= i < |q| ==>
           w'.requests[|w.requests| + i]
           == Request(q[i].request.endpoint, w.Authorize(q[i].request.headers["Authorization" := header]), q[i].request.body)
    decreases |q|
  {
    if q != [] {
      var q0 := q[..|q| - 1];
      ReplayAllIssuesInOrder(w, q0, header);
      var w0 := ReplayAll(w, q0, header);
      assert w0.Authorize(q[|q| - 1].request.headers["Authorization" := header])
          == w.Authorize(q[|q| - 1].request.headers["Authorization" := header]);
      var w' := ReplayAll(w, q, header);
      assert w'.requests == w0.requests + [w'.requests[|w'.requests| - 1]];
      forall i | 0 <= i < |q|
        ensures w'.requests[|w.requests| + i]
             == Request(q[i].request.endpoint, w.Authorize(q[i].request.headers["Authorization" := header]), q[i].request.body)
      {
        if i < |q| - 1 {
          assert q[i] == q0[i];
        }
      }
    }
  }

  /** A replay keeps the scheme of its interceptor: where the Bearer request
      interceptor is installed (and so the scheme is "Bearer"), it rewrites
      the header from the token just stored, to the same value. */
  lemma ReplayHeaderSurvivesRequestInterceptor(w: World, scheme: string, access: Val, headers: map<string, string>)
    requires w.bearerInterceptor ==> scheme == "Bearer"
    ensures var h := w.SetItem(AccessKey, JsString(access)).Authorize(headers["Authorization" := ReplayHeader(scheme, access)]);
      "Authorization" in h && h["Authorization"] == ReplayHeader(scheme, access)
  {
  }

  /** A successful refresh stores the new access token, replays every
      parked request and then the waiting one, settles them all as replayed
      and leaves the interceptor idle. */
  lemma SuccessfulRefreshReplaysEveryone(w: World, c: Interceptor, data: Val)
    requires c.awaiting.Some? && data.Obj?
    ensures var (w', c') := OnRefreshSettled(w, c, Ok(200, data));
      !c'.isRefreshing && c'.awaiting.None? && c'.failedQueue == []
      && c'.settled == c.settled + Settle(c.failedQueue, None) + [Replayed(c.awaiting.value.id)]
      && (!w.faulting ==> w'.Get(AccessKey) == Some(JsString(Prop(data, "access"))))
      && |w'.requests| == |w.requests| + |c.failedQueue| + 1
      && w'.requests[..|w.requests|] == w.requests
  {
    var access := Prop(data, "access");
    var ws := w.SetItem(AccessKey, JsString(access));
    ReplayAllIssuesInOrder(ws, c.failedQueue, ReplayHeader(c.scheme, access));
  }

  /** Every replay a successful refresh releases carries `${scheme} ${access}`,
      also once the request interceptors have run. */
  lemma ReplaysCarryRenewedToken(w: World, c: Interceptor, data: Val)
    requires c.awaiting.Some? && data.Obj?
    requires w.bearerInterceptor ==> c.scheme == "Bearer"
    ensures var (w', c') := OnRefreshSettled(w, c, Ok(200, data));
      var header := ReplayHeader(c.scheme, Prop(data, "access"));
      forall i :: |w.requests| <= i < |w'.requests| ==>
        "Authorization" in w'.requests[i].headers && w'.requests[i].headers["Authorization"] == header
  {
    var access := Prop(data, "access");
    var header := ReplayHeader(c.scheme, access);
    var ws := w.SetItem(AccessKey, JsString(access));
    var q := c.failedQueue;
    ReplayAllIssuesInOrder(ws, q, header);
    var wr := ReplayAll(ws, q, header);
    var orig := c.awaiting.value;
    var w' := Replay(wr, orig, header);
    assert OnRefreshSettled(w, c, Ok(200, data)).0 == w';
    assert wr.Authorize(orig.request.headers["Authorization" := header])
        == ws.Authorize(orig.request.headers["Authorization" := header]);
    forall i | |w.requests| <= i < |w'.requests|
      ensures "Authorization" in w'.requests[i].headers && w'.requests[i].headers["Authorization"] == header
    {
      if i < |w'.requests| - 1 {
        ReplayHeaderSurvivesRequestInterceptor(w, c.scheme, access, q[i - |w.requests|].request.headers);
      } else {
        ReplayHeaderSurvivesRequestInterceptor(w, c.scheme, access, orig.request.headers);
      }
    }
  }

  /** A burst of 401s that arrives while idle, with a refresh token stored,
      sends exactly one refresh request: the first request waits on it and
      the rest are parked in arrival order. */
  lemma BurstStartsOneRefresh(w: World, scheme: string, ps: seq<Pending>, fault: Fault)
    requires ps != [] && IsUnauthorized(fault)
    requires forall i :: 0 < i < |ps| ==> ps[i].id != ps[0].id
    requires Truthy(StoredVal(w.Get(RefreshKey)))
    ensures var (w1, c1) := HandleAll(w, Idle(scheme), ps, fault);
      w1.requests == w.requests + [Request(JwtRefresh, w.Authorize(map[]), map["refresh" := Str(w.Get(RefreshKey).value)])]
      && w1.storage == w.storage && w1.bearerInterceptor == w.bearerInterceptor
      && c1.scheme == scheme && c1.isRefreshing && c1.awaiting == Some(ps[0]) && c1.failedQueue == ps[1..]
      && c1.settled == []
  {
    var c0 := Idle(scheme);
    var (w1a, c1a, r) := OnError(w, c0, ps[0], fault);
    FirstUnauthorizedStartsRefresh(w, c0, ps[0], fault);
    RefreshingParksAll(w1a, c1a, ps[1..], fault);
    assert HandleAll(w, c0, ps, fault) == HandleAll(w1a, c1a, ps[1..], fault);
  }

  /** Single flight: after such a burst, a successful refresh replays every
      request of the burst exactly once, the parked ones first, each with
      `${scheme} ${access}`, after the one refresh request. */
  lemma SingleFlight(w: World, scheme: string, ps: seq<Pending>, fault: Fault, data: Val)
    requires ps != [] && IsUnauthorized(fault)
    requires forall i :: 0 < i < |ps| ==> ps[i].id != ps[0].id
    requires Truthy(StoredVal(w.Get(RefreshKey)))
    requires data.Obj?
    requires w.bearerInterceptor ==> scheme == "Bearer"
    ensures HandleAll(w, Idle(scheme), ps, fault).1.awaiting == Some(ps[0])
    ensures var (w1, c1) := HandleAll(w, Idle(scheme), ps, fault);
      var (w2, c2) := OnRefreshSettled(w1, c1, Ok(200, data));
      !c2.isRefreshing && c2.failedQueue == []
      && c2.settled == Settle(ps[1..], None) + [Replayed(ps[0].id)]
      && |w2.requests| == |w.requests| + 1 + |ps|
      && w2.requests[|w.requests|].endpoint == JwtRefresh
      && (forall i :: |w.requests| + 1 <= i < |w2.requests| ==>
            "Authorization" in w2.requests[i].headers
            && w2.requests[i].headers["Authorization"] == ReplayHeader(scheme, Prop(data, "access")))
  {
    BurstStartsOneRefresh(w, scheme, ps, fault);
    var (w1, c1) := HandleAll(w, Idle(scheme), ps, fault);
    SuccessfulRefreshReplaysEveryone(w1, c1, data);
    ReplaysCarryRenewedToken(w1, c1, data);
    var (w2, c2) := OnRefreshSettled(w1, c1, Ok(200, data));
    assert w2.requests[..|w1.requests|] == w1.requests;
    assert w2.requests[|w.requests|] == w1.requests[|w.requests|];
  }

  /** A failed refresh rejects every parked request and the waiting one with
      the refresh error, clears both tokens, redirects to the login page and
      sends nothing. */
  lemma FailedRefreshRejectsEveryone(w: World, c: Interceptor, f: Fault)
    requires c.awaiting.Some?
    ensures var (w', c') := OnRefreshSettled(w, c, Failed(f));
      w'.requests == w.requests
      && w'.Get(AccessKey).None? && w'.Get(RefreshKey).None? && w'.redirected
      && !c'.isRefreshing && c'.failedQueue == []
      && c'.settled[..|c.settled|] == c.settled
      && |c'.settled| == |c.settled| + |c.failedQueue| + 1
      && (forall i :: |c.settled| <= i < |c'.settled| ==> c'.settled[i] == Rejected(c'.settled[i].id, f))
      && c'.settled[|c'.settled| - 1] == Rejected(c.awaiting.value.id, f)
  {
    var (w', c') := OnRefreshSettled(w, c, Failed(f));
    var s := Settle(c.failedQueue, Some(f));
    assert c'.settled == c.settled + s + [Rejected(c.awaiting.value.id, f)];
    forall i | |c.settled| <= i < |c'.settled|
      ensures c'.settled[i] == Rejected(c'.settled[i].id, f)
    {
      if i < |c.settled| + |s| {
        assert c'.settled[i] == s[i - |c.settled|];
      }
    }
  }

  /** As written, the refresh request itself passes through the same error
      handler: if it is answered 401 it is parked behind itself, the refresh
      never settles and the flag never comes down. */
  lemma UnauthorizedRefreshParksItself(w: World, c: Interceptor, p: Pending, refreshReq: Pending, fault: Fault)
    requires IsUnauthorized(fault) && p.id !in c.retried && !c.isRefreshing
    requires Truthy(StoredVal(w.Get(RefreshKey)))
    requires refreshReq.id !in c.retried && refreshReq.id != p.id
    ensures var (w1, c1, _) := OnError(w, c, p, fault);
      var (w2, c2, r) := OnError(w1, c1, refreshReq, fault);
      r == Queued && w2 == w1 && c2.isRefreshing && c2.awaiting == Some(p)
      && c2.failedQueue == c.failedQueue + [refreshReq]
  {
  }
}
