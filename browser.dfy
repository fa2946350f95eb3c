/** What the session actions and the renewal interceptor act on: the
    browser's local storage (where the two tokens live), the HTTP client
    with the responses the server will give, the store's dispatch, and the
    browser's location. `World` is the value view of it; `Env` is the
    mutable object the actions update in place. */
module Browser {
  import opened JsValue
  import opened Http
  import opened AuthReducer

  const AccessKey := "access"
  const RefreshKey := "refresh"

  /** `Authorization: Bearer <token>` (section 2.1 of RFC 6750). */
  function BearerHeader(token: string): (r: string) {
    "Bearer " + token
  }

  datatype World = World(
    storage: map<string, string>,   // localStorage
    faulting: bool,                 // every localStorage call throws
    bearerInterceptor: bool,        // the request interceptor of src/actions/auth.js is installed
    requests: seq<Request>,         // requests issued so far, in order
    responses: seq<Outcome>,        // how the next awaited requests will settle, in order
    log: seq<Action>,               // plain actions dispatched so far, in order
    redirected: bool)               // window.location.href was set to '/login'
  {
    /** `getFromLocalStorage(key)`: the stored string, or nothing when the
        key is absent or storage throws (the fault is caught and logged). */
    function Get(key: string): (r: Option<string>)
      ensures r.Some? <==> !faulting && key in storage
      ensures r.Some? ==> r.value == storage[key]
    {
      if faulting || key !in storage then None else Some(storage[key])
    }

    /** `setToLocalStorage(key, value)`: a faulting storage swallows the write. */
    function SetItem(key: string, value: string): (w: World)
      ensures w.Get(key) == (if faulting then Get(key) else Some(value))
      ensures forall k :: k != key ==> w.Get(k) == Get(k)
    {
      if faulting then this else this.(storage := storage[key := value])
    }

    /** `removeFromLocalStorage(key)`: a faulting storage swallows the delete. */
    function RemoveItem(key: string): (w: World)
      ensures w.Get(key) == None
      ensures forall k :: k != key ==> w.Get(k) == Get(k)
    {
      if faulting then this else this.(storage := storage - {key})
    }

    function Dispatch(a: Action): (r: World) {
      this.(log := log + [a])
    }

    /** The request interceptor of src/actions/auth.js: when an access token
        is stored, it overwrites the Authorization header with the Bearer
        scheme; otherwise the request goes out as it is. */
    function Authorize(headers: map<string, string>): (h: map<string, string>)
      ensures bearerInterceptor && Truthy(StoredVal(Get(AccessKey)))
        ==> h == headers["Authorization" := BearerHeader(Get(AccessKey).value)]
      ensures !(bearerInterceptor && Truthy(StoredVal(Get(AccessKey)))) ==> h == headers
    {
      var token := Get(AccessKey);
      if bearerInterceptor && token.Some? && token.value != ""
      then headers["Authorization" := BearerHeader(token.value)]
      else headers
    }

    /** Send a request without waiting for it. */
    function Issue(endpoint: Endpoint, headers: map<string, string>, body: map<string, Val>): (r: World) {
      this.(requests := requests + [Request(endpoint, Authorize(headers), body)])
    }

    /** How the next awaited request settles; a request the script has no
        answer for fails at the transport level. */
    function Response(): (r: Outcome) {
      if responses == [] then Failed(NetworkError) else responses[0]
    }

    /** How the request awaited `n` requests from now will settle. */
    function Upcoming(n: nat): (o: Outcome)
      ensures n == 0 ==> o == Response()
    {
      if n < |responses| then responses[n] else Failed(NetworkError)
    }

    /** Send a request and consume the answer `Response()` gives it. */
    function Send(endpoint: Endpoint, headers: map<string, string>, body: map<string, Val>): (r: World) {
      var w := Issue(endpoint, headers, body);
      w.(responses := if responses == [] then [] else responses[1..])
    }

    function Redirect(): (r: World) {
      this.(redirected := true)
    }
  }

  /** The mutable environment. Each method performs one primitive step and
      says which `World` step it is. */
  class Env {
    var storage: map<string, string>
    const faulting: bool
    const bearerInterceptor: bool
    var requests: seq<Request>
    var responses: seq<Outcome>
    var log: seq<Action>
    var redirected: bool

    function View(): (r: World)
      reads this
    {
      World(storage, faulting, bearerInterceptor, requests, responses, log, redirected)
    }

    constructor (storage: map<string, string>, faulting: bool, bearerInterceptor: bool, responses: seq<Outcome>)
      ensures View() == World(storage, faulting, bearerInterceptor, [], responses, [], false)
    {
      this.storage := storage;
      this.faulting := faulting;
      this.bearerInterceptor := bearerInterceptor;
      this.requests := [];
      this.responses := responses;
      this.log := [];
      this.redirected := false;
    }

    method SetItem(key: string, value: string)
      modifies this
      ensures View() == old(View()).SetItem(key, value)
    {
      if !faulting {
        storage := storage[key := value];
      }
    }

    method RemoveItem(key: string)
      modifies this
      ensures View() == old(View()).RemoveItem(key)
    {
      if !faulting {
        storage := storage - {key};
      }
    }

    method Dispatch(a: Action)
      modifies this
      ensures View() == old(View()).Dispatch(a)
    {
      log := log + [a];
    }

    method Issue(endpoint: Endpoint, headers: map<string, string>, body: map<string, Val>)
      modifies this
      ensures View() == old(View()).Issue(endpoint, headers, body)
    {
      var h := View().Authorize(headers);
      requests := requests + [Request(endpoint, h, body)];
    }

    /** Issue a request and await it. */
    method Send(endpoint: Endpoint, headers: map<string, string>, body: map<string, Val>) returns (o: Outcome)
      modifies this
      ensures o == old(View()).Response()
      ensures View() == old(View()).Send(endpoint, headers, body)
    {
      o := View().Response();
      var rest := if responses == [] then [] else responses[1..];
      Issue(endpoint, headers, body);
      responses := rest;
    }

    method Redirect()
      modifies this
      ensures View() == old(View()).Redirect()
    {
      redirected := true;
    }
  }
}
