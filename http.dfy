/** The HTTP side of the core, reduced to what the client code observes: the
    endpoints it calls, the requests it issues, and an abstract outcome per
    request in place of the HTTP client library. */
module Http {
  import opened JsValue

  /** The paths of the authentication API that the core calls. */
  datatype Endpoint =
    | JwtCreate             // POST /auth/jwt/create/
    | JwtVerify             // POST /auth/jwt/verify/
    | JwtRefresh            // POST /auth/jwt/refresh/
    | Users                 // POST /auth/users/
    | Activation            // POST /auth/users/activation/
    | ResetPassword         // POST /auth/users/reset_password/
    | ResetPasswordConfirm  // POST /auth/users/reset_password_confirm/
    | UsersMe               // GET  /auth/users/me/

  /** An issued request: where it went, the headers it carried once every
      request interceptor had run, and its JSON body. */
  datatype Request = Request(endpoint: Endpoint, headers: map<string, string>, body: map<string, Val>)

  /** Why an awaited call rejected: the server answered with a non-2xx
      status (`error.response` is set), there was no response at all, a
      property was read off `null`/`undefined`, or the code threw `new Error(message)`. */
  datatype Fault =
    | HttpError(status: int, data: Val)
    | NetworkError
    | TypeError
    | ErrorObject(message: Val)

  /** How an awaited HTTP call settles. */
  datatype Outcome = Ok(status: int, data: Val) | Failed(fault: Fault)

  /** `error.response?.data`. */
  function ResponseData(f: Fault): (r: Val)
    ensures !f.HttpError? ==> r == Undefined
  {
    if f.HttpError? then f.data else Undefined
  }

  /** `error.response?.status === 401`. */
  predicate IsUnauthorized(f: Fault) {
    f.HttpError? && f.status == 401
  }

  /** How an async action finished: its promise resolved with a value, or
      with the whole response object of a call (status and body), or it
      rejected (the action threw). */
  datatype Completion = Returned(value: Val) | Responded(status: int, data: Val) | Threw(fault: Fault)
}
