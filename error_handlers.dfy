/**
 * The deployment-mode switch and the two Express error handlers: index.js
 * answers every error with 500, api/index.js passes a truthy `err.status`
 * through. Also api/index.js's fallback router, installed when the contact
 * routes fail to load.
 */
module ErrorHandlers {
  import opened Wrappers

  /** The process environment the handlers consult: `NODE_ENV`, possibly unset. */
  datatype Env = Env(nodeEnv: Option<string>)

  /** `process.env.NODE_ENV === 'development'`. */
  predicate IsDevelopment(env: Env) {
    env.nodeEnv == Some("development")
  }

  /** `process.env.NODE_ENV === 'development' ? detail : undefined`: internal detail outside development is dropped. */
  function DevOnly(env: Env, detail: string): (r: Option<string>)
    ensures r.Some? <==> IsDevelopment(env)
    ensures r.Some? ==> r.value == detail
  {
    if IsDevelopment(env) then Some(detail) else None
  }

  /** What a handler sees of a thrown error: `err.status` (possibly unset) and `err.message`. */
  datatype JsError = JsError(status: Option<int>, message: string)

  /**
   * A JSON error response: the status code, the `success` flag (absent in
   * index.js), the `message` and the optional `error` detail.
   */
  datatype ErrorReply = ErrorReply(status: int, success: Option<bool>, message: string, error: Option<string>)

  const GenericMessage := "Something went wrong!"

  /** index.js's error handler. */
  function ServerErrorReply(err: JsError, env: Env): ErrorReply {
    ErrorReply(500, None, GenericMessage, DevOnly(env, err.message))
  }

  /** index.js: always 500, and `err.message` is echoed exactly in development. */
  lemma ServerErrorReplyMeaning(err: JsError, env: Env)
    ensures var r := ServerErrorReply(err, env);
      r.status == 500 && r.message == GenericMessage &&
      (r.error == Some(err.message) <==> IsDevelopment(env)) &&
      (!IsDevelopment(env) ==> r.error.None?)
  {
  }

  /** `err.status || 500`: a missing or zero status falls back to 500. */
  function StatusOr500(status: Option<int>): int {
    if status.Some? && status.value != 0 then status.value else 500
  }

  /** api/index.js's error handler. */
  function ApiErrorReply(err: JsError, env: Env): ErrorReply {
    ErrorReply(
      StatusOr500(err.status),
      Some(false),
      GenericMessage,
      Some(if IsDevelopment(env) then err.message else "Internal server error"))
  }

  /**
   * api/index.js: the status is the error's own when it is set and non-zero,
   * else 500; `error` is always present, `err.message` in development and a
   * fixed text otherwise.
   */
  lemma ApiErrorReplyMeaning(err: JsError, env: Env)
    ensures var r := ApiErrorReply(err, env);
      (err.status.Some? && err.status.value != 0 ==> r.status == err.status.value) &&
      (err.status.None? || err.status == Some(0) ==> r.status == 500) &&
      r.success == Some(false) && r.error.Some? &&
      (IsDevelopment(env) ==> r.error == Some(err.message)) &&
      (!IsDevelopment(env) ==> r.error == Some("Internal server error"))
  {
  }

  /** Outside development the api/index.js reply reveals nothing of the error but its status. */
  lemma ApiErrorReplyHidesDetail(e1: JsError, e2: JsError, env: Env)
    requires !IsDevelopment(env) && e1.status == e2.status
    ensures ApiErrorReply(e1, env) == ApiErrorReply(e2, env)
  {
  }

  /** Outside development index.js's reply is the same for every error. */
  lemma ServerErrorReplyHidesDetail(e1: JsError, e2: JsError, env: Env)
    requires !IsDevelopment(env)
    ensures ServerErrorReply(e1, env) == ServerErrorReply(e2, env)
  {
  }

  /** The outcome of api/index.js's dynamic `import('../routes/contactRoutes.js')`. */
  datatype RoutesLoad = RoutesLoaded | RoutesFailed(reason: string)

  /** What the router mounted at `/api/contact` does with a request. */
  datatype ContactMount = ServeContactRoutes | Respond(reply: ErrorReply)

  const FallbackReply := ErrorReply(500, Some(false), "Contact routes not available", Some("Module loading failed"))

  /** The router mounted at `/api/contact`, for a request with any method and path below it. */
  function ContactMountFor(load: RoutesLoad, httpMethod: string, path: string): ContactMount {
    match load
    case RoutesLoaded => ServeContactRoutes
    case RoutesFailed(_) => Respond(FallbackReply)
  }

  /**
   * When loading fails, every request under `/api/contact`, whatever its method
   * and path, gets the same 500 reply, and the load error's text is not in it.
   */
  lemma FallbackAnswersEverything(load: RoutesLoad, m1: string, p1: string, m2: string, p2: string)
    ensures load.RoutesLoaded? ==> ContactMountFor(load, m1, p1) == ServeContactRoutes
    ensures load.RoutesFailed? ==>
      ContactMountFor(load, m1, p1) == ContactMountFor(load, m2, p2) &&
      ContactMountFor(load, m1, p1).Respond? &&
      ContactMountFor(load, m1, p1).reply.status == 500 &&
      ContactMountFor(load, m1, p1).reply.message == "Contact routes not available" &&
      ContactMountFor(load, m1, p1).reply.error == Some("Module loading failed")
  {
  }
}
