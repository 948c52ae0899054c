/** The application's terminal error handler (`app.onError` in
    server/index.ts): every failure raised while a request is processed is
    turned into a response here. */
module ErrorResponder {
  import opened Wrappers
  import opened JsValues

  /** The JSON body the handler builds (the shared `ErrorResponse` type).
      The form-error flag keeps the source's spelling, `isFormerror`, and is
      absent from the body of an unexpected error. */
  datatype ErrorBody = ErrorBody(success: bool, error: string, isFormerror: Option<bool>)

  datatype Body =
    | Json(payload: ErrorBody)
    | Opaque(content: string)      // any body of a response built elsewhere

  datatype Response = Response(status: int, body: Body)

  /** A failure reaching the handler: Hono's `HTTPException`, raised on
      purpose by application code, or any other `Error`. An absent `cause`
      is `Undefined`; `res` is the ready-made response an `HTTPException`
      may carry. */
  datatype AppError =
    | HttpException(status: int, message: string, cause: JsValue, res: Option<Response>)
    | Other(message: string, stack: Option<string>)

  const InternalServerError := "Internal Server Error"

  /** The `isFormerror` flag: `cause && typeof cause === "object" && "form" in cause
      ? cause.form === true : false`. It holds exactly when the cause is a
      non-function object whose `form` property is the boolean `true`.
      JavaScript's `in` throws a TypeError on a non-object; the guards before it
      are what make `cause.props` defined here. `=== true` compares with the
      boolean `true` only, so a merely truthy `form` does not count. */
  predicate FormFlag(cause: JsValue)
    ensures FormFlag(cause) <==>
      cause.Obj? && !cause.callable && "form" in cause.props && cause.props["form"] == Bool(true)
  {
    if Truthy(cause) && TypeOf(cause) == "object" && "form" in cause.props
    then cause.props["form"] == Bool(true)
    else false
  }

  /** The response `app.onError` returns for `err`, where `nodeEnv` is the value of
      `process.env.NODE_ENV` (`None` when unset); only exactly "production" masks detail. */
  function OnError(err: AppError, nodeEnv: Option<string>): (r: Response)
    // An expected error that carries a ready-made response returns it unchanged.
    ensures err.HttpException? && err.res.Some? ==> r == err.res.value
    // Otherwise an expected error keeps its status and message, and flags a form error
    // exactly when its cause is an object whose `form` is `true`.
    ensures err.HttpException? && err.res.None? ==>
      && r.status == err.status
      && r.body.Json?
      && !r.body.payload.success
      && r.body.payload.error == err.message
      && r.body.payload.isFormerror.Some?
      && (r.body.payload.isFormerror.value <==>
            err.cause.Obj? && !err.cause.callable && "form" in err.cause.props
            && err.cause.props["form"] == Bool(true))
    // An unexpected error is a 500 without a form flag; production hides its detail,
    // other modes show the stack when there is one and the message otherwise.
    ensures err.Other? ==>
      && r.status == 500
      && r.body.Json?
      && !r.body.payload.success
      && r.body.payload.isFormerror.None?
      && (nodeEnv == Some("production") ==> r.body.payload.error == InternalServerError)
      && (nodeEnv != Some("production") && err.stack.Some? ==> r.body.payload.error == err.stack.value)
      && (nodeEnv != Some("production") && err.stack.None? ==> r.body.payload.error == err.message)
  {
    match err
    case HttpException(status, message, cause, res) =>
      res.OrElse(Response(status, Json(ErrorBody(false, message, Some(FormFlag(cause))))))
    case Other(message, stack) =>
      Response(500, Json(ErrorBody(
        false,
        if nodeEnv == Some("production") then InternalServerError else stack.OrElse(message),
        None)))
  }

  /** In production the body of an unexpected error does not depend on the
      error at all, so no message or stack reaches the client. */
  lemma ProductionHidesDetail(e1: AppError, e2: AppError, nodeEnv: Option<string>)
    requires e1.Other? && e2.Other? && nodeEnv == Some("production")
    ensures OnError(e1, nodeEnv) == OnError(e2, nodeEnv)
  {
  }

  /** A store failure (any unexpected error) in production is a bare 500. */
  lemma StoreFailureInProduction(message: string, stack: Option<string>, nodeEnv: Option<string>)
    requires nodeEnv == Some("production")
    ensures OnError(Other(message, stack), nodeEnv) == Response(500, Json(ErrorBody(false, InternalServerError, None)))
  {
  }

  /** A stack that is present but empty is still shown: `??` only falls back
      to the message when the stack is null or undefined. */
  lemma EmptyStackIsShown(message: string, nodeEnv: Option<string>)
    requires nodeEnv != Some("production")
    ensures OnError(Other(message, Some("")), nodeEnv).body.payload.error == ""
  {
  }

  /** An expected error with status 422 and cause `{ form: true }`. */
  lemma FormErrorScenario(message: string)
    ensures OnError(HttpException(422, message, Obj(map["form" := Bool(true)], false), None), None)
         == Response(422, Json(ErrorBody(false, message, Some(true))))
  {
  }

  /** A truthy `form` other than the boolean `true` does not make a form error. */
  lemma TruthyFormIsNotTrue(message: string)
    ensures OnError(HttpException(400, message, Obj(map["form" := Str("yes")], false), None), None)
         == Response(400, Json(ErrorBody(false, message, Some(false))))
  {
  }
}
