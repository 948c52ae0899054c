# Session gate and error responder of the news-site API server

This project models the two pieces of decision logic in the API server's
`server/index.ts`, in Dafny, and proves what they promise.

- **The session gate** is the middleware that runs before every route. On the
  login and signup paths it clears the request's identity and skips
  validation. Otherwise it reads the session cookie. A missing or empty cookie
  also clears the identity without validation. A present cookie is passed to
  Lucia's `validateSession`. When that call yields a fresh session, a renewal
  cookie is appended to the response. When it yields no session, a blanking
  cookie is appended. The session and user it returned are then stored in the
  context as they are.
  The model has two classes: `Context` (path, session cookie, `user`, `session`, headers) and
  `SessionValidator`. `SessionValidator` stands in for Lucia. It has a fixed
  `answer` per session id and records in `queried` every id it was asked
  about. `SessionMiddleware` updates both objects in step with the source.
  Its contract gives the whole new state. It is backed by the specification
  functions `SessionToValidate` and `AppendedHeaders` and by lemmas over the
  `Set-Cookie` view (`CookieDirectives`) of the header list. That list is
  only ever appended to.
- **The error responder** (`app.onError`) is a pure function from the failure
  and the `NODE_ENV` value to a response. An `HTTPException` that carries a
  response returns that response. Any other `HTTPException` gives its own
  status and a `{success: false, error, isFormerror}` body, where the flag
  keeps the source's spelling. Every other error gives a 500: in production
  its text is `"Internal Server Error"`, otherwise the stack or the message.
  The JavaScript semantics that the `isFormerror` test relies on (truthiness and
  `typeof`) are modelled in `JsValues`.

Files: `wrappers.dfy` (Option), `js_values.dfy`, `error_responder.dfy`, `session_gate.dfy`.

## Model

| member | source | states |
|---|---|---|
| `SessionGate.SessionToValidate` | server/index.ts:25-36 | validation happens exactly when the path is neither `/api/auth/login` nor `/api/auth/signup` and the cookie is present and non-empty, and then it validates the cookie's own value |
| `SessionGate.AppendedHeaders` | server/index.ts:38-48 | at most one header is appended, always a `Set-Cookie`; it renews with the session's own id exactly when the session is fresh, blanks exactly when there is no session, and nothing is appended exactly for a valid session that is not fresh |
| `SessionGate.CookieDirectives` | server/index.ts:40-47 | the `Set-Cookie` view of a header list: no longer than the list, and holding a directive exactly when the list holds a `Set-Cookie` header for it |
| `SessionGate.CookieDirectivesAppend` | server/index.ts:40-47 | appending headers (`append: true`) appends their cookie directives after the existing ones |
| `SessionGate.AtMostOneCookiePerRequest` | server/index.ts:38-48 | one validation adds at most one cookie directive, keeps the earlier ones in front, and adds exactly `Blank` for no session, exactly `Renew(id)` for a fresh session and nothing otherwise |
| `SessionGate.SessionValidator.ValidateSession` | server/index.ts:37 | the call yields the validator's answer for the id and records that it was asked about that id |
| `SessionGate.Context.AppendHeader` | server/index.ts:40-47 | `c.header(…, {append: true})` adds the header at the end and changes nothing else |
| `SessionGate.Context.SetIdentity` | server/index.ts:49-50 | `c.set("user")` and `c.set("session")` store the given values and leave the headers alone |
| `SessionGate.SessionMiddleware` | server/index.ts:23-52 | the whole new state of context and validator in each case. On login/signup, and with a missing or empty cookie: empty identity, headers unchanged, validator never called. Otherwise the validator is called once with the cookie. A rejected call propagates its error and sets nothing. A completed call puts its session and user into the context verbatim and appends `AppendedHeaders`. Headers are only ever extended, with at most one more cookie directive. A fresh session adds exactly its renewal, a missing one exactly a blank. A well-formed validator leaves user and session both present or both absent |
| `ErrorResponder.FormFlag` | server/index.ts:71-74 | `isFormerror` is true exactly when the cause is a non-function object whose `form` property is the boolean `true`; false for a falsy, primitive or function cause, a missing `form`, or one that is merely truthy |
| `ErrorResponder.OnError` | server/index.ts:63-92 | an `HTTPException` with `res` returns it unchanged. Without `res`: its status, `success: false`, its message, and a present form flag that holds exactly for a `{form: true}`-like cause. Any other error: status 500, `success: false`, no form flag, and `"Internal Server Error"` in production, else the stack when present, else the message |
| `ErrorResponder.ProductionHidesDetail` | server/index.ts:82-91 | in production two unexpected errors give the same response, so no error detail leaks |
| `ErrorResponder.EmptyStackIsShown` | server/index.ts:88 | `??` falls back to the message only for an absent stack: an empty stack is shown as the empty string |
| `ErrorResponder.FormErrorScenario` | server/index.ts:65-77 | status 422 with cause `{form: true}` gives `{success: false, error: message, isFormerror: true}` with status 422 |
| `ErrorResponder.TruthyFormIsNotTrue` | server/index.ts:71-74 | a cause whose `form` is a truthy string gives `isFormerror: false` |
| `JsValues.TypeOf` | server/index.ts:72 | `typeof` yields "object" exactly for `null` and for non-function objects |
| `JsValues.Truthy` | server/index.ts:72 | the guard `err.cause && …`: a value is falsy exactly when it is undefined, null, false, 0, NaN, the empty string or 0n |
| `ErrorResponder.StoreFailureInProduction` | server/index.ts:82-91 | any unexpected error (a store failure among them) in production gives status 500 with `{success: false, error: "Internal Server Error"}` and no form flag |
| `SessionGate.WellFormedReply` | server/index.ts:37 | an assumption about Lucia's result, not a property proved here: session and user are both present (the user owning the session) or both absent; `SessionMiddleware` uses it as a hypothesis |
| `SessionGate.GateWithErrorHandler` | server/index.ts:23-92 | the middleware's new context and validator state in every case; bypassed, cookieless and validated requests go on with no error response; a rejection of `validateSession` leaves headers and identity alone and is answered by `app.onError`, so a store failure in production becomes a bare 500 |

## Left out

- The logging middleware (server/index.ts:15-20): timing with `performance.now()`, float formatting and console output.
- `SessionGate.CookieDirectives`: counts `Set-Cookie` headers only as `SetCookie` values. A `Field` header named `Set-Cookie` is not recognised as one, so the "at most one more cookie directive" promise is about `SetCookie` values; earlier cookies on the context are to be given as `SetCookie`.
- `SessionGate.Session`: Lucia's session also carries `expiresAt`. It is not modelled, because the gate never reads it. The context receives the modelled fields exactly as returned.
- `cors()`: its headers are among the `Field` headers a context may already hold. In the real chain it answers preflight requests itself, so the gate never runs for them; that case is not modelled.
- The inside of Lucia's `validateSession` (server/lucia.ts configures it): the 30-day lifetime, the freshness threshold, the expiry check, the deletion of stale sessions and the store round-trip. The validator is an oracle whose answer per id is fixed for the request. The renewal threshold scenarios therefore have no counterpart here.
- The cookie name, `getCookie` and the wire format of `serialize()` (with its `secure`, path and max-age attributes). The context holds the cookie value `getCookie(…) ?? null` as an `Option`, and a serialised cookie is `Renew(id)` or `Blank`.
- `SessionGate.Context.constructor`: Hono's context variables are undefined before `c.set`. The model starts them as `None`, so "never set" and "set to null" look the same (this matters only when the validator throws).
- Hono's `c.json`: the JSON encoding, the content-type header, and any headers already on the context that Hono merges into a built error response. A response is a status plus a body.
- HTTP status codes are plain integers; the narrower set Hono's types allow for `HTTPException` is not enforced.
- `JsValues`: an object's properties are its own properties. A `form` inherited through a custom prototype, getters, and `Infinity` (truthy like any non-zero number) are not modelled.
- Route wiring, the auth and posts routers, `server/adapter.ts` (environment parsing, database pool, ORM) and `server/server.ts` (process startup).
- Concurrency between requests; each request is modelled on its own.
