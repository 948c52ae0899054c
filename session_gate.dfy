/** The per-request session gate of server/index.ts: a middleware that runs
    before every route, resolves the session cookie into a (session, user)
    pair through Lucia's `validateSession`, decides which `Set-Cookie`
    directives to add to the response, and stores the pair in the request
    context for the handlers downstream. */
module SessionGate {
  import opened Wrappers
  import opened ErrorResponder

  /** A session as `validateSession` returns it; `isFresh` (Lucia's `fresh`) says that its
      expiry was just extended, so the client must be sent a new cookie. */
  datatype Session = Session(id: string, userId: string, isFresh: bool)

  /** A user with the one attribute the application exposes. */
  datatype User = User(id: string, username: string)

  /** A serialised session cookie: the renewal cookie for a session id
      (`createSessionCookie(id)`) or the cookie that clears the session
      (`createBlankSessionCookie()`). */
  datatype Cookie = Renew(sessionId: string) | Blank

  /** A response header: a `Set-Cookie` directive or any other header
      (those set by CORS, for one). */
  datatype Header = SetCookie(cookie: Cookie) | Field(name: string, value: string)

  /** What the awaited `validateSession` call produced: a result, or a
      rejection (a store failure, say) that propagates out of the middleware. */
  datatype ValidatorReply =
    | Validated(session: Option<Session>, user: Option<User>)
    | Threw(error: AppError)

  /** Lucia's result shape: both absent, or a session with the user it belongs to. */
  predicate WellFormedReply(session: Option<Session>, user: Option<User>)
    ensures WellFormedReply(session, user) ==> (session.Some? <==> user.Some?)
  {
    match (session, user)
    case (None, None) => true
    case (Some(s), Some(u)) => s.userId == u.id
    case _ => false
  }

  /** How the middleware hands over: it calls `next()`, or its awaited call threw. */
  datatype Flow = Next | Raise(error: AppError)

  const LoginPath := "/api/auth/login"
  const SignupPath := "/api/auth/signup"

  /** The paths on which validation is skipped. */
  const BypassPaths: set<string> := {LoginPath, SignupPath}

  /** The session id the middleware validates, or `None` when it skips
      validation: on a bypassed path, and when the cookie is missing or
      empty (`!sessionId` is true of `null` and of `""`). */
  function SessionToValidate(path: string, cookie: Option<string>): (r: Option<string>)
    ensures r.Some? <==> path !in BypassPaths && cookie.Some? && cookie.value != ""
    ensures r.Some? ==> r == cookie
  {
    if path == LoginPath || path == SignupPath then None
    else if cookie.None? || cookie.value == "" then None
    else cookie
  }

  /** The headers appended once the validator has answered with `session`. */
  function AppendedHeaders(session: Option<Session>): (r: seq<Header>)
    ensures |r| <= 1
    ensures forall h :: h in r ==> h.SetCookie?
    // a fresh session is renewed, with its own id
    ensures forall id :: SetCookie(Renew(id)) in r <==> session.Some? && session.value.isFresh && id == session.value.id
    // a missing session is blanked
    ensures SetCookie(Blank) in r <==> session.None?
    // a valid session that is not fresh leaves the headers alone
    ensures r == [] <==> session.Some? && !session.value.isFresh
  {
    var renew := if session.Some? && session.value.isFresh then [SetCookie(Renew(session.value.id))] else [];
    var blank := if session.None? then [SetCookie(Blank)] else [];
    renew + blank
  }

  /** The `Set-Cookie` directives among `hs`, in order. */
  function CookieDirectives(hs: seq<Header>): (r: seq<Cookie>)
    ensures |r| <= |hs|
    ensures forall k :: k in r <==> SetCookie(k) in hs
  {
    if hs == [] then []
    else (if hs[0].SetCookie? then [hs[0].cookie] else []) + CookieDirectives(hs[1..])
  }

  lemma {:induction false} CookieDirectivesAppend(a: seq<Header>, b: seq<Header>)
    ensures CookieDirectives(a + b) == CookieDirectives(a) + CookieDirectives(b)
  {
    if a == [] {
      assert a + b == b;
    } else {
      assert (a + b)[1..] == a[1..] + b;
      CookieDirectivesAppend(a[1..], b);
    }
  }

  /** One validation adds at most one cookie directive to the response: the
      renewal of a fresh session or the blanking of a missing one, never both,
      and keeps every directive that was already there, in front. */
  lemma {:induction false} AtMostOneCookiePerRequest(hs: seq<Header>, session: Option<Session>)
    ensures var before, after := CookieDirectives(hs), CookieDirectives(hs + AppendedHeaders(session));
      && |after| <= |before| + 1
      && before <= after
      && (session.None? ==> after == before + [Blank])
      && (session.Some? && session.value.isFresh ==> after == before + [Renew(session.value.id)])
      && (session.Some? && !session.value.isFresh ==> after == before)
  {
    CookieDirectivesAppend(hs, AppendedHeaders(session));
  }

  /** Lucia's `validateSession`, seen from outside: `answer` is what the call
      yields for a session id on this request, and `queried` records the ids
      it was called with. */
  class SessionValidator {
    const answer: string -> ValidatorReply
    var queried: seq<string>

    constructor (answer: string -> ValidatorReply)
      ensures this.answer == answer && queried == []
    {
      this.answer := answer;
      queried := [];
    }

    method ValidateSession(id: string) returns (reply: ValidatorReply)
      modifies this
      ensures reply == answer(id)
      ensures queried == old(queried) + [id]
    {
      reply := answer(id);
      queried := queried + [id];
    }
  }

  /** The request-scoped part of Hono's context: the request path, the
      value of the session cookie, the `user` and `session` variables and
      the response headers written so far. */
  class Context {
    const path: string
    const sessionCookie: Option<string>
    var user: Option<User>
    var session: Option<Session>
    var headers: seq<Header>

    constructor (path: string, sessionCookie: Option<string>, headers: seq<Header>)
      ensures this.path == path && this.sessionCookie == sessionCookie
      ensures user == None && session == None && this.headers == headers
    {
      this.path := path;
      this.sessionCookie := sessionCookie;
      user := None;
      session := None;
      this.headers := headers;
    }

    /** `c.header("Set-Cookie", …, { append: true })`. */
    method AppendHeader(h: Header)
      modifies this
      ensures headers == old(headers) + [h]
      ensures user == old(user) && session == old(session)
    {
      headers := headers + [h];
    }

    /** `c.set("user", …)` followed by `c.set("session", …)`. */
    method SetIdentity(user: Option<User>, session: Option<Session>)
      modifies this
      ensures this.user == user && this.session == session
      ensures headers == old(headers)
    {
      this.user := user;
      this.session := session;
    }
  }

  /** The session middleware, up to its call of `next()`. */
  method SessionMiddleware(c: Context, lucia: SessionValidator) returns (flow: Flow)
    modifies c, lucia
    // The whole new state, case by case.
    ensures SessionToValidate(c.path, c.sessionCookie).None? ==>
      && flow == Next && c.user == None && c.session == None
      && c.headers == old(c.headers) && lucia.queried == old(lucia.queried)
    ensures SessionToValidate(c.path, c.sessionCookie).Some? ==>
      var id := SessionToValidate(c.path, c.sessionCookie).value;
      && lucia.queried == old(lucia.queried) + [id]
      && match lucia.answer(id)
         case Threw(e) =>
           && flow == Raise(e) && c.headers == old(c.headers)
           && c.user == old(c.user) && c.session == old(c.session)
         case Validated(s, u) =>
           && flow == Next && c.user == u && c.session == s
           && c.headers == old(c.headers) + AppendedHeaders(s)
    // Bypass: login and signup never reach the validator, whatever the cookie.
    ensures c.path in BypassPaths ==>
      flow == Next && c.user == None && c.session == None
      && c.headers == old(c.headers) && lucia.queried == old(lucia.queried)
    // Missing or empty cookie: the same.
    ensures (c.sessionCookie == None || c.sessionCookie == Some("")) ==>
      flow == Next && c.user == None && c.session == None
      && c.headers == old(c.headers) && lucia.queried == old(lucia.queried)
    // Headers are only ever appended, and at most one cookie directive is added.
    ensures old(c.headers) <= c.headers
    ensures |CookieDirectives(c.headers)| <= |CookieDirectives(old(c.headers))| + 1
    // Renewal and invalidation.
    ensures flow == Next && c.session.Some? && c.session.value.isFresh ==>
      CookieDirectives(c.headers) == CookieDirectives(old(c.headers)) + [Renew(c.session.value.id)]
    ensures flow == Next && c.session.Some? && !c.session.value.isFresh ==>
      c.headers == old(c.headers)
    ensures flow == Next && c.session.None? && lucia.queried != old(lucia.queried) ==>
      CookieDirectives(c.headers) == CookieDirectives(old(c.headers)) + [Blank]
    // The context holds what Lucia said: both present or both absent.
    ensures flow == Next && (forall id :: lucia.answer(id).Validated? ==>
                               WellFormedReply(lucia.answer(id).session, lucia.answer(id).user)) ==>
      WellFormedReply(c.session, c.user)
  {
    if c.path == LoginPath || c.path == SignupPath {
      c.SetIdentity(None, None);
      return Next;
    }

    var sessionId := c.sessionCookie;
    if sessionId.None? || sessionId.value == "" {
      c.SetIdentity(None, None);
      return Next;
    }

    var reply := lucia.ValidateSession(sessionId.value);
    if reply.Threw? {
      return Raise(reply.error);
    }
    var session, user := reply.session, reply.user;
    ghost var before := c.headers;
    if session.Some? && session.value.isFresh {
      c.AppendHeader(SetCookie(Renew(session.value.id)));
    }
    if session.None? {
      c.AppendHeader(SetCookie(Blank));
    }
    assert c.headers == before + AppendedHeaders(session);
    AtMostOneCookiePerRequest(before, session);
    c.SetIdentity(user, session);
    return Next;
  }

  /** The gate inside Hono's dispatch: a validator rejection raised by the
      middleware reaches `app.onError`, whose response is sent; otherwise the
      request goes on to the routes and no error response is produced here. */
  method GateWithErrorHandler(c: Context, lucia: SessionValidator, nodeEnv: Option<string>)
    returns (flow: Flow, response: Option<Response>)
    modifies c, lucia
    ensures flow.Raise? ==> response == Some(OnError(flow.error, nodeEnv))
    ensures flow.Next? ==> response == None
    // The new state of context and validator, as the middleware leaves it.
    ensures SessionToValidate(c.path, c.sessionCookie).None? ==>
      && flow == Next && response == None && c.user == None && c.session == None
      && c.headers == old(c.headers) && lucia.queried == old(lucia.queried)
    ensures SessionToValidate(c.path, c.sessionCookie).Some? ==>
      var id := SessionToValidate(c.path, c.sessionCookie).value;
      && lucia.queried == old(lucia.queried) + [id]
      && match lucia.answer(id)
         case Threw(e) =>
           && flow == Raise(e) && response == Some(OnError(e, nodeEnv))
           && c.headers == old(c.headers)
           && c.user == old(c.user) && c.session == old(c.session)
         case Validated(s, u) =>
           && flow == Next && response == None && c.user == u && c.session == s
           && c.headers == old(c.headers) + AppendedHeaders(s)
    // In particular, a store failure in production is a bare 500.
    ensures SessionToValidate(c.path, c.sessionCookie).Some? ==>
      var id := SessionToValidate(c.path, c.sessionCookie).value;
      lucia.answer(id).Threw? && lucia.answer(id).error.Other? && nodeEnv == Some("production") ==>
        response == Some(Response(500, Json(ErrorBody(false, InternalServerError, None))))
  {
    flow := SessionMiddleware(c, lucia);
    if flow.Raise? {
      response := Some(OnError(flow.error, nodeEnv));
    } else {
      response := None;
    }
  }
}
