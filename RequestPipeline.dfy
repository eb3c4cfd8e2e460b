/**
 * One request end to end: the security headers are set first, then the
 * security layer decides. A failed authentication is answered by the
 * authentication error handler; the CSRF refusal and an exception escaping the
 * chain by the container's error page; everything else goes to the router,
 * whose missing routes are answered by the not-found handler.
 */
module RequestPipeline {
  import opened Wrappers
  import opened Web
  import SecurityConfig
  import ResponseHeadersFilter
  import GlobalErrorHandler
  import Router

  /** What the client receives: status, content type if one is set explicitly, and body. */
  datatype Reply = Reply(status: int, contentType: Option<string>, body: Body)

  /** The dispatcher's exception when no route matches; the not-found handler does not look at it. */
  const NoHandlerFound: Throwable := Throwable(None)

  /** The status the CSRF filter's access-denied handler sends as an error. */
  const Forbidden: int := 403

  /** Past the gate: the router's response, or the not-found response when no route matches. */
  function Routed(request: Request, fault: Option<Throwable>): (r: ServerResponse)
    ensures r.status == 404 <==> Router.Route(Router.ApiRouter(), request.httpMethod, request.path).None?
    ensures r.status in {200, 404, 500}
  {
    match Router.Serve(request, fault)
    case None => GlobalErrorHandler.HandleNotFound(request, NoHandlerFound)
    case Some(served) => served
  }

  /**
   * The reply for the security layer's outcome: a failed authentication goes to
   * the authentication error handler, the CSRF refusal and an exception escaping
   * the chain to the container's error page, everything else to the router.
   */
  function ReplyTo(outcome: SecurityConfig.SecurityOutcome, request: Request, fault: Option<Throwable>): (reply: Reply)
    ensures reply.status in {200, 401, 403, 404, 500}
    ensures reply.status == 401 <==> outcome.AuthenticationFailed?
    ensures reply.status == 403 <==> outcome == SecurityConfig.CsrfRejected
    ensures reply.status == 404 <==> outcome.Proceeds() && Router.Route(Router.ApiRouter(), request.httpMethod, request.path).None?
    ensures reply.status == 200 <==> outcome.Proceeds() && fault.None? && Router.Route(Router.ApiRouter(), request.httpMethod, request.path).Some?
    ensures reply.contentType.Some? <==> reply.status == 401
  {
    match outcome
    case AuthenticationFailed(_) =>
      Reply(GlobalErrorHandler.Unauthorized, Some(GlobalErrorHandler.ApplicationJson), GlobalErrorHandler.AuthenticationRequired)
    case CsrfRejected => Reply(Forbidden, None, ErrorPage(Forbidden))
    case Crashed(_) => Reply(GlobalErrorHandler.InternalServerError, None, ErrorPage(GlobalErrorHandler.InternalServerError))
    case _ =>
      var r := Routed(request, fault);
      Reply(r.status, None, r.body)
  }

  /** The reply to a request; `fault` is a throwable raised inside the matched route, if any. */
  function Respond(props: SecurityConfig.SecurityProperties, request: Request, fault: Option<Throwable>): Reply
  {
    ReplyTo(SecurityConfig.Gate(props, request), request, fault)
  }

  /** The reply under the intended authorisation rule. */
  function IntendedRespond(props: SecurityConfig.SecurityProperties, request: Request, fault: Option<Throwable>): Reply
  {
    ReplyTo(SecurityConfig.IntendedGate(props, request), request, fault)
  }

  /** The fixed reply to a failed authentication. */
  const AuthenticationReply: Reply := Reply(401, Some("application/json"), ErrorBody(ErrorMessage(Some("Requires authentication"))))

  /** Past the gate, the reply is the router's response, or the not-found response when no route matches. */
  lemma RoutedReply(props: SecurityConfig.SecurityProperties, request: Request, fault: Option<Throwable>)
    requires SecurityConfig.Gate(props, request).Proceeds()
    ensures Respond(props, request, fault) ==
      match Router.Serve(request, fault)
      case None => Reply(404, None, ErrorBody(ErrorMessage(Some("Not Found"))))
      case Some(r) => Reply(r.status, None, r.body)
  {
  }

  /** Every failed authentication gets the same reply, whatever the request and whatever the failure. */
  lemma AuthenticationReplyIsFixed(props: SecurityConfig.SecurityProperties, r1: Request, r2: Request, f1: Option<Throwable>, f2: Option<Throwable>)
    requires SecurityConfig.Gate(props, r1).AuthenticationFailed? && SecurityConfig.Gate(props, r2).AuthenticationFailed?
    ensures Respond(props, r1, f1) == Respond(props, r2, f2)
    ensures Respond(props, r1, f1) == AuthenticationReply
  {
  }

  /**
   * GET on the public path answers 200 with the public message when the
   * exclusion pattern lets it skip the chain, whatever its token, and without a
   * token in any case.
   */
  lemma PublicAlwaysServed(props: SecurityConfig.SecurityProperties, request: Request)
    requires request.httpMethod == "GET" && request.path == "/api/messages/public"
    requires SecurityConfig.IsIgnored(request) || request.bearer.None?
    ensures Respond(props, request, None) == Reply(200, None, MessageBody(Message(Router.PublicText)))
  {
    SecurityConfig.OpenGate(props, request.(bearer := None));
    Router.ServeMessages(request);
    assert SecurityConfig.Gate(props, request).Proceeds();
  }

  /**
   * A request to the protected or admin path without a token is refused: a
   * safe method gets the 401 reply, any other method the CSRF filter's 403.
   */
  lemma SecuredWithoutToken(props: SecurityConfig.SecurityProperties, request: Request, fault: Option<Throwable>)
    requires request.path == "/api/messages/protected" || request.path == "/api/messages/admin"
    requires request.bearer.None?
    ensures Respond(props, request, fault) ==
      if SecurityConfig.IsSafeMethod(request.httpMethod) then AuthenticationReply else Reply(403, None, ErrorPage(403))
  {
    SecurityConfig.SecuredGate(props, request);
  }

  /** A genuine token from the right issuer whose audience list lacks the configured audience gets the 401 reply. */
  lemma WrongAudienceRejected(props: SecurityConfig.SecurityProperties, request: Request, fault: Option<Throwable>)
    requires request.path == "/api/messages/protected" || request.path == "/api/messages/admin"
    requires request.bearer.Some?
    requires var aud := request.bearer.value.claims.audience; aud.Some? && props.audience !in aud.value
    ensures Respond(props, request, fault) == AuthenticationReply
  {
    SecurityConfig.SecuredGate(props, request);
    SecurityConfig.DecoderAccepts(props, request.bearer.value);
  }

  /**
   * A genuine token without an audience claim, on any request the chain does not
   * skip, makes the audience validator throw: the container answers 500.
   */
  lemma MissingAudienceCrashes(props: SecurityConfig.SecurityProperties, request: Request, fault: Option<Throwable>)
    requires !SecurityConfig.IsIgnored(request)
    requires request.bearer.Some?
    requires var t := request.bearer.value;
      t.wellFormed && t.signingIssuer == Some(props.issuerUri) && t.claims.audience.None?
    ensures Respond(props, request, fault) == Reply(500, None, ErrorPage(500))
  {
    SecurityConfig.DecoderAccepts(props, request.bearer.value);
  }

  /** A token valid in every respect gets GET on the protected or admin path its canned message. */
  lemma ValidTokenServed(props: SecurityConfig.SecurityProperties, request: Request)
    requires request.httpMethod == "GET"
    requires request.path == "/api/messages/protected" || request.path == "/api/messages/admin"
    requires request.bearer.Some?
    requires var t := request.bearer.value;
      && t.wellFormed && t.signingIssuer == Some(props.issuerUri)
      && t.claims.issuer == Some(props.issuerUri) && t.claims.timestampsValid
      && t.claims.audience.Some? && props.audience in t.claims.audience.value
    ensures Respond(props, request, None) == Reply(200, None, MessageBody(Message(
      if request.path == "/api/messages/protected" then Router.ProtectedText else Router.AdminText)))
  {
    var outcome := SecurityConfig.Authenticated(request.bearer.value.claims);
    SecurityConfig.ValidTokenAuthenticates(props, request);
    assert Respond(props, request, None) == ReplyTo(outcome, request, None);
    ServedReply(outcome, request);
  }

  /** Once through the gate, a GET on one of the three paths gets 200 with that path's message. */
  lemma ServedReply(outcome: SecurityConfig.SecurityOutcome, request: Request)
    requires outcome.Proceeds() && request.httpMethod == "GET"
    requires request.path in ["/api/messages/public", "/api/messages/protected", "/api/messages/admin"]
    ensures ReplyTo(outcome, request, None) == Reply(200, None, MessageBody(Message(
      if request.path == "/api/messages/public" then Router.PublicText
      else if request.path == "/api/messages/protected" then Router.ProtectedText
      else Router.AdminText)))
  {
    Router.ServeMessages(request);
  }

  /**
   * A path no route matches gets 404 "Not Found" for any method once through the
   * gate: always when the chain skips it, and with or without a valid token otherwise.
   */
  lemma UnregisteredNotFound(props: SecurityConfig.SecurityProperties, request: Request, fault: Option<Throwable>)
    requires Router.Route(Router.ApiRouter(), "GET", request.path).None?
    requires SecurityConfig.Gate(props, request).Proceeds()
    ensures Respond(props, request, fault) == Reply(404, None, ErrorBody(ErrorMessage(Some("Not Found"))))
  {
    Router.ApiRouterFlat("GET", request.path);
    Router.ApiRouterFlat(request.httpMethod, request.path);
  }

  /**
   * Authentication comes before routing: a method other than GET on a secured
   * path reaches the router, and gets 404 there, only with a token the decoder accepts.
   */
  lemma SecuredNonGet(props: SecurityConfig.SecurityProperties, request: Request, fault: Option<Throwable>)
    requires request.httpMethod != "GET"
    requires request.path == "/api/messages/protected" || request.path == "/api/messages/admin"
    ensures Respond(props, request, fault).status == 404 <==>
      request.bearer.Some? && SecurityConfig.Authenticate(props, request.bearer.value).Authenticated?
  {
    SecurityConfig.SecuredGate(props, request);
  }

  /**
   * As written, the router serves a secured endpoint's path with a trailing
   * slash, which the exact ant patterns do not secure: an anonymous GET gets the
   * protected or admin message.
   */
  lemma TrailingSlashBypass(props: SecurityConfig.SecurityProperties, request: Request)
    requires request.httpMethod == "GET" && request.bearer.None?
    requires request.path == "/api/messages/protected/" || request.path == "/api/messages/admin/"
    ensures SecurityConfig.Gate(props, request) == SecurityConfig.Permitted
    ensures Respond(props, request, None) == Reply(200, None, MessageBody(Message(
      if request.path == "/api/messages/protected/" then Router.ProtectedText else Router.AdminText)))
  {
    assert SecurityConfig.ProtectedPrefix <= request.path || SecurityConfig.AdminPrefix <= request.path;
    assert "/api/messages/protected" + "/" == "/api/messages/protected/";
    assert "/api/messages/admin" + "/" == "/api/messages/admin/";
    Router.ServeMessages(request);
  }

  /**
   * Under the intended rule, the protected and admin messages are only ever
   * given to a request the bearer-token filter authenticated.
   */
  lemma IntendedGuardsSecuredMessages(props: SecurityConfig.SecurityProperties, request: Request, fault: Option<Throwable>)
    ensures IntendedRespond(props, request, fault).body == MessageBody(Message(Router.ProtectedText)) ==>
      SecurityConfig.IntendedGate(props, request).Authenticated?
    ensures IntendedRespond(props, request, fault).body == MessageBody(Message(Router.AdminText)) ==>
      SecurityConfig.IntendedGate(props, request).Authenticated?
  {
    var outcome := SecurityConfig.IntendedGate(props, request);
    var body := ReplyTo(outcome, request, fault).body;
    if body == MessageBody(Message(Router.ProtectedText)) || body == MessageBody(Message(Router.AdminText)) {
      MessageNeedsRoute(outcome, request, fault, body.message);
      Router.SecuredMessagesOnlyOnTheirPaths(request, fault);
      SecurityConfig.IntendedGuardsPaths(props, request);
    }
  }

  /** A message body only comes from a handler the router reached past the gate, with no throwable raised. */
  lemma MessageNeedsRoute(outcome: SecurityConfig.SecurityOutcome, request: Request, fault: Option<Throwable>, m: Message)
    requires ReplyTo(outcome, request, fault).body == MessageBody(m)
    ensures outcome.Proceeds()
    ensures Router.Serve(request, fault) == Some(ServerResponse(200, MessageBody(m)))
  {
  }

  /**
   * The servlet response carries `reply`: its status, its body written after
   * the bodies `written0` already written, and its content type when the
   * reply sets one.
   */
  predicate Delivers(response: ServletResponse, written0: seq<Body>, reply: Reply)
    reads response
  {
    && response.status == reply.status
    && response.written == written0 + [reply.body]
    && (reply.contentType.Some? ==> response.contentType == reply.contentType)
  }

  /**
   * The calls that put `reply` on the servlet response: a reply with a content
   * type (the authentication error's) sets the status and the content type,
   * writes the body and flushes; any other sets the status and writes the body.
   */
  function DeliveryOps(reply: Reply): (ops: seq<ResponseOp>)
    ensures |ops| > 0 && ops[0] == StatusSet(reply.status) && BodyWritten(reply.body) in ops
    ensures BufferFlushed in ops <==> reply.contentType.Some?
  {
    if reply.contentType.Some? then
      [StatusSet(reply.status), ContentTypeSet(reply.contentType.value), BodyWritten(reply.body), BufferFlushed]
    else
      [StatusSet(reply.status), BodyWritten(reply.body)]
  }

  /**
   * Only the authentication error's reply flushes the response or sets its
   * content type: for any other reply both are as they were before.
   */
  predicate FlushesOnlyOnAuthenticationError(response: ServletResponse, flushed0: bool, contentType0: Option<string>, reply: Reply)
    reads response
  {
    && response.flushed == (flushed0 || reply.status == 401)
    && (reply.status != 401 ==> response.contentType == contentType0)
  }

  /**
   * Handles one request on an HTTP response: the eight security headers first,
   * then the decision of the security layer, then the router or an error handler.
   */
  method HandleRequest(props: SecurityConfig.SecurityProperties, request: Request, response: ServletResponse, fault: Option<Throwable>)
    requires response.isHttp
    modifies response`headers, response`ops, response`status, response`contentType, response`written, response`flushed
    ensures ResponseHeadersFilter.HasSecurityHeaders(response.headers)
    ensures ResponseHeadersFilter.KeepsOtherHeaders(old(response.headers), response.headers)
    ensures Delivers(response, old(response.written), Respond(props, request, fault))
    ensures |response.ops| > |old(response.ops)| + 8
    ensures response.ops[..|old(response.ops)| + 8] == old(response.ops) + ResponseHeadersFilter.SecurityHeaderOps()
    ensures response.ops == old(response.ops) + ResponseHeadersFilter.SecurityHeaderOps() + DeliveryOps(Respond(props, request, fault))
    ensures FlushesOnlyOnAuthenticationError(response, old(response.flushed), old(response.contentType), Respond(props, request, fault))
  {
    SecureHeaders(response);
    Answer(props, request, response, fault);
  }

  /** The headers filter's step on an HTTP response, stated through what it guarantees about the header map. */
  method SecureHeaders(response: ServletResponse)
    requires response.isHttp
    modifies response`headers, response`ops
    ensures ResponseHeadersFilter.HasSecurityHeaders(response.headers)
    ensures ResponseHeadersFilter.KeepsOtherHeaders(old(response.headers), response.headers)
    ensures response.ops == old(response.ops) + ResponseHeadersFilter.SecurityHeaderOps()
    ensures |ResponseHeadersFilter.SecurityHeaderOps()| == 8
  {
    ghost var h0 := response.headers;
    ResponseHeadersFilter.SetSecurityHeaders(response);
    ResponseHeadersFilter.SecurityHeadersHold(h0);
    ResponseHeadersFilter.SetAllKeepsOthers(h0);
  }

  /** Everything after the headers: the security decision, then the matching handler writes its reply. */
  method Answer(props: SecurityConfig.SecurityProperties, request: Request, response: ServletResponse, fault: Option<Throwable>)
    requires response.isHttp
    modifies response`ops, response`status, response`contentType, response`written, response`flushed
    ensures Delivers(response, old(response.written), Respond(props, request, fault))
    ensures |response.ops| > |old(response.ops)|
    ensures response.ops[..|old(response.ops)|] == old(response.ops)
    ensures response.ops == old(response.ops) + DeliveryOps(Respond(props, request, fault))
    ensures FlushesOnlyOnAuthenticationError(response, old(response.flushed), old(response.contentType), Respond(props, request, fault))
  {
    var outcome := SecurityConfig.Gate(props, request);
    AnswerOutcome(outcome, request, response, fault);
  }

  /** The reply to one outcome of the security layer: the authentication error handler on a failure, else status and body. */
  method AnswerOutcome(outcome: SecurityConfig.SecurityOutcome, request: Request, response: ServletResponse, fault: Option<Throwable>)
    requires response.isHttp
    modifies response`ops, response`status, response`contentType, response`written, response`flushed
    ensures Delivers(response, old(response.written), ReplyTo(outcome, request, fault))
    ensures response.ops == old(response.ops) + DeliveryOps(ReplyTo(outcome, request, fault))
    ensures FlushesOnlyOnAuthenticationError(response, old(response.flushed), old(response.contentType), ReplyTo(outcome, request, fault))
  {
    var reply := ReplyTo(outcome, request, fault);
    if outcome.AuthenticationFailed? {
      assert reply == Reply(GlobalErrorHandler.Unauthorized, Some(GlobalErrorHandler.ApplicationJson), GlobalErrorHandler.AuthenticationRequired);
      GlobalErrorHandler.HandleAuthenticationError(request, response, outcome.failure);
    } else {
      assert reply.contentType.None? && reply.status != 401;
      response.SetStatus(reply.status);
      response.Write(reply.body);
    }
  }
}
