/**
 * The functional route table: nested path prefixes `/api` and `/messages`
 * around three GET routes, each answering with a canned message, and a
 * fallback that turns any throwable raised inside a route into an
 * internal-error response.
 */
module Router {
  import opened Wrappers
  import opened Web
  import Paths
  import GlobalErrorHandler

  /** The three message handlers. */
  datatype Handler = GetPublic | GetProtected | GetAdmin

  /** A router: a GET route on a pattern, or a path prefix nesting further routers tried in order. */
  datatype RouterFunction =
    | GetRoute(pattern: string, handler: Handler)
    | Nest(prefix: string, routes: seq<RouterFunction>)

  /** The messages the handlers answer with. */
  const PublicText: string := "This is a public message."
  const ProtectedText: string := "This is a protected message."
  const AdminText: string := "This is an admin message."

  /** A successful handler call: 200 with the handler's message. */
  function Invoke(h: Handler): (r: ServerResponse)
    ensures r.status == 200 && r.body.MessageBody?
  {
    match h
    case GetPublic => ServerResponse(200, MessageBody(Message(PublicText)))
    case GetProtected => ServerResponse(200, MessageBody(Message(ProtectedText)))
    case GetAdmin => ServerResponse(200, MessageBody(Message(AdminText)))
  }

  /** A route pattern matches the path itself and, the path pattern parser's default, the path with one trailing slash. */
  predicate PatternMatches(pattern: string, path: string)
  {
    path == pattern || path == pattern + "/"
  }

  /** `prefix` matches the start of `path` on a segment boundary. */
  predicate PrefixMatches(prefix: string, path: string)
  {
    prefix <= path && (|path| == |prefix| || path[|prefix|] == '/')
  }

  /** The handler a router chooses for a method and a path, if any. */
  function Route(r: RouterFunction, httpMethod: string, path: string): (chosen: Option<Handler>)
    ensures chosen.Some? ==> httpMethod == "GET"
    decreases r, 1
  {
    match r
    case GetRoute(pattern, h) => if httpMethod == "GET" && PatternMatches(pattern, path) then Some(h) else None
    case Nest(prefix, routes) => if PrefixMatches(prefix, path) then FirstRoute(routes, httpMethod, path[|prefix|..]) else None
  }

  /** The first router of `routes` that chooses a handler wins. */
  function FirstRoute(routes: seq<RouterFunction>, httpMethod: string, path: string): (chosen: Option<Handler>)
    ensures chosen.Some? ==> httpMethod == "GET"
    decreases routes, 0
  {
    if routes == [] then None
    else match Route(routes[0], httpMethod, path)
      case Some(h) => Some(h)
      case None => FirstRoute(routes[1..], httpMethod, path)
  }

  /** The application's router, assembled from the segments of the path records. */
  function ApiRouter(): RouterFunction
  {
    var api := Paths.ApiPath();
    var messages := Paths.MessagesPath(api);
    Nest(api.segment, [
      Nest(messages.segment, [
        GetRoute(Paths.PublicPath(messages).segment, GetPublic),
        GetRoute(Paths.ProtectedPath(messages).segment, GetProtected),
        GetRoute(Paths.AdminPath(messages).segment, GetAdmin)])])
  }

  /** The endpoint record each handler is registered for. */
  function EndpointOf(h: Handler): Paths.Path
  {
    var messages := Paths.MessagesPath(Paths.ApiPath());
    match h
    case GetPublic => Paths.PublicPath(messages)
    case GetProtected => Paths.ProtectedPath(messages)
    case GetAdmin => Paths.AdminPath(messages)
  }

  /** The routing table flattened: GET on one of the three full paths, with or without a trailing slash, selects its handler. */
  function FlatRoute(httpMethod: string, path: string): Option<Handler>
  {
    if httpMethod != "GET" then None
    else if PatternMatches("/api/messages/public", path) then Some(GetPublic)
    else if PatternMatches("/api/messages/protected", path) then Some(GetProtected)
    else if PatternMatches("/api/messages/admin", path) then Some(GetAdmin)
    else None
  }

  /** Routing through the nested prefixes is the same as matching the three full paths. */
  lemma ApiRouterFlat(httpMethod: string, path: string)
    ensures Route(ApiRouter(), httpMethod, path) == FlatRoute(httpMethod, path)
  {
    ApiRouterShape();
    NestedRoutesFlat("/api", "/messages", "/public", "/protected", "/admin", GetPublic, GetProtected, GetAdmin, httpMethod, path);
    FullPaths();
  }

  /** The application's router written out. */
  lemma ApiRouterShape()
    ensures ApiRouter() == Nest("/api", [Nest("/messages", [
      GetRoute("/public", GetPublic), GetRoute("/protected", GetProtected), GetRoute("/admin", GetAdmin)])])
  {
  }

  /** The segments joined into the three full paths, and with a trailing slash. */
  lemma FullPaths()
    ensures "/api" + "/messages" + "/public" == "/api/messages/public"
    ensures "/api" + "/messages" + "/protected" == "/api/messages/protected"
    ensures "/api" + "/messages" + "/admin" == "/api/messages/admin"
    ensures "/api" + "/messages" + ("/public" + "/") == "/api/messages/public" + "/"
    ensures "/api" + "/messages" + ("/protected" + "/") == "/api/messages/protected" + "/"
    ensures "/api" + "/messages" + ("/admin" + "/") == "/api/messages/admin" + "/"
  {
  }

  /** Three GET routes under two nested prefixes: a GET reaches the first route whose full path matches. */
  lemma NestedRoutesFlat(outer: string, nested: string, a: string, b: string, c: string, ha: Handler, hb: Handler, hc: Handler, httpMethod: string, path: string)
    requires |nested| > 0 && nested[0] == '/'
    requires |a| > 0 && a[0] == '/' && |b| > 0 && b[0] == '/' && |c| > 0 && c[0] == '/'
    ensures Route(Nest(outer, [Nest(nested, [GetRoute(a, ha), GetRoute(b, hb), GetRoute(c, hc)])]), httpMethod, path) ==
      if httpMethod != "GET" then None
      else if PatternMatches(outer + nested + a, path) then Some(ha)
      else if PatternMatches(outer + nested + b, path) then Some(hb)
      else if PatternMatches(outer + nested + c, path) then Some(hc)
      else None
  {
    TwoNests(outer, nested, [GetRoute(a, ha), GetRoute(b, hb), GetRoute(c, hc)], httpMethod, path);
    if PrefixMatches(outer, path) && PrefixMatches(nested, path[|outer|..]) {
      ThreeRoutes(a, b, c, ha, hb, hc, httpMethod, path[|outer|..][|nested|..]);
    }
    UnderPrefixesBoth(outer, nested, a, path);
    UnderPrefixesBoth(outer, nested, b, path);
    UnderPrefixesBoth(outer, nested, c, path);
  }

  /** A segment with or without its trailing slash, under two nested prefixes. */
  lemma UnderPrefixesBoth(outer: string, nested: string, s: string, path: string)
    requires |nested| > 0 && nested[0] == '/'
    requires |s| > 0 && s[0] == '/'
    ensures PatternMatches(outer + nested + s, path) <==>
      PrefixMatches(outer, path) && PrefixMatches(nested, path[|outer|..]) && PatternMatches(s, path[|outer|..][|nested|..])
  {
    UnderPrefixes(outer, nested, s, path);
    UnderPrefixes(outer, nested, s + "/", path);
    assert outer + nested + (s + "/") == outer + nested + s + "/";
  }

  /** Two nested prefixes pass what remains of a path matching both on to the inner routers. */
  lemma TwoNests(outer: string, nested: string, inner: seq<RouterFunction>, httpMethod: string, path: string)
    ensures Route(Nest(outer, [Nest(nested, inner)]), httpMethod, path) ==
      if PrefixMatches(outer, path) && PrefixMatches(nested, path[|outer|..])
      then FirstRoute(inner, httpMethod, path[|outer|..][|nested|..])
      else None
  {
    NestSingle(outer, Nest(nested, inner), httpMethod, path);
  }

  /** A nest with one router passes the rest of a matching path on to it. */
  lemma NestSingle(prefix: string, r: RouterFunction, httpMethod: string, path: string)
    ensures Route(Nest(prefix, [r]), httpMethod, path) ==
      if PrefixMatches(prefix, path) then Route(r, httpMethod, path[|prefix|..]) else None
  {
    if PrefixMatches(prefix, path) {
      var rest := path[|prefix|..];
      FirstRouteCons(r, [], httpMethod, rest);
      assert [r] + [] == [r];
      assert FirstRoute([], httpMethod, rest) == None;
    }
  }

  /** The first router is tried before the rest. */
  lemma FirstRouteCons(r: RouterFunction, rest: seq<RouterFunction>, httpMethod: string, path: string)
    ensures FirstRoute([r] + rest, httpMethod, path) ==
      if Route(r, httpMethod, path).Some? then Route(r, httpMethod, path) else FirstRoute(rest, httpMethod, path)
  {
    assert ([r] + rest)[1..] == rest;
  }

  /** Three GET routes in a row: the first whose pattern matches the path wins. */
  lemma ThreeRoutes(a: string, b: string, c: string, ha: Handler, hb: Handler, hc: Handler, httpMethod: string, tail: string)
    ensures FirstRoute([GetRoute(a, ha), GetRoute(b, hb), GetRoute(c, hc)], httpMethod, tail) ==
      if httpMethod != "GET" then None
      else if PatternMatches(a, tail) then Some(ha)
      else if PatternMatches(b, tail) then Some(hb)
      else if PatternMatches(c, tail) then Some(hc)
      else None
  {
    var r0, r1, r2 := GetRoute(a, ha), GetRoute(b, hb), GetRoute(c, hc);
    assert [r0, r1, r2] == [r0] + ([r1] + ([r2] + []));
    FirstRouteCons(r0, [r1] + ([r2] + []), httpMethod, tail);
    FirstRouteCons(r1, [r2] + [], httpMethod, tail);
    FirstRouteCons(r2, [], httpMethod, tail);
  }

  /** A path is `outer`, `nested` and `s` joined exactly when both prefixes match on segment boundaries and `s` is what remains. */
  lemma UnderPrefixes(outer: string, nested: string, s: string, path: string)
    requires |nested| > 0 && nested[0] == '/'
    requires |s| > 0 && s[0] == '/'
    ensures path == outer + nested + s <==>
      PrefixMatches(outer, path) && PrefixMatches(nested, path[|outer|..]) && path[|outer|..][|nested|..] == s
  {
    if path == outer + nested + s {
      assert path[..|outer|] == outer;
      assert path[|outer|..] == nested + s;
      assert path[|outer|..][..|nested|] == nested;
    }
    if PrefixMatches(outer, path) && PrefixMatches(nested, path[|outer|..]) && path[|outer|..][|nested|..] == s {
      assert path == path[..|outer|] + path[|outer|..];
      assert path[|outer|..] == path[|outer|..][..|nested|] + path[|outer|..][|nested|..];
    }
  }

  /** Each handler is reached by GET on exactly the built path of its endpoint record, with or without a trailing slash, and by nothing else. */
  lemma RoutesMatchBuiltPaths(httpMethod: string, path: string, h: Handler)
    ensures Route(ApiRouter(), httpMethod, path) == Some(h) <==> httpMethod == "GET" && PatternMatches(Paths.Build(EndpointOf(h)), path)
  {
    ApiRouterFlat(httpMethod, path);
    FlatRouteMatchesBuiltPaths(httpMethod, path, h);
  }

  /** The flattened table selects a handler exactly for GET on the built path of its endpoint record. */
  lemma FlatRouteMatchesBuiltPaths(httpMethod: string, path: string, h: Handler)
    ensures FlatRoute(httpMethod, path) == Some(h) <==> httpMethod == "GET" && PatternMatches(Paths.Build(EndpointOf(h)), path)
  {
    EndpointOfBuild(h);
    FlatRouteFullPath(httpMethod, path, h);
  }

  /** The full path each handler is registered under. */
  function FullPath(h: Handler): string
  {
    match h
    case GetPublic => "/api/messages/public"
    case GetProtected => "/api/messages/protected"
    case GetAdmin => "/api/messages/admin"
  }

  /** The flattened table selects a handler exactly for GET on its full path. */
  lemma FlatRouteFullPath(httpMethod: string, path: string, h: Handler)
    ensures FlatRoute(httpMethod, path) == Some(h) <==> httpMethod == "GET" && PatternMatches(FullPath(h), path)
  {
    FullPathsDistinct(path);
  }

  /** The built path of each handler's endpoint record is its full path. */
  lemma EndpointOfBuild(h: Handler)
    ensures Paths.Build(EndpointOf(h)) == FullPath(h)
  {
  }

  /** No path matches the full paths of two different handlers. */
  lemma FullPathsDistinct(path: string)
    ensures !(PatternMatches("/api/messages/public", path) && PatternMatches("/api/messages/protected", path))
    ensures !(PatternMatches("/api/messages/public", path) && PatternMatches("/api/messages/admin", path))
    ensures !(PatternMatches("/api/messages/protected", path) && PatternMatches("/api/messages/admin", path))
  {
    if PatternMatches("/api/messages/public", path) {
      assert path[15] == "/api/messages/public"[15] == 'u';
    }
    if PatternMatches("/api/messages/protected", path) {
      assert path[15] == "/api/messages/protected"[15] == 'r';
    }
    if PatternMatches("/api/messages/admin", path) {
      assert path[15] == "/api/messages/admin"[15] == 'd';
    }
  }

  /** The three message texts differ pairwise. */
  lemma TextsDistinct()
    ensures PublicText != ProtectedText && PublicText != AdminText && ProtectedText != AdminText
  {
    assert PublicText[11] == 'u' && ProtectedText[11] == 'r';
    assert PublicText[9] == ' ' && ProtectedText[9] == ' ' && AdminText[9] == 'n';
  }

  /**
   * Serving a request: no matching route gives None (the dispatcher then reports
   * "no handler found"); a matched route answers with its message, unless a
   * throwable is raised inside it, which the error fallback turns into a response.
   */
  function Serve(request: Request, fault: Option<Throwable>): (served: Option<ServerResponse>)
    ensures served.Some? <==> Route(ApiRouter(), request.httpMethod, request.path).Some?
    ensures served.Some? ==> (served.value.status == 200 <==> fault.None?)
    ensures served.Some? && fault.Some? ==> served.value.status == 500 && served.value.body.ErrorBody?
  {
    match Route(ApiRouter(), request.httpMethod, request.path)
    case None => None
    case Some(h) =>
      match fault
      case None => Some(Invoke(h))
      case Some(t) => Some(GlobalErrorHandler.HandleInternalError(t, request))
  }

  /**
   * GET on the three paths, with or without a trailing slash, answers 200 with
   * the matching canned message; any other request has no handler.
   */
  lemma ServeMessages(request: Request)
    ensures Serve(request, None).Some? <==>
      request.httpMethod == "GET" &&
      (PatternMatches("/api/messages/public", request.path) ||
       PatternMatches("/api/messages/protected", request.path) ||
       PatternMatches("/api/messages/admin", request.path))
    ensures request.httpMethod == "GET" && PatternMatches("/api/messages/public", request.path) ==>
      Serve(request, None) == Some(ServerResponse(200, MessageBody(Message(PublicText))))
    ensures request.httpMethod == "GET" && PatternMatches("/api/messages/protected", request.path) ==>
      Serve(request, None) == Some(ServerResponse(200, MessageBody(Message(ProtectedText))))
    ensures request.httpMethod == "GET" && PatternMatches("/api/messages/admin", request.path) ==>
      Serve(request, None) == Some(ServerResponse(200, MessageBody(Message(AdminText))))
  {
    ApiRouterFlat(request.httpMethod, request.path);
    FullPathsDistinct(request.path);
  }

  /** Only GET on the protected path, with or without a trailing slash, is answered with the protected message; likewise for admin. */
  lemma SecuredMessagesOnlyOnTheirPaths(request: Request, fault: Option<Throwable>)
    ensures Serve(request, fault) == Some(ServerResponse(200, MessageBody(Message(ProtectedText)))) ==>
      request.httpMethod == "GET" && PatternMatches("/api/messages/protected", request.path)
    ensures Serve(request, fault) == Some(ServerResponse(200, MessageBody(Message(AdminText)))) ==>
      request.httpMethod == "GET" && PatternMatches("/api/messages/admin", request.path)
  {
    ApiRouterFlat(request.httpMethod, request.path);
    FullPathsDistinct(request.path);
    TextsDistinct();
  }

  /** A throwable raised inside a matched route always becomes a 500 carrying its message. */
  lemma FaultBecomesInternalError(request: Request, t: Throwable)
    requires Route(ApiRouter(), request.httpMethod, request.path).Some?
    ensures Serve(request, Some(t)) == Some(ServerResponse(500, ErrorBody(ErrorMessage(t.message))))
  {
  }
}
