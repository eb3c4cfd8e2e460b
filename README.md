# Auth0 hello-world resource server: security layer and routing, in Dafny

This project models the request-handling core of a small Spring Boot resource
server that exposes three message endpoints. `GET /api/messages/public` is open.
`GET /api/messages/protected` and `GET /api/messages/admin` need a bearer JWT
from the configured issuer that was issued for the configured audience.

The model covers:

- **Path records** (`Paths.dfy`). This is the recursive chain of path records.
  `Build` puts the root's full path in front of the node's own segment.
- **Security configuration** (`SecurityConfig.dfy`). Requests that match the
  exclusion pattern `^(?!/api/messages/protected|/api/messages/admin).*$` skip
  the security chain. The remaining requests meet the chain the configuration
  assembles, in the library's order:
  - the CSRF filter, which the configuration leaves on. It refuses an unsafe
    method (anything but GET, HEAD, TRACE and OPTIONS) with 403, unless the
    request carries a bearer token, which the resource-server configuration
    exempts;
  - the bearer-token filter, which decodes any token the request carries,
    whatever its path;
  - the authorisation rule. The built protected and admin paths must be
    authenticated and every other path is permitted.
- **Token decoding** (`SecurityConfig.dfy`). The token decoder is located from
  the issuer URI. It checks the signature, then runs a delegating validator. That
  validator combines the library's default validator for the same issuer URI with
  the application's audience validator.
- **Security headers filter** (`ResponseHeadersFilter.dfy`). It sets eight fixed
  headers on an HTTP response, then continues the filter chain.
- **Global error handler** (`GlobalErrorHandler.dfy`):
  - a missing route gives 404;
  - a throwable inside a route gives 500 with the throwable's message;
  - an authentication failure gives 401 and a JSON body, written to the servlet
    response in a fixed order.
- **Router** (`Router.dfy`). This is the nested functional route table: `/api`,
  then `/messages`, then three GET routes with their canned messages, plus the
  error fallback.
- **CORS configuration** (`ApplicationConfig.dfy`). One configuration object is
  filled in through its setters and registered for `/**`. The CORS filter is
  built on that configuration source.
- **Request pipeline** (`RequestPipeline.dfy`). This is the composition: headers
  first, then the security decision, then the router or an error handler. It is
  given as a pure reply function `Respond`, and as a method on the servlet
  response (`HandleRequest`) proved against that function.

`Web.dfy` holds the framework types the code is written against. These are the
request, the bearer token and its claims, the message records, the functional
`ServerResponse` value, and the servlet response. The servlet response is a class
whose header map, status, content type, written body and call log its methods
update in place. `Wrappers.dfy` holds `Option` and `Result`.

Behaviour of the code worth noting:

- **Validators collect errors.** The delegating validator runs every validator
  and collects all of their errors; a failing check does not stop the later
  ones (`ValidateAll`, `BothFailuresReported`).
- **Prefix test and exact match.** The code uses two rules. The exclusion regex
  is a prefix test, so `/api/messages/protectedX` is not ignored. The
  authentication rule is exact equality, so that same path is then permitted
  and gets 404 from the router.
- **No key cache.** Key retrieval happens inside library code; the application
  keeps no key cache of its own.
- **Line terminators.** In Java, `.` does not match a line terminator. So a URL
  that contains one does not match the exclusion pattern, and is not ignored.
  The prefix reading of the pattern holds exactly for URLs without line
  terminators (`ExclusionPatternMatches`).
- **Unsafe methods.** CSRF protection is left on, so a POST, PUT, PATCH or
  DELETE without a bearer token to a secured path gets 403, not 401
  (`SecuredWithoutToken`).
- **Tokens on open paths.** The bearer-token filter runs on every request the
  exclusion pattern does not skip. A bad token is answered 401 even on a
  permitted path such as `/api/messages/protectedX` (`GateFailsIff`).
- **Token without an audience.** The audience validator calls `contains` on the
  token's audience list, which is null when the token has no `aud` claim. The
  exception escapes the filter chain and the client gets 500, not the audience
  error (`MissingAudienceThrows`, `MissingAudienceCrashes`).
- **Trailing slash.** The router also serves each endpoint with one trailing
  slash, which the exact authorisation rule does not secure (see Findings).

Abstractions of library and environment behaviour:

- **Signature check.** Signature verification is reduced to one fact: which
  issuer's published keys verify the token (`BearerToken.signingIssuer`). The
  decoder accepts a signature only when that issuer is the one it was located
  from.
- **Default validator.** The library's default validator is reduced to an
  abstract timestamp verdict (`Jwt.timestampsValid`) plus equality of the `iss`
  claim with the configured issuer.
- **Throwables and the clock.** Throwables raised inside a route come in as a
  parameter (`fault`), since no handler in the application raises one. Clock
  readings are not modelled.
- **Error dispatch.** A status sent as an error (the CSRF refusal) and an
  exception that escapes the filter chain are rendered by the servlet
  container's error page. The model writes `ErrorPage(status)` as the body.
- **Matcher URL.** The regular-expression matcher sees the path followed by `?`
  and the query, if there is one. The ant matcher and the router see the path
  only.

## Model

| member | source | states |
|---|---|---|
| `Paths.Build` | src/main/java/com/example/helloworld/config/Paths.java:16-27 | a node's own segment ends its full path; a node without a root builds to its segment alone |
| `Paths.AncestorBuildIsPrefix` | src/main/java/com/example/helloworld/config/Paths.java:16-27 | the full path of every node above a node (root, root's root, …) is a prefix of the node's full path |
| `Paths.ApiPath` | src/main/java/com/example/helloworld/config/Paths.java:30-32 | `apiPath()`: the top node has no root and builds to `/api` |
| `Paths.MessagesPath` | src/main/java/com/example/helloworld/config/Paths.java:37-39 | `messagesPath()`: whichever top node it is asked of, the messages node is rooted at a fresh `apiPath()` and builds to `/api/messages` |
| `Paths.Endpoint` | src/main/java/com/example/helloworld/config/Paths.java:58-62 | the one-argument endpoint constructor always roots at `/api/messages`; the endpoint builds to `/api/messages` followed by its segment |
| `Paths.PublicPath` | src/main/java/com/example/helloworld/config/Paths.java:43-46 | `publicPath()` builds to `/api/messages/public` |
| `Paths.ProtectedPath` | src/main/java/com/example/helloworld/config/Paths.java:48-51 | `protectedPath()` builds to `/api/messages/protected` |
| `Paths.AdminPath` | src/main/java/com/example/helloworld/config/Paths.java:53-56 | `adminPath()` builds to `/api/messages/admin` |
| `Paths.EndpointPaths` | src/main/java/com/example/helloworld/config/Paths.java:43-56 | the three endpoints build to pairwise distinct paths |
| `SecurityConfig.MatcherUrl` | src/main/java/com/example/helloworld/config/security/SecurityConfig.java:60-62 | the URL the exclusion regex is run on always begins with the request path |
| `SecurityConfig.DotStarToEnd` | src/main/java/com/example/helloworld/config/security/SecurityConfig.java:55 | `.*$` in a full match reaches the end from a position iff no line terminator follows it |
| `SecurityConfig.ExclusionPatternMatches` | src/main/java/com/example/helloworld/config/security/SecurityConfig.java:55-58 | the exclusion regex matches a URL iff it starts with neither `/api/messages/protected` nor `/api/messages/admin` and holds no Java line terminator |
| `SecurityConfig.IsIgnored` | src/main/java/com/example/helloworld/config/security/SecurityConfig.java:54-63 | `webSecurity()`: a request skips the chain iff its path starts with neither secured prefix and its matcher URL holds no line terminator; the query cannot change the prefix test |
| `SecurityConfig.ExtensionsAreNotIgnored` | src/main/java/com/example/helloworld/config/security/SecurityConfig.java:55-58 | the lookahead is a prefix test: every continuation of a secured prefix (for example `/api/messages/protectedX`) is not ignored |
| `SecurityConfig.QueryDoesNotAffectPrefix` | src/main/java/com/example/helloworld/config/security/SecurityConfig.java:55-62 | appending `?query` cannot change whether the URL starts with a secured prefix |
| `SecurityConfig.AccessFor` | src/main/java/com/example/helloworld/config/security/SecurityConfig.java:88-94 | authentication is required iff the path equals the built protected or admin path; every other path is permitted |
| `SecurityConfig.IntendedAccessFor` | src/main/java/com/example/helloworld/config/security/SecurityConfig.java:88-94 | the corrected rule: authentication is required on the protected and admin paths with or without one trailing slash, a superset of the rule as written |
| `SecurityConfig.SecuredRequestsAreNeverIgnored` | src/main/java/com/example/helloworld/config/security/SecurityConfig.java:54-91 | no request that the authentication rule secures is skipped by the exclusion regex, whatever its query |
| `SecurityConfig.WithAudience` | src/main/java/com/example/helloworld/config/security/SecurityConfig.java:129-142 | `withAudience`: success iff the token has an audience list containing the configured audience; a list without it gives exactly the `invalid_token` error with the fixed description and the RFC 6750 section 3.1 URI; a token without an `aud` claim makes it throw |
| `SecurityConfig.ValidateAllSucceedsIff` | src/main/java/com/example/helloworld/config/security/SecurityConfig.java:118-120 | a delegating validator succeeds iff every one of its validators succeeds |
| `SecurityConfig.ValidateAllThrowsIff` | src/main/java/com/example/helloworld/config/security/SecurityConfig.java:118-120 | a delegating validator throws iff one of its validators throws |
| `SecurityConfig.ValidateAllCollects` | src/main/java/com/example/helloworld/config/security/SecurityConfig.java:118-120 | when nothing throws, a delegating validator reports every error of every member; a failure does not stop the later members |
| `SecurityConfig.DefaultWithIssuerReports` | src/main/java/com/example/helloworld/config/security/SecurityConfig.java:117 | `createDefaultWithIssuer` (`CreateDefaultWithIssuer`) never throws; it reports a timestamp error iff the timestamps fail and an issuer error iff the `iss` claim is not the issuer, and succeeds iff neither happens |
| `SecurityConfig.TokenValidatorAccepts` | src/main/java/com/example/helloworld/config/security/SecurityConfig.java:116-120 | the installed validator (`createDefaultWithIssuer` and `withAudience` under a delegating validator, as `TokenValidator`) accepts a token iff the timestamps hold, the issuer claim is the configured issuer and the audience list contains the configured audience; it throws iff the token has no audience claim |
| `SecurityConfig.MissingAudienceThrows` | src/main/java/com/example/helloworld/config/security/SecurityConfig.java:139 | a token without an audience claim makes the installed validator throw, whatever its issuer and timestamps |
| `SecurityConfig.AudienceFailureAlone` | src/main/java/com/example/helloworld/config/security/SecurityConfig.java:132-141 | a token that passes the issuer checks but whose audience list lacks the audience is rejected with exactly the audience error |
| `SecurityConfig.BothFailuresReported` | src/main/java/com/example/helloworld/config/security/SecurityConfig.java:117-120 | when both the issuer check and the audience check fail, both errors are reported |
| `SecurityConfig.Decode` | src/main/java/com/example/helloworld/config/security/SecurityConfig.java:115-123 | a decoder accepts a token iff it parses, is signed with the keys located from the decoder's issuer and its validator succeeds, and then yields exactly the token's claims; it throws iff the validator throws on a genuine token; a claims rejection always carries at least one error |
| `SecurityConfig.DecoderAccepts` | src/main/java/com/example/helloworld/config/security/SecurityConfig.java:111-125 | `makeJwtDecoder()` (`MakeJwtDecoder`, run by `Decode`) accepts a token iff it parses, its signature verifies with the keys of the configured issuer, its `iss` claim is that same issuer URI, its timestamps hold and its audience contains the configured one; it throws iff a genuine token has no audience claim |
| `SecurityConfig.Authenticate` | src/main/java/com/example/helloworld/config/security/SecurityConfig.java:101-107 | the bearer-token filter on a token: authenticated, with exactly the token's claims as principal, iff the configured decoder accepts it; an authentication failure iff the decoder rejects it; an exception iff the decoder throws |
| `SecurityConfig.Gate` | src/main/java/com/example/helloworld/config/security/SecurityConfig.java:54-108 | ignored iff the exclusion regex matches; refused by the CSRF filter iff not ignored, the method is unsafe and there is no token; anonymous passage only without a token on a permitted path; an authenticated principal is the token's claims; authenticated iff the request is not ignored and carries a token the configured decoder accepts |
| `SecurityConfig.IntendedGate` | src/main/java/com/example/helloworld/config/security/SecurityConfig.java:88-108 | the same chain under the corrected rule: anonymous passage only where that rule permits it; authenticated iff the request is not ignored and carries a token the configured decoder accepts |
| `SecurityConfig.SecuredGate` | src/main/java/com/example/helloworld/config/security/SecurityConfig.java:88-91 | on the protected and admin paths the chain is never skipped and applies the authenticated-only rule |
| `SecurityConfig.IntendedGuardsPaths` | src/main/java/com/example/helloworld/config/security/SecurityConfig.java:88-94 | under the corrected rule, a request for a secured path, with or without the trailing slash, reaches the router only when authenticated |
| `SecurityConfig.ValidTokenAuthenticates` | src/main/java/com/example/helloworld/config/security/SecurityConfig.java:101-125 | a token valid in every respect authenticates a request to the protected or admin path, with its claims as principal |
| `SecurityConfig.GateFailsIff` | src/main/java/com/example/helloworld/config/security/SecurityConfig.java:88-107 | authentication fails iff the request is not ignored, passes the CSRF filter, and either has no token on the protected or admin path or has a token the decoder rejects, on any path |
| `SecurityConfig.OpenGate` | src/main/java/com/example/helloworld/config/security/SecurityConfig.java:93-94 | every other path is open to anonymous requests: never refused for authentication, refused by the CSRF filter iff not ignored and the method is unsafe |
| `SecurityConfig.ProtectedAndAdminAlike` | src/main/java/com/example/helloworld/config/security/SecurityConfig.java:90-91 | protected and admin get the same decision for the same method, query and token: there is no role distinction |
| `ResponseHeadersFilter.SetAllIsOverride` | src/main/java/com/example/helloworld/config/security/ResponseHeadersFilter.java:31-38 | setting headers one after another (`SetAll`) overrides the old map with all of them, the last set of a name winning |
| `ResponseHeadersFilter.SecurityHeadersHold` | src/main/java/com/example/helloworld/config/security/ResponseHeadersFilter.java:31-38 | afterwards each of the eight headers holds exactly its one literal value, whatever the map held before |
| `ResponseHeadersFilter.OtherHeadersUnchanged` | src/main/java/com/example/helloworld/config/security/ResponseHeadersFilter.java:30-39 | a header outside the eight is present afterwards iff it was before, with the same values |
| `ResponseHeadersFilter.SetAllKeepsOthers` | src/main/java/com/example/helloworld/config/security/ResponseHeadersFilter.java:30-39 | the same for all other headers at once |
| `ResponseHeadersFilter.SetAllIdempotent` | src/main/java/com/example/helloworld/config/security/ResponseHeadersFilter.java:31-38 | headers are set, not appended: setting them twice gives the same map as setting them once |
| `ResponseHeadersFilter.SetSecurityHeaders` | src/main/java/com/example/helloworld/config/security/ResponseHeadersFilter.java:30-39 | on an HTTP response, the header map becomes the old one with the eight headers set, and the eight set calls are logged in order; any other response is left untouched |
| `ResponseHeadersFilter.DoFilter` | src/main/java/com/example/helloworld/config/security/ResponseHeadersFilter.java:25-42 | headers as above, then the chain is called exactly once with the unchanged request and the same response, whether or not the response is an HTTP one; the chain already sees the header map with the eight headers set |
| `GlobalErrorHandler.HandleNotFound` | src/main/java/com/example/helloworld/config/GlobalErrorHandler.java:29-33 | status 404 and text "Not Found", whatever the request and the exception |
| `GlobalErrorHandler.HandleInternalError` | src/main/java/com/example/helloworld/config/GlobalErrorHandler.java:38-43 | status 500 with the throwable's own message (possibly null) as text |
| `GlobalErrorHandler.InternalErrorKeepsMessage` | src/main/java/com/example/helloworld/config/GlobalErrorHandler.java:39-42 | two internal-error responses are equal iff the throwables' messages are equal, so no message text is lost |
| `GlobalErrorHandler.HandleAuthenticationError` | src/main/java/com/example/helloworld/config/GlobalErrorHandler.java:45-60 | status 401, then content type `application/json`, then the error record with text "Requires authentication" is written, then a flush, in that order; nothing depends on the request or on the exception |
| `Router.Invoke` | src/main/java/com/example/helloworld/config/Router.java:35-37 | a matched handler answers with status 200 and a message body |
| `Router.Route` | src/main/java/com/example/helloworld/config/Router.java:28-43 | only a GET request ever reaches a handler |
| `Router.ApiRouterFlat` | src/main/java/com/example/helloworld/config/Router.java:21-44 | `apiRouter()` (`ApiRouter`): routing through the nested `/api` and `/messages` prefixes selects public, protected or admin exactly for GET on the three full paths, each with or without one trailing slash, and nothing for any other method or path |
| `Router.RoutesMatchBuiltPaths` | src/main/java/com/example/helloworld/config/Router.java:25-37 | each handler is reached by GET on exactly the built path of its endpoint record, with or without one trailing slash |
| `Router.Serve` | src/main/java/com/example/helloworld/config/Router.java:28-43 | a request is served iff a route matches; the response is 200 without a throwable, and 500 with an error body when one is raised |
| `Router.ServeMessages` | src/main/java/com/example/helloworld/config/Router.java:28-43 | a request is served without a throwable iff it is a GET on one of the three paths (or with a trailing slash), with 200 and "This is a public message.", "This is a protected message." or "This is an admin message." |
| `Router.SecuredMessagesOnlyOnTheirPaths` | src/main/java/com/example/helloworld/config/Router.java:35-37 | the protected message is only served to GET on the protected path with or without the trailing slash; likewise the admin message |
| `Router.FaultBecomesInternalError` | src/main/java/com/example/helloworld/config/Router.java:42 | a throwable raised inside a matched route becomes status 500 carrying its message |
| `ApplicationConfig.ConfiguredPolicyValues` | src/main/java/com/example/helloworld/config/ApplicationConfig.java:33-47 | the policy the setters install (`ConfiguredPolicy`): allowed origins exactly the client origin URL, allowed headers exactly Authorization and Content-Type, allowed methods exactly GET, max-age 86400 seconds |
| `ApplicationConfig.ApplicationConfig.CorsConfigurationSource` | src/main/java/com/example/helloworld/config/ApplicationConfig.java:28-52 | a new configuration is built through the four setters and registered, as the only entry, for `/**`; its contents are the configured policy |
| `ApplicationConfig.ApplicationConfig.CorsFilterBean` | src/main/java/com/example/helloworld/config/ApplicationConfig.java:58-62 | the CORS filter's source has the same single `/**` registration with the same policy |
| `RequestPipeline.Routed` | src/main/java/com/example/helloworld/config/GlobalErrorHandler.java:29-33 | past the gate, the reply is 404 iff no route matches, and otherwise the router's 200 or 500 |
| `RequestPipeline.ReplyTo` | src/main/java/com/example/helloworld/config/security/SecurityConfig.java:88-108 | the reply to each outcome of the chain (`Respond` applies it to `Gate`): its status is 200, 401, 403, 404 or 500; 401 iff authentication failed; 403 iff the CSRF filter refused; 404 iff the request went on and no route matches |
| `RequestPipeline.RoutedReply` | src/main/java/com/example/helloworld/config/GlobalErrorHandler.java:29-33 | once past the security chain, a request with no route gets 404 "Not Found" and every other request gets the router's response |
| `RequestPipeline.AuthenticationReplyIsFixed` | src/main/java/com/example/helloworld/config/security/SecurityConfig.java:101-104 | every authentication failure gets the same reply, 401 with JSON content type and "Requires authentication", whatever the request or the failure |
| `RequestPipeline.PublicAlwaysServed` | src/main/java/com/example/helloworld/config/security/SecurityConfig.java:93-94 | GET on the public path gets 200 with the public message when the chain skips it, whatever its token, and without a token in any case |
| `RequestPipeline.SecuredWithoutToken` | src/main/java/com/example/helloworld/config/security/SecurityConfig.java:88-104 | a request to the protected or admin path without a token gets exactly the 401 reply for a safe method and the CSRF filter's 403 for any other |
| `RequestPipeline.WrongAudienceRejected` | src/main/java/com/example/helloworld/config/security/SecurityConfig.java:129-141 | a token whose audience list lacks the configured audience gets exactly the 401 reply on the protected and admin paths |
| `RequestPipeline.MissingAudienceCrashes` | src/main/java/com/example/helloworld/config/security/SecurityConfig.java:139 | a genuine token without an audience claim, on any request the chain does not skip, gets 500 from the container |
| `RequestPipeline.ValidTokenServed` | src/main/java/com/example/helloworld/config/Router.java:35-37 | with a token valid in every respect, GET on the protected or admin path gets 200 with its canned message |
| `RequestPipeline.UnregisteredNotFound` | src/main/java/com/example/helloworld/config/Router.java:28-43 | a path no route matches gets 404 "Not Found" for any method once through the chain |
| `RequestPipeline.SecuredNonGet` | src/main/java/com/example/helloworld/config/security/SecurityConfig.java:88-91 | authentication comes before routing: a non-GET request to a secured path gets the router's 404 iff it carries a token the decoder accepts |
| `RequestPipeline.TrailingSlashBypass` | src/main/java/com/example/helloworld/config/security/SecurityConfig.java:88-94 | as written: an anonymous GET on the protected or admin path followed by a slash is permitted and gets 200 with the protected or admin message |
| `RequestPipeline.IntendedGuardsSecuredMessages` | src/main/java/com/example/helloworld/config/security/SecurityConfig.java:88-94 | under the corrected rule, a reply carrying the protected or admin message implies the request was authenticated |
| `RequestPipeline.Answer` | src/main/java/com/example/helloworld/config/security/SecurityConfig.java:101-106 | the servlet response gets the status, body and content type of `Respond`; the calls after the earlier ones are exactly status then body, or for the authentication error status, content type, body and flush (`DeliveryOps`); only that reply flushes or changes the content type |
| `RequestPipeline.HandleRequest` | src/main/java/com/example/helloworld/config/security/ResponseHeadersFilter.java:30-41 | every response, success or failure, ends with the eight security headers at their literal values and other headers unchanged; the calls made are exactly the eight header sets followed by the delivery of `Respond`'s reply; status and body are those of `Respond`; only the authentication error flushes or changes the content type |

## Findings

| source | as written | input that shows it | evidently intended | confidence | as-written member | corrected member |
|---|---|---|---|---|---|---|
| src/main/java/com/example/helloworld/config/security/SecurityConfig.java:88-94 | the ant patterns secure only the exact protected and admin paths, while the router (`Router.java:35-37`) also serves each endpoint with one trailing slash, and the exclusion regex does not skip those paths | anonymous `GET /api/messages/protected/` (or `/api/messages/admin/`) gets 200 with the protected (admin) message | every path on which the protected or admin message is served requires authentication | medium; not executed | `RequestPipeline.TrailingSlashBypass` | `RequestPipeline.IntendedGuardsSecuredMessages` |

The pipeline itself (`Respond`, `HandleRequest`) keeps the rule as written,
since it models the program. The corrected rule is `IntendedAccessFor`, used by
`IntendedGate` and `IntendedRespond`.

## Left out

- JWT parsing, signature verification and the key-set fetch from the issuer's
  location. These are library and network code, so the model keeps only their
  verdicts (`BearerToken.wellFormed`, `BearerToken.signingIssuer`).
- The clock-based checks of the library's default validator. They are the
  abstract `Jwt.timestampsValid`. The texts of the library validators' errors
  are not part of this model.
- A request that carries the session's CSRF token. No part of the application
  hands one out, so every unsafe request without a bearer token is refused.
- How the bearer-token resolver treats a malformed `Authorization` header.
  A token is either present (`Request.bearer`) or absent.
- Spring's CORS enforcement: preflight handling, origin checks and the headers
  it adds. Only the configuration data and its registration are modelled. The
  trailing-slash trimming that the library's origin setter may apply is not
  modelled either. A request has no `Origin` header in the model, so the
  pipeline lemmas (`PublicAlwaysServed`, `ValidTokenServed`, `HandleRequest` and
  the others) hold for requests without an `Origin` header, that is, for
  same-origin and non-browser requests.
- `ApplicationConfig.ApplicationConfig.CorsFilterBean`: states that the
  filter's source has the same contents, not that it is the same object. The
  identity comes from the framework returning the singleton for the repeated
  bean call, and that is not modelled.
- Regex-engine and path-matcher internals beyond the readings used here. These
  readings are: the prefix test for the exclusion pattern, equality for the ant
  matcher, and pattern-or-pattern-plus-slash for the router. Repeated slashes,
  path parameters and URL decoding are not modelled. The URI builder's slash
  normalisation is taken to be plain concatenation of segments.
- HEAD requests and CORS preflight requests are not matched to the GET routes;
  the router answers GET only.
- The body of the container's error page (the framework's default error
  attributes, including a timestamp), and the `sendError` call itself; the model
  writes `ErrorPage(status)`.
- Spring Security's own default response headers on requests that pass through
  the chain.
- JSON serialisation: the writer receives the `ErrorMessage` record itself.
  Content negotiation for router and not-found responses is also left out, so
  `Reply.contentType` is `None` there.
- The rest of the filter chain after the headers filter, as code of its own.
  It is reduced to a record of what it is handed: the request, the response
  and the header map the response holds at that moment (`Web.FilterChain`).
  What follows it on the response is modelled by `RequestPipeline`.
- Header-name case-insensitivity, and the rule that a committed servlet
  response ignores later header and status changes.
- The caching annotations on the error handlers and message handlers. They
  memoise nothing that matters, and no cache is modelled.
- Bean wiring, property binding, filter ordering by priority annotation, and
  the servlet container's threads. The pipeline order (headers first) is
  written out in `RequestPipeline.HandleRequest`.
- `MessageHandler`, `MessageService` and `Message` as separate components. Their
  three literal texts are constants in `Router`. `ErrorMessage` is not part of
  this model beyond its single nullable `text` field.
