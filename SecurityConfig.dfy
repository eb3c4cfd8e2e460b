/**
 * The resource-server security layer: which requests bypass the security
 * chain, which of the rest must be authenticated, and how a bearer token is
 * decoded and validated before a request counts as authenticated.
 */
module SecurityConfig {
  import opened Wrappers
  import opened Web
  import Paths
  import Router

  /** What the layer is configured with: the token issuer's URI and the expected audience. */
  datatype SecurityProperties = SecurityProperties(issuerUri: string, audience: string)

  // ---------------------------------------------------------------------------
  // Requests the security chain ignores

  /** The two path prefixes written into the exclusion pattern `^(?!P|A).*$`. */
  const ProtectedPrefix: string := "/api/messages/protected"
  const AdminPrefix: string := "/api/messages/admin"

  /** Java's line terminators, which `.` does not match unless DOTALL is set. */
  predicate IsLineTerminator(c: char)
  {
    c == '\n' || c == '\r' || c == '\U{85}' || c == '\U{2028}' || c == '\U{2029}'
  }

  /** The URL the regular-expression matcher is run on: the path, then `?` and the query if there is one. */
  function MatcherUrl(request: Request): (url: string)
    ensures request.path <= url
  {
    match request.query
    case None => request.path
    case Some(q) => request.path + "?" + q
  }

  /**
   * `.*$` run from position `i` inside a full match: `.` consumes any character
   * but a line terminator, and `$` then needs the end of the input (a full match
   * cannot stop before a final line terminator).
   */
  function DotStarToEnd(url: string, i: nat): (reaches: bool)
    requires i <= |url|
    ensures reaches <==> forall j :: i <= j < |url| ==> !IsLineTerminator(url[j])
    decreases |url| - i
  {
    if i == |url| then true
    else if IsLineTerminator(url[i]) then false
    else DotStarToEnd(url, i + 1)
  }

  /**
   * Full match of `^(?!P|A).*$`: the negative lookahead fails when either
   * literal alternative matches at the start, and `.*$` must then reach the end.
   * So the pattern is the prefix test "starts with neither secured prefix" on a
   * URL without line terminators, and never matches a URL that contains one.
   */
  function ExclusionPatternMatches(url: string): (matches: bool)
    ensures matches <==>
      && !(ProtectedPrefix <= url)
      && !(AdminPrefix <= url)
      && forall i :: 0 <= i < |url| ==> !IsLineTerminator(url[i])
  {
    var lookaheadHit := ProtectedPrefix <= url || AdminPrefix <= url;
    !lookaheadHit && DotStarToEnd(url, 0)
  }

  /** Requests matching the exclusion pattern skip the security chain altogether; the query takes no part in the prefix test. */
  function IsIgnored(request: Request): (ignored: bool)
    ensures ignored <==>
      && !(ProtectedPrefix <= request.path)
      && !(AdminPrefix <= request.path)
      && forall i :: 0 <= i < |MatcherUrl(request)| ==> !IsLineTerminator(MatcherUrl(request)[i])
  {
    QueryDoesNotAffectPrefix(request);
    ExclusionPatternMatches(MatcherUrl(request))
  }

  /** A URL that continues a secured prefix (such as `/api/messages/protectedX`) is not ignored. */
  lemma ExtensionsAreNotIgnored(suffix: string)
    ensures !ExclusionPatternMatches(ProtectedPrefix + suffix)
    ensures !ExclusionPatternMatches(AdminPrefix + suffix)
  {
    assert (ProtectedPrefix + suffix)[..|ProtectedPrefix|] == ProtectedPrefix;
    assert (AdminPrefix + suffix)[..|AdminPrefix|] == AdminPrefix;
  }

  /**
   * The query string cannot change the prefix test: the URL starts with a
   * secured prefix exactly when the path does, since neither prefix contains `?`.
   */
  lemma QueryDoesNotAffectPrefix(request: Request)
    ensures ProtectedPrefix <= MatcherUrl(request) <==> ProtectedPrefix <= request.path
    ensures AdminPrefix <= MatcherUrl(request) <==> AdminPrefix <= request.path
  {
    var url := MatcherUrl(request);
    PrefixThroughQuery(ProtectedPrefix, request.path, url);
    PrefixThroughQuery(AdminPrefix, request.path, url);
  }

  lemma PrefixThroughQuery(prefix: string, path: string, url: string)
    requires '?' !in prefix
    requires path <= url && (|path| < |url| ==> url[|path|] == '?')
    ensures prefix <= url <==> prefix <= path
  {
    if prefix <= path {
      assert url[..|prefix|] == path[..|prefix|];
    }
  }

  // ---------------------------------------------------------------------------
  // Which of the remaining requests need authentication

  datatype Access = AuthenticatedOnly | PermitAll

  /** The ant patterns given to `.authenticated()`: the built protected and admin paths. */
  function AuthenticatedPatterns(): seq<string>
  {
    var messages := Paths.MessagesPath(Paths.ApiPath());
    [Paths.Build(Paths.ProtectedPath(messages)), Paths.Build(Paths.AdminPath(messages))]
  }

  /** The first rule whose ant pattern equals the path decides; every other request is permitted. */
  function AccessFor(path: string): (access: Access)
    ensures access == AuthenticatedOnly <==> path == "/api/messages/protected" || path == "/api/messages/admin"
  {
    if path in AuthenticatedPatterns() then AuthenticatedOnly else PermitAll
  }

  /**
   * The rule the application evidently intends: each secured endpoint guarded
   * under every path the router serves it on, that is, with the router's own
   * matching (the pattern, or the pattern and one trailing slash).
   */
  function IntendedAccessFor(path: string): (access: Access)
    ensures access == AuthenticatedOnly <==>
      path in ["/api/messages/protected", "/api/messages/admin", "/api/messages/protected/", "/api/messages/admin/"]
    ensures AccessFor(path) == AuthenticatedOnly ==> access == AuthenticatedOnly
  {
    var patterns := AuthenticatedPatterns();
    assert patterns == [ProtectedPrefix, AdminPrefix];
    assert ProtectedPrefix + "/" == "/api/messages/protected/" && AdminPrefix + "/" == "/api/messages/admin/";
    if Router.PatternMatches(patterns[0], path) || Router.PatternMatches(patterns[1], path) then AuthenticatedOnly else PermitAll
  }

  /** No request that the authorisation rules secure is ever ignored by the exclusion pattern. */
  lemma SecuredRequestsAreNeverIgnored(request: Request)
    requires AccessFor(request.path) == AuthenticatedOnly
    ensures !IsIgnored(request)
  {
    assert ProtectedPrefix <= request.path || AdminPrefix <= request.path;
  }

  // ---------------------------------------------------------------------------
  // Token validation

  /** An OAuth 2.0 error: code, description and the URI of its documentation. */
  datatype OAuth2Error = OAuth2Error(errorCode: string, description: string, uri: string)

  /** A reason a validator rejects a token; the library validators' own texts are not part of this model. */
  datatype ValidationError = TimestampRejected | IssuerRejected | Rejected(error: OAuth2Error)

  /**
   * Token validators: the library's timestamp and issuer-claim validators, the
   * application's audience validator, and the delegating composite that runs
   * every member and collects all of their errors.
   */
  datatype Validator =
    | TimestampValidator
    | IssuerValidator(issuer: string)
    | AudienceValidator(audience: string)
    | Delegating(validators: seq<Validator>)

  /** What running a validator gives: the errors it reports (none on success), or the exception it throws. */
  type Validation = Result<seq<ValidationError>, Throwable>

  const InvalidToken: string := "invalid_token"

  /** The error the audience validator reports. */
  const AudienceError: OAuth2Error := OAuth2Error(
    InvalidToken,
    "The token was not issued for the given audience",
    "https://datatracker.ietf.org/doc/html/rfc6750#section-3.1")

  /** The null-pointer exception of `contains` called on the null audience list; its text is not modelled. */
  const NullAudience: Throwable := Throwable(None)

  /**
   * The audience check: success when the token's audience list contains the
   * configured audience, the audience error when it does not, and an exception
   * when the token has no "aud" claim at all.
   */
  function WithAudience(audience: string, token: Jwt): (result: Validation)
    ensures result.Err? <==> token.audience.None?
    ensures result == Ok([]) <==> token.audience.Some? && audience in token.audience.value
    ensures result.Ok? && result.value != [] ==> result.value == [Rejected(AudienceError)]
  {
    match token.audience
    case None => Err(NullAudience)
    case Some(aud) => if audience in aud then Ok([]) else Ok([Rejected(AudienceError)])
  }

  /** The errors of one member followed by those of the members after it; an exception ends the run. */
  function Collect(first: Validation, rest: Validation): Validation
  {
    match first
    case Err(t) => Err(t)
    case Ok(errors) =>
      match rest
      case Err(t) => Err(t)
      case Ok(more) => Ok(errors + more)
  }

  /** What a validator gives for a token; `Ok([])` is success. */
  function Validate(v: Validator, token: Jwt): Validation
    decreases v, 1
  {
    match v
    case TimestampValidator => Ok(if token.timestampsValid then [] else [TimestampRejected])
    case IssuerValidator(issuer) => Ok(if token.issuer == Some(issuer) then [] else [IssuerRejected])
    case AudienceValidator(audience) => WithAudience(audience, token)
    case Delegating(vs) => ValidateAll(vs, token)
  }

  /** Runs every validator in order and concatenates their errors, unless one of them throws. */
  function ValidateAll(vs: seq<Validator>, token: Jwt): Validation
    decreases vs, 0
  {
    if vs == [] then Ok([]) else Collect(Validate(vs[0], token), ValidateAll(vs[1..], token))
  }

  /** A composite succeeds exactly when every one of its validators succeeds. */
  lemma {:induction false} ValidateAllSucceedsIff(vs: seq<Validator>, token: Jwt)
    ensures ValidateAll(vs, token) == Ok([]) <==> forall i :: 0 <= i < |vs| ==> Validate(vs[i], token) == Ok([])
    decreases |vs|
  {
    if vs != [] {
      ValidateAllSucceedsIff(vs[1..], token);
      CollectSucceedsIff(Validate(vs[0], token), ValidateAll(vs[1..], token));
      assert forall i :: 1 <= i < |vs| ==> vs[i] == vs[1..][i - 1];
    }
  }

  /** Collecting succeeds exactly when both parts succeed. */
  lemma CollectSucceedsIff(first: Validation, rest: Validation)
    ensures Collect(first, rest) == Ok([]) <==> first == Ok([]) && rest == Ok([])
  {
    if first.Ok? && rest.Ok? && Collect(first, rest) == Ok([]) {
      assert |first.value + rest.value| == 0;
    }
  }

  /** A composite throws exactly when one of its validators throws. */
  lemma {:induction false} ValidateAllThrowsIff(vs: seq<Validator>, token: Jwt)
    ensures ValidateAll(vs, token).Err? <==> exists i :: 0 <= i < |vs| && Validate(vs[i], token).Err?
    decreases |vs|
  {
    if vs != [] {
      ValidateAllThrowsIff(vs[1..], token);
      if ValidateAll(vs[1..], token).Err? {
        var i :| 0 <= i < |vs[1..]| && Validate(vs[1..][i], token).Err?;
        assert Validate(vs[i + 1], token).Err?;
      }
      if exists i :: 0 <= i < |vs| && Validate(vs[i], token).Err? {
        var i :| 0 <= i < |vs| && Validate(vs[i], token).Err?;
        if i > 0 {
          assert Validate(vs[1..][i - 1], token).Err?;
        }
      }
    }
  }

  /** When nothing throws, a composite reports every error of every member, in order: no member is skipped after a failure. */
  lemma {:induction false} ValidateAllCollects(vs: seq<Validator>, token: Jwt, i: nat)
    requires i < |vs| && ValidateAll(vs, token).Ok?
    ensures Validate(vs[i], token).Ok?
    ensures multiset(Validate(vs[i], token).value) <= multiset(ValidateAll(vs, token).value)
    decreases |vs|
  {
    if i > 0 {
      ValidateAllCollects(vs[1..], token, i - 1);
    }
  }

  /** A two-member composite reports the first member's errors followed by the second's. */
  lemma ValidateAllPair(a: Validator, b: Validator, token: Jwt)
    ensures ValidateAll([a, b], token) == Collect(Validate(a, token), Validate(b, token))
  {
    assert [a, b][1..] == [b];
    assert [b][1..] == [];
    assert ValidateAll([b], token) == Collect(Validate(b, token), Ok([]));
    if Validate(b, token).Ok? {
      assert Validate(b, token).value + [] == Validate(b, token).value;
    }
    assert ValidateAll([b], token) == Validate(b, token);
  }

  /** The library's default validator for an issuer: timestamps, then the issuer claim. */
  function CreateDefaultWithIssuer(issuer: string): Validator
  {
    Delegating([TimestampValidator, IssuerValidator(issuer)])
  }

  /**
   * The default issuer validator never throws; it reports a timestamp error
   * exactly when the timestamps fail and an issuer error exactly when the
   * issuer claim is not the given issuer.
   */
  lemma DefaultWithIssuerReports(issuer: string, token: Jwt)
    ensures Validate(CreateDefaultWithIssuer(issuer), token).Ok?
    ensures TimestampRejected in Validate(CreateDefaultWithIssuer(issuer), token).value <==> !token.timestampsValid
    ensures IssuerRejected in Validate(CreateDefaultWithIssuer(issuer), token).value <==> token.issuer != Some(issuer)
    ensures Validate(CreateDefaultWithIssuer(issuer), token) == Ok([]) <==>
      token.timestampsValid && token.issuer == Some(issuer)
  {
    ValidateAllPair(TimestampValidator, IssuerValidator(issuer), token);
    var timestampErrors := if token.timestampsValid then [] else [TimestampRejected];
    var issuerErrors := if token.issuer == Some(issuer) then [] else [IssuerRejected];
    assert Validate(CreateDefaultWithIssuer(issuer), token) == Ok(timestampErrors + issuerErrors);
    assert issuerErrors != [] ==> (timestampErrors + issuerErrors)[|timestampErrors|] == IssuerRejected;
  }

  /** The validator installed on the decoder: the default issuer validator and the audience validator. */
  function TokenValidator(props: SecurityProperties): Validator
  {
    Delegating([CreateDefaultWithIssuer(props.issuerUri), AudienceValidator(props.audience)])
  }

  /**
   * The token validator accepts a token exactly when its timestamps hold, its
   * issuer is the configured one and its audience contains the configured one;
   * it throws exactly when the token has no audience claim.
   */
  lemma TokenValidatorAccepts(props: SecurityProperties, token: Jwt)
    ensures Validate(TokenValidator(props), token) == Ok([]) <==>
      && token.timestampsValid
      && token.issuer == Some(props.issuerUri)
      && token.audience.Some? && props.audience in token.audience.value
    ensures Validate(TokenValidator(props), token).Err? <==> token.audience.None?
  {
    ValidateAllPair(TimestampValidator, IssuerValidator(props.issuerUri), token);
    ValidateAllPair(CreateDefaultWithIssuer(props.issuerUri), AudienceValidator(props.audience), token);
  }

  /** A token without an audience claim makes the validator throw, whatever the other checks find. */
  lemma MissingAudienceThrows(props: SecurityProperties, token: Jwt)
    requires token.audience.None?
    ensures Validate(TokenValidator(props), token) == Err(NullAudience)
  {
    ValidateAllPair(TimestampValidator, IssuerValidator(props.issuerUri), token);
    ValidateAllPair(CreateDefaultWithIssuer(props.issuerUri), AudienceValidator(props.audience), token);
  }

  /** A token that passes the issuer checks but lacks the audience is rejected with exactly the audience error. */
  lemma AudienceFailureAlone(props: SecurityProperties, token: Jwt)
    requires token.timestampsValid && token.issuer == Some(props.issuerUri)
    requires token.audience.Some? && props.audience !in token.audience.value
    ensures Validate(TokenValidator(props), token) == Ok([Rejected(AudienceError)])
  {
    ValidateAllPair(TimestampValidator, IssuerValidator(props.issuerUri), token);
    ValidateAllPair(CreateDefaultWithIssuer(props.issuerUri), AudienceValidator(props.audience), token);
    assert Validate(CreateDefaultWithIssuer(props.issuerUri), token) == Ok([] + []);
    assert [] + [] + [Rejected(AudienceError)] == [Rejected(AudienceError)];
  }

  /** When both the issuer check and the audience check fail, both failures are reported. */
  lemma BothFailuresReported(props: SecurityProperties, token: Jwt)
    requires token.issuer != Some(props.issuerUri)
    requires token.audience.Some? && props.audience !in token.audience.value
    ensures Validate(TokenValidator(props), token).Ok?
    ensures IssuerRejected in Validate(TokenValidator(props), token).value
    ensures Rejected(AudienceError) in Validate(TokenValidator(props), token).value
  {
    var timestampErrors := if token.timestampsValid then [] else [TimestampRejected];
    ValidateAllPair(TimestampValidator, IssuerValidator(props.issuerUri), token);
    ValidateAllPair(CreateDefaultWithIssuer(props.issuerUri), AudienceValidator(props.audience), token);
    var all := timestampErrors + [IssuerRejected] + [Rejected(AudienceError)];
    assert Validate(TokenValidator(props), token) == Ok(all);
    assert all[|timestampErrors|] == IssuerRejected;
    assert all[|timestampErrors| + 1] == Rejected(AudienceError);
  }

  // ---------------------------------------------------------------------------
  // Decoding

  /** A decoder: where its signing keys are located, and the validator it runs on decoded tokens. */
  datatype JwtDecoder = JwtDecoder(issuerLocation: string, validator: Validator)

  /** The decoder is located from the configured issuer URI and validates with the token validator. */
  function MakeJwtDecoder(props: SecurityProperties): JwtDecoder
  {
    JwtDecoder(props.issuerUri, TokenValidator(props))
  }

  /** Why a request failed authentication. */
  datatype AuthenticationFailure =
    | MissingToken
    | MalformedToken
    | BadSignature
    | InvalidClaims(errors: seq<ValidationError>)

  /** What decoding gives: the token's claims, a reason to reject it, or an exception no one catches. */
  datatype Decoded = Valid(jwt: Jwt) | Invalid(failure: AuthenticationFailure) | Threw(exception: Throwable)

  /** Parse, then check the signature against the located issuer's keys, then run the validator. */
  function Decode(decoder: JwtDecoder, token: BearerToken): (decoded: Decoded)
    ensures decoded.Valid? ==> decoded.jwt == token.claims
    ensures decoded.Valid? <==>
      token.wellFormed && token.signingIssuer == Some(decoder.issuerLocation) && Validate(decoder.validator, token.claims) == Ok([])
    ensures decoded.Threw? <==>
      token.wellFormed && token.signingIssuer == Some(decoder.issuerLocation) && Validate(decoder.validator, token.claims).Err?
    ensures decoded.Invalid? && decoded.failure.InvalidClaims? ==> decoded.failure.errors != []
  {
    if !token.wellFormed then Invalid(MalformedToken)
    else if token.signingIssuer != Some(decoder.issuerLocation) then Invalid(BadSignature)
    else
      match Validate(decoder.validator, token.claims)
      case Err(t) => Threw(t)
      case Ok(errors) => if errors == [] then Valid(token.claims) else Invalid(InvalidClaims(errors))
  }

  /**
   * The configured decoder accepts a token exactly when it parses, its signature
   * verifies with the keys of the configured issuer, its claims name that same
   * issuer, its timestamps hold and its audience contains the configured
   * audience. It throws exactly for a genuine token without an audience claim.
   */
  lemma DecoderAccepts(props: SecurityProperties, token: BearerToken)
    ensures Decode(MakeJwtDecoder(props), token).Valid? <==>
      && token.wellFormed
      && token.signingIssuer == Some(props.issuerUri)
      && token.claims.issuer == Some(props.issuerUri)
      && token.claims.timestampsValid
      && token.claims.audience.Some? && props.audience in token.claims.audience.value
    ensures Decode(MakeJwtDecoder(props), token).Threw? <==>
      token.wellFormed && token.signingIssuer == Some(props.issuerUri) && token.claims.audience.None?
  {
    TokenValidatorAccepts(props, token.claims);
  }

  // ---------------------------------------------------------------------------
  // The filter chain

  /** What the security layer decides for a request. */
  datatype SecurityOutcome =
    | Ignored
    | CsrfRejected
    | Permitted
    | Authenticated(principal: Jwt)
    | AuthenticationFailed(failure: AuthenticationFailure)
    | Crashed(exception: Throwable)
  {
    /** The request goes on to the router: skipped, let through anonymously, or authenticated. */
    predicate Proceeds()
    {
      Ignored? || Permitted? || Authenticated?
    }
  }

  /** The methods the CSRF filter lets through unchecked: the ones that do not change state. */
  predicate IsSafeMethod(httpMethod: string)
  {
    httpMethod == "GET" || httpMethod == "HEAD" || httpMethod == "TRACE" || httpMethod == "OPTIONS"
  }

  /** The CSRF filter checks neither safe methods nor, by the resource-server configuration, requests carrying a bearer token. */
  predicate CsrfExempt(request: Request)
  {
    IsSafeMethod(request.httpMethod) || request.bearer.Some?
  }

  /** The bearer-token filter on a token, whatever the path: the configured decoder's verdict. */
  function Authenticate(props: SecurityProperties, token: BearerToken): (outcome: SecurityOutcome)
    ensures outcome.Authenticated? || outcome.AuthenticationFailed? || outcome.Crashed?
    ensures outcome.Authenticated? ==> outcome.principal == token.claims
    ensures outcome.Authenticated? <==> Decode(MakeJwtDecoder(props), token).Valid?
    ensures outcome.AuthenticationFailed? <==> Decode(MakeJwtDecoder(props), token).Invalid?
    ensures outcome.Crashed? <==> Decode(MakeJwtDecoder(props), token).Threw?
  {
    match Decode(MakeJwtDecoder(props), token)
    case Valid(jwt) => Authenticated(jwt)
    case Invalid(failure) => AuthenticationFailed(failure)
    case Threw(t) => Crashed(t)
  }

  /**
   * The chain on a request the exclusion pattern does not skip, `access` being
   * the authorisation rule for its path: the CSRF filter first, then the
   * bearer-token filter on any token, then the rule for anonymous requests.
   */
  function Decide(props: SecurityProperties, request: Request, access: Access): SecurityOutcome
  {
    if !CsrfExempt(request) then CsrfRejected
    else match request.bearer
      case Some(token) => Authenticate(props, token)
      case None => if access == AuthenticatedOnly then AuthenticationFailed(MissingToken) else Permitted
  }

  /**
   * The security layer as configured: ignored requests skip the chain; of the
   * rest, unsafe methods without a token are refused by the CSRF filter, any
   * token decides alone, and an anonymous request passes unless its path is secured.
   */
  function Gate(props: SecurityProperties, request: Request): (outcome: SecurityOutcome)
    ensures outcome == Ignored <==> IsIgnored(request)
    ensures outcome == CsrfRejected <==> !IsIgnored(request) && !CsrfExempt(request)
    ensures outcome == Permitted ==> request.bearer.None? && AccessFor(request.path) == PermitAll
    ensures outcome.Authenticated? ==> request.bearer.Some? && outcome.principal == request.bearer.value.claims
    ensures outcome.Authenticated? <==>
      !IsIgnored(request) && CsrfExempt(request) && request.bearer.Some? && Decode(MakeJwtDecoder(props), request.bearer.value).Valid?
  {
    if IsIgnored(request) then Ignored else Decide(props, request, AccessFor(request.path))
  }

  /** The same layer with the intended authorisation rule. */
  function IntendedGate(props: SecurityProperties, request: Request): (outcome: SecurityOutcome)
    ensures outcome == Permitted ==> request.bearer.None? && IntendedAccessFor(request.path) == PermitAll
    ensures outcome.Authenticated? ==> request.bearer.Some? && outcome.principal == request.bearer.value.claims
    ensures outcome.Authenticated? <==>
      !IsIgnored(request) && CsrfExempt(request) && request.bearer.Some? && Decode(MakeJwtDecoder(props), request.bearer.value).Valid?
  {
    if IsIgnored(request) then Ignored else Decide(props, request, IntendedAccessFor(request.path))
  }

  /** A secured request is never ignored: the chain decides it with the authenticated-only rule. */
  lemma SecuredGate(props: SecurityProperties, request: Request)
    requires request.path == "/api/messages/protected" || request.path == "/api/messages/admin"
    ensures Gate(props, request) == Decide(props, request, AuthenticatedOnly)
  {
    SecuredRequestsAreNeverIgnored(request);
  }

  /** Under the intended rule, a request for a secured endpoint's path goes on to the router only when authenticated. */
  lemma IntendedGuardsPaths(props: SecurityProperties, request: Request)
    requires Router.PatternMatches(ProtectedPrefix, request.path) || Router.PatternMatches(AdminPrefix, request.path)
    ensures IntendedGate(props, request).Proceeds() ==> IntendedGate(props, request).Authenticated?
  {
    assert ProtectedPrefix <= request.path || AdminPrefix <= request.path;
    assert IntendedAccessFor(request.path) == AuthenticatedOnly;
  }

  /** A token that passes every check authenticates a secured request that carries it. */
  lemma ValidTokenAuthenticates(props: SecurityProperties, request: Request)
    requires request.path == "/api/messages/protected" || request.path == "/api/messages/admin"
    requires request.bearer.Some?
    requires var t := request.bearer.value;
      && t.wellFormed && t.signingIssuer == Some(props.issuerUri)
      && t.claims.issuer == Some(props.issuerUri) && t.claims.timestampsValid
      && t.claims.audience.Some? && props.audience in t.claims.audience.value
    ensures Gate(props, request) == Authenticated(request.bearer.value.claims)
  {
    SecuredGate(props, request);
    DecoderAccepts(props, request.bearer.value);
  }

  /**
   * Authentication fails exactly on a request that is not ignored and passes
   * the CSRF filter, when it carries a token the decoder rejects, or carries no
   * token and its path is the protected or the admin one.
   */
  lemma GateFailsIff(props: SecurityProperties, request: Request)
    ensures Gate(props, request).AuthenticationFailed? <==>
      && !IsIgnored(request)
      && CsrfExempt(request)
      && (if request.bearer.None? then request.path == "/api/messages/protected" || request.path == "/api/messages/admin"
          else Decode(MakeJwtDecoder(props), request.bearer.value).Invalid?)
  {
    if request.path == "/api/messages/protected" || request.path == "/api/messages/admin" {
      SecuredRequestsAreNeverIgnored(request);
    }
  }

  /**
   * Every path other than the protected and admin ones is open to anonymous
   * requests: without a token it is never refused for authentication, and it is
   * refused by the CSRF filter exactly when it is not ignored and its method is unsafe.
   */
  lemma OpenGate(props: SecurityProperties, request: Request)
    requires request.path != "/api/messages/protected" && request.path != "/api/messages/admin"
    requires request.bearer.None?
    ensures Gate(props, request) == Ignored || Gate(props, request) == Permitted || Gate(props, request) == CsrfRejected
    ensures Gate(props, request) == CsrfRejected <==> !IsIgnored(request) && !IsSafeMethod(request.httpMethod)
  {
  }

  /** The protected and the admin path get the same decision for the same credentials: no role distinction. */
  lemma ProtectedAndAdminAlike(props: SecurityProperties, httpMethod: string, query: Option<string>, bearer: Option<BearerToken>)
    ensures Gate(props, Request(httpMethod, "/api/messages/protected", query, bearer))
         == Gate(props, Request(httpMethod, "/api/messages/admin", query, bearer))
  {
    SecuredGate(props, Request(httpMethod, "/api/messages/protected", query, bearer));
    SecuredGate(props, Request(httpMethod, "/api/messages/admin", query, bearer));
  }
}
