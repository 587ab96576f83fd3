/** The global JWT filter (written but not registered as a bean): it lets
    excluded paths through for any method and public-read paths through for
    GET, demands a bearer header otherwise, asks the JWT utility whether the
    token is valid before reading any claim from it, and forwards the
    request with four identity headers that always hold a value. Refusals
    are answered with the canonical JSON error envelope. */
module ReactiveJwtAuthenticationFilter {
  import opened Wrappers
  import opened Strings
  import opened Http

  /** `EXCLUDED_PATHS`: prefixes passed through for every method. */
  const ExcludedPaths := [
    "/api/users/login",
    "/api/users/register",
    "/actuator/health",
    "/gateway/health"
  ]

  /** `PUBLIC_READ_PATHS`: prefixes passed through for GET only. The last
      entry is compared literally, stars included. */
  const PublicReadPaths := [
    "/api/v1/exercises",
    "/api/v1/muscle-groups",
    "/api/v1/workout-plans/public",
    "/api/v1/routine-folders/public",
    "/api/gamification/**"
  ]

  /** The injected `jwt.header` and `jwt.prefix` settings. */
  datatype Settings = Settings(tokenHeader: string, tokenPrefix: string)

  /** What `jwtUtil.validateToken` does with a token. */
  datatype Validation = Valid | NotValid | ValidationThrew

  /** What `extractUsername`, `extractRole` and `extractUserId` give
      together: three possibly-null values, or an exception from any one. */
  datatype Extraction = Extracted(username: Option<string>, role: Option<string>, userId: Option<int>) | ExtractionThrew

  /** The JWT utility, seen only through what it answers for a token. */
  datatype JwtUtil = JwtUtil(validateToken: string -> Validation, extractClaims: string -> Extraction)

  const MissingHeaderMessage := "Missing or invalid Authorization header"
  const InvalidTokenMessage := "Invalid or expired JWT token"
  const ProcessingErrorMessage := "JWT token processing error"

  const UserIdHeader := "X-User-Id"
  const UsernameHeader := "X-Username"
  const RoleHeader := "X-User-Role"
  const AuthSourceHeader := "X-Auth-Source"

  // ---------------------------------------------------------------------
  // Path classification
  // ---------------------------------------------------------------------

  /** `isExcludedPath`: some excluded entry is a prefix of the path. */
  predicate IsExcludedPath(path: string) {
    AnyMatch(ExcludedPaths, p => StartsWith(path, p))
  }

  /** `isPublicReadPath`: some public-read entry is a prefix of the path. */
  predicate IsPublicReadPath(path: string) {
    AnyMatch(PublicReadPaths, p => StartsWith(path, p))
  }

  lemma IsExcludedPathIff(path: string)
    ensures IsExcludedPath(path) <==> exists p :: p in ExcludedPaths && StartsWith(path, p)
  {
    AnyMatchIff(ExcludedPaths, p => StartsWith(path, p));
  }

  lemma IsPublicReadPathIff(path: string)
    ensures IsPublicReadPath(path) <==> exists p :: p in PublicReadPaths && StartsWith(path, p)
  {
    AnyMatchIff(PublicReadPaths, p => StartsWith(path, p));
  }

  /** The gamification entry ends in two stars that are not a wildcard: a
      path under `/api/gamification/` is not a public-read path unless it
      literally continues with those two stars. */
  lemma GamificationEntryIsLiteral()
    ensures !IsPublicReadPath("/api/gamification/points")
    ensures IsPublicReadPath("/api/gamification/**/points")
  {
    var path := "/api/gamification/points";
    IsPublicReadPathIff(path);
    assert path[5] != "/api/v1/exercises"[5];
    assert path[5] != "/api/v1/muscle-groups"[5];
    assert path[5] != "/api/v1/workout-plans/public"[5];
    assert path[5] != "/api/v1/routine-folders/public"[5];
    assert |path| < |"/api/gamification/**"| || path[18] != "/api/gamification/**"[18];
    IsPublicReadPathIff("/api/gamification/**/points");
    assert StartsWith("/api/gamification/**/points", "/api/gamification/**");
  }

  // ---------------------------------------------------------------------
  // The decision
  // ---------------------------------------------------------------------

  /** The token: the header's first value without the prefix's length of
      leading characters, when the header is present and has the prefix. */
  function Credential(settings: Settings, req: Request): (token: Option<string>)
    ensures token.Some? <==>
      GetFirst(req.headers, settings.tokenHeader).Some? &&
      StartsWith(GetFirst(req.headers, settings.tokenHeader).value, settings.tokenPrefix)
    ensures token.Some? ==>
      GetFirst(req.headers, settings.tokenHeader).value == settings.tokenPrefix + token.value
  {
    var authHeader := GetFirst(req.headers, settings.tokenHeader);
    if authHeader.None? || !StartsWith(authHeader.value, settings.tokenPrefix) then None
    else Some(authHeader.value[|settings.tokenPrefix|..])
  }

  /** The request handed on: the four identity headers, each defaulted when
      its claim is missing, replacing anything the caller sent. */
  function WithIdentity(req: Request, username: Option<string>, role: Option<string>, userId: Option<int>): Request {
    var h1 := WithHeader(req.headers, UserIdHeader, Some(if userId.Some? then IntToString(userId.value) else "0"));
    var h2 := WithHeader(h1, UsernameHeader, Some(if username.Some? then username.value else "anonymous"));
    var h3 := WithHeader(h2, RoleHeader, Some(if role.Some? then role.value else "USER"));
    var h4 := WithHeader(h3, AuthSourceHeader, Some("gateway"));
    req.(headers := h4)
  }

  /** `filter`'s early returns, in their order: excluded path, GET on a
      public-read path, header check, validation, claim extraction. */
  function Decide(settings: Settings, req: Request, jwt: JwtUtil): Decision {
    if IsExcludedPath(req.uriPath) then Forward(req)
    else if req.httpMethod == "GET" && IsPublicReadPath(req.uriPath) then Forward(req)
    else match Credential(settings, req)
      case None => Reject(Unauthorized, MissingHeaderMessage)
      case Some(token) =>
        match jwt.validateToken(token)
        case ValidationThrew => Reject(Unauthorized, ProcessingErrorMessage)
        case NotValid => Reject(Unauthorized, InvalidTokenMessage)
        case Valid =>
          match jwt.extractClaims(token)
          case ExtractionThrew => Reject(Unauthorized, ProcessingErrorMessage)
          case Extracted(username, role, userId) => Forward(WithIdentity(req, username, role, userId))
  }

  // ---------------------------------------------------------------------
  // Properties of the decision
  // ---------------------------------------------------------------------

  /** An excluded path goes on untouched, for every method, header set and
      JWT utility. */
  lemma ExcludedPathForwardsUnchanged(settings: Settings, req: Request, jwt: JwtUtil)
    requires IsExcludedPath(req.uriPath)
    ensures Decide(settings, req, jwt) == Forward(req)
  {
  }

  /** A GET on a public-read path goes on untouched; the same request with
      any other method gets no bypass: without a credential it is refused,
      and it is forwarded only with a token that validated. */
  lemma PublicReadBypassIsGetOnly(settings: Settings, req: Request, jwt: JwtUtil, otherMethod: string)
    requires !IsExcludedPath(req.uriPath) && IsPublicReadPath(req.uriPath)
    requires otherMethod != "GET"
    ensures req.httpMethod == "GET" ==> Decide(settings, req, jwt) == Forward(req)
    ensures Credential(settings, req).None? ==>
      Decide(settings, req.(httpMethod := otherMethod), jwt) == Reject(Unauthorized, MissingHeaderMessage)
    ensures var other := req.(httpMethod := otherMethod);
      Decide(settings, other, jwt).Forward? ==>
        Credential(settings, other).Some? && jwt.validateToken(Credential(settings, other).value) == Valid
  {
  }

  /** The converse of the refusal lemmas: outside the two bypasses a request
      is forwarded only with a token that validated and whose claims could
      be extracted, and it then carries their identity. */
  lemma ProtectedForwardNeedsValidToken(settings: Settings, req: Request, jwt: JwtUtil)
    requires !IsExcludedPath(req.uriPath)
    requires !(req.httpMethod == "GET" && IsPublicReadPath(req.uriPath))
    ensures Decide(settings, req, jwt).Forward? ==>
      && Credential(settings, req).Some?
      && jwt.validateToken(Credential(settings, req).value) == Valid
      && (var x := jwt.extractClaims(Credential(settings, req).value);
          x.Extracted? && Decide(settings, req, jwt).request == WithIdentity(req, x.username, x.role, x.userId))
  {
  }

  /** Outside the two bypasses a missing header, or one without the prefix,
      is refused. */
  lemma MissingHeaderRejected(settings: Settings, req: Request, jwt: JwtUtil)
    requires !IsExcludedPath(req.uriPath)
    requires !(req.httpMethod == "GET" && IsPublicReadPath(req.uriPath))
    requires GetFirst(req.headers, settings.tokenHeader).None?
          || !StartsWith(GetFirst(req.headers, settings.tokenHeader).value, settings.tokenPrefix)
    ensures Decide(settings, req, jwt) == Reject(Unauthorized, MissingHeaderMessage)
  {
  }

  /** A token found invalid, or whose validation or claim extraction
      throws, is refused with the matching message. */
  lemma TokenFailuresRejected(settings: Settings, req: Request, jwt: JwtUtil, token: string)
    requires !IsExcludedPath(req.uriPath)
    requires !(req.httpMethod == "GET" && IsPublicReadPath(req.uriPath))
    requires Credential(settings, req) == Some(token)
    ensures jwt.validateToken(token) == NotValid ==>
      Decide(settings, req, jwt) == Reject(Unauthorized, InvalidTokenMessage)
    ensures jwt.validateToken(token) == ValidationThrew ==>
      Decide(settings, req, jwt) == Reject(Unauthorized, ProcessingErrorMessage)
    ensures jwt.validateToken(token) == Valid && jwt.extractClaims(token) == ExtractionThrew ==>
      Decide(settings, req, jwt) == Reject(Unauthorized, ProcessingErrorMessage)
  {
  }

  /** Claims are never read from a token that did not validate: swapping
      the extraction for any other changes nothing. */
  lemma NoExtractionBeforeValidation(settings: Settings, req: Request, jwt: JwtUtil, extract: string -> Extraction)
    requires Credential(settings, req).Some? ==> jwt.validateToken(Credential(settings, req).value) != Valid
    ensures Decide(settings, req, jwt) == Decide(settings, req, jwt.(extractClaims := extract))
  {
  }

  /** A request that passes goes on with all four identity headers holding
      exactly one non-null value each, defaults filled in, and every other
      header as the caller sent it. */
  lemma AuthenticatedForwardCarriesIdentity(settings: Settings, req: Request, jwt: JwtUtil, token: string,
                                            username: Option<string>, role: Option<string>, userId: Option<int>)
    requires !IsExcludedPath(req.uriPath)
    requires !(req.httpMethod == "GET" && IsPublicReadPath(req.uriPath))
    requires Credential(settings, req) == Some(token)
    requires jwt.validateToken(token) == Valid && jwt.extractClaims(token) == Extracted(username, role, userId)
    ensures Decide(settings, req, jwt).Forward?
    ensures var fwd := Decide(settings, req, jwt).request;
      && fwd.httpMethod == req.httpMethod && fwd.path == req.path && fwd.uriPath == req.uriPath
      && Values(fwd.headers, UserIdHeader) == [Some(if userId.Some? then IntToString(userId.value) else "0")]
      && Values(fwd.headers, UsernameHeader) == [Some(if username.Some? then username.value else "anonymous")]
      && Values(fwd.headers, RoleHeader) == [Some(if role.Some? then role.value else "USER")]
      && Values(fwd.headers, AuthSourceHeader) == [Some("gateway")]
      && forall n :: Fold(n) !in {Fold(UserIdHeader), Fold(UsernameHeader), Fold(RoleHeader), Fold(AuthSourceHeader)} ==>
           Values(fwd.headers, n) == Values(req.headers, n)
  {
    assert Decide(settings, req, jwt) == Forward(WithIdentity(req, username, role, userId));
    IdentityHeadersSet(req, username, role, userId);
  }

  /** The four headers `WithIdentity` sets, and nothing else touched. */
  lemma IdentityHeadersSet(req: Request, username: Option<string>, role: Option<string>, userId: Option<int>)
    ensures var fwd := WithIdentity(req, username, role, userId);
      && fwd.httpMethod == req.httpMethod && fwd.path == req.path && fwd.uriPath == req.uriPath
      && Values(fwd.headers, UserIdHeader) == [Some(if userId.Some? then IntToString(userId.value) else "0")]
      && Values(fwd.headers, UsernameHeader) == [Some(if username.Some? then username.value else "anonymous")]
      && Values(fwd.headers, RoleHeader) == [Some(if role.Some? then role.value else "USER")]
      && Values(fwd.headers, AuthSourceHeader) == [Some("gateway")]
      && forall n :: Fold(n) !in {Fold(UserIdHeader), Fold(UsernameHeader), Fold(RoleHeader), Fold(AuthSourceHeader)} ==>
           Values(fwd.headers, n) == Values(req.headers, n)
  {
    assert |Fold(UserIdHeader)| == 9 && |Fold(UsernameHeader)| == 10;
    assert |Fold(RoleHeader)| == 11 && |Fold(AuthSourceHeader)| == 13;
    var h1 := WithHeader(req.headers, UserIdHeader, Some(if userId.Some? then IntToString(userId.value) else "0"));
    var h2 := WithHeader(h1, UsernameHeader, Some(if username.Some? then username.value else "anonymous"));
    var h3 := WithHeader(h2, RoleHeader, Some(if role.Some? then role.value else "USER"));
    var h4 := WithHeader(h3, AuthSourceHeader, Some("gateway"));
    assert Values(h4, UserIdHeader) == Values(h1, UserIdHeader);
    assert Values(h4, UsernameHeader) == Values(h2, UsernameHeader);
    assert Values(h4, RoleHeader) == Values(h3, RoleHeader);
    forall n | Fold(n) !in {Fold(UserIdHeader), Fold(UsernameHeader), Fold(RoleHeader), Fold(AuthSourceHeader)}
      ensures Values(h4, n) == Values(req.headers, n)
    {
      assert Values(h4, n) == Values(h3, n) == Values(h2, n) == Values(h1, n);
    }
  }

  /** Every refusal is a 401 with one of three messages; every forwarded
      request is either the original or carries the identity extracted
      from a token that validated. */
  lemma DecisionIsOneOfTheDocumentedOutcomes(settings: Settings, req: Request, jwt: JwtUtil)
    ensures var d := Decide(settings, req, jwt);
      && (d.Reject? ==>
            d.status == Unauthorized &&
            d.message in {MissingHeaderMessage, InvalidTokenMessage, ProcessingErrorMessage})
      && (d.Forward? && d.request != req ==>
            && Credential(settings, req).Some?
            && jwt.validateToken(Credential(settings, req).value) == Valid
            && (var x := jwt.extractClaims(Credential(settings, req).value);
                x.Extracted? && d.request == WithIdentity(req, x.username, x.role, x.userId)))
  {
  }

  // ---------------------------------------------------------------------
  // Answering a refusal
  // ---------------------------------------------------------------------

  /** `onError`: the given status, a JSON content type added, and the error
      envelope naming the request's URI path written. */
  method OnError(resp: Response, req: Request, errorMessage: string, httpStatus: nat, now: string)
    modifies resp
    ensures resp.status == Some(httpStatus)
    ensures resp.headers == WithAdded(old(resp.headers), ContentType, ApplicationJson)
    ensures resp.body == RenderEnvelope(Envelope(errorMessage, httpStatus, now, req.uriPath))
    ensures resp.committed
  {
    resp.SetStatusCode(httpStatus);
    resp.AddHeader(ContentType, ApplicationJson);
    resp.WriteWith(RenderEnvelope(Envelope(errorMessage, httpStatus, now, req.uriPath)));
  }

  /** `filter` on one exchange: the request to hand down the chain, or none
      after the refusal has been written. `now` stands for `Instant.now()`. */
  method Filter(settings: Settings, req: Request, resp: Response, jwt: JwtUtil, now: string)
    returns (forwarded: Option<Request>)
    modifies resp
    ensures Decide(settings, req, jwt).Forward? ==>
      forwarded == Some(Decide(settings, req, jwt).request) && unchanged(resp)
    ensures Decide(settings, req, jwt).Reject? ==>
      && forwarded.None?
      && resp.status == Some(Decide(settings, req, jwt).status)
      && resp.headers == WithAdded(old(resp.headers), ContentType, ApplicationJson)
      && resp.body == RenderEnvelope(Envelope(Decide(settings, req, jwt).message, Decide(settings, req, jwt).status, now, req.uriPath))
      && resp.committed
  {
    var decision := Decide(settings, req, jwt);
    match decision
    case Forward(r) =>
      forwarded := Some(r);
    case Reject(status, message) =>
      OnError(resp, req, message, status, now);
      forwarded := None;
  }

  lemma MessagesHaveNoQuote()
    ensures '"' !in MissingHeaderMessage && '"' !in InvalidTokenMessage && '"' !in ProcessingErrorMessage
  {
  }

  /** The refusal body reads back with the status that was set and the
      request's URI path, for every message this filter sends. */
  lemma RefusalBodyReadsBack(settings: Settings, req: Request, jwt: JwtUtil, now: string)
    requires Decide(settings, req, jwt).Reject?
    requires '"' !in now
    ensures var d := Decide(settings, req, jwt);
      ParseEnvelope(RenderEnvelope(Envelope(d.message, d.status, now, req.uriPath)))
        == Some(Envelope(d.message, Unauthorized, now, req.uriPath))
  {
    var d := Decide(settings, req, jwt);
    DecisionIsOneOfTheDocumentedOutcomes(settings, req, jwt);
    MessagesHaveNoQuote();
    EnvelopeRoundTrip(Envelope(d.message, d.status, now, req.uriPath));
  }
}
