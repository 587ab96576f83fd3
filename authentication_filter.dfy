/** The gateway filter registered with Spring Cloud Gateway: for each
    request it either passes the request on (unchanged, or carrying the
    caller's verified identity in trusted headers) or answers 401 itself.
    The decision is a pure function of the configuration, the request and
    what the token verifier says about the token; answering 401 changes
    the exchange's response in place. */
module AuthenticationFilter {
  import opened Wrappers
  import opened Strings
  import opened Http

  // ---------------------------------------------------------------------
  // Configuration and claims
  // ---------------------------------------------------------------------

  /** The filter's `Config`. Its `validateExpiration` flag is never read
      and is left out. */
  datatype Config = Config(
    enabled: bool,
    headerName: string,
    tokenPrefix: string,
    requireRole: bool,
    requiredRole: string,
    skipPublicPaths: bool,
    publicPaths: seq<string>)

  /** The values a `Config` starts with. */
  const DefaultConfig := Config(
    true, "Authorization", "Bearer ", false, "USER", true,
    ["/login", "/register", "/public", "/health", "/actuator", "/swagger", "/api-docs"])

  /** The claims of a verified token; each may be missing (Java null). */
  datatype Claims = Claims(subject: Option<string>, userId: Option<int>, roles: Option<seq<string>>)

  /** What `validateToken` does with a token: return its claims, or throw
      (malformed token, bad signature, expired token, unusable key alike). */
  datatype Verification = Verified(claims: Claims) | Invalid

  /** The token verifier, seen only through what it answers for a token. */
  type Verifier = string -> Verification

  const MissingHeaderMessage := "Missing or invalid Authorization header"
  const InvalidTokenMessage := "Invalid or expired token"
  const InsufficientPermissionsMessage := "Insufficient permissions"

  const UserIdHeader := "X-User-Id"
  const UsernameHeader := "X-Username"
  const RolesHeader := "X-User-Roles"

  // ---------------------------------------------------------------------
  // Path classification
  // ---------------------------------------------------------------------

  /** `isPublicEndpoint`: some configured public path occurs anywhere in
      the request path (substring, not prefix), unless skipping is off. */
  predicate IsPublicEndpoint(path: string, cfg: Config) {
    cfg.skipPublicPaths && AnyMatch(cfg.publicPaths, p => Contains(path, p))
  }

  lemma IsPublicEndpointIff(path: string, cfg: Config)
    ensures IsPublicEndpoint(path, cfg) <==>
      cfg.skipPublicPaths && exists p, i :: p in cfg.publicPaths && OccursAt(path, p, i)
  {
    var test := p => Contains(path, p);
    AnyMatchIff(cfg.publicPaths, test);
    if IsPublicEndpoint(path, cfg) {
      var k :| 0 <= k < |cfg.publicPaths| && test(cfg.publicPaths[k]);
      ContainsIff(path, cfg.publicPaths[k]);
    }
    if cfg.skipPublicPaths && exists p, i :: p in cfg.publicPaths && OccursAt(path, p, i) {
      var p, i :| p in cfg.publicPaths && OccursAt(path, p, i);
      ContainsIff(path, p);
      var k :| 0 <= k < |cfg.publicPaths| && cfg.publicPaths[k] == p;
      assert test(cfg.publicPaths[k]);
    }
  }

  /** Under the default configuration a path that merely contains a public
      keyword is public: `/api/x/login-audit` does not start with `/login`,
      but contains it. */
  lemma LoginAuditIsPublic()
    ensures !StartsWith("/api/x/login-audit", "/login")
    ensures IsPublicEndpoint("/api/x/login-audit", DefaultConfig)
  {
    assert "/api/x/login-audit"[..6][1] != "/login"[1];
    assert OccursAt("/api/x/login-audit", "/login", 6);
    IsPublicEndpointIff("/api/x/login-audit", DefaultConfig);
  }

  // ---------------------------------------------------------------------
  // The decision
  // ---------------------------------------------------------------------

  /** The token: the configured header's first value with exactly
      `tokenPrefix.length()` leading characters removed, when the header is
      present and starts with the prefix. */
  function Credential(cfg: Config, req: Request): (token: Option<string>)
    ensures token.Some? <==>
      GetFirst(req.headers, cfg.headerName).Some? &&
      StartsWith(GetFirst(req.headers, cfg.headerName).value, cfg.tokenPrefix)
    ensures token.Some? ==>
      GetFirst(req.headers, cfg.headerName).value == cfg.tokenPrefix + token.value
  {
    var authHeader := GetFirst(req.headers, cfg.headerName);
    if authHeader.None? || !StartsWith(authHeader.value, cfg.tokenPrefix) then None
    else Some(authHeader.value[|cfg.tokenPrefix|..])
  }

  /** `String.valueOf(claims.get("userId"))`. */
  function UserIdText(userId: Option<int>): string {
    match userId
    case None => "null"
    case Some(n) => IntToString(n)
  }

  /** The request handed down the chain on success: the three identity
      headers are set from the claims, replacing anything the caller sent
      under those names. Needs the roles claim: `String.join` on a null
      list throws. */
  function WithIdentity(req: Request, c: Claims): Request
    requires c.roles.Some?
  {
    var h1 := WithHeader(req.headers, UserIdHeader, Some(UserIdText(c.userId)));
    var h2 := WithHeader(h1, UsernameHeader, c.subject);
    var h3 := WithHeader(h2, RolesHeader, Some(Join(",", c.roles.value)));
    req.(headers := h3)
  }

  /** The `apply` lambda's chain of guards. Every exception thrown after
      the header check, including the one `String.join` throws on a missing
      roles claim, ends in the same "Invalid or expired token" answer. */
  function Decide(cfg: Config, req: Request, verify: Verifier): Decision {
    if !cfg.enabled then Forward(req)
    else if IsPublicEndpoint(req.path, cfg) then Forward(req)
    else match Credential(cfg, req)
      case None => Reject(Unauthorized, MissingHeaderMessage)
      case Some(token) =>
        match verify(token)
        case Invalid => Reject(Unauthorized, InvalidTokenMessage)
        case Verified(c) =>
          if cfg.requireRole && (c.roles.None? || cfg.requiredRole !in c.roles.value) then
            Reject(Unauthorized, InsufficientPermissionsMessage)
          else if c.roles.None? then
            Reject(Unauthorized, InvalidTokenMessage)
          else
            Forward(WithIdentity(req, c))
  }

  // ---------------------------------------------------------------------
  // Properties of the decision
  // ---------------------------------------------------------------------

  /** A disabled filter passes every request on untouched. */
  lemma DisabledForwardsUnchanged(cfg: Config, req: Request, verify: Verifier)
    requires !cfg.enabled
    ensures Decide(cfg, req, verify) == Forward(req)
  {
  }

  /** A public path is passed on untouched, whatever the method, whatever
      the headers and whatever the verifier would say: the path is
      classified before any header is read. */
  lemma PublicPathForwardsUnchanged(cfg: Config, req: Request, verify: Verifier, headers: Headers, httpMethod: string)
    requires cfg.enabled && IsPublicEndpoint(req.path, cfg)
    ensures Decide(cfg, req, verify) == Forward(req)
    ensures Decide(cfg, req.(headers := headers, httpMethod := httpMethod), verify)
         == Forward(req.(headers := headers, httpMethod := httpMethod))
  {
  }

  /** On a protected path, a missing header or one without the prefix is
      refused before the verifier is consulted. */
  lemma MissingHeaderRejected(cfg: Config, req: Request, verify: Verifier)
    requires cfg.enabled && !IsPublicEndpoint(req.path, cfg)
    requires GetFirst(req.headers, cfg.headerName).None?
          || !StartsWith(GetFirst(req.headers, cfg.headerName).value, cfg.tokenPrefix)
    ensures Decide(cfg, req, verify) == Reject(Unauthorized, MissingHeaderMessage)
  {
  }

  /** The verifier is asked about exactly one string, the header without its
      prefix: two verifiers that agree on it lead to the same decision. */
  lemma VerifierSeesOnlyStrippedToken(cfg: Config, req: Request, v1: Verifier, v2: Verifier, header: string)
    requires GetFirst(req.headers, cfg.headerName) == Some(header)
    requires StartsWith(header, cfg.tokenPrefix)
    requires v1(header[|cfg.tokenPrefix|..]) == v2(header[|cfg.tokenPrefix|..])
    ensures Decide(cfg, req, v1) == Decide(cfg, req, v2)
  {
  }

  /** A token the verifier refuses is answered 401 and never forwarded. */
  lemma InvalidTokenRejected(cfg: Config, req: Request, verify: Verifier, token: string)
    requires cfg.enabled && !IsPublicEndpoint(req.path, cfg)
    requires Credential(cfg, req) == Some(token) && verify(token) == Invalid
    ensures Decide(cfg, req, verify) == Reject(Unauthorized, InvalidTokenMessage)
  {
  }

  /** With a role required, verified claims without that role are refused. */
  lemma MissingRoleRejected(cfg: Config, req: Request, verify: Verifier, token: string, c: Claims)
    requires cfg.enabled && !IsPublicEndpoint(req.path, cfg) && cfg.requireRole
    requires Credential(cfg, req) == Some(token) && verify(token) == Verified(c)
    requires c.roles.None? || cfg.requiredRole !in c.roles.value
    ensures Decide(cfg, req, verify) == Reject(Unauthorized, InsufficientPermissionsMessage)
  {
  }

  /** Without a roles claim (and no role required) the identity cannot be
      built, and the request is refused rather than forwarded with part of
      an identity. */
  lemma MissingRolesClaimFailsClosed(cfg: Config, req: Request, verify: Verifier, token: string, c: Claims)
    requires cfg.enabled && !IsPublicEndpoint(req.path, cfg) && !cfg.requireRole
    requires Credential(cfg, req) == Some(token) && verify(token) == Verified(c)
    requires c.roles.None?
    ensures Decide(cfg, req, verify) == Reject(Unauthorized, InvalidTokenMessage)
  {
  }

  /** A request that passes every check goes on carrying exactly the
      verified identity: each identity header holds one value projected from
      the claims (a forged value under any spelling of the name is gone),
      and every other header is as the caller sent it. */
  lemma AuthenticatedForwardCarriesIdentity(cfg: Config, req: Request, verify: Verifier, token: string, c: Claims)
    requires cfg.enabled && !IsPublicEndpoint(req.path, cfg)
    requires Credential(cfg, req) == Some(token) && verify(token) == Verified(c)
    requires c.roles.Some? && (cfg.requireRole ==> cfg.requiredRole in c.roles.value)
    ensures Decide(cfg, req, verify).Forward?
    ensures var fwd := Decide(cfg, req, verify).request;
      && fwd.httpMethod == req.httpMethod && fwd.path == req.path && fwd.uriPath == req.uriPath
      && Values(fwd.headers, UserIdHeader) == [Some(UserIdText(c.userId))]
      && Values(fwd.headers, UsernameHeader) == [c.subject]
      && Values(fwd.headers, RolesHeader) == [Some(Join(",", c.roles.value))]
      && forall n :: Fold(n) !in {Fold(UserIdHeader), Fold(UsernameHeader), Fold(RolesHeader)} ==>
           Values(fwd.headers, n) == Values(req.headers, n)
  {
    assert |Fold(UserIdHeader)| == 9 && |Fold(UsernameHeader)| == 10 && |Fold(RolesHeader)| == 12;
  }

  /** The converse of the refusal lemmas: on a protected path a request is
      forwarded only with a token the verifier accepted, whose claims hold a
      roles list (with the required role when one is required), and it then
      carries that token's identity. */
  lemma ProtectedForwardNeedsVerifiedToken(cfg: Config, req: Request, verify: Verifier)
    requires cfg.enabled && !IsPublicEndpoint(req.path, cfg)
    ensures Decide(cfg, req, verify).Forward? ==>
      && Credential(cfg, req).Some?
      && (var v := verify(Credential(cfg, req).value);
          && v.Verified? && v.claims.roles.Some?
          && (cfg.requireRole ==> cfg.requiredRole in v.claims.roles.value)
          && Decide(cfg, req, verify).request == WithIdentity(req, v.claims))
  {
  }

  /** A public path, or a disabled filter, hands on whatever the caller sent
      under the three identity header names: nothing removes a forged
      `X-User-Id`, `X-Username` or `X-User-Roles` there. */
  lemma UnauthenticatedForwardKeepsCallerIdentityHeaders(cfg: Config, req: Request, verify: Verifier)
    requires !cfg.enabled || IsPublicEndpoint(req.path, cfg)
    ensures Decide(cfg, req, verify).Forward?
    ensures var fwd := Decide(cfg, req, verify).request;
      && Values(fwd.headers, UserIdHeader) == Values(req.headers, UserIdHeader)
      && Values(fwd.headers, UsernameHeader) == Values(req.headers, UsernameHeader)
      && Values(fwd.headers, RolesHeader) == Values(req.headers, RolesHeader)
  {
  }

  /** Under the default configuration, a request to `/api/x/login-audit`
      with no token and a forged `X-User-Id: 999` reaches the downstream
      service with that header intact. */
  lemma ForgedUserIdPassesOnLoginAudit(verify: Verifier)
    ensures var req := Request("GET", "/api/x/login-audit", "/api/x/login-audit", map["x-user-id" := [Some("999")]]);
      && Credential(DefaultConfig, req).None?
      && Decide(DefaultConfig, req, verify) == Forward(req)
      && Values(Decide(DefaultConfig, req, verify).request.headers, UserIdHeader) == [Some("999")]
  {
    FoldedUserIdHeader();
    FoldIdempotent(UserIdHeader);
    var h: Headers := map["x-user-id" := [Some("999")]];
    var req := Request("GET", "/api/x/login-audit", "/api/x/login-audit", h);
    assert |Fold(DefaultConfig.headerName)| == 13;
    assert GetFirst(h, DefaultConfig.headerName).None?;
    LoginAuditIsPublic();
    assert Decide(DefaultConfig, req, verify) == Forward(req);
  }

  /** The name `X-User-Id` is stored as `x-user-id`. */
  lemma FoldedUserIdHeader()
    ensures Fold(UserIdHeader) == "x-user-id"
  {
    var f := Fold(UserIdHeader);
    assert f[0] == 'x' && f[1] == '-' && f[2] == 'u' && f[3] == 's' && f[4] == 'e';
    assert f[5] == 'r' && f[6] == '-' && f[7] == 'i' && f[8] == 'd';
  }

  /** The identity headers identify the caller: distinct user ids (present
      or absent) give distinct `X-User-Id` values, and the roles header can
      be split back into the roles when no role contains a comma. */
  lemma IdentityHeadersAreFaithful(a: Option<int>, b: Option<int>, roles: seq<string>)
    ensures UserIdText(a) == UserIdText(b) ==> a == b
    ensures |roles| > 0 && (forall i :: 0 <= i < |roles| ==> ',' !in roles[i]) ==>
      Split(Join(",", roles), ',') == roles
  {
    if a.Some? && b.Some? {
      IntToStringInjective(a.value, b.value);
    } else if a.Some? {
      assert IntToString(a.value)[0] != 'n';
    } else if b.Some? {
      assert IntToString(b.value)[0] != 'n';
    }
    if |roles| > 0 && (forall i :: 0 <= i < |roles| ==> ',' !in roles[i]) {
      SplitJoin(roles, ',');
    }
  }

  /** Whatever the inputs, the filter ends in one of two ways: the request
      goes on untouched, or it goes on with the identity of a token the
      verifier accepted; or it is refused with 401 and one of three messages. */
  lemma DecisionIsOneOfTheDocumentedOutcomes(cfg: Config, req: Request, verify: Verifier)
    ensures var d := Decide(cfg, req, verify);
      && (d.Forward? ==>
            d.request == req ||
            (Credential(cfg, req).Some? && verify(Credential(cfg, req).value).Verified? &&
             verify(Credential(cfg, req).value).claims.roles.Some? &&
             d.request == WithIdentity(req, verify(Credential(cfg, req).value).claims)))
      && (d.Reject? ==>
            d.status == Unauthorized &&
            d.message in {MissingHeaderMessage, InvalidTokenMessage, InsufficientPermissionsMessage})
  {
  }

  // ---------------------------------------------------------------------
  // Answering 401
  // ---------------------------------------------------------------------

  // The literal pieces of `{"error": "Unauthorized", "message": "%s", "timestamp": "%s"}`.
  const UnauthorizedOpen := "{\"error\": \"Unauthorized\", \"message\": \""
  const UnauthorizedTimestampKey := "\", \"timestamp\": \""
  const UnauthorizedClose := "\"}"

  /** The body `unauthorizedResponse` formats; the strings go in verbatim. */
  function UnauthorizedBody(message: string, timestamp: string): string {
    UnauthorizedOpen + (message + (UnauthorizedTimestampKey + (timestamp + UnauthorizedClose)))
  }

  /** Reads the message and the timestamp back out of such a body. */
  function ParseUnauthorizedBody(body: string): Option<(string, string)> {
    var afterOpen :- StripPrefix(body, UnauthorizedOpen);
    var (message, afterMessage) :- Cut(afterOpen, '"');
    var afterKey :- StripPrefix(afterMessage, UnauthorizedTimestampKey[1..]);
    var timestamp :- StripSuffix(afterKey, UnauthorizedClose);
    Some((message, timestamp))
  }

  /** The body carries the message and the timestamp, recoverable as long as
      the message holds no double quote. */
  lemma UnauthorizedBodyRoundTrip(message: string, timestamp: string)
    requires '"' !in message
    ensures ParseUnauthorizedBody(UnauthorizedBody(message, timestamp)) == Some((message, timestamp))
  {
    var tail := UnauthorizedTimestampKey[1..] + (timestamp + UnauthorizedClose);
    assert UnauthorizedTimestampKey == ['"'] + UnauthorizedTimestampKey[1..];
    assert message + (UnauthorizedTimestampKey + (timestamp + UnauthorizedClose)) == message + ['"'] + tail;
    StripPrefixGlued(UnauthorizedOpen, message + ['"'] + tail);
    CutGlued(message, '"', tail);
    StripPrefixGlued(UnauthorizedTimestampKey[1..], timestamp + UnauthorizedClose);
    StripSuffixGlued(timestamp, UnauthorizedClose);
  }

  /** `unauthorizedResponse`: status 401, a JSON content type added to the
      response's headers, and the body written. */
  method UnauthorizedResponse(resp: Response, message: string, now: string)
    modifies resp
    ensures resp.status == Some(Unauthorized)
    ensures resp.headers == WithAdded(old(resp.headers), ContentType, ApplicationJson)
    ensures resp.body == UnauthorizedBody(message, now) && resp.committed
  {
    resp.SetStatusCode(Unauthorized);
    resp.AddHeader(ContentType, ApplicationJson);
    resp.WriteWith(UnauthorizedBody(message, now));
  }

  /** The filter applied to one exchange: the request to hand down the
      chain, or none after the 401 answer has been written. `now` stands
      for `Instant.now()`. */
  method Apply(cfg: Config, req: Request, resp: Response, verify: Verifier, now: string)
    returns (forwarded: Option<Request>)
    modifies resp
    ensures Decide(cfg, req, verify).Forward? ==>
      forwarded == Some(Decide(cfg, req, verify).request) && unchanged(resp)
    ensures Decide(cfg, req, verify).Reject? ==>
      && forwarded.None?
      && resp.status == Some(Unauthorized)
      && resp.headers == WithAdded(old(resp.headers), ContentType, ApplicationJson)
      && resp.body == UnauthorizedBody(Decide(cfg, req, verify).message, now)
      && resp.committed
  {
    var decision := Decide(cfg, req, verify);
    match decision
    case Forward(r) =>
      forwarded := Some(r);
    case Reject(_, message) =>
      UnauthorizedResponse(resp, message, now);
      forwarded := None;
  }
}
