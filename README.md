# Request admission in the Muscledia API gateway

This project models the three places in the gateway that decide what
happens to a request:

- **`AuthenticationFilter`** is the gateway filter that Spring Cloud Gateway
  registers. It is modelled in `authentication_filter.dfy`. When the filter
  is enabled, it first classifies the path: a path that contains a
  configured public path as a substring is let through. Otherwise it
  requires the `Authorization` header to start with the token prefix. It
  hands the rest of the header to the token verifier. When a role is
  required, it checks the verified roles. It then forwards the request with
  `X-User-Id`, `X-Username` and `X-User-Roles` set from the claims. Any
  failure is answered with 401 and a small JSON body.
- **`ReactiveJwtAuthenticationFilter`** is a global filter that is written but
  not registered. It is modelled in `reactive_jwt_authentication_filter.dfy`.
  It lets excluded path prefixes through for every method, and public-read
  prefixes through for GET only. It asks the JWT utility to validate the
  token before it reads any claim. It forwards the request with four identity
  headers, each of which falls back to a default value. Refusals carry the
  `{error,status,timestamp,path}` envelope.
- **`ReactiveGlobalErrorHandler`** is the catch-all error handler. It is
  modelled in `reactive_global_error_handler.dfy`. It raises the fault again
  when the response is already committed. Otherwise it maps the fault to a
  status and a message, first match wins, and writes the same envelope.

The decisions of both filters are pure functions (`Decide`). Their inputs
are the configuration, the request and a verifier. The verifier is a
function from token to outcome, so signature and expiry checks stay
abstract. Writing a refusal, and the error handler, change a `Response`
object in place (`Http.Response`). Requests are values: a forwarded request
is a new value. `wrappers.dfy` holds the Option type. `strings.dfy` holds the
Java string and stream operations the decisions use, each with a law that
ties it to an independent description. `http.dfy` holds the header map,
request, response and envelope. Spring's header map ignores case, so a
header map is keyed only by ASCII-folded names: its type requires every
key to be its own folded form. A header value is an
`Option<string>`, because the filter can store a null subject as a header
value.

Three facts about the code that a reader might not expect:

- `AuthenticationFilter` writes its own 401 body,
  `{"error": "Unauthorized", "message": ..., "timestamp": ...}`, with no
  status and no path. The other two classes write the
  `{error,status,timestamp,path}` envelope.
- A verified token without a roles claim is answered "Invalid or expired
  token". The exception from `String.join`
  (`AuthenticationFilter.java:85`) is caught at `:93-96` together with the
  verification errors.
- On a public path, or with the filter disabled, `AuthenticationFilter`
  forwards the caller's own `X-User-Id`, `X-Username` and `X-User-Roles`
  unchanged. Public paths match by substring, so this also holds for a
  path such as `/api/x/login-audit` (`ForgedUserIdPassesOnLoginAudit`).
  The reactive filter does the same on its excluded and public-read paths.

## Model

| member | source | states |
|---|---|---|
| `Strings.StartsWith` | services/muscledia-api-gateway/src/main/java/com/muscledia/api_gateway/filter/ReactiveJwtAuthenticationFilter.java:111-117 | `startsWith`: the string begins with the prefix; used by the path tables and the credential contracts |
| `Strings.Contains` | services/muscledia-api-gateway/src/main/java/com/muscledia/api_gateway/filter/AuthenticationFilter.java:134-135 | `contains`, trying each start position from the left; `ContainsIff` proves it equals "occurs at some index" |
| `Strings.AnyMatch` | services/muscledia-api-gateway/src/main/java/com/muscledia/api_gateway/filter/AuthenticationFilter.java:134-135 | `stream().anyMatch`, trying elements in order; `AnyMatchIff` proves it equals "some element passes" |
| `Strings.ContainsIff` | services/muscledia-api-gateway/src/main/java/com/muscledia/api_gateway/filter/AuthenticationFilter.java:134-135 | `contains` holds exactly when the pattern occurs at some index of the path |
| `Strings.AnyMatchIff` | services/muscledia-api-gateway/src/main/java/com/muscledia/api_gateway/filter/AuthenticationFilter.java:134-135 | `anyMatch` holds exactly when some list element passes the test |
| `Strings.Join` | services/muscledia-api-gateway/src/main/java/com/muscledia/api_gateway/filter/AuthenticationFilter.java:85 | `String.join`; `SplitJoin` proves that splitting recovers the list when the items are free of the separator |
| `Strings.SplitJoin` | services/muscledia-api-gateway/src/main/java/com/muscledia/api_gateway/filter/AuthenticationFilter.java:85 | a non-empty role list joined with "," splits back into the same list when no role contains a comma |
| `Strings.NatToString` | services/muscledia-api-gateway/src/main/java/com/muscledia/api_gateway/exception/ReactiveGlobalErrorHandler.java:54-56 | the `%d` rendering of a status is a non-empty digit string with no leading zero |
| `Strings.IntToString` | services/muscledia-api-gateway/src/main/java/com/muscledia/api_gateway/filter/AuthenticationFilter.java:83 | `String.valueOf` of a user id; `IntToStringRoundTrip` and `IntToStringInjective` prove it parses back and is one-to-one |
| `Strings.IntToStringRoundTrip` | services/muscledia-api-gateway/src/main/java/com/muscledia/api_gateway/filter/AuthenticationFilter.java:83 | the decimal rendering of a user id parses back to the same id |
| `Strings.IntToStringInjective` | services/muscledia-api-gateway/src/main/java/com/muscledia/api_gateway/filter/AuthenticationFilter.java:83 | distinct user ids render as distinct strings |
| `Http.GetFirst` | services/muscledia-api-gateway/src/main/java/com/muscledia/api_gateway/filter/AuthenticationFilter.java:57 | `getFirst` gives the first value stored under the name, or null when there is none |
| `Http.WithHeader` | services/muscledia-api-gateway/src/main/java/com/muscledia/api_gateway/filter/AuthenticationFilter.java:82-86 | the builder's `header` leaves exactly one value under the name and leaves every other name unchanged |
| `Http.WithAdded` | services/muscledia-api-gateway/src/main/java/com/muscledia/api_gateway/filter/AuthenticationFilter.java:141 | `getHeaders().add` appends the value after those already present and leaves every other name unchanged |
| `Http.Response.SetStatusCode` | services/muscledia-api-gateway/src/main/java/com/muscledia/api_gateway/filter/AuthenticationFilter.java:140 | the status becomes the given code; headers, body and committed flag are unchanged |
| `Http.Response.AddHeader` | services/muscledia-api-gateway/src/main/java/com/muscledia/api_gateway/filter/AuthenticationFilter.java:141 | the headers gain the value under the name; the rest is unchanged |
| `Http.Response.WriteWith` | services/muscledia-api-gateway/src/main/java/com/muscledia/api_gateway/filter/AuthenticationFilter.java:149 | the body is written and the response is committed; status and headers are unchanged |
| `Http.RenderEnvelope` | services/muscledia-api-gateway/src/main/java/com/muscledia/api_gateway/exception/ReactiveGlobalErrorHandler.java:53-59 | the unescaped `String.format` of the four envelope fields; `EnvelopeRoundTrip` proves that `ParseEnvelope` reads them back |
| `Http.EnvelopeRoundTrip` | services/muscledia-api-gateway/src/main/java/com/muscledia/api_gateway/exception/ReactiveGlobalErrorHandler.java:53-59 | the rendered `{error,status,timestamp,path}` body reads back as the same four fields when the message and timestamp contain no double quote |
| `AuthenticationFilter.IsPublicEndpoint` | services/muscledia-api-gateway/src/main/java/com/muscledia/api_gateway/filter/AuthenticationFilter.java:129-136 | `isPublicEndpoint`; `IsPublicEndpointIff` proves it holds exactly when skipping is on and some public path occurs as a substring |
| `AuthenticationFilter.DefaultConfig` | services/muscledia-api-gateway/src/main/java/com/muscledia/api_gateway/filter/AuthenticationFilter.java:154-165 | the `Config` defaults: enabled, `Authorization`, `Bearer `, no role required, `USER`, skipping on, seven public paths; `LoginAuditIsPublic` and `ForgedUserIdPassesOnLoginAudit` use them |
| `AuthenticationFilter.IsPublicEndpointIff` | services/muscledia-api-gateway/src/main/java/com/muscledia/api_gateway/filter/AuthenticationFilter.java:129-136 | a path is public exactly when skipping is on and some public path occurs in it as a substring |
| `AuthenticationFilter.LoginAuditIsPublic` | services/muscledia-api-gateway/src/main/java/com/muscledia/api_gateway/filter/AuthenticationFilter.java:163-165 | under the default list, `/api/x/login-audit` is public although it does not start with `/login` |
| `AuthenticationFilter.Credential` | services/muscledia-api-gateway/src/main/java/com/muscledia/api_gateway/filter/AuthenticationFilter.java:57-64 | a token exists exactly when the header is present and starts with the prefix; header == prefix + token |
| `AuthenticationFilter.Decide` | services/muscledia-api-gateway/src/main/java/com/muscledia/api_gateway/filter/AuthenticationFilter.java:36-97 | the `apply` guard chain; its outcomes are stated by the lemmas below, from `DisabledForwardsUnchanged` to `DecisionIsOneOfTheDocumentedOutcomes` |
| `AuthenticationFilter.UserIdText` | services/muscledia-api-gateway/src/main/java/com/muscledia/api_gateway/filter/AuthenticationFilter.java:83 | `String.valueOf` of the `userId` claim, `"null"` when it is missing; `IdentityHeadersAreFaithful` proves it one-to-one |
| `AuthenticationFilter.WithIdentity` | services/muscledia-api-gateway/src/main/java/com/muscledia/api_gateway/filter/AuthenticationFilter.java:82-86 | the `mutate().header` rewrite; `AuthenticatedForwardCarriesIdentity` states the three headers it sets and that nothing else changes |
| `AuthenticationFilter.DisabledForwardsUnchanged` | services/muscledia-api-gateway/src/main/java/com/muscledia/api_gateway/filter/AuthenticationFilter.java:41-44 | a disabled filter forwards every request unchanged |
| `AuthenticationFilter.PublicPathForwardsUnchanged` | services/muscledia-api-gateway/src/main/java/com/muscledia/api_gateway/filter/AuthenticationFilter.java:51-55 | a public path is forwarded unchanged for any method, any headers and any verifier |
| `AuthenticationFilter.MissingHeaderRejected` | services/muscledia-api-gateway/src/main/java/com/muscledia/api_gateway/filter/AuthenticationFilter.java:57-62 | on a protected path, a missing or unprefixed header gives 401 "Missing or invalid Authorization header" |
| `AuthenticationFilter.VerifierSeesOnlyStrippedToken` | services/muscledia-api-gateway/src/main/java/com/muscledia/api_gateway/filter/AuthenticationFilter.java:64-67 | the decision depends on the verifier only through its answer for the header minus `tokenPrefix.length()` characters |
| `AuthenticationFilter.InvalidTokenRejected` | services/muscledia-api-gateway/src/main/java/com/muscledia/api_gateway/filter/AuthenticationFilter.java:66-96 | a token the verifier refuses gives 401 "Invalid or expired token" |
| `AuthenticationFilter.MissingRoleRejected` | services/muscledia-api-gateway/src/main/java/com/muscledia/api_gateway/filter/AuthenticationFilter.java:71-77 | with a required role, verified claims without a roles list or without the role give 401 "Insufficient permissions" |
| `AuthenticationFilter.MissingRolesClaimFailsClosed` | services/muscledia-api-gateway/src/main/java/com/muscledia/api_gateway/filter/AuthenticationFilter.java:85-96 | without a roles claim, when no role is required, the request gets 401 "Invalid or expired token" and is not forwarded |
| `AuthenticationFilter.AuthenticatedForwardCarriesIdentity` | services/muscledia-api-gateway/src/main/java/com/muscledia/api_gateway/filter/AuthenticationFilter.java:82-91 | on success, each of the three identity headers holds exactly one value projected from the claims, and every other header is unchanged |
| `AuthenticationFilter.ProtectedForwardNeedsVerifiedToken` | services/muscledia-api-gateway/src/main/java/com/muscledia/api_gateway/filter/AuthenticationFilter.java:57-91 | on a protected path, a forward implies an accepted token whose claims hold a roles list (with the required role when one is required), and the forwarded request carries that identity |
| `AuthenticationFilter.UnauthenticatedForwardKeepsCallerIdentityHeaders` | services/muscledia-api-gateway/src/main/java/com/muscledia/api_gateway/filter/AuthenticationFilter.java:41-55 | with the filter disabled or on a public path, the request is forwarded with the caller's own values under the three identity header names |
| `AuthenticationFilter.ForgedUserIdPassesOnLoginAudit` | services/muscledia-api-gateway/src/main/java/com/muscledia/api_gateway/filter/AuthenticationFilter.java:51-55 | under the default configuration, a tokenless request to `/api/x/login-audit` with a forged `X-User-Id: 999` is forwarded with that header |
| `AuthenticationFilter.IdentityHeadersAreFaithful` | services/muscledia-api-gateway/src/main/java/com/muscledia/api_gateway/filter/AuthenticationFilter.java:83-85 | distinct user ids, present or null, give distinct `X-User-Id` values; `X-User-Roles` splits back into the roles when the list is non-empty and no role contains a comma |
| `AuthenticationFilter.DecisionIsOneOfTheDocumentedOutcomes` | services/muscledia-api-gateway/src/main/java/com/muscledia/api_gateway/filter/AuthenticationFilter.java:36-97 | a forward is either the unchanged request or the request with the identity from an accepted token; every refusal is 401 with one of the three messages |
| `AuthenticationFilter.UnauthorizedBody` | services/muscledia-api-gateway/src/main/java/com/muscledia/api_gateway/filter/AuthenticationFilter.java:143-146 | the 401 body format; `UnauthorizedBodyRoundTrip` proves that `ParseUnauthorizedBody` reads the message and timestamp back |
| `AuthenticationFilter.UnauthorizedBodyRoundTrip` | services/muscledia-api-gateway/src/main/java/com/muscledia/api_gateway/filter/AuthenticationFilter.java:143-146 | the 401 body starts with `{"error": "Unauthorized"`, and its message and timestamp read back when the message contains no double quote |
| `AuthenticationFilter.UnauthorizedResponse` | services/muscledia-api-gateway/src/main/java/com/muscledia/api_gateway/filter/AuthenticationFilter.java:138-150 | the status becomes 401, Content-Type application/json is added, the body is written and the response is committed |
| `AuthenticationFilter.Apply` | services/muscledia-api-gateway/src/main/java/com/muscledia/api_gateway/filter/AuthenticationFilter.java:36-97 | a forward hands on the decided request and leaves the response untouched; a refusal writes the 401 response with the decided message |
| `ReactiveJwtAuthenticationFilter.IsExcludedPath` | services/muscledia-api-gateway/src/main/java/com/muscledia/api_gateway/filter/ReactiveJwtAuthenticationFilter.java:111-113 | `isExcludedPath`; `IsExcludedPathIff` proves it equals "some entry is a prefix" |
| `ReactiveJwtAuthenticationFilter.IsPublicReadPath` | services/muscledia-api-gateway/src/main/java/com/muscledia/api_gateway/filter/ReactiveJwtAuthenticationFilter.java:115-117 | `isPublicReadPath`; `IsPublicReadPathIff` proves it equals "some entry is a prefix" |
| `ReactiveJwtAuthenticationFilter.IsExcludedPathIff` | services/muscledia-api-gateway/src/main/java/com/muscledia/api_gateway/filter/ReactiveJwtAuthenticationFilter.java:111-113 | a path is excluded exactly when some `EXCLUDED_PATHS` entry is a prefix of it |
| `ReactiveJwtAuthenticationFilter.IsPublicReadPathIff` | services/muscledia-api-gateway/src/main/java/com/muscledia/api_gateway/filter/ReactiveJwtAuthenticationFilter.java:115-117 | a path is public-read exactly when some `PUBLIC_READ_PATHS` entry is a prefix of it |
| `ReactiveJwtAuthenticationFilter.GamificationEntryIsLiteral` | services/muscledia-api-gateway/src/main/java/com/muscledia/api_gateway/filter/ReactiveJwtAuthenticationFilter.java:42-48 | the gamification entry's two stars are not a wildcard: `/api/gamification/points` is not public-read, but a path that literally continues with the two stars is |
| `ReactiveJwtAuthenticationFilter.Credential` | services/muscledia-api-gateway/src/main/java/com/muscledia/api_gateway/filter/ReactiveJwtAuthenticationFilter.java:73-80 | a token exists exactly when the header is present and starts with the prefix; header == prefix + token |
| `ReactiveJwtAuthenticationFilter.Decide` | services/muscledia-api-gateway/src/main/java/com/muscledia/api_gateway/filter/ReactiveJwtAuthenticationFilter.java:51-109 | the early returns of `filter`; their outcomes are stated by the lemmas below, from `ExcludedPathForwardsUnchanged` to `DecisionIsOneOfTheDocumentedOutcomes` |
| `ReactiveJwtAuthenticationFilter.WithIdentity` | services/muscledia-api-gateway/src/main/java/com/muscledia/api_gateway/filter/ReactiveJwtAuthenticationFilter.java:96-101 | the four-header rewrite with defaults; `IdentityHeadersSet` states it |
| `ReactiveJwtAuthenticationFilter.IdentityHeadersSet` | services/muscledia-api-gateway/src/main/java/com/muscledia/api_gateway/filter/ReactiveJwtAuthenticationFilter.java:96-101 | each of the four identity headers holds exactly one value (the claim, or "0", "anonymous", "USER", and "gateway"); method, paths and every other header are unchanged |
| `ReactiveJwtAuthenticationFilter.ExcludedPathForwardsUnchanged` | services/muscledia-api-gateway/src/main/java/com/muscledia/api_gateway/filter/ReactiveJwtAuthenticationFilter.java:61-64 | an excluded path is forwarded unchanged for every method, header set and JWT utility |
| `ReactiveJwtAuthenticationFilter.PublicReadBypassIsGetOnly` | services/muscledia-api-gateway/src/main/java/com/muscledia/api_gateway/filter/ReactiveJwtAuthenticationFilter.java:66-70 | a GET on a public-read path is forwarded unchanged; with another method, a request with no credential gets 401, and a forward implies a token that validated |
| `ReactiveJwtAuthenticationFilter.MissingHeaderRejected` | services/muscledia-api-gateway/src/main/java/com/muscledia/api_gateway/filter/ReactiveJwtAuthenticationFilter.java:73-78 | outside the two bypasses, a missing or unprefixed header gives 401 "Missing or invalid Authorization header" |
| `ReactiveJwtAuthenticationFilter.TokenFailuresRejected` | services/muscledia-api-gateway/src/main/java/com/muscledia/api_gateway/filter/ReactiveJwtAuthenticationFilter.java:82-108 | an invalid token gives 401 "Invalid or expired JWT token"; a throwing validation or extraction gives 401 "JWT token processing error" |
| `ReactiveJwtAuthenticationFilter.ProtectedForwardNeedsValidToken` | services/muscledia-api-gateway/src/main/java/com/muscledia/api_gateway/filter/ReactiveJwtAuthenticationFilter.java:73-103 | outside the two bypasses, a forward implies a token that validated and extracted claims, and the forwarded request carries their identity |
| `ReactiveJwtAuthenticationFilter.NoExtractionBeforeValidation` | services/muscledia-api-gateway/src/main/java/com/muscledia/api_gateway/filter/ReactiveJwtAuthenticationFilter.java:82-91 | when the token did not validate, replacing claim extraction with any other changes nothing |
| `ReactiveJwtAuthenticationFilter.AuthenticatedForwardCarriesIdentity` | services/muscledia-api-gateway/src/main/java/com/muscledia/api_gateway/filter/ReactiveJwtAuthenticationFilter.java:96-103 | on success, each of the four identity headers holds exactly one non-null value (defaults "0", "anonymous", "USER", and "gateway"), and every other header is unchanged |
| `ReactiveJwtAuthenticationFilter.DecisionIsOneOfTheDocumentedOutcomes` | services/muscledia-api-gateway/src/main/java/com/muscledia/api_gateway/filter/ReactiveJwtAuthenticationFilter.java:51-109 | every refusal is 401 with one of three messages; a changed forward carries the identity extracted from a validated token |
| `ReactiveJwtAuthenticationFilter.OnError` | services/muscledia-api-gateway/src/main/java/com/muscledia/api_gateway/filter/ReactiveJwtAuthenticationFilter.java:119-133 | the status becomes the given one, Content-Type application/json is added, and the envelope with that status and the request's URI path is written |
| `ReactiveJwtAuthenticationFilter.Filter` | services/muscledia-api-gateway/src/main/java/com/muscledia/api_gateway/filter/ReactiveJwtAuthenticationFilter.java:51-109 | a forward hands on the decided request and leaves the response untouched; a refusal is written by `OnError` with the decided status and message |
| `ReactiveJwtAuthenticationFilter.RefusalBodyReadsBack` | services/muscledia-api-gateway/src/main/java/com/muscledia/api_gateway/filter/ReactiveJwtAuthenticationFilter.java:124-130 | every refusal body reads back with status 401, the message sent and the request's URI path |
| `ReactiveGlobalErrorHandler.Classify` | services/muscledia-api-gateway/src/main/java/com/muscledia/api_gateway/exception/ReactiveGlobalErrorHandler.java:35-48 | the first-match status table; the three lemmas below state its outcome for each kind of fault |
| `ReactiveGlobalErrorHandler.StatusExceptionKeepsItsStatus` | services/muscledia-api-gateway/src/main/java/com/muscledia/api_gateway/exception/ReactiveGlobalErrorHandler.java:38-41 | a status exception keeps its own status whatever its cause, with its reason, or else the status's reason phrase, as the message |
| `ReactiveGlobalErrorHandler.UnknownStatusCodeThrows` | services/muscledia-api-gateway/src/main/java/com/muscledia/api_gateway/exception/ReactiveGlobalErrorHandler.java:40 | a status code that `HttpStatus` has no constant for makes the handler throw |
| `ReactiveGlobalErrorHandler.OtherFaultsByDirectCause` | services/muscledia-api-gateway/src/main/java/com/muscledia/api_gateway/exception/ReactiveGlobalErrorHandler.java:35-48 | for any other fault: a connect cause gives 503 "Service temporarily unavailable", a timeout cause gives 504 "Request timeout", anything else gives 500 "Internal Server Error" |
| `ReactiveGlobalErrorHandler.OnlyDirectCauseCounts` | services/muscledia-api-gateway/src/main/java/com/muscledia/api_gateway/exception/ReactiveGlobalErrorHandler.java:42-48 | only `getCause()` is inspected: deeper causes do not matter, and a ConnectException that is itself the fault gives 500 |
| `ReactiveGlobalErrorHandler.Handle` | services/muscledia-api-gateway/src/main/java/com/muscledia/api_gateway/exception/ReactiveGlobalErrorHandler.java:25-63 | a committed response makes the handler raise the fault again and leaves the response untouched; an unknown status leaves it untouched; otherwise the classified status, the JSON content type and the envelope are written and the response is committed |
| `ReactiveGlobalErrorHandler.WrittenEnvelopeReadsBack` | services/muscledia-api-gateway/src/main/java/com/muscledia/api_gateway/exception/ReactiveGlobalErrorHandler.java:50-62 | the written body's status field equals the status set, and its path field equals the request's URI path |
| `ReactiveGlobalErrorHandler.ConnectFailureReadsBackAs503` | services/muscledia-api-gateway/src/main/java/com/muscledia/api_gateway/exception/ReactiveGlobalErrorHandler.java:42-59 | a connection refusal reads back as status 503 with "Service temporarily unavailable" |

## Left out

- Token verification is not modelled: JWT parsing, the HMAC key, and the signature and expiry checks (`validateToken` at services/muscledia-api-gateway/src/main/java/com/muscledia/api_gateway/filter/AuthenticationFilter.java:100-127, and `JwtUtil`). Both filters take the verifier as a function from token to outcome. `JwtUtil` is not part of this model.
- The `validateExpiration` flag is left out because nothing reads it.
- Logging is left out, including the log line that prints the start of the secret.
- Reactor plumbing is left out: `Mono`, `chain.filter` and the transport behind `writeWith`. A forward is the returned request. A write sets the body and commits the response.
- `Instant.now()` is the parameter `now`.
- The bodies are built by plain concatenation, without JSON escaping, as the source does. The round-trip lemmas require a message and timestamp without double quotes. The model does not claim the bodies are valid JSON.
- Spring's `@Value` injection is left out. The header name and token prefix are parameters. In the reactive filter, the prefix placeholder `"$jwt.prefix}"` has no `${`, so Spring would inject that literal text. The model does not fix the prefix to that value.
- The filter order (`getOrder`, `@Order`) is a framework ordering hint and is left out.
- `ReactiveSecurityConfig`, `FallbackController` and `HealthController` are not part of this model. They are framework wiring and static responses.
- Header names are matched with ASCII case folding only. Spring folds with the locale's lower-case rules.
- `Http.Response`: Spring ignores a status change on a committed response and makes its headers read-only. The model does not capture this. Only the error handler checks `committed`, and it does so explicitly. The filters run before anything is written.
- `AuthenticationFilter.Claims`: roles are a list of non-null strings, and the user id is an integer. A roles claim that is not a list (a `ClassCastException`), null list entries, and a non-numeric user id claim are not modelled.
- `ReactiveJwtAuthenticationFilter.Extraction`: the three extractor calls are merged into one outcome. An exception from any of them has the same effect.
- `Strings.NatToString`: the `%d` status field of the envelope is modelled as ASCII digits. `String.format` writes the digits of the JVM's default locale, so `EnvelopeRoundTrip`, `WrittenEnvelopeReadsBack`, `ConnectFailureReadsBackAs503` and `RefusalBodyReadsBack` describe the body only under a locale whose zero digit is `'0'`.
- Response bodies are character strings. The byte encoding of `getBytes()` is not modelled.
- The raw path (`getPath()`) and the decoded path (`getURI().getPath()`) are both inputs. The model does not relate the two, so it does not capture decoding.
