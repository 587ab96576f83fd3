/** The slice of Spring's reactive HTTP types the gateway's filters and its
    error handler touch: case-insensitive header maps, the inbound request
    as a value, the outbound response as an object updated in place, the
    decision a filter reaches, and the JSON error envelope shared by the
    JWT filter and the global error handler. */
module Http {
  import opened Wrappers
  import opened Strings

  // ---------------------------------------------------------------------
  // Status codes and header constants used by the gateway
  // ---------------------------------------------------------------------

  const Unauthorized: nat := 401
  const InternalServerError: nat := 500
  const ServiceUnavailable: nat := 503
  const GatewayTimeout: nat := 504

  const ContentType := "Content-Type"
  /** `MediaType.APPLICATION_JSON_VALUE`. */
  const ApplicationJson := "application/json"

  // ---------------------------------------------------------------------
  // Headers
  // ---------------------------------------------------------------------

  /** A header value as Java holds it: a `String` reference, possibly null. */
  type HeaderValue = Option<string>

  /** Spring's `HttpHeaders`: names match regardless of ASCII case, so the
      map is keyed by the folded name only; each name holds its values in
      order. */
  type Headers = h: map<string, seq<HeaderValue>> | forall k :: k in h ==> Fold(k) == k
    witness map[]

  /** Every value stored under `name`, first to last. */
  function Values(h: Headers, name: string): seq<HeaderValue> {
    if Fold(name) in h then h[Fold(name)] else []
  }

  /** Every stored entry is what its name, in any spelling, looks up. */
  lemma ValuesReachEveryEntry(h: Headers, k: string)
    requires k in h
    ensures Values(h, k) == h[k]
  {
  }

  /** `HttpHeaders.getFirst(name)`: null when the name is absent. */
  function GetFirst(h: Headers, name: string): (v: HeaderValue)
    ensures v.Some? ==> |Values(h, name)| > 0 && v == Values(h, name)[0]
    ensures v.None? ==> |Values(h, name)| == 0 || Values(h, name)[0].None?
  {
    var vs := Values(h, name);
    if |vs| == 0 then None else vs[0]
  }

  /** `ServerHttpRequest.Builder.header(name, value)`: the value replaces
      whatever the name held, and no other name is touched. */
  function WithHeader(h: Headers, name: string, v: HeaderValue): (h': Headers)
    ensures Values(h', name) == [v]
    ensures forall n :: Fold(n) != Fold(name) ==> Values(h', n) == Values(h, n)
    ensures h'.Keys == h.Keys + {Fold(name)}
  {
    FoldIdempotent(name);
    h[Fold(name) := [v]]
  }

  /** `HttpHeaders.add(name, value)`: the value is appended after those
      already present, and no other name is touched. */
  function WithAdded(h: Headers, name: string, v: string): (h': Headers)
    ensures Values(h', name) == Values(h, name) + [Some(v)]
    ensures forall n :: Fold(n) != Fold(name) ==> Values(h', n) == Values(h, n)
    ensures h'.Keys == h.Keys + {Fold(name)}
  {
    FoldIdempotent(name);
    h[Fold(name) := Values(h, name) + [Some(v)]]
  }

  // ---------------------------------------------------------------------
  // Requests, responses, decisions
  // ---------------------------------------------------------------------

  /** An inbound request. `path` is `getPath().toString()` (the raw path as
      received); `uriPath` is `getURI().getPath()` (percent-decoded). */
  datatype Request = Request(httpMethod: string, path: string, uriPath: string, headers: Headers)

  /** What a filter does with a request: hand a (possibly rewritten) request
      down the chain, or answer it itself with a status and a message. */
  datatype Decision = Forward(request: Request) | Reject(status: nat, message: string)

  /** The response of one exchange, changed in place by whoever answers. */
  class Response {
    var status: Option<nat>
    var headers: Headers
    var body: string
    var committed: bool

    constructor ()
      ensures status == None && headers == map[] && body == "" && !committed
    {
      status := None;
      headers := map[];
      body := "";
      committed := false;
    }

    /** `setStatusCode`. */
    method SetStatusCode(code: nat)
      modifies this
      ensures status == Some(code)
      ensures headers == old(headers) && body == old(body) && committed == old(committed)
    {
      status := Some(code);
    }

    /** `getHeaders().add(name, value)`. */
    method AddHeader(name: string, value: string)
      modifies this
      ensures headers == WithAdded(old(headers), name, value)
      ensures status == old(status) && body == old(body) && committed == old(committed)
    {
      headers := WithAdded(headers, name, value);
    }

    /** `writeWith`: the body goes out and the response is committed. */
    method WriteWith(b: string)
      modifies this
      ensures body == b && committed
      ensures status == old(status) && headers == old(headers)
    {
      body := b;
      committed := true;
    }
  }

  // ---------------------------------------------------------------------
  // The JSON error envelope
  // ---------------------------------------------------------------------

  /** The fields of `{"error":..,"status":..,"timestamp":..,"path":..}`. */
  datatype Envelope = Envelope(error: string, status: nat, timestamp: string, path: string)

  // The literal pieces of the format string
  // `{"error":"%s","status":%d,"timestamp":"%s","path":"%s"}`.
  const OpenError := "{\"error\":\""
  const StatusKey := "\",\"status\":"
  const TimestampKey := ",\"timestamp\":\""
  const PathKey := "\",\"path\":\""
  const Close := "\"}"

  /** The body `String.format` builds from the envelope: the strings are
      inserted verbatim, without JSON escaping. */
  function RenderEnvelope(e: Envelope): string {
    OpenError + (e.error + (StatusKey + (NatToString(e.status)
    + (TimestampKey + (e.timestamp + (PathKey + (e.path + Close)))))))
  }

  /** Reads the four fields back out of a rendered envelope. */
  function ParseEnvelope(body: string): Option<Envelope> {
    var afterOpen :- StripPrefix(body, OpenError);
    var (error, afterError) :- Cut(afterOpen, '"');
    var afterStatusKey :- StripPrefix(afterError, StatusKey[1..]);
    var (digits, afterStatus) :- Cut(afterStatusKey, ',');
    if !IsDigits(digits) then None
    else
      var afterTimestampKey :- StripPrefix(afterStatus, TimestampKey[1..]);
      var (timestamp, afterTimestamp) :- Cut(afterTimestampKey, '"');
      var afterPathKey :- StripPrefix(afterTimestamp, PathKey[1..]);
      var path :- StripSuffix(afterPathKey, Close);
      Some(Envelope(error, DigitsValue(digits), timestamp, path))
  }

  /** A rendered envelope reads back as the same four fields, provided the
      message and the timestamp hold no double quote (the path may hold
      anything, since it comes last). */
  lemma EnvelopeRoundTrip(e: Envelope)
    requires '"' !in e.error && '"' !in e.timestamp
    ensures ParseEnvelope(RenderEnvelope(e)) == Some(e)
  {
    var digits := NatToString(e.status);
    var tail4 := PathKey[1..] + (e.path + Close);
    var tail3 := e.timestamp + ['"'] + tail4;
    var tail2 := TimestampKey[1..] + tail3;
    var tail1 := StatusKey[1..] + (digits + [','] + tail2);
    var afterOpen := e.error + ['"'] + tail1;

    assert PathKey == ['"'] + PathKey[1..];
    assert e.timestamp + (PathKey + (e.path + Close)) == tail3;
    assert TimestampKey == [','] + TimestampKey[1..];
    assert digits + (TimestampKey + tail3) == digits + [','] + tail2;
    assert StatusKey == ['"'] + StatusKey[1..];
    assert e.error + (StatusKey + (digits + (TimestampKey + tail3))) == afterOpen;
    assert RenderEnvelope(e) == OpenError + afterOpen;

    StripPrefixGlued(OpenError, afterOpen);
    CutGlued(e.error, '"', tail1);
    StripPrefixGlued(StatusKey[1..], digits + [','] + tail2);
    assert ',' !in digits;
    CutGlued(digits, ',', tail2);
    NatToStringRoundTrip(e.status);
    StripPrefixGlued(TimestampKey[1..], tail3);
    CutGlued(e.timestamp, '"', tail4);
    StripPrefixGlued(PathKey[1..], e.path + Close);
    StripSuffixGlued(e.path, Close);
  }
}
