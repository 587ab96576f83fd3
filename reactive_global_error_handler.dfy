/** The gateway's last-resort error handler: any fault that reaches it is
    turned into a status and a message by a first-match table and written
    as the canonical JSON error envelope, unless the response has already
    been committed, in which case the fault is raised again and nothing is
    written. */
module ReactiveGlobalErrorHandler {
  import opened Wrappers
  import opened Strings
  import opened Http

  /** What the handler's `instanceof` tests can tell about an exception. */
  datatype ExceptionKind =
    | ResponseStatus(statusCode: nat, reason: Option<string>)  // ResponseStatusException or a subclass
    | Connect                                                   // java.net.ConnectException or a subclass
    | Timeout                                                   // java.util.concurrent.TimeoutException or a subclass
    | Other

  /** A thrown exception and the chain of its causes. */
  datatype Fault = Fault(kind: ExceptionKind, cause: Option<Fault>)

  /** Spring's `HttpStatus` enum: the reason phrase of every code it has a
      constant for. `HttpStatus.valueOf` throws for any other code. */
  type StatusTable = map<nat, string>

  /** The status and message chosen for a fault, or the code that
      `HttpStatus.valueOf` could not resolve. */
  datatype Classification = Classified(status: nat, message: string) | UnknownStatus(code: nat)

  /** What `handle` does: re-raise the fault, throw from `valueOf`, or write. */
  datatype Outcome = Rethrown(fault: Fault) | HandlerThrew | Written

  const InternalServerErrorMessage := "Internal Server Error"
  const ServiceUnavailableMessage := "Service temporarily unavailable"
  const TimeoutMessage := "Request timeout"

  /** `ex.getCause() instanceof ConnectException`. */
  predicate CausedByConnect(ex: Fault) {
    ex.cause.Some? && ex.cause.value.kind.Connect?
  }

  /** `ex.getCause() instanceof TimeoutException`. */
  predicate CausedByTimeout(ex: Fault) {
    ex.cause.Some? && ex.cause.value.kind.Timeout?
  }

  /** The fault-to-(status, message) table, first match wins: a status
      exception speaks for itself; then a connection failure as the direct
      cause; then a timeout as the direct cause; anything else is a 500. */
  function Classify(ex: Fault, statuses: StatusTable): Classification {
    match ex.kind
    case ResponseStatus(code, reason) =>
      if code !in statuses then UnknownStatus(code)
      else Classified(code, if reason.Some? then reason.value else statuses[code])
    case _ =>
      if CausedByConnect(ex) then Classified(ServiceUnavailable, ServiceUnavailableMessage)
      else if CausedByTimeout(ex) then Classified(GatewayTimeout, TimeoutMessage)
      else Classified(InternalServerError, InternalServerErrorMessage)
  }

  // ---------------------------------------------------------------------
  // Properties of the table
  // ---------------------------------------------------------------------

  /** A status exception keeps its own status, whatever its cause, with its
      reason as the message or, without one, the status's reason phrase. */
  lemma StatusExceptionKeepsItsStatus(code: nat, reason: Option<string>, cause: Option<Fault>, statuses: StatusTable)
    requires code in statuses
    ensures Classify(Fault(ResponseStatus(code, reason), cause), statuses)
         == Classified(code, if reason.Some? then reason.value else statuses[code])
  {
  }

  /** A status exception whose code `HttpStatus` has no constant for makes
      the handler itself throw. */
  lemma UnknownStatusCodeThrows(code: nat, reason: Option<string>, cause: Option<Fault>, statuses: StatusTable)
    requires code !in statuses
    ensures Classify(Fault(ResponseStatus(code, reason), cause), statuses) == UnknownStatus(code)
  {
  }

  /** Every other fault gets one of three fixed answers, chosen by its
      direct cause alone. */
  lemma OtherFaultsByDirectCause(ex: Fault, statuses: StatusTable)
    requires !ex.kind.ResponseStatus?
    ensures CausedByConnect(ex) ==> Classify(ex, statuses) == Classified(503, "Service temporarily unavailable")
    ensures CausedByTimeout(ex) ==> Classify(ex, statuses) == Classified(504, "Request timeout")
    ensures !CausedByConnect(ex) && !CausedByTimeout(ex) ==>
      Classify(ex, statuses) == Classified(500, "Internal Server Error")
  {
  }

  /** Only the direct cause is looked at: a connection failure thrown
      itself, or buried below the direct cause, is a 500. */
  lemma OnlyDirectCauseCounts(k: ExceptionKind, ck: ExceptionKind, deeper1: Option<Fault>, deeper2: Option<Fault>, statuses: StatusTable)
    ensures Classify(Fault(k, Some(Fault(ck, deeper1))), statuses)
         == Classify(Fault(k, Some(Fault(ck, deeper2))), statuses)
    ensures Classify(Fault(Connect, None), statuses) == Classified(500, "Internal Server Error")
    ensures Classify(Fault(Other, Some(Fault(Other, Some(Fault(Connect, None))))), statuses)
         == Classified(500, "Internal Server Error")
  {
  }

  // ---------------------------------------------------------------------
  // The handler
  // ---------------------------------------------------------------------

  /** `handle` on one exchange. `now` stands for `Instant.now()`; logging is
      not modelled. */
  method Handle(resp: Response, req: Request, ex: Fault, statuses: StatusTable, now: string)
    returns (outcome: Outcome)
    modifies resp
    ensures old(resp.committed) ==> outcome == Rethrown(ex) && unchanged(resp)
    ensures !old(resp.committed) && Classify(ex, statuses).UnknownStatus? ==>
      outcome == HandlerThrew && unchanged(resp)
    ensures !old(resp.committed) && Classify(ex, statuses).Classified? ==>
      var c := Classify(ex, statuses);
      && outcome == Written
      && resp.status == Some(c.status)
      && resp.headers == WithAdded(old(resp.headers), ContentType, ApplicationJson)
      && resp.body == RenderEnvelope(Envelope(c.message, c.status, now, req.uriPath))
      && resp.committed
  {
    if resp.committed {
      return Rethrown(ex);
    }

    var status := InternalServerError;
    var errorMessage := InternalServerErrorMessage;

    if ex.kind.ResponseStatus? {
      if ex.kind.statusCode !in statuses {
        return HandlerThrew;
      }
      status := ex.kind.statusCode;
      errorMessage := if ex.kind.reason.Some? then ex.kind.reason.value else statuses[status];
    } else if CausedByConnect(ex) {
      status := ServiceUnavailable;
      errorMessage := ServiceUnavailableMessage;
    } else if CausedByTimeout(ex) {
      status := GatewayTimeout;
      errorMessage := TimeoutMessage;
    }

    resp.SetStatusCode(status);
    resp.AddHeader(ContentType, ApplicationJson);
    resp.WriteWith(RenderEnvelope(Envelope(errorMessage, status, now, req.uriPath)));
    outcome := Written;
  }

  /** What is written reads back as the chosen status and message with the
      request's URI path, provided the message and the timestamp hold no
      double quote (the fixed messages never do; a status exception's
      reason might). */
  lemma WrittenEnvelopeReadsBack(req: Request, ex: Fault, statuses: StatusTable, now: string)
    requires Classify(ex, statuses).Classified?
    requires '"' !in Classify(ex, statuses).message && '"' !in now
    ensures var c := Classify(ex, statuses);
      ParseEnvelope(RenderEnvelope(Envelope(c.message, c.status, now, req.uriPath)))
        == Some(Envelope(c.message, c.status, now, req.uriPath))
  {
    var c := Classify(ex, statuses);
    EnvelopeRoundTrip(Envelope(c.message, c.status, now, req.uriPath));
  }

  /** A downstream connection refusal reads back as status 503 with the
      message "Service temporarily unavailable". */
  lemma ConnectFailureReadsBackAs503(req: Request, ex: Fault, statuses: StatusTable, now: string)
    requires !ex.kind.ResponseStatus? && CausedByConnect(ex)
    requires '"' !in now
    ensures var c := Classify(ex, statuses);
      ParseEnvelope(RenderEnvelope(Envelope(c.message, c.status, now, req.uriPath)))
        == Some(Envelope("Service temporarily unavailable", 503, now, req.uriPath))
  {
    assert '"' !in ServiceUnavailableMessage;
    EnvelopeRoundTrip(Envelope(ServiceUnavailableMessage, ServiceUnavailable, now, req.uriPath));
  }
}
