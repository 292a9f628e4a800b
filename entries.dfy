/**
 * The structured records the middleware hands to the logging transport: the
 * payload of a log call, the call-site span, and the entry itself (with the
 * HTTP block that only parent entries carry).
 */
module Entries {
  import opened Wrappers
  import opened Severities

  /**
   * What a log call was given: plain text, a Go `error` (of which only its
   * message text is kept), or any other value, which the model treats as opaque.
   */
  datatype Payload =
    | Text(text: string)
    | ErrorValue(message: string)
    | Opaque(id: nat)

  /** An `error` payload is replaced by its message text; every other payload passes through. */
  function Normalize(p: Payload): (r: Payload)
    ensures !r.ErrorValue?
    ensures p.ErrorValue? ==> r == Text(p.message)
    ensures !p.ErrorValue? ==> r == p
  {
    match p
    case ErrorValue(m) => Text(m)
    case _ => p
  }

  /** The span identifier and sampled flag found in the caller's context. */
  datatype SpanContext = SpanContext(spanID: string, sampled: bool)

  /** The HTTP metadata block of a parent entry. */
  datatype HttpInfo = HttpInfo(
    requestMethod: string,
    url: string,
    requestSize: int,
    latency: int,
    status: int,
    responseSize: int,
    remoteIP: string)

  /**
   * One entry sent to a sink. `timestamp` is `None` when the entry leaves it
   * unset (the client library then stamps it); `http` is `None` on child entries.
   */
  datatype LogEntry = LogEntry(
    timestamp: Option<int>,
    severity: Severity,
    payload: Payload,
    trace: string,
    spanID: string,
    traceSampled: bool,
    http: Option<HttpInfo>)

  /** The child entry that one log call forwards. */
  function ChildEntry(traceID: string, span: SpanContext, severity: Severity, p: Payload): (e: LogEntry)
    ensures e.severity == severity && e.payload == Normalize(p) && !e.payload.ErrorValue?
    ensures e.trace == traceID && e.spanID == span.spanID && e.traceSampled == span.sampled
    ensures e.timestamp.None? && e.http.None?
  {
    LogEntry(None, severity, Normalize(p), traceID, span.spanID, span.sampled, None)
  }

  /** The severities of a sequence of entries, in order. */
  function SeveritiesOf(es: seq<LogEntry>): (r: seq<Severity>)
    ensures |r| == |es|
    ensures forall i :: 0 <= i < |es| ==> r[i] == es[i].severity
  {
    if es == [] then [] else SeveritiesOf(es[..|es| - 1]) + [es[|es| - 1].severity]
  }

  lemma SeveritiesOfAppend(es: seq<LogEntry>, e: LogEntry)
    ensures SeveritiesOf(es + [e]) == SeveritiesOf(es) + [e.severity]
  {
    assert (es + [e])[..|es|] == es;
  }
}
