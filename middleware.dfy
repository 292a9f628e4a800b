/**
 * The request middleware shared by the exporter design (`Middleware` of
 * `GoogleCloudExporter`) and the build-tag design (`gcpHandler.ServeHTTP`):
 * resolve the trace, install a fresh per-request logger in the request
 * context, run the inner handler behind a response observer, then read the
 * logger's (maximum severity, count) pair and either stay silent or emit one
 * parent entry whose severity is escalated to Error for failed responses.
 *
 * The inner handler is modelled by the effects it has on the two objects the
 * middleware gives it: a script of log calls, `WriteHeader` calls and `Write`
 * calls, replayed in order.
 */
module Middleware {
  import opened Wrappers
  import opened Severities
  import opened Entries
  import opened Aggregator
  import opened Carrier
  import opened Trace
  import opened ContentLength
  import opened Observer

  /** The per-middleware configuration: the project of the trace names and the `logAll` switch. */
  datatype Config = Config(projectID: string, logAll: bool)

  /** `NewRequestLogger`: a handler that emits a parent entry for every request. */
  function NewRequestLogger(projectID: string): (c: Config)
    ensures c.projectID == projectID && c.logAll
  {
    Config(projectID, true)
  }

  /** `NewLogger`: a handler that emits a parent entry only for requests that logged something. */
  function NewLogger(projectID: string): (c: Config)
    ensures c.projectID == projectID && !c.logAll
  {
    Config(projectID, false)
  }

  const ParentMessage := "Parent Log Entry"

  /** Wall-clock readings, which the model takes as inputs: the start time and the latency. */
  datatype Clock = Clock(begin: int, latency: int)

  /** One effect of the inner handler on the logger or on the response writer. */
  datatype Action =
    | LogCall(span: SpanContext, severity: Severity, payload: Payload)
    | SetHeader(status: int)
    | WriteBody(data: seq<bv8>, n: int, failure: Option<string>)

  /**
   * The parent entry's severity: a response status above 399 raises it to
   * Error; otherwise it is the aggregated maximum. It never goes down.
   */
  function Escalate(max: Severity, status: int): (r: Severity)
    ensures Code(max) <= Code(r)
    ensures r == max || r == Error
    ensures status > 399 ==> Code(Error) <= Code(r)
    ensures status <= 399 ==> r == max
  {
    if status > 399 && Below(max, Error) then Error else max
  }

  // ---- The effect of a script, one function per piece of state ----

  /** The child entries the logger forwards while the script runs. */
  function ChildEntries(traceID: string, script: seq<Action>): seq<LogEntry>
  {
    if script == [] then []
    else
      var prev := ChildEntries(traceID, script[..|script| - 1]);
      match script[|script| - 1]
      case LogCall(span, sev, p) => prev + [ChildEntry(traceID, span, sev, p)]
      case _ => prev
  }

  /** The observer's stored status after the script (0 if nothing set it). */
  function StoredStatus(script: seq<Action>): int
  {
    if script == [] then 0
    else
      var prev := StoredStatus(script[..|script| - 1]);
      match script[|script| - 1]
      case SetHeader(s) => s
      case WriteBody(_, _, _) => if prev == 0 then 200 else prev
      case LogCall(_, _, _) => prev
  }

  /** The observer's byte count after the script. */
  function BytesWritten(script: seq<Action>): int
  {
    if script == [] then 0
    else
      var prev := BytesWritten(script[..|script| - 1]);
      match script[|script| - 1]
      case WriteBody(_, n, _) => prev + n
      case _ => prev
  }

  /** The severities of the log calls in the script, in order. */
  function LoggedSeverities(script: seq<Action>): seq<Severity>
  {
    if script == [] then []
    else if script[0].LogCall? then [script[0].severity] + LoggedSeverities(script[1..])
    else LoggedSeverities(script[1..])
  }

  /** The number of log calls in the script. */
  function LogCallCount(script: seq<Action>): nat
  {
    if script == [] then 0
    else (if script[0].LogCall? then 1 else 0) + LogCallCount(script[1..])
  }

  /** The parent entry built from the request and the state read after the handler returned. */
  function ParentRecord(r: Request, traceID: string, span: SpanContext, clock: Clock, severity: Severity, status: int, length: int): (e: LogEntry)
    ensures e.severity == severity && e.payload == Text(ParentMessage) && e.trace == traceID
    ensures e.timestamp == Some(clock.begin) && e.spanID == span.spanID && e.traceSampled == span.sampled
    ensures e.http.Some? && e.http.value.status == status && e.http.value.responseSize == length
    ensures e.http.value.requestMethod == r.requestMethod && e.http.value.url == r.url
    ensures e.http.value.requestSize == RequestSize(HeaderGet(r.header, "Content-Length"))
    ensures MinInt64 <= e.http.value.requestSize <= MaxInt64
    ensures e.http.value.latency == clock.latency
    ensures e.http.value.remoteIP == HeaderGet(r.header, "X-Forwarded-For")
  {
    LogEntry(
      Some(clock.begin),
      severity,
      Text(ParentMessage),
      traceID,
      span.spanID,
      span.sampled,
      Some(HttpInfo(
        r.requestMethod,
        r.url,
        RequestSize(HeaderGet(r.header, "Content-Length")),
        clock.latency,
        status,
        length,
        HeaderGet(r.header, "X-Forwarded-For"))))
  }

  /**
   * What one request produces on the parent sink: nothing when `logAll` is
   * off and no child was logged, otherwise the parent entry.
   */
  function Outcome(cfg: Config, r: Request, src: TraceSources, span: SpanContext, clock: Clock, script: seq<Action>): (o: Option<LogEntry>)
    ensures o.None? <==> !cfg.logAll && |ChildEntries(TraceIDFromRequest(cfg.projectID, src), script)| == 0
    ensures o.Some? ==> o.value.trace == TraceIDFromRequest(cfg.projectID, src)
    ensures o.Some? ==> o.value.http.Some? && o.value.http.value.status != 0
  {
    var traceID := TraceIDFromRequest(cfg.projectID, src);
    var children := ChildEntries(traceID, script);
    var status := ReportedStatus(StoredStatus(script));
    if !cfg.logAll && |children| == 0 then None
    else Some(ParentRecord(r, traceID, span, clock, Escalate(Highest(SeveritiesOf(children)), status), status, BytesWritten(script)))
  }

  /** Running one more action of the script changes each piece of state as that action does. */
  lemma ReplayStep(traceID: string, script: seq<Action>, i: nat)
    requires i < |script|
    ensures ChildEntries(traceID, script[..i + 1])
            == ChildEntries(traceID, script[..i])
               + (if script[i].LogCall? then [ChildEntry(traceID, script[i].span, script[i].severity, script[i].payload)] else [])
    ensures StoredStatus(script[..i + 1])
            == match script[i]
               case SetHeader(s) => s
               case WriteBody(_, _, _) => ReportedStatus(StoredStatus(script[..i]))
               case LogCall(_, _, _) => StoredStatus(script[..i])
    ensures BytesWritten(script[..i + 1])
            == BytesWritten(script[..i]) + (if script[i].WriteBody? then script[i].n else 0)
  {
    assert script[..i + 1][..i] == script[..i];
  }

  /** Runs the inner handler's effects, in order, against the logger and the observer it was given. */
  method Replay(l: RequestLogger, sw: StatusWriter, script: seq<Action>)
    requires l.Valid() && l.sent == [] && sw.status == 0 && sw.length == 0
    modifies l, sw
    ensures l.Valid()
    ensures l.sent == ChildEntries(l.traceID, script)
    ensures sw.status == StoredStatus(script) && sw.length == BytesWritten(script)
  {
    var i := 0;
    while i < |script|
      invariant 0 <= i <= |script|
      invariant l.Valid()
      invariant l.sent == ChildEntries(l.traceID, script[..i])
      invariant sw.status == StoredStatus(script[..i])
      invariant sw.length == BytesWritten(script[..i])
    {
      ReplayStep(l.traceID, script, i);
      match script[i] {
        case LogCall(sp, sev, p) =>
          l.Log(sp, sev, p);
        case SetHeader(s) =>
          sw.WriteHeader(s);
        case WriteBody(b, n, f) =>
          var _, _ := sw.Write(b, n, f);
      }
      i := i + 1;
    }
    assert script[..i] == script;
  }

  /**
   * Serves one request. `src` are the trace ids the tracing libraries offer,
   * `span` the span the request context holds when the parent entry is built,
   * `clock` the wall-clock readings, and `script` what the inner handler does.
   * Returns the parent entry (if any), the child entries forwarded, and the
   * request the inner handler was given. That request's context is the
   * incoming one plus the per-request logger, and that logger is the one
   * whose forwarded entries are `children` and whose counters, left as the
   * handler made them, decide the parent entry.
   */
  method Serve(cfg: Config, r: Request, src: TraceSources, span: SpanContext, clock: Clock, script: seq<Action>)
    returns (parent: Option<LogEntry>, ghost children: seq<LogEntry>, ghost handlerRequest: Request)
    ensures parent == Outcome(cfg, r, src, span, clock, script)
    ensures children == ChildEntries(TraceIDFromRequest(cfg.projectID, src), script)
    ensures FromRequest(Some(handlerRequest)).CloudLogger?
    ensures FromRequest(Some(handlerRequest)).agg.traceID == TraceIDFromRequest(cfg.projectID, src)
    ensures FromRequest(Some(handlerRequest)).agg.Valid()
    ensures FromRequest(Some(handlerRequest)).agg.sent == children
    ensures handlerRequest.ctx == NewContext(r.ctx, FromRequest(Some(handlerRequest)))
    ensures handlerRequest.(ctx := r.ctx) == r
  {
    var traceID := TraceIDFromRequest(cfg.projectID, src);
    var l := new RequestLogger(traceID);
    var r' := r.(ctx := NewContext(r.ctx, CloudLogger(l)));
    handlerRequest := r';
    var sw := new StatusWriter();

    Replay(l, sw, script);

    var max, count := l.Snapshot();
    children := l.sent;
    if !cfg.logAll && count == 0 {
      return None, children, handlerRequest;
    }
    var severity := Escalate(max, sw.Status());
    parent := Some(ParentRecord(r', traceID, span, clock, severity, sw.Status(), sw.length));
  }

  // ---- Properties of the outcome ----

  lemma {:induction false} LoggedSeveritiesAppend(script: seq<Action>, a: Action)
    ensures LoggedSeverities(script + [a]) == LoggedSeverities(script) + (if a.LogCall? then [a.severity] else [])
    ensures LogCallCount(script + [a]) == LogCallCount(script) + (if a.LogCall? then 1 else 0)
  {
    if script != [] {
      assert (script + [a])[1..] == script[1..] + [a];
      LoggedSeveritiesAppend(script[1..], a);
    }
  }

  /**
   * The child entries are one per log call, with that call's severity, the
   * request's trace id and no HTTP block.
   */
  lemma {:induction false} ChildEntriesSummary(traceID: string, script: seq<Action>)
    ensures |ChildEntries(traceID, script)| == LogCallCount(script)
    ensures SeveritiesOf(ChildEntries(traceID, script)) == LoggedSeverities(script)
    ensures forall i :: 0 <= i < |ChildEntries(traceID, script)| ==>
              ChildEntries(traceID, script)[i].trace == traceID && ChildEntries(traceID, script)[i].http.None?
  {
    if script != [] {
      var init, a := script[..|script| - 1], script[|script| - 1];
      assert script == init + [a];
      ChildEntriesSummary(traceID, init);
      LoggedSeveritiesAppend(init, a);
      if a.LogCall? {
        SeveritiesOfAppend(ChildEntries(traceID, init), ChildEntry(traceID, a.span, a.severity, a.payload));
      }
    }
  }

  /** The parent entry is suppressed exactly when `logAll` is off and the handler logged nothing. */
  lemma SuppressedIffQuiet(cfg: Config, r: Request, src: TraceSources, span: SpanContext, clock: Clock, script: seq<Action>)
    ensures Outcome(cfg, r, src, span, clock, script).None? <==> (!cfg.logAll && LogCallCount(script) == 0)
  {
    ChildEntriesSummary(TraceIDFromRequest(cfg.projectID, src), script);
  }

  /** With `logAll` on, every request yields exactly one parent entry, even with no child entries. */
  lemma LogAllEmitsParent(cfg: Config, r: Request, src: TraceSources, span: SpanContext, clock: Clock, script: seq<Action>)
    requires cfg.logAll
    ensures Outcome(cfg, r, src, span, clock, script).Some?
  {
  }

  /**
   * The escalation rule over the severities of a request's log calls: when
   * the status is above 399 and no call reached Error the result is exactly
   * Error; when some call reached Error or above it is their maximum.
   */
  lemma EscalationRule(logged: seq<Severity>, status: int)
    ensures var sev := Escalate(Highest(logged), status);
            && (status > 399 && (forall i :: 0 <= i < |logged| ==> Below(logged[i], Error)) ==> sev == Error)
            && ((exists i :: 0 <= i < |logged| && !Below(logged[i], Error)) ==> sev == Highest(logged))
  {
    if forall i :: 0 <= i < |logged| ==> Below(logged[i], Error) {
      HighestIsLeast(logged, Warning);
    }
  }

  /**
   * The parent's severity is the highest severity the handler logged,
   * escalated by the status the observer reports.
   */
  lemma ParentSeverity(cfg: Config, r: Request, src: TraceSources, span: SpanContext, clock: Clock, script: seq<Action>)
    requires Outcome(cfg, r, src, span, clock, script).Some?
    ensures Outcome(cfg, r, src, span, clock, script).value.severity
            == Escalate(Highest(LoggedSeverities(script)), ReportedStatus(StoredStatus(script)))
  {
    ChildEntriesSummary(TraceIDFromRequest(cfg.projectID, src), script);
  }

  /**
   * The parent entry carries the same trace id as every child entry, the fixed
   * message, and the observer's final status and byte count.
   */
  lemma ParentCorrelatesChildren(cfg: Config, r: Request, src: TraceSources, span: SpanContext, clock: Clock, script: seq<Action>)
    requires Outcome(cfg, r, src, span, clock, script).Some?
    ensures var e := Outcome(cfg, r, src, span, clock, script).value;
            var children := ChildEntries(TraceIDFromRequest(cfg.projectID, src), script);
            && (forall i :: 0 <= i < |children| ==> children[i].trace == e.trace)
            && ParseResourceName(cfg.projectID, e.trace) == Some(SelectTraceID(src))
            && e.payload == Text(ParentMessage)
            && e.http.Some?
            && e.http.value.status == ReportedStatus(StoredStatus(script)) != 0
            && e.http.value.responseSize == BytesWritten(script)
  {
    ChildEntriesSummary(TraceIDFromRequest(cfg.projectID, src), script);
  }

  /** A handler that never sets a header ends with the status read as 200. */
  lemma {:induction false} NoHeaderReadsOK(script: seq<Action>)
    requires forall i :: 0 <= i < |script| ==> !script[i].SetHeader?
    ensures StoredStatus(script) == 0 || StoredStatus(script) == 200
    ensures ReportedStatus(StoredStatus(script)) == 200
  {
    if script != [] {
      NoHeaderReadsOK(script[..|script| - 1]);
    }
  }

  /** The last non-zero header set is the status reported, whatever is written after it. */
  lemma {:induction false} LastHeaderWins(before: seq<Action>, status: int, after: seq<Action>)
    requires status != 0
    requires forall i :: 0 <= i < |after| ==> !after[i].SetHeader?
    ensures StoredStatus(before + [SetHeader(status)] + after) == status
  {
    var s := before + [SetHeader(status)] + after;
    if after == [] {
      assert s[..|s| - 1] == before;
    } else {
      var init := after[..|after| - 1];
      assert s[..|s| - 1] == before + [SetHeader(status)] + init;
      LastHeaderWins(before, status, init);
    }
  }

  /** On a request that logs nothing, `NewRequestLogger` emits a parent entry and `NewLogger` does not. */
  lemma QuietRequestSeparatesHandlers(projectID: string, r: Request, src: TraceSources, span: SpanContext, clock: Clock, script: seq<Action>)
    requires LogCallCount(script) == 0
    ensures Outcome(NewRequestLogger(projectID), r, src, span, clock, script).Some?
    ensures Outcome(NewLogger(projectID), r, src, span, clock, script).None?
  {
    SuppressedIffQuiet(NewLogger(projectID), r, src, span, clock, script);
  }
}
