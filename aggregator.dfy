/**
 * The per-request logger (`gcpLogger` / `GCPLogger`): every log call raises
 * the running maximum severity, counts the call, and forwards one child entry
 * stamped with the logger's trace identifier. The mutex around the two
 * counters is modelled by making each call one atomic step.
 */
module Aggregator {
  import opened Severities
  import opened Entries

  /**
   * `max` and `count` are the highest severity and the number of `sent`, and
   * every entry in `sent` carries `traceID`.
   */
  ghost predicate Summarizes(sent: seq<LogEntry>, max: Severity, count: int, traceID: string)
  {
    && count == |sent|
    && max == Highest(SeveritiesOf(sent))
    && forall i :: 0 <= i < |sent| ==> sent[i].trace == traceID
  }

  /** One more entry with the same trace id: the count and the raised maximum still summarise. */
  lemma SummarizesAppend(sent: seq<LogEntry>, max: Severity, count: int, traceID: string, e: LogEntry)
    requires Summarizes(sent, max, count, traceID)
    requires e.trace == traceID
    ensures Summarizes(sent + [e], Raise(max, e.severity), count + 1, traceID)
  {
    SeveritiesOfAppend(sent, e);
    HighestAppend(SeveritiesOf(sent), e.severity);
    var sent' := sent + [e];
    forall i | 0 <= i < |sent'|
      ensures sent'[i].trace == traceID
    {
      if i < |sent| {
        assert sent'[i] == sent[i];
      }
    }
  }

  class RequestLogger {
    /** Assigned at construction and never reassigned. */
    const traceID: string
    var maxSeverity: Severity
    var logCount: int
    /** The child entries forwarded to the transport so far, oldest first. */
    ghost var sent: seq<LogEntry>

    /**
     * The two counters summarise exactly the entries forwarded so far, and
     * every forwarded entry carries this logger's trace identifier.
     */
    ghost predicate Valid()
      reads this
    {
      Summarizes(sent, maxSeverity, logCount, traceID)
    }

    constructor (traceID: string)
      ensures Valid()
      ensures this.traceID == traceID
      ensures maxSeverity == Default && logCount == 0 && sent == []
    {
      this.traceID := traceID;
      maxSeverity := Default;
      logCount := 0;
      sent := [];
    }

    /** One log call at `severity` with payload `p`, made from a context whose span is `span`. */
    method Log(span: SpanContext, severity: Severity, p: Payload)
      requires Valid()
      modifies this
      ensures Valid()
      ensures maxSeverity == Raise(old(maxSeverity), severity)
      ensures logCount == old(logCount) + 1
      ensures sent == old(sent) + [ChildEntry(traceID, span, severity, p)]
    {
      var e := ChildEntry(traceID, span, severity, p);
      SummarizesAppend(sent, maxSeverity, logCount, traceID, e);
      if Below(maxSeverity, severity) {
        maxSeverity := severity;
      }
      logCount := logCount + 1;
      sent := sent + [e];
    }

    /** The pair the middleware reads under the lock after the inner handler returns. */
    method Snapshot() returns (max: Severity, count: int)
      requires Valid()
      ensures max == Highest(SeveritiesOf(sent))
      ensures count == |sent|
    {
      max, count := maxSeverity, logCount;
    }

    method Debug(span: SpanContext, v: Payload)
      requires Valid()
      modifies this
      ensures Valid()
      ensures maxSeverity == Raise(old(maxSeverity), Severity.Debug) && logCount == old(logCount) + 1
      ensures sent == old(sent) + [ChildEntry(traceID, span, Severity.Debug, v)]
    {
      Log(span, Severity.Debug, v);
    }

    /** The formatted variants receive the text `fmt.Sprintf` produced. */
    method Debugf(span: SpanContext, formatted: string)
      requires Valid()
      modifies this
      ensures Valid()
      ensures maxSeverity == Raise(old(maxSeverity), Severity.Debug) && logCount == old(logCount) + 1
      ensures sent == old(sent) + [ChildEntry(traceID, span, Severity.Debug, Text(formatted))]
    {
      Log(span, Severity.Debug, Text(formatted));
    }

    method Info(span: SpanContext, v: Payload)
      requires Valid()
      modifies this
      ensures Valid()
      ensures maxSeverity == Raise(old(maxSeverity), Severity.Info) && logCount == old(logCount) + 1
      ensures sent == old(sent) + [ChildEntry(traceID, span, Severity.Info, v)]
    {
      Log(span, Severity.Info, v);
    }

    method Infof(span: SpanContext, formatted: string)
      requires Valid()
      modifies this
      ensures Valid()
      ensures maxSeverity == Raise(old(maxSeverity), Severity.Info) && logCount == old(logCount) + 1
      ensures sent == old(sent) + [ChildEntry(traceID, span, Severity.Info, Text(formatted))]
    {
      Log(span, Severity.Info, Text(formatted));
    }

    method Warn(span: SpanContext, v: Payload)
      requires Valid()
      modifies this
      ensures Valid()
      ensures maxSeverity == Raise(old(maxSeverity), Severity.Warning) && logCount == old(logCount) + 1
      ensures sent == old(sent) + [ChildEntry(traceID, span, Severity.Warning, v)]
    {
      Log(span, Severity.Warning, v);
    }

    method Warnf(span: SpanContext, formatted: string)
      requires Valid()
      modifies this
      ensures Valid()
      ensures maxSeverity == Raise(old(maxSeverity), Severity.Warning) && logCount == old(logCount) + 1
      ensures sent == old(sent) + [ChildEntry(traceID, span, Severity.Warning, Text(formatted))]
    {
      Log(span, Severity.Warning, Text(formatted));
    }

    method Error(span: SpanContext, v: Payload)
      requires Valid()
      modifies this
      ensures Valid()
      ensures maxSeverity == Raise(old(maxSeverity), Severity.Error) && logCount == old(logCount) + 1
      ensures sent == old(sent) + [ChildEntry(traceID, span, Severity.Error, v)]
    {
      Log(span, Severity.Error, v);
    }

    method Errorf(span: SpanContext, formatted: string)
      requires Valid()
      modifies this
      ensures Valid()
      ensures maxSeverity == Raise(old(maxSeverity), Severity.Error) && logCount == old(logCount) + 1
      ensures sent == old(sent) + [ChildEntry(traceID, span, Severity.Error, Text(formatted))]
    {
      Log(span, Severity.Error, Text(formatted));
    }
  }
}
