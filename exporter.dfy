/**
 * The exporter design's configuration object (`GoogleCloudExporter`). Its
 * middleware keeps a pointer to the exporter, so `projectID` and `logAll`
 * are read when each request is served, not when the middleware is built.
 */
module Exporter {
  import opened Wrappers
  import opened Entries
  import opened Carrier
  import opened Trace
  import opened Middleware

  /** The Cloud Logging client and its logger options are opaque handles here. */
  datatype Client = Client(id: nat)
  datatype LoggerOption = LoggerOption(id: nat)

  /** A named logger of the client: where parent or child entries are sent. */
  datatype Sink = Sink(client: Client, name: string, opts: seq<LoggerOption>)

  /** An entry together with the sink it is sent to. */
  datatype Delivery = Delivery(sink: Sink, entry: LogEntry)

  const ParentLogName := "request_parent_log"
  const ChildLogName := "request_child_log"

  class GoogleCloudExporter {
    var projectID: string
    var client: Client
    var opts: seq<LoggerOption>
    var logAll: bool

    /** `NewGoogleCloudExporter`: stores its arguments and leaves `logAll` off. */
    constructor (client: Client, projectID: string, opts: seq<LoggerOption>)
      ensures this.projectID == projectID && this.client == client && this.opts == opts
      ensures !logAll
    {
      this.projectID := projectID;
      this.client := client;
      this.opts := opts;
      logAll := false;
    }

    /** Sets `logAll` and returns the same exporter; nothing else changes. */
    method LogAll(v: bool) returns (e: GoogleCloudExporter)
      modifies this
      ensures e == this && logAll == v
      ensures projectID == old(projectID) && client == old(client) && opts == old(opts)
    {
      logAll := v;
      e := this;
    }

    /** The two loggers the middleware obtains from the client, both with the exporter's options. */
    method Middleware() returns (parentSink: Sink, childSink: Sink)
      ensures parentSink == Sink(client, ParentLogName, opts)
      ensures childSink == Sink(client, ChildLogName, opts)
      ensures parentSink != childSink
    {
      parentSink := Sink(client, ParentLogName, opts);
      childSink := Sink(client, ChildLogName, opts);
    }

    /**
     * One request through the middleware built with `parentSink` and
     * `childSink` (the pair `Middleware` returned), with the exporter's
     * settings as they are now: the parent entry, if any, goes to the parent
     * sink and every child entry to the child sink.
     */
    method ServeHTTP(parentSink: Sink, childSink: Sink, r: Request, src: TraceSources, span: SpanContext, clock: Clock, script: seq<Action>)
      returns (parent: Option<Delivery>, ghost children: seq<Delivery>)
      ensures var o := Outcome(Config(projectID, logAll), r, src, span, clock, script);
              && (parent.None? <==> o.None?)
              && (parent.Some? ==> parent.value == Delivery(parentSink, o.value))
      ensures var cs := ChildEntries(TraceIDFromRequest(projectID, src), script);
              && |children| == |cs|
              && forall i :: 0 <= i < |cs| ==> children[i] == Delivery(childSink, cs[i])
    {
      var entry;
      ghost var entries, handlerRequest;
      entry, entries, handlerRequest := Serve(Config(projectID, logAll), r, src, span, clock, script);
      parent := if entry.Some? then Some(Delivery(parentSink, entry.value)) else None;
      children := seq(|entries|, i requires 0 <= i < |entries| => Delivery(childSink, entries[i]));
    }
  }
}
