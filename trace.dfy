/**
 * Trace resolution (`gcpTraceIDFromRequest` / `traceIDFromRequest`): the
 * trace id comes from the propagation header if it parses, else from a valid
 * span already in the request context, else from a span started for the
 * request; the result is the Cloud Trace resource name for the project.
 * The three sources are inputs: parsing the header and starting spans belong
 * to the tracing libraries.
 */
module Trace {
  import opened Wrappers

  /**
   * The ids the tracing libraries would supply for one request: the one parsed
   * from the propagation header (if it parsed), the one of a valid span in the
   * context (if any), and the one of the span that would be started.
   */
  datatype TraceSources = TraceSources(header: Option<string>, contextSpan: Option<string>, newSpan: string)

  /** The part of a resource name that precedes the trace id. */
  function NamePrefix(projectID: string): string
  {
    "projects/" + projectID + "/traces/"
  }

  /** `fmt.Sprintf("projects/%s/traces/%s", projectID, traceID)`. */
  function ResourceName(projectID: string, traceID: string): (name: string)
    ensures |name| == |NamePrefix(projectID)| + |traceID|
    ensures name[..|NamePrefix(projectID)|] == NamePrefix(projectID)
    ensures name[|NamePrefix(projectID)|..] == traceID
  {
    NamePrefix(projectID) + traceID
  }

  /** Reads the trace id back out of a resource name for `projectID`. */
  function ParseResourceName(projectID: string, name: string): Option<string>
  {
    var pre := NamePrefix(projectID);
    if |pre| <= |name| && name[..|pre|] == pre then Some(name[|pre|..]) else None
  }

  /** Precedence: header before context span before a new span. */
  function SelectTraceID(src: TraceSources): (id: string)
    ensures src.header.Some? ==> id == src.header.value
    ensures src.header.None? && src.contextSpan.Some? ==> id == src.contextSpan.value
    ensures src.header.None? && src.contextSpan.None? ==> id == src.newSpan
  {
    match src.header
    case Some(h) => h
    case None =>
      match src.contextSpan
      case Some(c) => c
      case None => src.newSpan
  }

  /** The resource name for a request: it names the project and reads back as the selected id. */
  function TraceIDFromRequest(projectID: string, src: TraceSources): (name: string)
    ensures ParseResourceName(projectID, name) == Some(SelectTraceID(src))
  {
    var id := SelectTraceID(src);
    ResourceNameRoundTrip(projectID, id);
    ResourceName(projectID, id)
  }

  /** Parsing a resource name built for the same project recovers the id. */
  lemma ResourceNameRoundTrip(projectID: string, traceID: string)
    ensures ParseResourceName(projectID, ResourceName(projectID, traceID)) == Some(traceID)
  {
    var pre := NamePrefix(projectID);
    assert ResourceName(projectID, traceID) == pre + traceID;
    assert (pre + traceID)[..|pre|] == pre;
    assert (pre + traceID)[|pre|..] == traceID;
  }

  /** Within one project, distinct trace ids give distinct resource names. */
  lemma ResourceNameInjective(projectID: string, a: string, b: string)
    requires ResourceName(projectID, a) == ResourceName(projectID, b)
    ensures a == b
  {
    ResourceNameRoundTrip(projectID, a);
    ResourceNameRoundTrip(projectID, b);
  }

  /** The header's id wins even when the context also carries a valid span. */
  lemma HeaderWinsExample()
    ensures var src := TraceSources(Some("105445aa7843bc8bf206b12000100000"), Some("0af7651916cd43dd8448eb211c80319c"), "4bf92f3577b34da6a3ce929d0e0e4736");
            && SelectTraceID(src) == "105445aa7843bc8bf206b12000100000"
            && TraceIDFromRequest("my-project", src) == ResourceName("my-project", "105445aa7843bc8bf206b12000100000")
  {
  }
}
