/**
 * The severity scale of the Cloud Logging client library (`logging.Severity`).
 * The library encodes each level as an integer and the middleware compares
 * severities with Go's `<` on those integers; `Default` is the floor.
 */
module Severities {

  datatype Severity =
    | Default | Debug | Info | Notice | Warning | Error | Critical | Alert | Emergency

  /** The integer the client library assigns to each level. */
  function Code(s: Severity): (c: int)
    ensures 0 <= c <= 800 && c % 100 == 0
    ensures c == 0 <==> s == Default
  {
    match s
    case Default => 0
    case Debug => 100
    case Info => 200
    case Notice => 300
    case Warning => 400
    case Error => 500
    case Critical => 600
    case Alert => 700
    case Emergency => 800
  }

  /** Go's `a < b` on two severities. */
  predicate Below(a: Severity, b: Severity)
  {
    Code(a) < Code(b)
  }

  /** `Below` is a strict total order on the levels: distinct levels have distinct codes. */
  lemma BelowIsStrictTotal(a: Severity, b: Severity)
    ensures !Below(a, a)
    ensures Below(a, b) ==> !Below(b, a)
    ensures a != b <==> Below(a, b) || Below(b, a)
    ensures !Below(a, Default)
  {
  }

  /** The compare-and-raise step of the per-request logger: keep `a` unless `b` is higher. */
  function Raise(a: Severity, b: Severity): (r: Severity)
    ensures Code(a) <= Code(r) && Code(b) <= Code(r)
    ensures r == a || r == b
  {
    if Below(a, b) then b else a
  }

  /** The highest severity in a sequence of calls, starting from `Default`. */
  function Highest(s: seq<Severity>): (r: Severity)
    ensures forall i :: 0 <= i < |s| ==> Code(s[i]) <= Code(r)
    ensures r == Default || r in s
  {
    if s == [] then Default else Raise(Highest(s[..|s| - 1]), s[|s| - 1])
  }

  /** Raising the running maximum with one more severity gives the maximum of the longer sequence. */
  lemma HighestAppend(s: seq<Severity>, x: Severity)
    ensures Highest(s + [x]) == Raise(Highest(s), x)
  {
    assert (s + [x])[..|s|] == s;
  }

  /** `Highest` is the least upper bound of the sequence (with `Default` as the bound of nothing). */
  lemma {:induction false} HighestIsLeast(s: seq<Severity>, u: Severity)
    requires forall i :: 0 <= i < |s| ==> Code(s[i]) <= Code(u)
    ensures Code(Highest(s)) <= Code(u)
  {
    var h := Highest(s);
    if h != Default {
      var k :| 0 <= k < |s| && s[k] == h;
    }
  }
}
