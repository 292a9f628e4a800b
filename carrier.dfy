/**
 * The context carrier: a request's propagated context is a chain of
 * key/value layers (Go's `context.WithValue`), and the request-scoped logger
 * lives under the package's private `logKey`. Retrieval never fails: a nil
 * context, a missing key or a value of the wrong type all yield the
 * process-wide `StdErrLogger`.
 */
module Carrier {
  import opened Wrappers
  import Aggregator

  /** `LogKey` is the package's key; `ForeignKey` stands for keys of other packages. */
  datatype Key = LogKey | ForeignKey(id: nat)

  /** The loggers a context can carry. `StdErrLogger` is the distinguished fallback. */
  datatype Logger =
    | StdErrLogger
    | CloudLogger(agg: Aggregator.RequestLogger)
    | ConsoleLogger(req: Request, noColor: bool)

  /** A value stored in a context: a logger, or a value of some other type. */
  datatype Value = LoggerValue(logger: Logger) | ForeignValue(id: nat)

  datatype Context = Background | WithValue(parent: Context, key: Key, val: Value)

  /** The parts of an `*http.Request` the core reads; header names are taken as given. */
  datatype Request = Request(
    requestMethod: string,
    url: string,
    path: string,
    header: map<string, string>,
    ctx: Context)

  /**
   * `Header.Get`: the value of a header, or the empty string when it is absent.
   * A header holds one value here (see the README's "Left out" section).
   */
  function HeaderGet(h: map<string, string>, name: string): (v: string)
    ensures name !in h ==> v == ""
    ensures name in h ==> v == h[name]
  {
    if name in h then h[name] else ""
  }

  /** The layers of `ctx` as (key, value) pairs, innermost first. */
  ghost function Layers(ctx: Context): seq<(Key, Value)>
  {
    match ctx
    case Background => []
    case WithValue(p, k, v) => [(k, v)] + Layers(p)
  }

  /** `i` is the innermost layer of `layers` with key `k`. */
  ghost predicate FirstWithKey(layers: seq<(Key, Value)>, k: Key, i: int)
  {
    0 <= i < |layers| && layers[i].0 == k && forall j :: 0 <= j < i ==> layers[j].0 != k
  }

  /**
   * `ctx.Value(k)`: the innermost layer with key `k` wins; `Background` holds
   * nothing. A found value is the one of the innermost layer with key `k`;
   * nothing is found exactly when no layer has `k`.
   */
  function Lookup(ctx: Context, k: Key): (r: Option<Value>)
    ensures r.Some? ==> exists i :: FirstWithKey(Layers(ctx), k, i) && Layers(ctx)[i].1 == r.value
    ensures r.None? <==> forall i :: 0 <= i < |Layers(ctx)| ==> Layers(ctx)[i].0 != k
  {
    match ctx
    case Background => None
    case WithValue(p, k', v') =>
      if k' == k then
        assert FirstWithKey(Layers(ctx), k, 0);
        Some(v')
      else
        var r := Lookup(p, k);
        assert r.Some? ==> exists i :: FirstWithKey(Layers(ctx), k, i) && Layers(ctx)[i].1 == r.value by {
          if r.Some? {
            var i :| FirstWithKey(Layers(p), k, i) && Layers(p)[i].1 == r.value;
            assert FirstWithKey(Layers(ctx), k, i + 1);
          }
        }
        r
  }

  /** `FromContext`: the installed logger, or `StdErrLogger` when there is none to use. */
  function FromContext(ctx: Option<Context>): (l: Logger)
    ensures ctx.None? ==> l == StdErrLogger
    ensures l == StdErrLogger || (ctx.Some? && Lookup(ctx.value, LogKey) == Some(LoggerValue(l)))
    ensures ctx.Some? && Lookup(ctx.value, LogKey).None? ==> l == StdErrLogger
    ensures ctx.Some? && Lookup(ctx.value, LogKey).Some? ==>
              l == (if Lookup(ctx.value, LogKey).value.LoggerValue? then Lookup(ctx.value, LogKey).value.logger else StdErrLogger)
  {
    if ctx.None? then StdErrLogger
    else match Lookup(ctx.value, LogKey)
      case Some(LoggerValue(l)) => l
      case _ => StdErrLogger
  }

  /** `FromRequest`: a nil request yields the fallback, otherwise the request context is consulted. */
  function FromRequest(r: Option<Request>): (l: Logger)
    ensures r.None? ==> l == StdErrLogger
    ensures r.Some? ==> l == FromContext(Some(r.value.ctx))
  {
    if r.None? then StdErrLogger else FromContext(Some(r.value.ctx))
  }

  /**
   * `NewContext`: a derived context that carries `l`. The parent is a value and
   * is left as it was; every other key still resolves as it did in the parent.
   */
  function NewContext(ctx: Context, l: Logger): (r: Context)
    ensures FromContext(Some(r)) == l
    ensures forall k :: k != LogKey ==> Lookup(r, k) == Lookup(ctx, k)
  {
    WithValue(ctx, LogKey, LoggerValue(l))
  }

  /** A value of the wrong type under `logKey` is ignored: the fallback is returned. */
  lemma WrongTypeFallsBack(ctx: Context, id: nat)
    ensures FromContext(Some(WithValue(ctx, LogKey, ForeignValue(id)))) == StdErrLogger
  {
  }

  /** Layers added by other packages do not hide the installed logger. */
  lemma {:induction false} ForeignLayersTransparent(ctx: Context, k: nat, v: Value)
    ensures FromContext(Some(WithValue(ctx, ForeignKey(k), v))) == FromContext(Some(ctx))
  {
  }

  /** Installing twice: the most recently installed logger is the one found. */
  lemma InnermostWins(ctx: Context, l1: Logger, l2: Logger)
    ensures FromContext(Some(NewContext(NewContext(ctx, l1), l2))) == l2
  {
  }
}
