/** The slog handler that adds trace ids, and loggers derived from it
    (internal/obs/logging.go, internal/obs/context.go). */
module Logging {
  /** An emitted attribute: the groups it is nested under, outermost first. */
  datatype Attr = Attr(path: seq<string>, key: string, value: string)

  datatype Pair = Pair(key: string, value: string)

  /** slog's JSON handler with what it has accumulated, or the repository's wrapper. */
  datatype Handler =
    | Json(groups: seq<string>, attrs: seq<Attr>)
    | Tracing(inner: Handler)

  function At(path: seq<string>, pairs: seq<Pair>): (r: seq<Attr>)
    ensures |r| == |pairs|
  {
    seq(|pairs|, i requires 0 <= i < |pairs| => Attr(path, pairs[i].key, pairs[i].value))
  }

  /** WithAttrs and WithGroup of the wrapper re-wrap. */
  function WithAttrs(h: Handler, pairs: seq<Pair>): Handler {
    match h
    case Json(groups, attrs) => Json(groups, attrs + At(groups, pairs))
    case Tracing(inner) => Tracing(WithAttrs(inner, pairs))
  }

  function WithGroup(h: Handler, name: string): Handler {
    match h
    case Json(groups, attrs) => Json(groups + [name], attrs)
    case Tracing(inner) => Tracing(WithGroup(inner, name))
  }

  /** The ids on a context; the trace id is "" when no trace is active. */
  datatype TraceIDs = TraceIDs(trace: string, span: string)

  function Injected(ids: TraceIDs): seq<Pair> {
    if ids.trace == "" then [] else [Pair("trace_id", ids.trace), Pair("span_id", ids.span)]
  }

  function Handle(h: Handler, ids: TraceIDs, record: seq<Pair>): seq<Attr> {
    match h
    case Json(groups, attrs) => attrs + At(groups, record)
    case Tracing(inner) => Handle(inner, ids, record + Injected(ids))
  }

  /** NewHandler. */
  const ROOT := Tracing(Json([], []))

  /** logger.With(...) and logger.WithGroup(...); slog ignores an empty group. */
  datatype Derivation = With(pairs: seq<Pair>) | Group(name: string)

  function Derive(h: Handler, d: Derivation): Handler {
    match d
    case With(pairs) => WithAttrs(h, pairs)
    case Group(name) => if name == "" then h else WithGroup(h, name)
  }

  function Derived(h: Handler, ds: seq<Derivation>): Handler {
    if ds == [] then h else Derive(Derived(h, ds[..|ds| - 1]), ds[|ds| - 1])
  }

  /** The groups a chain of derivations leaves open. */
  function Opened(ds: seq<Derivation>): seq<string> {
    if ds == [] then []
    else
      var d := ds[|ds| - 1];
      Opened(ds[..|ds| - 1]) + (if d.Group? && d.name != "" then [d.name] else [])
  }

  /** Its attributes, each under the groups opened before it. */
  function Kept(ds: seq<Derivation>): seq<Attr> {
    if ds == [] then []
    else
      var front, d := ds[..|ds| - 1], ds[|ds| - 1];
      Kept(front) + (if d.With? then At(Opened(front), d.pairs) else [])
  }

  lemma {:induction false} DerivedForm(ds: seq<Derivation>)
    ensures Derived(Json([], []), ds) == Json(Opened(ds), Kept(ds))
    ensures Derived(ROOT, ds) == Tracing(Json(Opened(ds), Kept(ds)))
  {
    if ds != [] {
      var front, d := ds[..|ds| - 1], ds[|ds| - 1];
      DerivedForm(front);
      assert Opened(front) + [] == Opened(front) && Kept(front) + [] == Kept(front);
      var inner := Json(Opened(front), Kept(front));
      assert Derived(ROOT, ds) == Derive(Tracing(inner), d);
      match d {
        case With(pairs) => assert Derive(Tracing(inner), d) == Tracing(WithAttrs(inner, pairs));
        case Group(name) => assert name != "" ==> Derive(Tracing(inner), d) == Tracing(WithGroup(inner, name));
      }
    }
  }

  lemma AtConcat(path: seq<string>, a: seq<Pair>, b: seq<Pair>)
    ensures At(path, a + b) == At(path, a) + At(path, b)
  {
  }

  /** However a logger was derived, a record emits every attribute it was derived with
      where it was put, its own attributes under all open groups, and after them the
      context's ids exactly when a trace is active. */
  lemma InjectionSurvives(ds: seq<Derivation>, ids: TraceIDs, record: seq<Pair>)
    ensures Handle(Derived(ROOT, ds), ids, record)
         == Kept(ds) + At(Opened(ds), record)
          + (if ids.trace == "" then []
             else [Attr(Opened(ds), "trace_id", ids.trace), Attr(Opened(ds), "span_id", ids.span)])
    ensures forall i :: 0 <= i < |record| ==>
              At(Opened(ds), record)[i] == Attr(Opened(ds), record[i].key, record[i].value)
  {
    hide Kept, Opened, Derived, Injected;
    DerivedForm(ds);
    AtConcat(Opened(ds), record, Injected(ids));
    InjectedAt(Opened(ds), ids);
    Regroup(Kept(ds), At(Opened(ds), record), At(Opened(ds), Injected(ids)));
  }

  lemma InjectedAt(path: seq<string>, ids: TraceIDs)
    ensures At(path, Injected(ids))
         == if ids.trace == "" then [] else [Attr(path, "trace_id", ids.trace), Attr(path, "span_id", ids.span)]
  {
  }

  lemma Regroup(a: seq<Attr>, b: seq<Attr>, c: seq<Attr>)
    ensures a + (b + c) == a + b + c
  {
  }

  /** An attribute of the request's logger, its request_id say, is on every record of
      every logger derived from it, at the same place. */
  lemma {:induction false} AttributesStay(
    base: seq<Derivation>, more: seq<Derivation>, a: Attr, ids: TraceIDs, record: seq<Pair>)
    requires a in Kept(base)
    ensures a in Handle(Derived(ROOT, base + more), ids, record)
  {
    KeptGrows(base, more, a);
    InjectionSurvives(base + more, ids, record);
  }

  lemma {:induction false} KeptGrows(base: seq<Derivation>, more: seq<Derivation>, a: Attr)
    requires a in Kept(base)
    ensures a in Kept(base + more)
  {
    if more == [] {
      assert base + more == base;
    } else {
      KeptGrows(base, more[..|more| - 1], a);
      assert (base + more)[..|base + more| - 1] == base + more[..|more| - 1];
    }
  }

  /** The logger RequestLogger puts on the context. */
  function RequestLogger(base: seq<Derivation>, verb: string, route: string, id: string): seq<Derivation> {
    base + [With([Pair("method", verb), Pair("route", route), Pair("request_id", id)])]
  }

  /** Every line logged through LoggerFrom in a handler, by any logger derived from
      it, inside groups or not, carries the request's id next to its method and route,
      where the service's base logger would have put them. */
  lemma {:induction false} RequestIDOnEveryLine(
    base: seq<Derivation>, verb: string, route: string, id: string, more: seq<Derivation>,
    ids: TraceIDs, record: seq<Pair>)
    ensures var line := Handle(Derived(ROOT, RequestLogger(base, verb, route, id) + more), ids, record);
            && Attr(Opened(base), "method", verb) in line
            && Attr(Opened(base), "route", route) in line
            && Attr(Opened(base), "request_id", id) in line
  {
    var logger := RequestLogger(base, verb, route, id);
    var pairs := [Pair("method", verb), Pair("route", route), Pair("request_id", id)];
    assert logger[..|logger| - 1] == base;
    assert Kept(logger) == Kept(base) + At(Opened(base), pairs);
    forall k | 0 <= k < 3
      ensures Attr(Opened(base), pairs[k].key, pairs[k].value)
           in Handle(Derived(ROOT, logger + more), ids, record)
    {
      assert Kept(logger)[|Kept(base)| + k] == Attr(Opened(base), pairs[k].key, pairs[k].value);
      AttributesStay(logger, more, Attr(Opened(base), pairs[k].key, pairs[k].value), ids, record);
    }
    assert pairs[0].key == "method" && pairs[1].key == "route" && pairs[2].key == "request_id";
  }

  predicate TopLevel(line: seq<Attr>, key: string, value: string) {
    Attr([], key, value) in line
  }

  /** A consequence of adding the ids to the record: they end up inside any group the
      logger has open, and are at the top level, where log queries look, exactly when
      none is. */
  lemma TopLevelExactly(ds: seq<Derivation>, ids: TraceIDs, record: seq<Pair>)
    requires ids.trace != "" && Pair("trace_id", ids.trace) !in record
    requires Attr([], "trace_id", ids.trace) !in Kept(ds)
    ensures TopLevel(Handle(Derived(ROOT, ds), ids, record), "trace_id", ids.trace) <==> Opened(ds) == []
  {
    var path, a := Opened(ds), Attr([], "trace_id", ids.trace);
    var own, added := At(path, record), At(path, Injected(ids));
    InjectionSurvives(ds, ids, record);
    assert a !in own by {
      assert forall i :: 0 <= i < |own| ==> own[i] == Attr(path, record[i].key, record[i].value) && record[i] in record;
    }
    assert added == [Attr(path, "trace_id", ids.trace), Attr(path, "span_id", ids.span)];
  }

  /** What re-wrapping is for: a logger derived from the bare JSON handler, which is
      what the promoted methods would return, emits the same attributes but never the
      ids, so the two differ exactly when a trace is active. */
  lemma WithoutRewrapping(ds: seq<Derivation>, ids: TraceIDs, record: seq<Pair>)
    ensures Handle(Derived(ROOT.inner, ds), ids, record) == Kept(ds) + At(Opened(ds), record)
    ensures Handle(Derived(ROOT, ds), ids, record) == Handle(Derived(ROOT.inner, ds), ids, record)
       <==> ids.trace == ""
  {
    DerivedForm(ds);
    InjectionSurvives(ds, ids, record);
    assert |At(Opened(ds), Injected(ids))| == |Injected(ids)|;
  }
}
