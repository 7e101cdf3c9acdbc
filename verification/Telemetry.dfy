/** What a request leaves behind outside its response: metric updates, log lines
    and spans (internal/metrics/metrics.go, internal/metrics/middleware.go:29-52). */
module Telemetry {
  import opened Wrappers
  import opened Traceparent

  datatype Level = Info | Warn | Error

  datatype Message = RequestLine | PanicRecovered | Warning(text: string)

  /** A log record: the attributes of the logger, and the trace and span ids that
      the slog handler adds when the record's context carries them. */
  datatype Line = Line(
    msg: Message, level: Level, requestID: Option<string>, ids: Option<(string, string)>,
    status: Option<int>, bytes: Option<nat>)

  datatype Span = Span(context: SpanContext, parent: SpanContext, failed: bool, status: Option<int>)

  /** What is published about an order (its timestamp left out). */
  datatype OrderEvent = OrderEvent(orderID: int, productID: int, qty: int)

  /** OrderHandedOver: PublishOrder was called; caller is the span on the context it was
      given. */
  datatype Event =
    | GaugeInc(route: string)
    | GaugeDec(route: string)
    | RequestCounted(verb: string, route: string, code: int)
    | DurationObserved(verb: string, route: string, exemplar: Option<TraceID>)
    | SummaryObserved(verb: string, route: string)
    | Logged(line: Line)
    | SpanStarted(context: SpanContext)
    | SpanEnded(span: Span)
    | OrderCounted
    | OrderHandedOver(order: OrderEvent, caller: SpanContext)

  type Series = (string, string)

  /** A scrape, plus the emitted lines and ended spans. */
  datatype Readings = Readings(
    inProgress: map<string, int>,
    requests: map<(string, string, int), nat>,
    durations: map<Series, nat>,
    summaries: map<Series, nat>,
    exemplars: map<Series, TraceID>,
    lines: seq<Line>,
    started: nat,
    ended: seq<Span>,
    ordersCreated: nat,
    ordersHandedOver: nat)

  const BLANK := Readings(map[], map[], map[], map[], map[], [], 0, [], 0, 0)

  /** A series that was never touched reads zero. */
  function At<K>(m: map<K, nat>, k: K): nat {
    if k in m then m[k] else 0
  }

  function GaugeAt(m: map<string, int>, k: string): int {
    if k in m then m[k] else 0
  }

  function Apply(r: Readings, e: Event): Readings {
    match e
    case GaugeInc(route) => r.(inProgress := r.inProgress[route := GaugeAt(r.inProgress, route) + 1])
    case GaugeDec(route) => r.(inProgress := r.inProgress[route := GaugeAt(r.inProgress, route) - 1])
    case RequestCounted(v, route, code) =>
      r.(requests := r.requests[(v, route, code) := At(r.requests, (v, route, code)) + 1])
    case DurationObserved(v, route, exemplar) =>
      r.(durations := r.durations[(v, route) := At(r.durations, (v, route)) + 1],
         exemplars := if exemplar.Some? then r.exemplars[(v, route) := exemplar.value] else r.exemplars)
    case SummaryObserved(v, route) =>
      r.(summaries := r.summaries[(v, route) := At(r.summaries, (v, route)) + 1])
    case Logged(line) => r.(lines := r.lines + [line])
    case SpanStarted(_) => r.(started := r.started + 1)
    case SpanEnded(span) => r.(ended := r.ended + [span])
    case OrderCounted => r.(ordersCreated := r.ordersCreated + 1)
    case OrderHandedOver(_, _) => r.(ordersHandedOver := r.ordersHandedOver + 1)
  }

  function ApplyAll(r: Readings, es: seq<Event>): Readings {
    if es == [] then r else Apply(ApplyAll(r, es[..|es| - 1]), es[|es| - 1])
  }

  lemma {:induction false} ApplyAllConcat(r: Readings, a: seq<Event>, b: seq<Event>)
    ensures ApplyAll(r, a + b) == ApplyAll(ApplyAll(r, a), b)
  {
    if b == [] {
      assert a + b == a;
    } else {
      ApplyAllConcat(r, a, b[..|b| - 1]);
      assert (a + b)[..|a + b| - 1] == a + b[..|b| - 1];
    }
  }

  lemma ApplyOne(r: Readings, es: seq<Event>, e: Event)
    ensures ApplyAll(r, [e]) == Apply(r, e)
    ensures ApplyAll(r, es + [e]) == Apply(ApplyAll(r, es), e)
    ensures ApplyAll(r, [e] + es) == ApplyAll(Apply(r, e), es)
  {
    assert [e][..0] == [];
    assert (es + [e])[..|es|] == es;
    ApplyAllConcat(r, [e], es);
  }

  /** The process-wide sinks. Every method is one update; trace remembers them all
      and explains every reading. */
  class Sinks {
    ghost var trace: seq<Event>
    var inProgress: map<string, int>
    var requests: map<(string, string, int), nat>
    var durations: map<Series, nat>
    var summaries: map<Series, nat>
    var exemplars: map<Series, TraceID>
    var lines: seq<Line>
    var started: nat
    var ended: seq<Span>
    var ordersCreated: nat
    var ordersHandedOver: nat

    ghost function Read(): Readings
      reads this
    {
      Readings(inProgress, requests, durations, summaries, exemplars, lines,
               started, ended, ordersCreated, ordersHandedOver)
    }

    ghost predicate Valid()
      reads this
    {
      Read() == ApplyAll(BLANK, trace)
    }

    constructor ()
      ensures Valid() && trace == []
    {
      trace := [];
      inProgress, requests, durations, summaries, exemplars := map[], map[], map[], map[], map[];
      lines, started, ended, ordersCreated, ordersHandedOver := [], 0, [], 0, 0;
    }

    method Inc(route: string)
      requires Valid()
      modifies this
      ensures Valid() && trace == old(trace) + [GaugeInc(route)]
    {
      hide ApplyAll;
      ApplyOne(BLANK, trace, GaugeInc(route));
      trace := trace + [GaugeInc(route)];
      inProgress := inProgress[route := GaugeAt(inProgress, route) + 1];
    }

    method Dec(route: string)
      requires Valid()
      modifies this
      ensures Valid() && trace == old(trace) + [GaugeDec(route)]
    {
      hide ApplyAll;
      ApplyOne(BLANK, trace, GaugeDec(route));
      trace := trace + [GaugeDec(route)];
      inProgress := inProgress[route := GaugeAt(inProgress, route) - 1];
    }

    method Count(verb: string, route: string, code: int)
      requires Valid()
      modifies this
      ensures Valid() && trace == old(trace) + [RequestCounted(verb, route, code)]
    {
      hide ApplyAll;
      ApplyOne(BLANK, trace, RequestCounted(verb, route, code));
      trace := trace + [RequestCounted(verb, route, code)];
      requests := requests[(verb, route, code) := At(requests, (verb, route, code)) + 1];
    }

    method Observe(verb: string, route: string, exemplar: Option<TraceID>)
      requires Valid()
      modifies this
      ensures Valid() && trace == old(trace) + [DurationObserved(verb, route, exemplar)]
    {
      hide ApplyAll;
      ApplyOne(BLANK, trace, DurationObserved(verb, route, exemplar));
      trace := trace + [DurationObserved(verb, route, exemplar)];
      durations := durations[(verb, route) := At(durations, (verb, route)) + 1];
      exemplars := if exemplar.Some? then exemplars[(verb, route) := exemplar.value] else exemplars;
    }

    method Summarise(verb: string, route: string)
      requires Valid()
      modifies this
      ensures Valid() && trace == old(trace) + [SummaryObserved(verb, route)]
    {
      hide ApplyAll;
      ApplyOne(BLANK, trace, SummaryObserved(verb, route));
      trace := trace + [SummaryObserved(verb, route)];
      summaries := summaries[(verb, route) := At(summaries, (verb, route)) + 1];
    }

    method Log(line: Line)
      requires Valid()
      modifies this
      ensures Valid() && trace == old(trace) + [Logged(line)]
    {
      hide ApplyAll;
      ApplyOne(BLANK, trace, Logged(line));
      trace := trace + [Logged(line)];
      lines := lines + [line];
    }

    method Start(context: SpanContext)
      requires Valid()
      modifies this
      ensures Valid() && trace == old(trace) + [SpanStarted(context)]
    {
      hide ApplyAll;
      ApplyOne(BLANK, trace, SpanStarted(context));
      trace := trace + [SpanStarted(context)];
      started := started + 1;
    }

    method End(span: Span)
      requires Valid()
      modifies this
      ensures Valid() && trace == old(trace) + [SpanEnded(span)]
    {
      hide ApplyAll;
      ApplyOne(BLANK, trace, SpanEnded(span));
      trace := trace + [SpanEnded(span)];
      ended := ended + [span];
    }

    method OrderCreated()
      requires Valid()
      modifies this
      ensures Valid() && trace == old(trace) + [OrderCounted]
    {
      hide ApplyAll;
      ApplyOne(BLANK, trace, OrderCounted);
      trace := trace + [OrderCounted];
      ordersCreated := ordersCreated + 1;
    }

    method PublishOrder(order: OrderEvent, caller: SpanContext)
      requires Valid()
      modifies this
      ensures Valid() && trace == old(trace) + [OrderHandedOver(order, caller)]
    {
      hide ApplyAll;
      ApplyOne(BLANK, trace, OrderHandedOver(order, caller));
      trace := trace + [OrderHandedOver(order, caller)];
      ordersHandedOver := ordersHandedOver + 1;
    }
  }
}
