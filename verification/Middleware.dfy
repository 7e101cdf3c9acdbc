/** The middleware layers as an interpreter with panics
    (internal/obs/middleware.go, internal/metrics/middleware.go, internal/api/chaos.go).

    A handler is a finite script; a stack is a list of layers, outermost first,
    each carrying the random draws it will make for this one request. Serve says
    what a stack does; ServeHTTP does it step by step on real recorders. */
module Middleware {
  import opened Wrappers
  import opened Traceparent
  import opened Responses
  import opened Telemetry
  import opened ChaosControl

  datatype Op =
    | Header(code: int)
    | Body(n: nat)
    | LogWarning(text: string)
    | CountOrder
    | HandOver(order: OrderEvent)
    | Panic
    | Return

  type Script = seq<Op>

  /** writeJSON: the status first, then one write of the encoded body. */
  function WriteJSON(code: int, n: nat): Script {
    [Header(code), Body(n)]
  }

  datatype Request = Request(verb: string, route: string, upstream: SpanContext)

  /** The values the layers put on and read from a request's context. */
  datatype Context = Context(requestID: Option<string>, ids: Option<(string, string)>, span: SpanContext)

  const BACKGROUND := Context(None, None, ABSENT)

  datatype Layer =
    | PanicGuard
    | TraceHTTP(draw: Draw)
    | RequestLogger(requestID: string)
    | Instrument
    | ChaosGate(snapshot: ChaosState, cancelled: bool, lot: real, chaosBody: nat)
    | AdminGate(configured: string, credentials: Credentials, adminBody: nat)
  {
    predicate IsGate() {
      ChaosGate? || AdminGate?
    }
  }

  /** A gate either lets the request through or answers it itself. */
  datatype Verdict = Pass | Reply(script: Script)

  function GateVerdict(layer: Layer): Verdict
    requires layer.IsGate()
  {
    match layer
    case ChaosGate(s, cancelled, lot, n) =>
      (match Inject(s, cancelled, lot)
       case Proceed => Pass
       case GiveUp => Reply([])
       case Fail => Reply([LogWarning("chaos injected failure")] + WriteJSON(500, n)))
    case AdminGate(configured, credentials, n) =>
      if Admitted(configured, credentials) then Pass else Reply(WriteJSON(401, n))
  }

  datatype Outcome = Outcome(chain: Chain, events: seq<Event>, panicked: bool)

  /** LoggerFrom(ctx).Warn: the request's attributes, but no context is passed, so
      no trace ids are added. */
  function WarnLine(text: string, ctx: Context): Line {
    Line(Warning(text), Warn, ctx.requestID, None, None, None)
  }

  /** How a handler goes on after one operation. */
  datatype Turn = Continue | Finish | Explode

  datatype Effect = Effect(chain: Chain, events: seq<Event>, turn: Turn)

  function Perform(op: Op, ctx: Context, chain: Chain): (e: Effect)
    requires chain != []
    ensures |e.chain| == |chain|
  {
    match op
    case Header(code) =>
      Effect(ChainHeader(chain, code), [], if HeaderPanics(chain[0].wroteHeader, code) then Explode else Continue)
    case Body(n) => Effect(ChainBody(chain, n), [], Continue)
    case LogWarning(text) => Effect(chain, [Logged(WarnLine(text, ctx))], Continue)
    case CountOrder => Effect(chain, [OrderCounted], Continue)
    case HandOver(order) => Effect(chain, [OrderHandedOver(order, ctx.span)], Continue)
    case Panic => Effect(chain, [], Explode)
    case Return => Effect(chain, [], Finish)
  }

  function RunScript(script: Script, ctx: Context, chain: Chain): (o: Outcome)
    requires chain != []
    ensures |o.chain| == |chain|
  {
    if script == [] then Outcome(chain, [], false)
    else
      var e := Perform(script[0], ctx, chain);
      if e.turn.Continue? then
        var rest := RunScript(script[1..], ctx, e.chain);
        Outcome(rest.chain, e.events + rest.events, rest.panicked)
      else Outcome(e.chain, e.events, e.turn.Explode?)
  }

  // ---------- the layers ----------

  function Top(chain: Chain): WriterState
    requires chain != []
  {
    chain[|chain| - 1]
  }

  function Pop(chain: Chain): Chain
    requires chain != []
  {
    chain[..|chain| - 1]
  }

  function PanicLine(ctx: Context): Line {
    Line(PanicRecovered, Error, None, ctx.ids, None, None)
  }

  function AfterPanicGuard(o: Outcome, ctx: Context): Outcome
    requires o.chain != []
  {
    if !o.panicked then Outcome(Pop(o.chain), o.events, false)
    else
      var chain := if Top(o.chain).wroteHeader then o.chain else ChainHeader(o.chain, 500);
      Outcome(Pop(chain), o.events + [Logged(PanicLine(ctx))], false)
  }

  function TraceParent(req: Request, ctx: Context): SpanContext {
    if req.upstream.IsValid() then req.upstream.(remote := true) else ctx.span
  }

  function TraceContext(req: Request, ctx: Context, draw: Draw): Context {
    var sc := StartSpan(TraceParent(req, ctx), draw);
    ctx.(ids := Some((Hex(sc.traceID), Hex(sc.spanID))), span := sc)
  }

  function AfterTraceHTTP(o: Outcome, parent: SpanContext, sc: SpanContext): Outcome
    requires o.chain != []
  {
    var span :=
      if o.panicked then Span(sc, parent, true, None)
      else Span(sc, parent, Top(o.chain).status >= 500, Some(Top(o.chain).status));
    Outcome(Pop(o.chain), [SpanStarted(sc)] + o.events + [SpanEnded(span)], o.panicked)
  }

  function LineLevel(status: int): Level {
    if status >= 500 then Error else if status >= 400 then Warn else Info
  }

  function CanonicalLine(w: WriterState, ctx: Context): Line {
    Line(RequestLine, LineLevel(w.status), ctx.requestID, ctx.ids, Some(w.status), Some(w.bytes))
  }

  /** No defer here: a panic passes through without a line. */
  function AfterRequestLogger(o: Outcome, ctx: Context): Outcome
    requires o.chain != []
  {
    if o.panicked then Outcome(Pop(o.chain), o.events, true)
    else Outcome(Pop(o.chain), o.events + [Logged(CanonicalLine(Top(o.chain), ctx))], false)
  }

  /** exemplarFor: only a valid and sampled span is linked. */
  function ExemplarFor(ctx: Context): Option<TraceID> {
    if !ctx.span.IsValid() || !ctx.span.IsSampled() then None else Some(ctx.span.traceID)
  }

  function Recorded(req: Request, ctx: Context, status: int): seq<Event> {
    [RequestCounted(req.verb, req.route, status),
     DurationObserved(req.verb, req.route, ExemplarFor(ctx)),
     SummaryObserved(req.verb, req.route),
     GaugeDec(req.route)]
  }

  function AfterInstrument(o: Outcome, req: Request, ctx: Context): Outcome
    requires o.chain != []
  {
    var status := if o.panicked then 500 else Top(o.chain).status;
    Outcome(Pop(o.chain), [GaugeInc(req.route)] + o.events + Recorded(req, ctx, status), o.panicked)
  }

  function Serve(stack: seq<Layer>, h: Script, req: Request, ctx: Context, chain: Chain): (o: Outcome)
    requires chain != []
    ensures |o.chain| == |chain|
    decreases |stack|
  {
    if stack == [] then RunScript(h, ctx, chain)
    else
      match stack[0]
      case PanicGuard =>
        AfterPanicGuard(Serve(stack[1..], h, req, ctx, chain + [Fresh(BodyRecorder)]), ctx)
      case TraceHTTP(draw) =>
        var inner := TraceContext(req, ctx, draw);
        AfterTraceHTTP(Serve(stack[1..], h, req, inner, chain + [Fresh(BodyRecorder)]),
                       TraceParent(req, ctx), inner.span)
      case RequestLogger(id) =>
        var inner := ctx.(requestID := Some(id));
        AfterRequestLogger(Serve(stack[1..], h, req, inner, chain + [Fresh(BodyRecorder)]), inner)
      case Instrument =>
        AfterInstrument(Serve(stack[1..], h, req, ctx, chain + [Fresh(StatusRecorder)]), req, ctx)
      case _ =>
        match GateVerdict(stack[0])
        case Pass => Serve(stack[1..], h, req, ctx, chain)
        case Reply(script) => RunScript(script, ctx, chain)
  }

  // ---------- the same, in place ----------

  method Do(op: Op, ctx: Context, w: ResponseWriter, t: Sinks) returns (turn: Turn)
    requires w.Valid() && t.Valid() && t !in w.repr
    modifies w.repr, t
    ensures var e := Perform(op, ctx, old(w.States()));
            && w.States() == e.chain && turn == e.turn
            && t.Valid() && t.trace == old(t.trace) + e.events
  {
    hide ResponseWriter.States, ResponseWriter.Valid, Sinks.Valid;
    turn := Continue;
    match op {
      case Return => turn := Finish;
      case Panic => turn := Explode;
      case Header(code) =>
        var panicked := w.WriteHeader(code);
        turn := if panicked then Explode else Continue;
      case Body(n) =>
        var _ := w.Write(n);
      case LogWarning(text) =>
        t.Log(WarnLine(text, ctx));
      case CountOrder =>
        t.OrderCreated();
      case HandOver(order) =>
        t.PublishOrder(order, ctx.span);
    }
  }

  method Run(script: Script, ctx: Context, w: ResponseWriter, t: Sinks) returns (panicked: bool)
    requires w.Valid() && t.Valid() && t !in w.repr
    modifies w.repr, t
    ensures var o := RunScript(script, ctx, old(w.States()));
            && w.States() == o.chain && panicked == o.panicked
            && t.Valid() && t.trace == old(t.trace) + o.events
    decreases |script|
  {
    hide Perform, ResponseWriter.States, ResponseWriter.Valid, Sinks.Valid;
    if script == [] {
      return false;
    }
    var turn := Do(script[0], ctx, w, t);
    if turn != Continue {
      return turn.Explode?;
    }
    panicked := Run(script[1..], ctx, w, t);
  }

  method ServeHTTP(stack: seq<Layer>, h: Script, req: Request, ctx: Context, w: ResponseWriter, t: Sinks)
    returns (panicked: bool)
    requires w.Valid() && t.Valid() && t !in w.repr
    modifies w.repr, t
    ensures var o := Serve(stack, h, req, ctx, old(w.States()));
            && w.States() == o.chain && panicked == o.panicked
            && t.Valid() && t.trace == old(t.trace) + o.events
    decreases |stack|, 1
  {
    hide ResponseWriter.States, ResponseWriter.Valid, Sinks.Valid;
    if stack == [] {
      panicked := Run(h, ctx, w, t);
      return;
    }
    match stack[0] {
      case PanicGuard => panicked := GuardPanics(stack[1..], h, req, ctx, w, t);
      case TraceHTTP(draw) => panicked := Trace(draw, stack[1..], h, req, ctx, w, t);
      case RequestLogger(id) => panicked := LogRequest(id, stack[1..], h, req, ctx, w, t);
      case Instrument => panicked := Measure(stack[1..], h, req, ctx, w, t);
      case _ =>
        match GateVerdict(stack[0]) {
          case Pass => panicked := ServeHTTP(stack[1..], h, req, ctx, w, t);
          case Reply(script) => panicked := Run(script, ctx, w, t);
        }
    }
  }

  /** What the four recording layers share: wrap the writer and call next. */
  method Inside(kind: Kind, next: seq<Layer>, h: Script, req: Request, ctx: Context, w: ResponseWriter, t: Sinks)
    returns (rec: ResponseWriter, seen: WriterState, panicked: bool)
    requires w.Valid() && t.Valid() && t !in w.repr && !kind.Connection?
    modifies w.repr, t
    ensures rec.Valid() && fresh(rec) && rec.repr == {rec} + w.repr && rec.inner == w
    ensures var o := Serve(next, h, req, ctx, old(w.States()) + [Fresh(kind)]);
            && rec.States() == o.chain && rec.State() == seen == Top(o.chain)
            && w.States() == Pop(o.chain) && panicked == o.panicked
            && t.Valid() && t.trace == old(t.trace) + o.events
    decreases |next|, 2
  {
    hide Serve, ResponseWriter.Valid, Sinks.Valid;
    rec := new ResponseWriter.Wrap(kind, w);
    panicked := ServeHTTP(next, h, req, ctx, rec, t);
    seen := rec.State();
  }

  /** PanicGuard: recover, log, answer 500 if no header went out; never re-panic. */
  method GuardPanics(next: seq<Layer>, h: Script, req: Request, ctx: Context, w: ResponseWriter, t: Sinks)
    returns (panicked: bool)
    requires w.Valid() && t.Valid() && t !in w.repr
    modifies w.repr, t
    ensures var o := AfterPanicGuard(Serve(next, h, req, ctx, old(w.States()) + [Fresh(BodyRecorder)]), ctx);
            && w.States() == o.chain && panicked == o.panicked
            && t.Valid() && t.trace == old(t.trace) + o.events
    decreases |next|, 3
  {
    hide Serve, ResponseWriter.States, ResponseWriter.Valid, Sinks.Valid;
    var rec, seen, recovered := Inside(BodyRecorder, next, h, req, ctx, w, t);
    panicked := false;
    if recovered {
      t.Log(PanicLine(ctx));
      if !seen.wroteHeader {
        SendError(rec, w);
      }
    }
  }

  method SendError(rec: ResponseWriter, w: ResponseWriter)
    requires rec.Valid() && rec.inner == w
    modifies rec.repr
    ensures w.Valid() && w.States() == Pop(ChainHeader(old(rec.States()), 500))
  {
    var _ := rec.WriteHeader(500);
    assert w.States() == Pop(rec.States());
  }

  /** TraceHTTP: a server span around the request, marked on panic and on 5xx. */
  method Trace(draw: Draw, next: seq<Layer>, h: Script, req: Request, ctx: Context, w: ResponseWriter, t: Sinks)
    returns (panicked: bool)
    requires w.Valid() && t.Valid() && t !in w.repr
    modifies w.repr, t
    ensures var inner := TraceContext(req, ctx, draw);
            var o := AfterTraceHTTP(Serve(next, h, req, inner, old(w.States()) + [Fresh(BodyRecorder)]),
                                    TraceParent(req, ctx), inner.span);
            && w.States() == o.chain && panicked == o.panicked
            && t.Valid() && t.trace == old(t.trace) + o.events
    decreases |next|, 3
  {
    hide Serve, ResponseWriter.States, ResponseWriter.Valid, Sinks.Valid;
    var parent, inner := TraceParent(req, ctx), TraceContext(req, ctx, draw);
    t.Start(inner.span);
    var rec, seen;
    rec, seen, panicked := Inside(BodyRecorder, next, h, req, inner, w, t);
    var span := Span(inner.span, parent, true, None);
    if !panicked {
      span := Span(inner.span, parent, seen.status >= 500, Some(seen.status));
    }
    t.End(span);
  }

  /** RequestLogger: one canonical line, unless a panic passes through. */
  method LogRequest(id: string, next: seq<Layer>, h: Script, req: Request, ctx: Context, w: ResponseWriter, t: Sinks)
    returns (panicked: bool)
    requires w.Valid() && t.Valid() && t !in w.repr
    modifies w.repr, t
    ensures var inner := ctx.(requestID := Some(id));
            var o := AfterRequestLogger(Serve(next, h, req, inner, old(w.States()) + [Fresh(BodyRecorder)]), inner);
            && w.States() == o.chain && panicked == o.panicked
            && t.Valid() && t.trace == old(t.trace) + o.events
    decreases |next|, 3
  {
    hide Serve, ResponseWriter.States, ResponseWriter.Valid, Sinks.Valid;
    var inner := ctx.(requestID := Some(id));
    var rec, seen;
    rec, seen, panicked := Inside(BodyRecorder, next, h, req, inner, w, t);
    if !panicked {
      t.Log(CanonicalLine(seen, inner));
    }
  }

  /** Instrument: the gauge around the request; counter, histogram and summary
      once it is over, a panic being counted as 500 and passed on. */
  method Measure(next: seq<Layer>, h: Script, req: Request, ctx: Context, w: ResponseWriter, t: Sinks)
    returns (panicked: bool)
    requires w.Valid() && t.Valid() && t !in w.repr
    modifies w.repr, t
    ensures var o := AfterInstrument(Serve(next, h, req, ctx, old(w.States()) + [Fresh(StatusRecorder)]), req, ctx);
            && w.States() == o.chain && panicked == o.panicked
            && t.Valid() && t.trace == old(t.trace) + o.events
    decreases |next|, 3
  {
    hide Serve, ResponseWriter.States, ResponseWriter.Valid, Sinks.Valid;
    t.Inc(req.route);
    var rec, seen;
    rec, seen, panicked := Inside(StatusRecorder, next, h, req, ctx, w, t);
    var status := if panicked then 500 else seen.status;
    Record(req, ctx, status, t);
  }

  /** The deferred half of Instrument. */
  method Record(req: Request, ctx: Context, status: int, t: Sinks)
    requires t.Valid()
    modifies t
    ensures t.Valid() && t.trace == old(t.trace) + Recorded(req, ctx, status)
  {
    t.Count(req.verb, req.route, status);
    t.Observe(req.verb, req.route, ExemplarFor(ctx));
    t.Summarise(req.verb, req.route);
    t.Dec(req.route);
  }
}
