/** The three stacks of internal/api/router.go and what one request through them
    leaves behind. */
module Router {
  import opened Wrappers
  import opened Traceparent
  import opened Responses
  import opened Telemetry
  import opened Middleware
  import opened StackTheory
  import opened ChaosControl

  /** The fresh identifiers of one request. */
  datatype Draws = Draws(span: Draw, requestID: string)

  datatype Route =
    | BusinessRoute(snapshot: ChaosState, cancelled: bool, lot: real, chaosBody: nat)
    | PlainRoute
    | ControlRoute(token: string, credentials: Credentials, adminBody: nat)

  function Gates(r: Route): seq<Layer> {
    match r
    case BusinessRoute(s, c, lot, n) => [ChaosGate(s, c, lot, n)]
    case PlainRoute => []
    case ControlRoute(token, credentials, n) => [AdminGate(token, credentials, n)]
  }

  /** PanicGuard outermost; a span on all but the plain routes; then the canonical
      line, the RED metrics and the gate. */
  function Stack(r: Route, d: Draws): seq<Layer> {
    Recording(!r.PlainRoute?, d) + Gates(r)
  }

  function Recording(traced: bool, d: Draws): seq<Layer> {
    if traced then [PanicGuard, TraceHTTP(d.span), RequestLogger(d.requestID), Instrument]
    else [PanicGuard, RequestLogger(d.requestID), Instrument]
  }

  /** A request straight off the wire. */
  function Visit(r: Route, d: Draws, h: Script, req: Request): Outcome {
    Serve(Stack(r, d), h, req, BACKGROUND, [Fresh(Connection)])
  }

  /** The part of the handler, or of the gate in its place, that is performed. */
  function Performed(r: Route, d: Draws, h: Script): Cut {
    Trim(Answering(Stack(r, d), h), false)
  }

  function SpanOf(d: Draws, req: Request): SpanContext {
    StartSpan(if req.upstream.IsValid() then req.upstream.(remote := true) else ABSENT, d.span)
  }

  /** The context the handler works in. */
  function HandlerContext(r: Route, d: Draws, req: Request): Context {
    if r.PlainRoute? then Context(Some(d.requestID), None, ABSENT)
    else
      var sc := SpanOf(d, req);
      Context(Some(d.requestID), Some((Hex(sc.traceID), Hex(sc.spanID))), sc)
  }

  lemma StackEntered(r: Route, d: Draws)
    ensures Entered(Stack(r, d)) == Recording(!r.PlainRoute?, d)
  {
    var layers := Stack(r, d);
    var n := |Recording(!r.PlainRoute?, d)|;
    EnteredTail(layers, n);
    assert layers[..n] == Recording(!r.PlainRoute?, d) && layers[n..] == Gates(r);
    if Gates(r) != [] {
      assert Gates(r)[1..] == [];
      assert Entered(Gates(r)) == [];
    }
  }

  lemma {:induction false} EnteredTail(stack: seq<Layer>, n: nat)
    requires n <= |stack| && GateFree(stack[..n])
    ensures Entered(stack) == stack[..n] + Entered(stack[n..])
  {
    if n > 0 {
      assert stack[..n][0] == stack[0];
      assert stack[1..][..n - 1] == stack[..n][1..];
      EnteredTail(stack[1..], n - 1);
      assert stack[1..][n - 1..] == stack[n..];
      assert stack[..n] == [stack[0]] + stack[1..][..n - 1];
    }
  }

  // ---------- the whole record of one request ----------

  function CounterLabel(t: Cut): int {
    if t.panics then 500 else RecordedStatus(t.ops)
  }

  function Canonical(t: Cut, ctx: Context): Line {
    var status := RecordedStatus(t.ops);
    Line(RequestLine, LineLevel(status), ctx.requestID, ctx.ids, Some(status), Some(BodyTotal(t.ops)))
  }

  function ServerSpan(t: Cut, req: Request, sc: SpanContext): Span {
    Span(sc, if req.upstream.IsValid() then req.upstream.(remote := true) else ABSENT,
         t.panics || RecordedStatus(t.ops) >= 500,
         if t.panics then None else Some(RecordedStatus(t.ops)))
  }

  /** Up to the counter, and from the counter on. */
  function Head(r: Route, d: Draws, t: Cut, req: Request): seq<Event> {
    (if r.PlainRoute? then [] else [SpanStarted(SpanOf(d, req))])
    + [GaugeInc(req.route)] + Noted(t.ops, HandlerContext(r, d, req))
  }

  function Tail(r: Route, d: Draws, t: Cut, req: Request): seq<Event> {
    (if t.panics then [] else [Logged(Canonical(t, HandlerContext(r, d, req)))])
    + (if r.PlainRoute? then [] else [SpanEnded(ServerSpan(t, req, SpanOf(d, req)))])
    + (if t.panics then [Logged(Line(PanicRecovered, Error, None, None, None, None))] else [])
  }

  lemma LayerOutcome(stack: seq<Layer>, t: Cut, h: Script, req: Request, ctx: Context, chain: Chain)
    requires stack != [] && GateFree(stack) && chain != [] && chain[0].kind.Connection?
    requires t == Trim(h, chain[0].wroteHeader) && !Guarded(stack[1..])
    ensures var inner := ContextInside(stack[0], req, ctx);
            var o := Serve(stack[1..], h, req, inner, chain + [Pushed(stack[0])]);
            && o.panicked == t.panics && Top(o.chain).status == RecordedStatus(t.ops)
            && (Pushed(stack[0]).kind.BodyRecorder? ==> Top(o.chain).bytes == BodyTotal(t.ops))
            && Serve(stack, h, req, ctx, chain).events
            == Opening(stack[0], req, ctx) + o.events + Closing(stack[0], o, req, ctx)
  {
    var f, inner := Pushed(stack[0]), ContextInside(stack[0], req, ctx);
    OneLayer(stack, h, req, ctx, chain);
    BareWriterEffect(stack[1..], h, req, inner, chain + [f]);
    AfterAllPop(t.ops, chain, f);
    assert t.ops + [] == t.ops;
    RecorderReads(t.ops, f);
  }

  /** [Instrument] and [RequestLogger, Instrument], around any handler. */
  lemma Measured(id: string, h: Script, t: Cut, req: Request, ctx: Context, chain: Chain)
    requires chain != [] && chain[0].kind.Connection? && t == Trim(h, chain[0].wroteHeader)
    ensures Serve([Instrument], h, req, ctx, chain).events
         == [GaugeInc(req.route)] + Noted(t.ops, ctx) + Recorded(req, ctx, CounterLabel(t))
    ensures var inner := ctx.(requestID := Some(id));
            Serve([RequestLogger(id), Instrument], h, req, ctx, chain).events
            == [GaugeInc(req.route)] + Noted(t.ops, inner) + Recorded(req, inner, CounterLabel(t))
             + (if t.panics then [] else [Logged(Canonical(t, inner))])
  {
    InstrumentOnly(h, t, req, ctx, chain);
    var inner := ctx.(requestID := Some(id));
    InstrumentOnly(h, t, req, inner, chain + [Fresh(BodyRecorder)]);
    var stack := [RequestLogger(id), Instrument];
    assert stack[1..] == [Instrument];
    LayerOutcome(stack, t, h, req, ctx, chain);
  }

  lemma InstrumentOnly(h: Script, t: Cut, req: Request, ctx: Context, chain: Chain)
    requires chain != [] && chain[0].kind.Connection? && t == Trim(h, chain[0].wroteHeader)
    ensures Serve([Instrument], h, req, ctx, chain).events
         == [GaugeInc(req.route)] + Noted(t.ops, ctx) + Recorded(req, ctx, CounterLabel(t))
  {
    var stack := [Instrument];
    assert stack[1..] == [];
    LayerOutcome(stack, t, h, req, ctx, chain);
    ScriptEffect(h, ctx, chain + [Fresh(StatusRecorder)]);
  }

  lemma PlainRecord(d: Draws, h: Script, t: Cut, req: Request)
    requires t == Trim(h, false)
    ensures Serve(Recording(false, d), h, req, BACKGROUND, [Fresh(Connection)]).events
         == Head(PlainRoute, d, t, req)
          + Recorded(req, HandlerContext(PlainRoute, d, req), CounterLabel(t))
          + Tail(PlainRoute, d, t, req)
  {
    hide Serve;
    var stack := Recording(false, d);
    assert stack[1..] == [RequestLogger(d.requestID), Instrument];
    LayerOutcome(stack, t, h, req, BACKGROUND, [Fresh(Connection)]);
    Measured(d.requestID, h, t, req, BACKGROUND, [Fresh(Connection)] + [Fresh(BodyRecorder)]);
  }

  lemma Bracket(s: seq<Event>, m: seq<Event>, n: seq<Event>, c: seq<Event>, e: seq<Event>, p: seq<Event>)
    ensures [] + (s + (m + n + c) + e) + p == s + m + n + (c + e + p)
  {
  }

  lemma TracedRecord(r: Route, d: Draws, h: Script, t: Cut, req: Request)
    requires !r.PlainRoute? && t == Trim(h, false)
    ensures Serve(Recording(true, d), h, req, BACKGROUND, [Fresh(Connection)]).events
         == Head(r, d, t, req)
          + Recorded(req, HandlerContext(r, d, req), CounterLabel(t))
          + Tail(r, d, t, req)
  {
    hide Serve, Recorded, Noted, StartSpan, Trim, RecordedStatus, BodyTotal;
    var stack, chain := Recording(true, d), [Fresh(Connection)];
    var ctx := HandlerContext(r, d, req);
    var inner := stack[1..];
    assert inner == [TraceHTTP(d.span), RequestLogger(d.requestID), Instrument];
    assert inner[1..] == [RequestLogger(d.requestID), Instrument];
    LayerOutcome(stack, t, h, req, BACKGROUND, chain);
    LayerOutcome(inner, t, h, req, BACKGROUND, chain + [Fresh(BodyRecorder)]);
    Measured(d.requestID, h, t, req, TraceContext(req, BACKGROUND, d.span),
             chain + [Fresh(BodyRecorder)] + [Fresh(BodyRecorder)]);
    Bracket([SpanStarted(SpanOf(d, req))], [GaugeInc(req.route)] + Noted(t.ops, ctx),
            Recorded(req, ctx, CounterLabel(t)),
            if t.panics then [] else [Logged(Canonical(t, ctx))],
            [SpanEnded(ServerSpan(t, req, SpanOf(d, req)))],
            if t.panics then [Logged(Line(PanicRecovered, Error, None, None, None, None))] else []);
  }

  /** The full record of a request through any router stack, for any handler, chaos
      state, credentials and panics, in order. */
  lemma RequestRecord(r: Route, d: Draws, h: Script, req: Request)
    ensures var o, t := Visit(r, d, h, req), Performed(r, d, h);
            && !o.panicked
            && o.events == Head(r, d, t, req)
                         + Recorded(req, HandlerContext(r, d, req), CounterLabel(t))
                         + Tail(r, d, t, req)
            && o.chain == [WriterState(Connection,
                 OrElse(Committed(t.ops), if t.panics && FirstHeader(t.ops).None? then 500 else 200),
                 BodyTotal(t.ops),
                 Committed(t.ops).Some? || (t.panics && FirstHeader(t.ops).None?))]
  {
    hide Serve, Head, Tail, Recorded;
    var script, t := Answering(Stack(r, d), h), Performed(r, d, h);
    var stack := Recording(!r.PlainRoute?, d);
    GatesChoose(Stack(r, d), h, req, BACKGROUND, [Fresh(Connection)]);
    StackEntered(r, d);
    assert stack[0].PanicGuard? && Guarded(stack);
    BareWriterEffect(stack, script, req, BACKGROUND, [Fresh(Connection)]);
    NetOnConnection(stack, t);
    if r.PlainRoute? {
      PlainRecord(d, script, t, req);
    } else {
      TracedRecord(r, d, script, t, req);
    }
  }

  lemma NetOnConnection(stack: seq<Layer>, t: Cut)
    requires Guarded(stack)
    ensures var rescued := t.panics && FirstHeader(t.ops).None?;
            AfterAll(Net(stack, t), [Fresh(Connection)])
            == [WriterState(Connection, OrElse(Committed(t.ops), if rescued then 500 else 200),
                            BodyTotal(t.ops), Committed(t.ops).Some? || rescued)]
  {
    ConnectionReads(t.ops, Fresh(Connection));
    assert t.ops + [] == t.ops;
    AfterSnoc(t.ops, Header(500), Fresh(Connection));
  }

  /** The same record with nothing left to look up: every field of every signal. */
  lemma RecordInFull(r: Route, d: Draws, h: Script, req: Request)
    ensures var o, t, sc := Visit(r, d, h, req), Performed(r, d, h), SpanOf(d, req);
            var traced := !r.PlainRoute?;
            var status, bytes := if t.panics then 500 else RecordedStatus(t.ops), BodyTotal(t.ops);
            var ids := if traced then Some((Hex(sc.traceID), Hex(sc.spanID))) else None;
            var parent := if req.upstream.IsValid() then req.upstream.(remote := true) else ABSENT;
            var exemplar := if traced && sc.IsValid() && sc.flags % 2 == 1 then Some(sc.traceID) else None;
            var level := if status >= 500 then Error else if status >= 400 then Warn else Info;
            o.events
            == (if traced then [SpanStarted(sc)] else [])
             + [GaugeInc(req.route)]
             + Noted(t.ops, Context(Some(d.requestID), ids, if traced then sc else ABSENT))
             + [RequestCounted(req.verb, req.route, status), DurationObserved(req.verb, req.route, exemplar),
                SummaryObserved(req.verb, req.route), GaugeDec(req.route)]
             + ((if t.panics then []
                 else [Logged(Line(RequestLine, level, Some(d.requestID), ids, Some(status), Some(bytes)))])
                + (if traced then [SpanEnded(Span(sc, parent, status >= 500, if t.panics then None else Some(status)))]
                   else [])
                + (if t.panics then [Logged(Line(PanicRecovered, Error, None, None, None, None))] else []))
  {
    hide Visit, Performed, Noted, SpanOf, Hex;
    RequestRecord(r, d, h, req);
    assert !NonZero(NO_TRACE);
  }

  /** The request's own span: its id is the one drawn; with a valid upstream it has the
      upstream's trace id and sampling, without one it starts the trace drawn. */
  lemma SpanOfRequest(d: Draws, req: Request)
    ensures var sc := SpanOf(d, req);
            && sc.spanID == d.span.spanID && !sc.remote
            && sc.traceID == (if req.upstream.IsValid() then req.upstream.traceID else d.span.traceID)
            && sc.flags % 2
               == (if req.upstream.IsValid() then req.upstream.flags % 2 else if d.span.sampled then 1 else 0)
  {
    hide StartSpan;
    StartSpanRules(if req.upstream.IsValid() then req.upstream.(remote := true) else ABSENT, d.span);
    assert !NonZero(NO_TRACE);
  }

  // ---------- what the chaos gate does to a request ----------

  /** Injected failure: the client is still there and the draw falls below the ratio.
      No part of the handler runs; the client gets a 500 with the error body, and the
      request leaves a warning and is recorded as a 500 everywhere. */
  lemma ChaosFails(s: ChaosState, cancelled: bool, lot: real, n: nat, d: Draws, h: Script, req: Request)
    requires s.enabled && !(s.latencyMs > 0 && cancelled) && 0.0 <= lot < s.errorRatio
    ensures var o, sc := Visit(BusinessRoute(s, cancelled, lot, n), d, h, req), SpanOf(d, req);
            var ids := Some((Hex(sc.traceID), Hex(sc.spanID)));
            var exemplar := if sc.IsValid() && sc.flags % 2 == 1 then Some(sc.traceID) else None;
            && !o.panicked && o.chain == [WriterState(Connection, 500, n, true)]
            && o.events == [
                 SpanStarted(sc), GaugeInc(req.route),
                 Logged(Line(Warning("chaos injected failure"), Warn, Some(d.requestID), None, None, None)),
                 RequestCounted(req.verb, req.route, 500),
                 DurationObserved(req.verb, req.route, exemplar),
                 SummaryObserved(req.verb, req.route), GaugeDec(req.route),
                 Logged(Line(RequestLine, Error, Some(d.requestID), ids, Some(500), Some(n))),
                 SpanEnded(Span(sc, if req.upstream.IsValid() then req.upstream.(remote := true) else ABSENT,
                                true, Some(500)))]
  {
    hide Serve, SpanOf, Hex, HandlerContext, Noted, BodyTotal, RecordedStatus, Committed, Performed;
    var r := BusinessRoute(s, cancelled, lot, n);
    ChaosPerforms(s, cancelled, lot, n, d, h, HandlerContext(r, d, req));
    RequestRecord(r, d, h, req);
    RecordInFull(r, d, h, req);
    HandlerContextIs(r, d, req);
  }

  lemma HandlerContextIs(r: Route, d: Draws, req: Request)
    requires !r.PlainRoute?
    ensures var sc := SpanOf(d, req);
            HandlerContext(r, d, req) == Context(Some(d.requestID), Some((Hex(sc.traceID), Hex(sc.spanID))), sc)
  {
  }

  lemma ChaosPerforms(s: ChaosState, cancelled: bool, lot: real, n: nat, d: Draws, h: Script, ctx: Context)
    requires s.enabled && !(s.latencyMs > 0 && cancelled) && 0.0 <= lot < s.errorRatio
    ensures var t := Performed(BusinessRoute(s, cancelled, lot, n), d, h);
            && !t.panics && RecordedStatus(t.ops) == 500 && Committed(t.ops) == Some(500) && BodyTotal(t.ops) == n
            && Noted(t.ops, ctx)
               == [Logged(Line(Warning("chaos injected failure"), Warn, ctx.requestID, None, None, None))]
  {
    var script: Script := [LogWarning("chaos injected failure"), Header(500), Body(n)];
    BusinessAnswer(s, cancelled, lot, n, d, h);
    WarnedJSON("chaos injected failure", n);
    var last: Script := [Body(n)];
    NotedRules([Header(500)] + last, ctx, "chaos injected failure", OrderEvent(0, 0, 0), 500, n);
    NotedRules(last, ctx, "", OrderEvent(0, 0, 0), 500, n);
    NotedRules([], ctx, "", OrderEvent(0, 0, 0), 500, n);
    assert script == [LogWarning("chaos injected failure")] + ([Header(500)] + last) && last == last + [];
  }

  lemma WarnedJSON(text: string, n: nat)
    ensures var script := [LogWarning(text), Header(500), Body(n)];
            && Trim(script, false) == Cut(script, false)
            && RecordedStatus(script) == 500 && Committed(script) == Some(500) && BodyTotal(script) == n
  {
    var script: Script := [LogWarning(text), Header(500), Body(n)];
    var rest: Script := [Body(n)];
    assert script[1..] == WriteJSON(500, n) && WriteJSON(500, n)[1..] == rest && rest[1..] == [];
    WriteJSONIsHeaderFirst(500, n);
    assert FirstHeader(script) == FirstHeader(script[1..]);
    assert Committed(script) == Committed(script[1..]);
    assert BodyTotal(rest) == n && BodyTotal(script[1..]) == n;
  }

  lemma BusinessAnswer(s: ChaosState, cancelled: bool, lot: real, n: nat, d: Draws, h: Script)
    requires 0.0 <= lot
    ensures Answering(Stack(BusinessRoute(s, cancelled, lot, n), d), h)
         == if s.enabled && s.latencyMs > 0 && cancelled then []
            else if s.enabled && lot < s.errorRatio then [LogWarning("chaos injected failure"), Header(500), Body(n)]
            else h
  {
    var r := BusinessRoute(s, cancelled, lot, n);
    AnsweringTail(Recording(true, d), Gates(r), h);
    assert Gates(r)[1..] == [] && Answering([], h) == h;
  }

  /** A client that leaves during injected latency: nothing is performed at all, so the
      request is recorded with the untouched 200 and no bytes. */
  lemma ChaosGivesUp(s: ChaosState, lot: real, n: nat, d: Draws, h: Script, req: Request)
    requires s.enabled && s.latencyMs > 0 && 0.0 <= lot
    ensures Performed(BusinessRoute(s, true, lot, n), d, h) == Cut([], false)
    ensures var o := Visit(BusinessRoute(s, true, lot, n), d, h, req);
            && !o.panicked && o.chain == [WriterState(Connection, 200, 0, false)]
            && RequestCounted(req.verb, req.route, 200) in o.events
  {
    BusinessAnswer(s, true, lot, n, d, h);
    hide Visit, SpanOf, HandlerContext, Answering;
    RequestRecord(BusinessRoute(s, true, lot, n), d, h, req);
  }

  /** In every other case the handler runs as if there were no chaos layer. */
  lemma ChaosPasses(s: ChaosState, cancelled: bool, lot: real, n: nat, d: Draws, h: Script, req: Request)
    requires 0.0 <= lot
    requires !s.enabled || ((s.latencyMs <= 0 || !cancelled) && lot >= s.errorRatio)
    ensures Visit(BusinessRoute(s, cancelled, lot, n), d, h, req)
         == Serve(Recording(true, d), h, req, BACKGROUND, [Fresh(Connection)])
  {
    var gate := ChaosGate(s, cancelled, lot, n);
    PassingGateInvisible(Recording(true, d), gate, [], h, req, BACKGROUND, [Fresh(Connection)]);
    assert Recording(true, d) + [gate] + [] == Stack(BusinessRoute(s, cancelled, lot, n), d);
    assert Recording(true, d) + [] == Recording(true, d);
  }

  /** Who is admitted to the control plane gets the handler and nothing else; without a
      configured token that is everyone. A health probe always does. */
  lemma AdmittedIsInvisible(token: string, credentials: Credentials, n: nat, d: Draws, h: Script, req: Request)
    requires || token == "" || credentials.authorization == "Bearer " + token
             || (!("Bearer " <= credentials.authorization) && credentials.query == token)
    ensures Visit(ControlRoute(token, credentials, n), d, h, req)
         == Serve(Recording(true, d), h, req, BACKGROUND, [Fresh(Connection)])
    ensures Visit(PlainRoute, d, h, req) == Serve(Recording(false, d), h, req, BACKGROUND, [Fresh(Connection)])
  {
    var gate := AdminGate(token, credentials, n);
    AdmittedExactly(token, credentials);
    PassingGateInvisible(Recording(true, d), gate, [], h, req, BACKGROUND, [Fresh(Connection)]);
    assert Recording(true, d) + [gate] + [] == Stack(ControlRoute(token, credentials, n), d);
    assert Recording(true, d) + [] == Recording(true, d);
    assert Recording(false, d) + [] == Recording(false, d);
  }

  // ---------- what the record says ----------

  /** Of the canonical line and the panic line a request leaves exactly one, the
      former exactly if what it performs does not panic; it is counted once, on its
      own series; its span ends once if it is traced; and it leaves the gauge as it
      found it. */
  lemma ExactlyOnce(r: Route, d: Draws, h: Script, req: Request, other: string)
    ensures var es := Visit(r, d, h, req).events;
            && Tally(es, CanonicalLines) == (if Performed(r, d, h).panics then 0 else 1)
            && Tally(es, PanicLines) == (if Performed(r, d, h).panics then 1 else 0)
            && Tally(es, Counted(req.verb, req.route)) == 1
            && Tally(es, Observed(req.verb, req.route)) == Tally(es, Summarised(req.verb, req.route)) == 1
            && Tally(es, SpansStarted) == Tally(es, SpansEnded) == (if r.PlainRoute? then 0 else 1)
            && Tally(es, InProgress(other)) == 0
  {
    hide Serve, Expected;
    var script, t, stack := Answering(Stack(r, d), h), Performed(r, d, h), Recording(!r.PlainRoute?, d);
    GatesChoose(Stack(r, d), h, req, BACKGROUND, [Fresh(Connection)]);
    StackEntered(r, d);
    forall s: Signal | !s.CountedAs?
      ensures Tally(Visit(r, d, h, req).events, s) == Expected(s, stack, t, req)
    {
      BareSignalCount(s, stack, script, req, BACKGROUND, [Fresh(Connection)]);
    }
    RecordingExpects(CanonicalLines, !r.PlainRoute?, d, t, req);
    RecordingExpects(PanicLines, !r.PlainRoute?, d, t, req);
    RecordingExpects(Counted(req.verb, req.route), !r.PlainRoute?, d, t, req);
    RecordingExpects(Observed(req.verb, req.route), !r.PlainRoute?, d, t, req);
    RecordingExpects(Summarised(req.verb, req.route), !r.PlainRoute?, d, t, req);
    RecordingExpects(SpansStarted, !r.PlainRoute?, d, t, req);
    RecordingExpects(SpansEnded, !r.PlainRoute?, d, t, req);
    RecordingExpects(InProgress(other), !r.PlainRoute?, d, t, req);
  }

  lemma {:induction false} NoOpsOf(ops: Script, s: Signal)
    requires !s.OrdersCounted? && !s.OrdersHandedOver?
    ensures OpsOf(ops, s) == 0
  {
    if ops != [] {
      NoOpsOf(ops[1..], s);
    }
  }

  lemma RecordingExpects(s: Signal, traced: bool, d: Draws, t: Cut, req: Request)
    requires !s.OrdersCounted? && !s.OrdersHandedOver? && !s.CountedAs?
    ensures Expected(s, Recording(traced, d), t, req)
         == match s
            case InProgress(_) => 0
            case Counted(v, r) => if (v, r) == (req.verb, req.route) then 1 else 0
            case Observed(v, r) => if (v, r) == (req.verb, req.route) then 1 else 0
            case Summarised(v, r) => if (v, r) == (req.verb, req.route) then 1 else 0
            case SpansStarted => if traced then 1 else 0
            case SpansEnded => if traced then 1 else 0
            case CanonicalLines => if t.panics then 0 else 1
            case PanicLines => if t.panics then 1 else 0
            case _ => 0
  {
    NoOpsOf(t.ops, s);
    var stack := Recording(traced, d);
    var three, two, one := stack[1..], stack[1..][1..], stack[1..][1..][1..];
    assert LayersOf([], s, t.panics) == 0;
    if traced {
      assert three == [TraceHTTP(d.span), RequestLogger(d.requestID), Instrument];
      assert two == [RequestLogger(d.requestID), Instrument] && one == [Instrument] && one[1..] == [];
    } else {
      assert three == [RequestLogger(d.requestID), Instrument] && two == [Instrument] && one == [];
      assert !Guarded(two) && !Guarded(three);
      assert LayersOf(two, s, t.panics) == (if s.Counted? || s.Observed? || s.Summarised? then 1 else 0);
      assert LayersOf(three, s, t.panics) == LayersOf(two, s, t.panics)
                                           + (if s.CanonicalLines? && !t.panics then 1 else 0);
    }
  }

  /** The client, the counter label, the canonical line and the span attribute show
      one status whenever the performed part of the handler does not panic and asks
      for its header as HeaderBeforeBody says; and the wire differs from the rest
      in every other case without a panic. */
  lemma OneStatus(r: Route, d: Draws, h: Script, req: Request)
    requires !Performed(r, d, h).panics
    ensures var o, ops := Visit(r, d, h, req), Performed(r, d, h).ops;
            && (forall e :: e in o.events ==> Reports(e, RecordedStatus(ops), BodyTotal(ops)))
            && (o.chain[0].status == RecordedStatus(ops) <==> HeaderBeforeBody(ops))
  {
    hide Serve, Reports;
    var script, ops := Answering(Stack(r, d), h), Performed(r, d, h).ops;
    RequestRecord(r, d, h, req);
    RecordersMatchWire(ops);
    GatesChoose(Stack(r, d), h, req, BACKGROUND, [Fresh(Connection)]);
    StackEntered(r, d);
    BareSignalsAgree(Recording(!r.PlainRoute?, d), script, req, BACKGROUND, [Fresh(Connection)]);
  }

  /** The requirement is met by every response written with writeJSON. */
  lemma WriteJSONIsHeaderFirst(code: int, n: nat)
    requires FinalCode(code)
    ensures Trim(WriteJSON(code, n), false) == Cut(WriteJSON(code, n), false)
    ensures HeaderBeforeBody(WriteJSON(code, n)) && RecordedStatus(WriteJSON(code, n)) == code
    ensures Committed(WriteJSON(code, n)) == Some(code) && BodyTotal(WriteJSON(code, n)) == n
  {
    var rest: Script := [Body(n)];
    assert WriteJSON(code, n)[1..] == rest && rest[1..] == [];
    assert Trim(rest, true) == Cut(rest, false);
    assert BodyTotal(rest) == n;
  }

  /** Logs, spans and exemplars of a traced request carry one identity: the span's.
      Warnings from inside the handler carry the request id but no trace id, and
      the line of a recovered panic carries neither. */
  lemma Correlated(r: Route, d: Draws, h: Script, req: Request)
    requires !r.PlainRoute?
    ensures var sc := SpanOf(d, req);
            forall e :: e in Visit(r, d, h, req).events ==>
              && (e.Logged? && e.line.msg.RequestLine? ==>
                    e.line.ids == Some((Hex(sc.traceID), Hex(sc.spanID))) && e.line.requestID == Some(d.requestID))
              && (e.Logged? && e.line.msg.Warning? ==> e.line.ids.None? && e.line.requestID == Some(d.requestID))
              && (e.Logged? && e.line.msg.PanicRecovered? ==> e.line.ids.None? && e.line.requestID.None?)
              && (e.SpanEnded? ==> e.span.context == sc)
              && (e.DurationObserved? ==>
                    e.exemplar == if sc.IsValid() && sc.IsSampled() then Some(sc.traceID) else None)
  {
    hide Serve;
    RequestRecord(r, d, h, req);
    NotedHasNoStatus(Performed(r, d, h).ops, HandlerContext(r, d, req));
    NotedHasNoDuration(Performed(r, d, h).ops, HandlerContext(r, d, req));
  }

  lemma {:induction false} NotedHasNoDuration(ops: Script, ctx: Context)
    ensures forall e :: e in Noted(ops, ctx) ==> e.Logged? || e.OrderCounted? || e.OrderHandedOver?
  {
    if ops != [] {
      NotedHasNoDuration(ops[1..], ctx);
    }
  }

  /** A gate that lets the request pass is invisible, wherever it stands. */
  lemma PassingGateInvisible(
    outer: seq<Layer>, gate: Layer, inner: seq<Layer>, h: Script, req: Request, ctx: Context, chain: Chain)
    requires chain != [] && gate.IsGate() && GateVerdict(gate).Pass?
    ensures Serve(outer + [gate] + inner, h, req, ctx, chain) == Serve(outer + inner, h, req, ctx, chain)
  {
    GatesChoose(outer + [gate] + inner, h, req, ctx, chain);
    GatesChoose(outer + inner, h, req, ctx, chain);
    GateSkipped(outer, gate, inner, h);
  }

  lemma {:induction false} GateSkipped(outer: seq<Layer>, gate: Layer, inner: seq<Layer>, h: Script)
    requires gate.IsGate() && GateVerdict(gate).Pass?
    ensures Entered(outer + [gate] + inner) == Entered(outer + inner)
    ensures Answering(outer + [gate] + inner, h) == Answering(outer + inner, h)
  {
    if outer == [] {
      assert outer + [gate] + inner == [gate] + inner && outer + inner == inner;
      assert ([gate] + inner)[1..] == inner;
    } else {
      GateSkipped(outer[1..], gate, inner, h);
      assert (outer + [gate] + inner)[1..] == outer[1..] + [gate] + inner;
      assert (outer + inner)[1..] == outer[1..] + inner;
    }
  }

  /** With chaos disabled a business request behaves as on the bare recording
      layers, for every handler, client and draw. */
  lemma ChaosOffIsInvisible(s: ChaosState, cancelled: bool, lot: real, n: nat, d: Draws, h: Script, req: Request)
    requires !s.enabled
    ensures Visit(BusinessRoute(s, cancelled, lot, n), d, h, req)
         == Serve(Recording(true, d), h, req, BACKGROUND, [Fresh(Connection)])
  {
    var gate := ChaosGate(s, cancelled, lot, n);
    PassingGateInvisible(Recording(true, d), gate, [], h, req, BACKGROUND, [Fresh(Connection)]);
    assert Recording(true, d) + [gate] + [] == Stack(BusinessRoute(s, cancelled, lot, n), d);
    assert Recording(true, d) + [] == Recording(true, d);
  }

  /** POST /admin/chaos as a script: the reply Chaos.HandleSet sends. */
  function SetChaos(body: Option<ChaosState>, n: nat): Script {
    WriteJSON(if body.Some? then 200 else 400, n)
  }

  lemma SetChaosIsHandleSet(body: Option<ChaosState>, n: nat, ctx: Context, chain: Chain)
    requires chain != [] && chain[0].kind.Connection?
    ensures RunScript(SetChaos(body, n), ctx, chain)
         == Outcome(ChainBody(ChainHeader(chain, if body.Some? then 200 else 400), n), [], false)
  {
    RunReply(if body.Some? then 200 else 400, n, ctx, chain);
  }

  /** The control plane answers a set by credentials and body alone. */
  lemma SetAnswered(
    token: string, credentials: Credentials, refusal: nat, d: Draws, req: Request, body: Option<ChaosState>, n: nat)
    ensures Visit(ControlRoute(token, credentials, refusal), d, SetChaos(body, n), req).chain[0].status
         == if !Admitted(token, credentials) then 401 else if body.Some? then 200 else 400
  {
    hide Serve;
    var r, script := ControlRoute(token, credentials, refusal), SetChaos(body, n);
    var code := if !Admitted(token, credentials) then 401 else if body.Some? then 200 else 400;
    AnsweringTail(Recording(true, d), Gates(r), script);
    assert Gates(r)[1..] == [];
    assert Answering([], script) == script;
    RequestRecord(r, d, script, req);
    WriteJSONIsHeaderFirst(code, if Admitted(token, credentials) then n else refusal);
    RecordersMatchWire(WriteJSON(code, if Admitted(token, credentials) then n else refusal));
  }

  /** The way out of any fault injection. Let an admitted request ask for chaos to be
      off: it is answered 200, and in every run, whatever other sets did between its
      decision and its store, from that store until another set stores every business
      request is served as if there were no chaos layer. */
  lemma {:induction false} ChaosCanBeSwitchedOff(
    token: string, credentials: Credentials, refusal: nat, d: Draws, req: Request, body: Option<ChaosState>, n: nat,
    schedule: seq<Action>, i: nat, others: seq<Action>,
    d': Draws, h': Script, req': Request, cancelled: bool, lot: real, n': nat)
    requires Admitted(token, credentials) && body.Some? && !body.value.enabled
    requires i < |Begun(schedule)| && Begun(schedule)[i] == body.value && Enabled(Reached(schedule), Store(i))
    requires forall k :: 0 <= k < |others| ==> !others[k].Store?
    ensures Visit(ControlRoute(token, credentials, refusal), d, SetChaos(body, n), req).chain[0].status == 200
    ensures var inForce := Reached(schedule + [Store(i)] + others).stored;
            Visit(BusinessRoute(inForce, cancelled, lot, n'), d', h', req')
            == Serve(Recording(true, d'), h', req', BACKGROUND, [Fresh(Connection)])
  {
    SetAnswered(token, credentials, refusal, d, req, body, n);
    StoredUntilNextStore(schedule, i, others);
    ChaosOffIsInvisible(Sanitised(body.value), cancelled, lot, n', d', h', req');
  }

  /** Without admission, no handler runs: the request is answered 401, whatever the
      handler would have done. */
  lemma NotAdmitted(token: string, credentials: Credentials, n: nat, d: Draws, h: Script, req: Request)
    requires !Admitted(token, credentials)
    ensures Performed(ControlRoute(token, credentials, n), d, h) == Cut(WriteJSON(401, n), false)
    ensures Visit(ControlRoute(token, credentials, n), d, h, req).chain == [WriterState(Connection, 401, n, true)]
  {
    hide Serve;
    var r := ControlRoute(token, credentials, n);
    AnsweringTail(Recording(true, d), Gates(r), h);
    RequestRecord(r, d, h, req);
    WriteJSONIsHeaderFirst(401, n);
    RecordersMatchWire(WriteJSON(401, n));
  }

  lemma {:induction false} AnsweringTail(front: seq<Layer>, back: seq<Layer>, h: Script)
    requires GateFree(front)
    ensures Answering(front + back, h) == Answering(back, h)
  {
    if front == [] {
      assert front + back == back;
    } else {
      AnsweringTail(front[1..], back, h);
      assert (front + back)[1..] == front[1..] + back;
    }
  }
}
