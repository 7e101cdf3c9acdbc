/** What holds of every stack of layers and every handler script. */
module StackTheory {
  import opened Wrappers
  import opened Responses
  import opened Telemetry
  import opened Middleware
  import opened Sums

  // ---------- what a handler actually performs ----------

  /** The operations carried out before the handler returns or panics. */
  datatype Cut = Cut(ops: Script, panics: bool)

  /** sent: whether the connection has committed its status already. */
  function Trim(script: Script, sent: bool): Cut {
    if script == [] then Cut([], false)
    else
      match script[0]
      case Return => Cut([], false)
      case Panic => Cut([], true)
      case Header(c) =>
        if HeaderPanics(sent, c) then Cut([script[0]], true)
        else Longer(script[0], Trim(script[1..], sent || FinalCode(c)))
      case Body(_) => Longer(script[0], Trim(script[1..], true))
      case _ => Longer(script[0], Trim(script[1..], sent))
  }

  function Longer(op: Op, t: Cut): Cut {
    t.(ops := [op] + t.ops)
  }

  function OpOn(op: Op, w: WriterState): WriterState {
    match op
    case Header(c) => HeaderOn(w, c)
    case Body(n) => BodyOn(w, n)
    case _ => w
  }

  function After(ops: Script, w: WriterState): WriterState {
    if ops == [] then w else After(ops[1..], OpOn(ops[0], w))
  }

  function AfterAll(ops: Script, chain: Chain): (c: Chain)
    ensures |c| == |chain|
  {
    seq(|chain|, i requires 0 <= i < |chain| => After(ops, chain[i]))
  }

  function Note(op: Op, ctx: Context): seq<Event> {
    match op
    case LogWarning(text) => [Logged(WarnLine(text, ctx))]
    case CountOrder => [OrderCounted]
    case HandOver(order) => [OrderHandedOver(order, ctx.span)]
    case _ => []
  }

  function Noted(ops: Script, ctx: Context): seq<Event> {
    if ops == [] then [] else Note(ops[0], ctx) + Noted(ops[1..], ctx)
  }

  lemma AfterOne(op: Op, ops: Script, w: WriterState)
    ensures After([op], w) == OpOn(op, w)
    ensures After([op] + ops, w) == After(ops, OpOn(op, w))
  {
    assert [op][1..] == [] && ([op] + ops)[1..] == ops;
    assert After([op], w) == After([], OpOn(op, w));
  }

  lemma AfterAllStep(op: Op, ops: Script, chain: Chain)
    ensures AfterAll([op] + ops, chain) == AfterAll(ops, AfterAll([op], chain))
  {
    forall i | 0 <= i < |chain|
      ensures After([op] + ops, chain[i]) == After(ops, After([op], chain[i]))
    {
      AfterOne(op, ops, chain[i]);
    }
  }

  lemma PerformIsOpOn(op: Op, ctx: Context, chain: Chain)
    requires chain != []
    ensures !op.Panic? && !op.Return? ==> Perform(op, ctx, chain).chain == AfterAll([op], chain)
    ensures Perform(op, ctx, chain).events == Note(op, ctx)
  {
    forall i | 0 <= i < |chain|
      ensures After([op], chain[i]) == OpOn(op, chain[i])
    {
      AfterOne(op, [], chain[i]);
    }
  }

  /** Running a script is performing its cut, writer by writer. */
  lemma {:induction false} ScriptEffect(script: Script, ctx: Context, chain: Chain)
    requires chain != [] && chain[0].kind.Connection?
    ensures var o, t := RunScript(script, ctx, chain), Trim(script, chain[0].wroteHeader);
            && o.chain == AfterAll(t.ops, chain)
            && o.events == Noted(t.ops, ctx)
            && o.panicked == t.panics
    decreases |script|
  {
    if script == [] {
      assert AfterAll([], chain) == chain;
    } else {
      var op := script[0];
      var e := Perform(op, ctx, chain);
      PerformIsOpOn(op, ctx, chain);
      assert AfterAll([], chain) == chain;
      if e.turn.Continue? {
        ScriptEffect(script[1..], ctx, e.chain);
        var t := Trim(script[1..], e.chain[0].wroteHeader);
        AfterAllStep(op, t.ops, chain);
        assert ([op] + t.ops)[1..] == t.ops;
      } else if op.Header? {
        assert [op][1..] == [];
      }
    }
  }

  /** writeJSON on a chain of writers. */
  lemma RunReply(code: int, n: nat, ctx: Context, chain: Chain)
    requires chain != [] && chain[0].kind.Connection? && FinalCode(code)
    ensures RunScript(WriteJSON(code, n), ctx, chain) == Outcome(ChainBody(ChainHeader(chain, code), n), [], false)
  {
    var rest: Script := [Body(n)];
    assert WriteJSON(code, n)[1..] == rest && rest[1..] == [];
    var c := ChainHeader(chain, code);
    assert RunScript([], ctx, ChainBody(c, n)) == Outcome(ChainBody(c, n), [], false);
    assert RunScript(rest, ctx, c) == Outcome(ChainBody(c, n), [], false);
  }

  /** A JSON reply through both kinds of recorder, for every code there is: a final one
      goes out as it is; an informational one is followed by the implicit 200, of
      which the recorders know nothing; an invalid one panics, again after the
      recorders have noted it. */
  lemma JSONReply(c: int, n: nat, ctx: Context)
    ensures var chain := [Fresh(Connection), Fresh(BodyRecorder), Fresh(StatusRecorder)];
            RunScript(WriteJSON(c, n), ctx, chain)
            == if c == 101 || 200 <= c <= 999 then
                 Outcome([WriterState(Connection, c, n, true), WriterState(BodyRecorder, c, n, true),
                          WriterState(StatusRecorder, c, 0, true)], [], false)
               else if 100 <= c < 200 then
                 Outcome([WriterState(Connection, 200, n, true), WriterState(BodyRecorder, c, n, true),
                          WriterState(StatusRecorder, c, 0, true)], [], false)
               else
                 Outcome([WriterState(Connection, 200, 0, false), WriterState(BodyRecorder, c, 0, true),
                          WriterState(StatusRecorder, c, 0, true)], [], true)
  {
    var chain := [Fresh(Connection), Fresh(BodyRecorder), Fresh(StatusRecorder)];
    var rest: Script := [Body(n)];
    assert WriteJSON(c, n)[1..] == rest && rest[1..] == [];
    var sent := ChainHeader(chain, c);
    assert RunScript(rest, ctx, sent) == Outcome(ChainBody(sent, n), [], false) by {
      assert RunScript([], ctx, ChainBody(sent, n)) == Outcome(ChainBody(sent, n), [], false);
    }
  }

  /** The signals of a handler, operation by operation. */
  lemma NotedRules(ops: Script, ctx: Context, text: string, order: OrderEvent, c: int, n: nat)
    ensures Noted([LogWarning(text)] + ops, ctx)
         == [Logged(Line(Warning(text), Warn, ctx.requestID, None, None, None))] + Noted(ops, ctx)
    ensures Noted([CountOrder] + ops, ctx) == [OrderCounted] + Noted(ops, ctx)
    ensures Noted([HandOver(order)] + ops, ctx) == [OrderHandedOver(order, ctx.span)] + Noted(ops, ctx)
    ensures Noted([Header(c)] + ops, ctx) == Noted([Body(n)] + ops, ctx) == Noted(ops, ctx)
    ensures Noted([], ctx) == []
  {
    assert ([LogWarning(text)] + ops)[1..] == ops && ([CountOrder] + ops)[1..] == ops;
    assert ([HandOver(order)] + ops)[1..] == ops && ([Header(c)] + ops)[1..] == ops && ([Body(n)] + ops)[1..] == ops;
  }

  // ---------- reference readings of a list of operations ----------

  function FirstHeader(ops: Script): Option<int> {
    if ops == [] then None
    else if ops[0].Header? then Some(ops[0].code)
    else FirstHeader(ops[1..])
  }

  function BodyTotal(ops: Script): nat {
    if ops == [] then 0 else (if ops[0].Body? then ops[0].n else 0) + BodyTotal(ops[1..])
  }

  /** The status the first committing operation puts on the wire. */
  function Committed(ops: Script): Option<int> {
    if ops == [] then None
    else if ops[0].Body? then Some(200)
    else if ops[0].Header? && FinalCode(ops[0].code) then Some(ops[0].code)
    else Committed(ops[1..])
  }

  function OrElse(o: Option<int>, d: int): int {
    if o.Some? then o.value else d
  }

  /** What every recorder reports, and what the client sees. */
  function RecordedStatus(ops: Script): int { OrElse(FirstHeader(ops), 200) }
  function WireStatus(ops: Script): int { OrElse(Committed(ops), 200) }

  lemma {:induction false} RecorderReads(ops: Script, w: WriterState)
    requires !w.kind.Connection?
    ensures After(ops, w)
         == w.(status := if w.wroteHeader then w.status else OrElse(FirstHeader(ops), w.status),
               wroteHeader := w.wroteHeader || FirstHeader(ops).Some?,
               bytes := if w.kind.BodyRecorder? then w.bytes + BodyTotal(ops) else w.bytes)
    decreases |ops|
  {
    if ops != [] {
      RecorderReads(ops[1..], OpOn(ops[0], w));
    }
  }

  lemma {:induction false} ConnectionReads(ops: Script, w: WriterState)
    requires w.kind.Connection?
    ensures After(ops, w)
         == w.(status := if w.wroteHeader then w.status else OrElse(Committed(ops), w.status),
               wroteHeader := w.wroteHeader || Committed(ops).Some?,
               bytes := w.bytes + BodyTotal(ops))
    decreases |ops|
  {
    if ops != [] {
      ConnectionReads(ops[1..], OpOn(ops[0], w));
    }
  }

  lemma {:induction false} AfterSnoc(ops: Script, op: Op, w: WriterState)
    ensures After(ops + [op], w) == OpOn(op, After(ops, w))
    decreases |ops|
  {
    if ops == [] {
      assert ([] + [op])[1..] == [];
    } else {
      AfterSnoc(ops[1..], op, OpOn(ops[0], w));
      assert (ops + [op])[1..] == ops[1..] + [op];
    }
  }

  // ---------- one layer in ----------

  /** The recorder a layer wraps around the writer, and the context it passes on. */
  function Pushed(layer: Layer): WriterState {
    if layer.Instrument? then Fresh(StatusRecorder) else Fresh(BodyRecorder)
  }

  function ContextInside(layer: Layer, req: Request, ctx: Context): Context {
    match layer
    case TraceHTTP(d) => TraceContext(req, ctx, d)
    case RequestLogger(id) => ctx.(requestID := Some(id))
    case _ => ctx
  }

  /** What a layer emits before and after the rest of the stack, o being the
      outcome of that rest. */
  function Opening(layer: Layer, req: Request, ctx: Context): seq<Event> {
    match layer
    case TraceHTTP(_) => [SpanStarted(ContextInside(layer, req, ctx).span)]
    case Instrument => [GaugeInc(req.route)]
    case _ => []
  }

  function Closing(layer: Layer, o: Outcome, req: Request, ctx: Context): seq<Event>
    requires o.chain != []
  {
    var inner, seen := ContextInside(layer, req, ctx), Top(o.chain);
    match layer
    case PanicGuard => if o.panicked then [Logged(PanicLine(ctx))] else []
    case TraceHTTP(_) =>
      [SpanEnded(if o.panicked then Span(inner.span, TraceParent(req, ctx), true, None)
                 else Span(inner.span, TraceParent(req, ctx), seen.status >= 500, Some(seen.status)))]
    case RequestLogger(_) => if o.panicked then [] else [Logged(CanonicalLine(seen, inner))]
    case Instrument => Recorded(req, ctx, if o.panicked then 500 else seen.status)
    case _ => []
  }

  lemma OneLayer(stack: seq<Layer>, h: Script, req: Request, ctx: Context, chain: Chain)
    requires chain != [] && stack != [] && !stack[0].IsGate()
    ensures var o := Serve(stack[1..], h, req, ContextInside(stack[0], req, ctx), chain + [Pushed(stack[0])]);
            Opening(stack[0], req, ctx) + o.events + Closing(stack[0], o, req, ctx)
            == Serve(stack, h, req, ctx, chain).events
  {
  }

  // ---------- gates ----------

  /** The recording layers a request enters: those before the first gate that
      answers, the gates themselves left out. */
  function Entered(stack: seq<Layer>): seq<Layer> {
    if stack == [] then []
    else if !stack[0].IsGate() then [stack[0]] + Entered(stack[1..])
    else if GateVerdict(stack[0]).Pass? then Entered(stack[1..])
    else []
  }

  /** The script that ends up writing the response. */
  function Answering(stack: seq<Layer>, h: Script): Script {
    if stack == [] then h
    else if !stack[0].IsGate() || GateVerdict(stack[0]).Pass? then Answering(stack[1..], h)
    else GateVerdict(stack[0]).script
  }

  predicate GateFree(stack: seq<Layer>) {
    forall i :: 0 <= i < |stack| ==> !stack[i].IsGate()
  }

  /** A gate is only a choice of handler: wherever it stands, the outcome is that
      of the recording layers outside it around the script it chose. */
  lemma {:induction false} GatesChoose(stack: seq<Layer>, h: Script, req: Request, ctx: Context, chain: Chain)
    requires chain != []
    ensures GateFree(Entered(stack))
    ensures Serve(stack, h, req, ctx, chain)
         == Serve(Entered(stack), Answering(stack, h), req, ctx, chain)
    decreases |stack|
  {
    if stack != [] {
      var rest := stack[1..];
      if !stack[0].IsGate() {
        GatesChoose(rest, h, req, ContextInside(stack[0], req, ctx), chain + [Pushed(stack[0])]);
        assert ([stack[0]] + Entered(rest))[1..] == Entered(rest);
      } else if GateVerdict(stack[0]).Pass? {
        GatesChoose(rest, h, req, ctx, chain);
      }
    }
  }

  // ---------- what the writers see ----------

  predicate Guarded(stack: seq<Layer>) {
    exists i :: 0 <= i < |stack| && stack[i].PanicGuard?
  }

  /** Seen from outside, a stack writes what its handler wrote, plus a 500 when a
      guard inside caught a panic before any header was asked for. */
  function Net(stack: seq<Layer>, t: Cut): Script {
    t.ops + (if t.panics && Guarded(stack) && FirstHeader(t.ops).None? then [Header(500)] else [])
  }

  lemma GuardedCons(l: Layer, rest: seq<Layer>)
    ensures Guarded([l] + rest) <==> l.PanicGuard? || Guarded(rest)
  {
    if l.PanicGuard? {
      assert ([l] + rest)[0].PanicGuard?;
    }
    if Guarded(rest) {
      var i :| 0 <= i < |rest| && rest[i].PanicGuard?;
      assert ([l] + rest)[i + 1].PanicGuard?;
    }
  }

  lemma AfterAllPop(ops: Script, chain: Chain, f: WriterState)
    ensures var c := AfterAll(ops, chain + [f]);
            Pop(c) == AfterAll(ops, chain) && Top(c) == After(ops, f)
  {
  }

  /** Recording layers only; WriterEffect is for every stack. */
  lemma {:induction false} BareWriterEffect(stack: seq<Layer>, h: Script, req: Request, ctx: Context, chain: Chain)
    requires chain != [] && chain[0].kind.Connection? && GateFree(stack)
    ensures var o, t := Serve(stack, h, req, ctx, chain), Trim(h, chain[0].wroteHeader);
            && o.chain == AfterAll(Net(stack, t), chain)
            && o.panicked == (t.panics && !Guarded(stack))
    decreases |stack|
  {
    var t := Trim(h, chain[0].wroteHeader);
    if stack == [] {
      ScriptEffect(h, ctx, chain);
      assert t.ops + [] == t.ops;
    } else {
      var rest := stack[1..];
      assert stack == [stack[0]] + rest;
      GuardedCons(stack[0], rest);
      var f, inner := Pushed(stack[0]), ContextInside(stack[0], req, ctx);
      BareWriterEffect(rest, h, req, inner, chain + [f]);
      AfterAllPop(Net(rest, t), chain, f);
      if stack[0].PanicGuard? && t.panics && !Guarded(rest) {
        assert t.ops + [] == t.ops;
        RecorderReads(t.ops, f);
        if FirstHeader(t.ops).None? {
          forall i | 0 <= i < |chain| {
            AfterSnoc(t.ops, Header(500), chain[i]);
          }
        }
      }
    }
  }

  /** For every stack, gates included, every script and every chain of writers: what
      the answering script wrote reaches every writer outside, plus a 500 exactly if
      an entered guard caught a panic before any header; and a panic escapes exactly
      if no guard was entered. */
  lemma {:induction false} WriterEffect(
    stack: seq<Layer>, h: Script, req: Request, ctx: Context, chain: Chain)
    requires chain != [] && chain[0].kind.Connection?
    ensures var o, t := Serve(stack, h, req, ctx, chain), Trim(Answering(stack, h), chain[0].wroteHeader);
            && o.chain == AfterAll(Net(Entered(stack), t), chain)
            && o.panicked == (t.panics && !Guarded(Entered(stack)))
  {
    GatesChoose(stack, h, req, ctx, chain);
    BareWriterEffect(Entered(stack), Answering(stack, h), req, ctx, chain);
  }

  // ---------- recorders agree ----------

  /** The recorders a stack puts between the connection and the handler. */
  function Recorders(stack: seq<Layer>): Chain {
    if stack == [] then []
    else
      (if stack[0].IsGate() then []
       else [Pushed(stack[0])]) + Recorders(stack[1..])
  }

  lemma {:induction false} RecordersFresh(stack: seq<Layer>, i: nat)
    requires i < |Recorders(stack)|
    ensures Recorders(stack)[i] in {Fresh(StatusRecorder), Fresh(BodyRecorder)}
  {
    if stack[0].IsGate() {
      RecordersFresh(stack[1..], i);
    } else if i > 0 {
      RecordersFresh(stack[1..], i - 1);
    }
  }

  /** The request context at the handler. */
  function ContextAt(stack: seq<Layer>, req: Request, ctx: Context): Context {
    if stack == [] then ctx else ContextAt(stack[1..], req, ContextInside(stack[0], req, ctx))
  }

  /** What a recording layer makes of the outcome of the rest of its stack. */
  function AfterLayer(layer: Layer, o: Outcome, req: Request, ctx: Context): (r: Outcome)
    requires o.chain != [] && !layer.IsGate()
    ensures |r.chain| == |o.chain| - 1
  {
    match layer
    case PanicGuard => AfterPanicGuard(o, ctx)
    case TraceHTTP(draw) => AfterTraceHTTP(o, TraceParent(req, ctx), TraceContext(req, ctx, draw).span)
    case RequestLogger(id) => AfterRequestLogger(o, ctx.(requestID := Some(id)))
    case _ => AfterInstrument(o, req, ctx)
  }

  /** The way out of a stack: every layer in turn, innermost first. */
  function Unwind(stack: seq<Layer>, o: Outcome, req: Request, ctx: Context): (r: Outcome)
    requires GateFree(stack) && |o.chain| > |stack|
    ensures |r.chain| == |o.chain| - |stack|
    decreases |stack|
  {
    if stack == [] then o
    else AfterLayer(stack[0], Unwind(stack[1..], o, req, ContextInside(stack[0], req, ctx)), req, ctx)
  }

  lemma ServeLayer(stack: seq<Layer>, h: Script, req: Request, ctx: Context, chain: Chain)
    requires chain != [] && stack != [] && !stack[0].IsGate()
    ensures var inner, more := ContextInside(stack[0], req, ctx), chain + [Pushed(stack[0])];
            Serve(stack, h, req, ctx, chain) == AfterLayer(stack[0], Serve(stack[1..], h, req, inner, more), req, ctx)
  {
  }

  lemma {:induction false} BareRecorders(stack: seq<Layer>)
    requires GateFree(stack)
    ensures |Recorders(stack)| == |stack|
    ensures stack != [] ==> Recorders(stack) == [Pushed(stack[0])] + Recorders(stack[1..])
  {
    if stack != [] {
      BareRecorders(stack[1..]);
    }
  }

  lemma UnwindLayer(stack: seq<Layer>, o: Outcome, req: Request, ctx: Context)
    requires GateFree(stack) && |o.chain| > |stack| > 0
    ensures Unwind(stack, o, req, ctx)
         == AfterLayer(stack[0], Unwind(stack[1..], o, req, ContextInside(stack[0], req, ctx)), req, ctx)
  {
  }

  lemma {:induction false} BareHandlerInside(
    stack: seq<Layer>, h: Script, req: Request, ctx: Context, chain: Chain)
    requires chain != [] && GateFree(stack)
    ensures |Recorders(stack)| == |stack|
    ensures Serve(stack, h, req, ctx, chain)
         == Unwind(stack, RunScript(h, ContextAt(stack, req, ctx), chain + Recorders(stack)), req, ctx)
    decreases |stack|
  {
    BareRecorders(stack);
    if stack == [] {
      assert chain + Recorders(stack) == chain;
    } else {
      hide Serve, AfterLayer, RunScript, ContextInside, Pushed, Recorders, Unwind;
      UnwindLayer(stack, RunScript(h, ContextAt(stack, req, ctx), chain + Recorders(stack)), req, ctx);
      var inner, more := ContextInside(stack[0], req, ctx), chain + [Pushed(stack[0])];
      assert GateFree(stack[1..]) && !stack[0].IsGate();
      ServeLayer(stack, h, req, ctx, chain);
      BareHandlerInside(stack[1..], h, req, inner, more);
      assert chain + Recorders(stack) == more + Recorders(stack[1..]);
      assert ContextAt(stack, req, ctx) == ContextAt(stack[1..], req, inner);
    }
  }

  /** Serving any request through any stack is running the answering script once, on
      exactly the recorders of the layers entered, all unused, and in the context
      those layers built; the layers then see nothing but the outcome of that run. */
  lemma {:induction false} HandlerInside(
    stack: seq<Layer>, h: Script, req: Request, ctx: Context, chain: Chain)
    requires chain != []
    ensures GateFree(Entered(stack)) && |Recorders(Entered(stack))| == |Entered(stack)|
    ensures var layers := Entered(stack);
            Serve(stack, h, req, ctx, chain)
            == Unwind(layers, RunScript(Answering(stack, h), ContextAt(layers, req, ctx), chain + Recorders(layers)),
                      req, ctx)
  {
    GatesChoose(stack, h, req, ctx, chain);
    BareHandlerInside(Entered(stack), Answering(stack, h), req, ctx, chain);
  }

  lemma TrimStep(script: Script, ctx: Context, chain: Chain)
    requires script != [] && chain != [] && chain[0].kind.Connection?
    ensures var e, t := Perform(script[0], ctx, chain), Trim(script, chain[0].wroteHeader);
            if e.turn.Continue? then
              e.chain[0].kind.Connection? && t == Longer(script[0], Trim(script[1..], e.chain[0].wroteHeader))
            else
              t.panics == e.turn.Explode? && (!t.panics ==> t.ops == [])
  {
  }

  /** A run stopped after some operations is a stage of the whole run: unless it has
      ended by then, the whole run goes on from its writers. */
  lemma {:induction false} RunResumes(script: Script, done: nat, ctx: Context, chain: Chain)
    requires done <= |script| && chain != [] && chain[0].kind.Connection?
    ensures var o, t := RunScript(script[..done], ctx, chain), Trim(script[..done], chain[0].wroteHeader);
            if o.panicked || |t.ops| < done then RunScript(script, ctx, chain) == o
            else
              var rest := RunScript(script[done..], ctx, o.chain);
              RunScript(script, ctx, chain) == Outcome(rest.chain, o.events + rest.events, rest.panicked)
    decreases done
  {
    hide Perform, Trim;
    var first := script[..done];
    if done == 0 {
      assert first == [] && script[0..] == script;
      TrimNothing(chain[0].wroteHeader);
    } else {
      var e := Perform(script[0], ctx, chain);
      TrimStep(first, ctx, chain);
      assert first[0] == script[0] && first[1..] == script[1..][..done - 1];
      assert script[1..][done - 1..] == script[done..];
      if e.turn.Continue? {
        RunResumes(script[1..], done - 1, ctx, e.chain);
        var later := RunScript(first[1..], ctx, e.chain);
        var rest := RunScript(script[done..], ctx, later.chain);
        assert e.events + (later.events + rest.events) == (e.events + later.events) + rest.events;
      }
    }
  }

  lemma TrimNothing(sent: bool)
    ensures Trim([], sent) == Cut([], false)
  {
  }

  /** At every point of every run inside every stack, the recorders the stack put
      around the connection hold one status and one header flag, and those that count
      bytes the number the connection has sent. */
  lemma {:induction false} RecordersAgree(
    stack: seq<Layer>, h: Script, req: Request, ctx: Context, done: nat, i: nat, j: nat)
    requires done <= |Answering(stack, h)| && i < |Entered(stack)| && j < |Entered(stack)|
    ensures var layers, script := Entered(stack), Answering(stack, h);
            var inner, writers := ContextAt(layers, req, ctx), [Fresh(Connection)] + Recorders(layers);
            && GateFree(layers) && |writers| == 1 + |layers|
            && Serve(stack, h, req, ctx, [Fresh(Connection)])
               == Unwind(layers, RunScript(script, inner, writers), req, ctx)
            && var chain := RunScript(script[..done], inner, writers).chain;
               var a, b := chain[i + 1], chain[j + 1];
               && a.status == b.status && a.wroteHeader == b.wroteHeader
               && (a.kind == b.kind ==> a == b)
               && (a.kind.BodyRecorder? ==> a.bytes == chain[0].bytes)
  {
    hide Serve, Unwind, Entered, RunScript, After, Trim, Answering, ContextAt, Recorders;
    HandlerInside(stack, h, req, ctx, [Fresh(Connection)]);
    var layers, script := Entered(stack), Answering(stack, h);
    var chain := [Fresh(Connection)] + Recorders(layers);
    ScriptEffect(script[..done], ContextAt(layers, req, ctx), chain);
    var ops := Trim(script[..done], false).ops;
    RecordersFresh(layers, i);
    RecordersFresh(layers, j);
    RecorderReads(ops, chain[i + 1]);
    RecorderReads(ops, chain[j + 1]);
    ConnectionReads(ops, chain[0]);
  }

  // ---------- one status everywhere ----------

  function StatusIn(e: Event): Option<int> {
    match e
    case RequestCounted(_, _, code) => Some(code)
    case Logged(line) => if line.msg.RequestLine? then line.status else None
    case SpanEnded(span) => span.status
    case _ => None
  }

  lemma {:induction false} NotedHasNoStatus(ops: Script, ctx: Context)
    ensures forall e :: e in Noted(ops, ctx) ==>
              && StatusIn(e).None? && !e.SpanEnded? && !e.RequestCounted?
              && (e.Logged? ==>
                    e.line.msg.Warning? && e.line.requestID == ctx.requestID && e.line.ids.None?)
  {
    if ops != [] {
      NotedHasNoStatus(ops[1..], ctx);
    }
  }

  predicate Reports(e: Event, status: int, bytes: nat) {
    && (StatusIn(e).Some? ==> StatusIn(e).value == status)
    && (e.Logged? && e.line.msg.RequestLine? ==> e.line.status == Some(status) && e.line.bytes == Some(bytes))
    && (e.SpanEnded? ==> e.span.status == Some(status) && (e.span.failed <==> status >= 500))
  }

  /** Without a panic, every counter label, canonical line and span attribute of
      every stack carries the same status, and every canonical line the bytes sent. */
  lemma {:induction false} BareSignalsAgree(stack: seq<Layer>, h: Script, req: Request, ctx: Context, chain: Chain)
    requires chain != [] && chain[0].kind.Connection? && GateFree(stack)
    requires !Trim(h, chain[0].wroteHeader).panics
    ensures var ops := Trim(h, chain[0].wroteHeader).ops;
            forall e :: e in Serve(stack, h, req, ctx, chain).events
                    ==> Reports(e, RecordedStatus(ops), BodyTotal(ops))
    decreases |stack|
  {
    var ops := Trim(h, chain[0].wroteHeader).ops;
    if stack == [] {
      ScriptEffect(h, ctx, chain);
      NotedHasNoStatus(ops, ctx);
    } else {
      hide Serve;
      var rest := stack[1..];
      var f, inner := Pushed(stack[0]), ContextInside(stack[0], req, ctx);
      BareSignalsAgree(rest, h, req, inner, chain + [f]);
      BareWriterEffect(rest, h, req, inner, chain + [f]);
      AfterAllPop(ops, chain, f);
      assert ops + [] == ops;
      RecorderReads(ops, f);
      OneLayer(stack, h, req, ctx, chain);
      LayerReports(stack[0], Serve(rest, h, req, inner, chain + [f]), req, ctx);
    }
  }

  /** For every stack, gates included. */
  lemma {:induction false} SignalsAgree(stack: seq<Layer>, h: Script, req: Request, ctx: Context, chain: Chain)
    requires chain != [] && chain[0].kind.Connection?
    requires !Trim(Answering(stack, h), chain[0].wroteHeader).panics
    ensures var ops := Trim(Answering(stack, h), chain[0].wroteHeader).ops;
            forall e :: e in Serve(stack, h, req, ctx, chain).events
                    ==> Reports(e, RecordedStatus(ops), BodyTotal(ops))
  {
    GatesChoose(stack, h, req, ctx, chain);
    BareSignalsAgree(Entered(stack), Answering(stack, h), req, ctx, chain);
  }

  lemma LayerReports(layer: Layer, o: Outcome, req: Request, ctx: Context)
    requires o.chain != [] && !o.panicked
    ensures forall e :: e in Opening(layer, req, ctx) ==> Reports(e, Top(o.chain).status, Top(o.chain).bytes)
    ensures forall e :: e in Closing(layer, o, req, ctx) ==>
              (layer.Instrument? || Reports(e, Top(o.chain).status, Top(o.chain).bytes))
    ensures layer.Instrument? ==> forall e, b :: e in Closing(layer, o, req, ctx) ==> Reports(e, Top(o.chain).status, b)
  {
  }

  /** The shape under which the recorders and the client agree: either no header
      was asked for, or the first one is final and not preceded by body bytes
      (unless it is a 200, which those bytes had already sent). */
  predicate HeaderBeforeBody(ops: Script) {
    match FirstHeader(ops)
    case None => true
    case Some(c) => FinalCode(c) && (c == 200 || !BodyFirst(ops))
  }

  predicate BodyFirst(ops: Script) {
    ops != [] && !ops[0].Header? && (ops[0].Body? || BodyFirst(ops[1..]))
  }

  /** Exactly then; an implicit 200 is invisible to every recorder. */
  lemma {:induction false} RecordersMatchWire(ops: Script)
    ensures RecordedStatus(ops) == WireStatus(ops) <==> HeaderBeforeBody(ops)
  {
    FirstHeaderOrBody(ops);
  }

  lemma {:induction false} FirstHeaderOrBody(ops: Script)
    ensures FirstHeader(ops).None? ==> Committed(ops) in {None, Some(200)}
    ensures BodyFirst(ops) ==> Committed(ops) == Some(200)
    ensures FirstHeader(ops).Some? && !BodyFirst(ops) && FinalCode(FirstHeader(ops).value)
            ==> Committed(ops) == FirstHeader(ops)
    ensures Committed(ops).Some? ==> FinalCode(Committed(ops).value)
  {
    if ops != [] {
      FirstHeaderOrBody(ops[1..]);
    }
  }

  // ---------- how many of each signal ----------

  datatype Signal =
    | InProgress(route: string)
    | Counted(verb: string, route: string)
    | CountedAs(verb: string, route: string, code: int)
    | Observed(verb: string, route: string)
    | Summarised(verb: string, route: string)
    | SpansStarted | SpansEnded
    | CanonicalLines | PanicLines
    | OrdersCounted | OrdersHandedOver

  function WeightOf(s: Signal, e: Event): int {
    match (s, e)
    case (InProgress(r), GaugeInc(route)) => if r == route then 1 else 0
    case (InProgress(r), GaugeDec(route)) => if r == route then -1 else 0
    case (Counted(v, r), RequestCounted(verb, route, _)) => if (v, r) == (verb, route) then 1 else 0
    case (CountedAs(v, r, c), RequestCounted(verb, route, code)) => if (v, r, c) == (verb, route, code) then 1 else 0
    case (Observed(v, r), DurationObserved(verb, route, _)) => if (v, r) == (verb, route) then 1 else 0
    case (Summarised(v, r), SummaryObserved(verb, route)) => if (v, r) == (verb, route) then 1 else 0
    case (SpansStarted, SpanStarted(_)) => 1
    case (SpansEnded, SpanEnded(_)) => 1
    case (CanonicalLines, Logged(line)) => if line.msg.RequestLine? then 1 else 0
    case (PanicLines, Logged(line)) => if line.msg.PanicRecovered? then 1 else 0
    case (OrdersCounted, OrderCounted) => 1
    case (OrdersHandedOver, OrderHandedOver(_, _)) => 1
    case _ => 0
  }

  function Weight(s: Signal): Event -> int {
    e => WeightOf(s, e)
  }

  function Tally(es: seq<Event>, s: Signal): int {
    Sum(es, Weight(s))
  }

  function OpsOf(ops: Script, s: Signal): nat {
    if ops == [] then 0
    else (if (s.OrdersCounted? && ops[0].CountOrder?) || (s.OrdersHandedOver? && ops[0].HandOver?)
          then 1 else 0) + OpsOf(ops[1..], s)
  }

  function LayersOf(stack: seq<Layer>, s: Signal, panics: bool): nat {
    if stack == [] then 0
    else
      LayersOf(stack[1..], s, panics) +
      match stack[0]
      case Instrument => if s.Counted? || s.Observed? || s.Summarised? then 1 else 0
      case TraceHTTP(_) => if s.SpansStarted? || s.SpansEnded? then 1 else 0
      case RequestLogger(_) =>
        if s.CanonicalLines? && !(panics && !Guarded(stack[1..])) then 1 else 0
      case PanicGuard => if s.PanicLines? && panics && !Guarded(stack[1..]) then 1 else 0
      case _ => 0
  }

  /** The expected number: one per layer of the right kind, on this request's own
      series; nothing on the gauge; and the orders the handler reported. */
  function Expected(s: Signal, stack: seq<Layer>, t: Cut, req: Request): int {
    OpsOf(t.ops, s) +
    match s
    case InProgress(_) => 0
    case Counted(v, r) => if (v, r) == (req.verb, req.route) then LayersOf(stack, s, t.panics) else 0
    case Observed(v, r) => if (v, r) == (req.verb, req.route) then LayersOf(stack, s, t.panics) else 0
    case Summarised(v, r) => if (v, r) == (req.verb, req.route) then LayersOf(stack, s, t.panics) else 0
    case _ => LayersOf(stack, s, t.panics)
  }

  lemma Tally1(a: Event, s: Signal)
    ensures Tally([], s) == 0 && Tally([a], s) == WeightOf(s, a)
  {
    assert [a][..0] == [];
  }

  lemma TallyConcat(a: seq<Event>, b: seq<Event>, s: Signal)
    ensures Tally(a + b, s) == Tally(a, s) + Tally(b, s)
  {
    SumConcat(a, b, Weight(s));
  }

  lemma TallyRecorded(req: Request, ctx: Context, status: int, s: Signal)
    ensures var es := Recorded(req, ctx, status);
            Tally(es, s) == WeightOf(s, es[0]) + WeightOf(s, es[1]) + WeightOf(s, es[2]) + WeightOf(s, es[3])
  {
    var es := Recorded(req, ctx, status);
    assert es == [es[0]] + [es[1]] + [es[2]] + [es[3]];
    TallyConcat([es[0]] + [es[1]] + [es[2]], [es[3]], s);
    TallyConcat([es[0]] + [es[1]], [es[2]], s);
    TallyConcat([es[0]], [es[1]], s);
    Tally1(es[0], s);
    Tally1(es[1], s);
    Tally1(es[2], s);
    Tally1(es[3], s);
  }

  lemma {:induction false} TallyNoted(ops: Script, ctx: Context, s: Signal)
    ensures Tally(Noted(ops, ctx), s) == OpsOf(ops, s)
  {
    if ops != [] {
      TallyNoted(ops[1..], ctx, s);
      TallyConcat(Note(ops[0], ctx), Noted(ops[1..], ctx), s);
      hide Tally, Note;
      TallyNote(ops[0], ctx, s);
    } else {
      Tally1(OrderCounted, s);
    }
  }

  lemma TallyNote(op: Op, ctx: Context, s: Signal)
    ensures Tally(Note(op, ctx), s)
         == if (s.OrdersCounted? && op.CountOrder?) || (s.OrdersHandedOver? && op.HandOver?) then 1 else 0
  {
    hide Tally;
    Tally1(if Note(op, ctx) == [] then OrderCounted else Note(op, ctx)[0], s);
  }

  lemma {:induction false} BareSignalCount(
    s: Signal, stack: seq<Layer>, h: Script, req: Request, ctx: Context, chain: Chain)
    requires chain != [] && chain[0].kind.Connection? && GateFree(stack) && !s.CountedAs?
    ensures Tally(Serve(stack, h, req, ctx, chain).events, s)
         == Expected(s, stack, Trim(h, chain[0].wroteHeader), req)
    decreases |stack|
  {
    var t := Trim(h, chain[0].wroteHeader);
    if stack == [] {
      ScriptEffect(h, ctx, chain);
      TallyNoted(t.ops, ctx, s);
    } else {
      var rest := stack[1..];
      var f, inner := Pushed(stack[0]), ContextInside(stack[0], req, ctx);
      BareSignalCount(s, rest, h, req, inner, chain + [f]);
      BareWriterEffect(rest, h, req, inner, chain + [f]);
      OneLayer(stack, h, req, ctx, chain);
      var o := Serve(rest, h, req, inner, chain + [f]);
      var opening, closing := Opening(stack[0], req, ctx), Closing(stack[0], o, req, ctx);
      TallyConcat(opening + o.events, closing, s);
      TallyConcat(opening, o.events, s);
      LayerTally(s, stack, t, o, req, ctx);
    }
  }

  /** Every signal of every stack, gates included: those of the layers entered. */
  lemma {:induction false} SignalCount(
    s: Signal, stack: seq<Layer>, h: Script, req: Request, ctx: Context, chain: Chain)
    requires chain != [] && chain[0].kind.Connection? && !s.CountedAs?
    ensures Tally(Serve(stack, h, req, ctx, chain).events, s)
         == Expected(s, Entered(stack), Trim(Answering(stack, h), chain[0].wroteHeader), req)
  {
    GatesChoose(stack, h, req, ctx, chain);
    BareSignalCount(s, Entered(stack), Answering(stack, h), req, ctx, chain);
  }

  /** One layer adds exactly its own share. */
  lemma LayerTally(s: Signal, stack: seq<Layer>, t: Cut, o: Outcome, req: Request, ctx: Context)
    requires stack != [] && !stack[0].IsGate() && !s.CountedAs?
    requires o.chain != [] && o.panicked == (t.panics && !Guarded(stack[1..]))
    ensures Tally(Opening(stack[0], req, ctx), s) + Tally(Closing(stack[0], o, req, ctx), s)
         == Expected(s, stack, t, req) - Expected(s, stack[1..], t, req)
  {
    hide Tally, Guarded;
    var opening, closing := Opening(stack[0], req, ctx), Closing(stack[0], o, req, ctx);
    Tally1(GaugeInc(req.route), s);
    if stack[0].Instrument? {
      InstrumentTally(s, req, ctx, if o.panicked then 500 else Top(o.chain).status);
    } else {
      if opening != [] {
        Tally1(opening[0], s);
      }
      if closing != [] {
        assert closing == [closing[0]];
        Tally1(closing[0], s);
      }
    }
  }

  lemma InstrumentTally(s: Signal, req: Request, ctx: Context, status: int)
    requires !s.CountedAs?
    ensures Tally([GaugeInc(req.route)], s) + Tally(Recorded(req, ctx, status), s)
         == match s
            case Counted(v, r) => if (v, r) == (req.verb, req.route) then 1 else 0
            case Observed(v, r) => if (v, r) == (req.verb, req.route) then 1 else 0
            case Summarised(v, r) => if (v, r) == (req.verb, req.route) then 1 else 0
            case _ => 0
  {
    Tally1(GaugeInc(req.route), s);
    TallyRecorded(req, ctx, status, s);
  }

  // ---------- panics ----------

  /** Containment, for any stack with a guard outermost and any handler: nothing
      escapes; there is exactly one panic line; and the client gets the status that
      was on its way already, else 500 if no header had been asked for, else the
      implicit 200. The panic is one of the script that answers. */
  lemma {:induction false} PanicContained(rest: seq<Layer>, h: Script, req: Request, ctx: Context)
    requires Trim(Answering(rest, h), false).panics
    ensures var o := Serve([PanicGuard] + rest, h, req, ctx, [Fresh(Connection)]);
            var ops := Trim(Answering(rest, h), false).ops;
            && !o.panicked
            && Tally(o.events, PanicLines) == 1
            && o.chain[0].status == OrElse(Committed(ops), if FirstHeader(ops).None? then 500 else 200)
  {
    hide Serve;
    var stack, layers, t := [PanicGuard] + rest, [PanicGuard] + Entered(rest), Trim(Answering(rest, h), false);
    assert stack[1..] == rest;
    assert Entered(stack) == layers && Answering(stack, h) == Answering(rest, h);
    GuardedCons(PanicGuard, Entered(rest));
    WriterEffect(stack, h, req, ctx, [Fresh(Connection)]);
    SignalCount(PanicLines, stack, h, req, ctx, [Fresh(Connection)]);
    OnePanicLine(layers);
    NoOrders(t.ops);
    ConnectionReads(Net(layers, t), Fresh(Connection));
    CommittedConcat(t.ops, [Header(500)]);
    assert t.ops + [] == t.ops;
    assert Committed([Header(500)]) == Some(500);
  }

  lemma {:induction false} OnePanicLine(stack: seq<Layer>)
    ensures LayersOf(stack, PanicLines, true) == if Guarded(stack) then 1 else 0
  {
    if stack != [] {
      OnePanicLine(stack[1..]);
      GuardedCons(stack[0], stack[1..]);
      assert stack == [stack[0]] + stack[1..];
    }
  }

  lemma {:induction false} NoOrders(ops: Script)
    ensures OpsOf(ops, PanicLines) == 0
  {
    if ops != [] {
      NoOrders(ops[1..]);
    }
  }

  lemma {:induction false} CommittedConcat(a: Script, b: Script)
    ensures Committed(a + b) == if Committed(a).Some? then Committed(a) else Committed(b)
  {
    if a == [] {
      assert a + b == b;
    } else {
      CommittedConcat(a[1..], b);
      assert (a + b)[1..] == a[1..] + b;
    }
  }

  /** "500 exactly when nothing was written" fails of the code: a header that
      net/http rejects panics after every recorder has marked it as written, so the
      guard stays silent and the client gets 200. */
  lemma {:induction false} RejectedHeaderAnswers200(code: int, rest: seq<Layer>, req: Request, ctx: Context)
    requires !ValidCode(code) && AllPass(rest)
    ensures Trim([Header(code)], false).panics
    ensures Serve([PanicGuard] + rest, [Header(code)], req, ctx, [Fresh(Connection)]).chain[0].status == 200
  {
    hide Serve;
    PassingGatesAnswer(rest, [Header(code)]);
    assert [Header(code)][1..] == [];
    assert Trim([Header(code)], false) == Cut([Header(code)], true);
    PanicContained(rest, [Header(code)], req, ctx);
  }

  /** Every gate lets this request through. */
  predicate AllPass(stack: seq<Layer>) {
    forall i :: 0 <= i < |stack| && stack[i].IsGate() ==> GateVerdict(stack[i]).Pass?
  }

  lemma {:induction false} PassingGatesAnswer(stack: seq<Layer>, h: Script)
    requires AllPass(stack)
    ensures Answering(stack, h) == h
  {
    if stack != [] {
      assert AllPass(stack[1..]);
      PassingGatesAnswer(stack[1..], h);
    }
  }

  /** It holds exactly when the answering script committed a response before the
      panic, or asked for no header at all. */
  lemma {:induction false} Clean500(rest: seq<Layer>, h: Script, req: Request, ctx: Context)
    requires Trim(Answering(rest, h), false).panics
    ensures var status := Serve([PanicGuard] + rest, h, req, ctx, [Fresh(Connection)]).chain[0].status;
            var ops := Trim(Answering(rest, h), false).ops;
            status == OrElse(Committed(ops), 500) <==> Committed(ops).Some? || FirstHeader(ops).None?
  {
    PanicContained(rest, h, req, ctx);
  }

  /** The panic reaches every layer between the guard and the handler: each counts
      a 500, marks its span, and prints no canonical line. */
  lemma {:induction false} BarePanicSeenByAll(stack: seq<Layer>, h: Script, req: Request, ctx: Context, chain: Chain)
    requires chain != [] && chain[0].kind.Connection? && GateFree(stack) && !Guarded(stack)
    requires Trim(h, chain[0].wroteHeader).panics
    ensures var o := Serve(stack, h, req, ctx, chain);
            && o.panicked
            && forall e :: e in o.events ==>
                 && (e.RequestCounted? ==> e.code == 500)
                 && (e.SpanEnded? ==> e.span.failed && e.span.status.None?)
                 && (e.Logged? ==> e.line.msg.Warning?)
    decreases |stack|
  {
    if stack == [] {
      ScriptEffect(h, ctx, chain);
      NotedHasNoStatus(Trim(h, chain[0].wroteHeader).ops, ctx);
    } else {
      GuardedCons(stack[0], stack[1..]);
      assert stack == [stack[0]] + stack[1..];
      var f, inner := Pushed(stack[0]), ContextInside(stack[0], req, ctx);
      OneLayer(stack, h, req, ctx, chain);
      BarePanicSeenByAll(stack[1..], h, req, inner, chain + [f]);
    }
  }

  /** For every stack, gates included: every layer entered. */
  lemma {:induction false} PanicSeenByAll(stack: seq<Layer>, h: Script, req: Request, ctx: Context, chain: Chain)
    requires chain != [] && chain[0].kind.Connection? && !Guarded(Entered(stack))
    requires Trim(Answering(stack, h), chain[0].wroteHeader).panics
    ensures var o := Serve(stack, h, req, ctx, chain);
            && o.panicked
            && forall e :: e in o.events ==>
                 && (e.RequestCounted? ==> e.code == 500)
                 && (e.SpanEnded? ==> e.span.failed && e.span.status.None?)
                 && (e.Logged? ==> e.line.msg.Warning?)
  {
    GatesChoose(stack, h, req, ctx, chain);
    BarePanicSeenByAll(Entered(stack), Answering(stack, h), req, ctx, chain);
  }
}
