/** The HTTP side and the order pipeline as one system: the requests of InFlight run
    the handlers of OrderPipeline, and what a request emits drives both. */
module EndToEnd {
  import opened Wrappers
  import opened Sums
  import opened Traceparent
  import opened Telemetry
  import opened Middleware
  import opened ChaosControl
  import opened Router
  import opened OrderHandler
  import opened InFlight
  import OrderPipeline

  /** owner[j] is the request on whose goroutine handling j of the pipeline runs. */
  datatype Whole = Whole(http: Service, orders: OrderPipeline.System, owner: seq<nat>)

  datatype Move =
    | Http(h: InFlight.Action)
    | Orders(o: OrderPipeline.Action)
    | Enter(i: nat, body: Option<OrderRequest>)
    | Tallied(j: nat)
    | HandedOver(j: nat, marshals: bool, draw: Draw)
    | Concluded(j: nat)

  /** The request gets past its gate to the order handler. */
  predicate HandlerRuns(f: Flight) {
    && On(f, "POST", "/orders") && f.route.BusinessRoute?
    && Inject(f.route.snapshot, f.route.cancelled, f.route.lot).Proceed?
  }

  /** The span on the context the handler is given. */
  function HandlerSpan(f: Flight): SpanContext {
    HandlerContext(f.route, f.draws, f.req).span
  }

  predicate Emits(s: Service, i: nat) {
    i < |s.flights| && s.flights[i].pos < |Plan(s.flights[i])|
  }

  function Emission(s: Service, i: nat): Event
    requires Emits(s, i)
  {
    Plan(s.flights[i])[s.flights[i].pos]
  }

  /** Events at which the handler of the order pipeline takes part. */
  predicate Joint(f: Flight, e: Event) {
    ReportsOrder(e) || (HandlerRuns(f) && (e.GaugeInc? || e.RequestCounted?))
  }

  /** The handler starts when the last layer before it has raised the gauge; it counts
      and hands over its order by two events of the request; and the request is
      counted once it has answered. A request's script holds the answers it will get
      from the database: a move at which these would differ from what the database
      did is not possible. */
  ghost predicate Possible(s: Whole, m: Move) {
    match m
    case Http(Arrive(route, draws, h, req)) => Routed(Flight(route, draws, h, req, 0))
    case Http(Advance(i)) => Emits(s.http, i) && !Joint(s.http.flights[i], Emission(s.http, i))
    case Orders(o) => !o.Arrive? && !o.CountOrder? && !o.PublishOrder? && OrderPipeline.Possible(s.orders, o)
    case Enter(i, _) => Emits(s.http, i) && HandlerRuns(s.http.flights[i]) && Emission(s.http, i).GaugeInc?
    case Tallied(j) =>
      && j < |s.owner| && Emits(s.http, s.owner[j]) && Emission(s.http, s.owner[j]).OrderCounted?
      && OrderPipeline.Possible(s.orders, OrderPipeline.CountOrder(j))
    case HandedOver(j, marshals, draw) =>
      && j < |s.owner| && Emits(s.http, s.owner[j]) && Emission(s.http, s.owner[j]).OrderHandedOver?
      && OrderPipeline.Possible(s.orders, OrderPipeline.PublishOrder(j, marshals, draw))
      && Emission(s.http, s.owner[j]).order == Inserted(s.orders.requests[j])
    case Concluded(j) =>
      && j < |s.owner| && j < |s.orders.requests|
      && Emits(s.http, s.owner[j]) && Emission(s.http, s.owner[j]).RequestCounted?
      && s.orders.requests[j].stage == OrderPipeline.Answered(Emission(s.http, s.owner[j]).code)
  }

  function Inserted(h: OrderPipeline.Handling): OrderEvent
    requires h.stage.Tallied? && h.body.Some?
  {
    OrderEvent(h.stage.id, h.body.value.productID, h.body.value.qty)
  }

  function Advanced(s: Whole, i: nat): Whole {
    s.(http := Step(s.http, Advance(i)))
  }

  /** The event that hands an order over starts its publish: with the event's order,
      under the event's span. */
  function Published(s: OrderPipeline.System, j: nat, e: Event, marshals: bool, draw: Draw): OrderPipeline.System
    requires j < |s.requests| && s.requests[j].stage.Tallied? && e.OrderHandedOver?
  {
    var h := s.requests[j];
    OrderPipeline.At(s, j, h.(stage := OrderPipeline.HandedOver(h.stage.id))).(
      pipe := OrderPipeline.StartPublish(s.pipe, j, e.order, e.caller, marshals, draw))
  }

  ghost function Next(s: Whole, m: Move): Whole
    requires Possible(s, m)
  {
    match m
    case Http(h) => s.(http := Step(s.http, h))
    case Orders(o) => s.(orders := OrderPipeline.Next(s.orders, o))
    case Enter(i, body) =>
      var arrival := OrderPipeline.Arrive(HandlerSpan(s.http.flights[i]), body);
      Advanced(s, i).(orders := OrderPipeline.Next(s.orders, arrival), owner := s.owner + [i])
    case Tallied(j) =>
      Advanced(s, s.owner[j]).(orders := OrderPipeline.Next(s.orders, OrderPipeline.CountOrder(j)))
    case HandedOver(j, marshals, draw) =>
      Advanced(s, s.owner[j]).(orders := Published(s.orders, j, Emission(s.http, s.owner[j]), marshals, draw))
    case Concluded(j) => Advanced(s, s.owner[j])
  }

  function Init(enabled: bool): Whole {
    Whole(Service([], BLANK, []), OrderPipeline.Init(enabled), [])
  }

  /** Any interleaving; a move that is not possible changes nothing. */
  ghost function Reached(enabled: bool, schedule: seq<Move>): Whole {
    if schedule == [] then Init(enabled)
    else
      var s, m := Reached(enabled, schedule[..|schedule| - 1]), schedule[|schedule| - 1];
      if Possible(s, m) then Next(s, m) else s
  }

  // ---------- requests and their handlers stay together ----------

  ghost predicate Linked(s: Whole) {
    && |s.owner| == |s.orders.requests|
    && (forall i :: 0 <= i < |s.http.flights| ==> Routed(s.http.flights[i]))
    && (forall j :: 0 <= j < |s.owner| ==> OwnedBy(s, j, s.owner[j]))
    && (forall j, k :: 0 <= j < k < |s.owner| ==> s.owner[j] != s.owner[k])
    && (forall i :: 0 <= i < |s.http.flights| ==> HasHandling(s.http.flights[i], s.owner, i))
  }

  predicate HasHandling(f: Flight, owner: seq<nat>, i: int) {
    HandlerRuns(f) && f.pos > IncMark(f) ==> exists j :: 0 <= j < |owner| && owner[j] == i
  }

  /** The order has been counted and nothing has been refused. */
  predicate Succeeding(g: OrderPipeline.Stage) {
    g.Tallied? || g.HandedOver? || g == OrderPipeline.Answered(201)
  }

  /** Handling j runs inside request i, under its span; once the request has been
      counted, it has been answered with that status; and only a request that is to be
      counted as 201 gets its order counted. */
  ghost predicate OwnedBy(s: Whole, j: nat, i: nat)
    requires j < |s.orders.requests|
  {
    && i < |s.http.flights|
    && var f, h := s.http.flights[i], s.orders.requests[j];
       && HandlerRuns(f) && h.span == HandlerSpan(f) && f.pos > IncMark(f)
       && (PastCounter(f) ==> h.stage == OrderPipeline.Answered(CounterLabel(Performed(f.route, f.draws, f.h))))
       && (Succeeding(h.stage) ==> InFlight.Orders(f))
  }

  /** What the next event of a request says about it. */
  lemma EventKinds(f: Flight)
    requires Routed(f) && f.pos < |Plan(f)|
    ensures var e := Plan(f)[f.pos];
            && (e.GaugeInc? <==> f.pos == IncMark(f))
            && (e.RequestCounted? <==> f.pos == CountMark(f))
            && (e.RequestCounted? ==> e.code == CounterLabel(Performed(f.route, f.draws, f.h)))
            && (ReportsOrder(e) ==> InFlight.Orders(f) && f.pos > IncMark(f))
            && (e.OrderHandedOver? ==> e.caller == HandlerSpan(f))
    ensures IncMark(f) < CountMark(f)
  {
    hide Plan, CountMark, Performed, CounterLabel, Routed, InFlight.Orders, HandlerContext;
    Marks(f);
    OrderMarks(f);
    if Plan(f)[f.pos].OrderHandedOver? {
      assert f.pos == IncMark(f) + 2;
    }
  }

  /** The same request, possibly further on. */
  predicate SameRequest(f: Flight, g: Flight) {
    g == f.(pos := g.pos)
  }

  lemma SameRequestSame(f: Flight, g: Flight)
    requires SameRequest(f, g)
    ensures Plan(f) == Plan(g) && IncMark(f) == IncMark(g) && CountMark(f) == CountMark(g)
    ensures HandlerRuns(f) == HandlerRuns(g) && HandlerSpan(f) == HandlerSpan(g) && Routed(f) == Routed(g)
    ensures InFlight.Orders(f) == InFlight.Orders(g)
  {
  }

  /** Steps of the pipeline that are not joint leave a handling's span and its answer. */
  lemma HandlingKept(s: OrderPipeline.System, o: OrderPipeline.Action)
    requires OrderPipeline.Possible(s, o) && !o.Arrive?
    ensures var t := OrderPipeline.Next(s, o);
            && |t.requests| == |s.requests|
            && forall j :: 0 <= j < |s.requests| ==>
                 && t.requests[j].span == s.requests[j].span
                 && (s.requests[j].stage.Answered? ==> t.requests[j].stage == s.requests[j].stage)
                 && (Succeeding(t.requests[j].stage) ==>
                       Succeeding(s.requests[j].stage) || o == OrderPipeline.CountOrder(j))
  {
    hide OrderPipeline.StartPublish, OrderPipeline.Consumed, OrderPipeline.CountOutcome, OrderPipeline.Report;
  }

  lemma OwnedStill(s: Whole, t: Whole, j: nat, i: nat)
    requires j < |s.orders.requests| && j < |t.orders.requests| && OwnedBy(s, j, i) && i < |t.http.flights|
    requires SameRequest(s.http.flights[i], t.http.flights[i])
    requires s.http.flights[i].pos <= t.http.flights[i].pos
    requires t.orders.requests[j].span == s.orders.requests[j].span
    requires s.orders.requests[j].stage.Answered? ==> t.orders.requests[j].stage == s.orders.requests[j].stage
    requires PastCounter(t.http.flights[i]) ==> PastCounter(s.http.flights[i])
    requires Succeeding(t.orders.requests[j].stage) ==>
               Succeeding(s.orders.requests[j].stage) || InFlight.Orders(s.http.flights[i])
    ensures OwnedBy(t, j, i)
  {
    SameRequestSame(s.http.flights[i], t.http.flights[i]);
  }

  /** Flights keep their place; only the one that emits moves. */
  lemma FlightsKept(s: Whole, m: Move)
    requires Possible(s, m) && Linked(s)
    ensures var old', new' := s.http.flights, Next(s, m).http.flights;
            && |old'| <= |new'|
            && (forall i :: 0 <= i < |old'| ==> SameRequest(old'[i], new'[i]) && old'[i].pos <= new'[i].pos)
            && (forall i :: 0 <= i < |new'| ==> Routed(new'[i]))
  {
    hide Plan, Apply, Routed, OrderPipeline.Next, OrderPipeline.Possible, Published;
    var old', new' := s.http.flights, Next(s, m).http.flights;
    forall i | 0 <= i < |new'|
      ensures Routed(new'[i])
    {
      if i < |old'| {
        SameRequestSame(old'[i], new'[i]);
      }
    }
  }

  /** No move but Concluded takes a handler's request past its counter. */
  lemma CounterPassedOnlyThen(s: Whole, m: Move, j: nat)
    requires Possible(s, m) && Linked(s) && j < |s.owner|
    requires s.owner[j] < |s.http.flights| <= |Next(s, m).http.flights|
    requires PastCounter(Next(s, m).http.flights[s.owner[j]]) && !PastCounter(s.http.flights[s.owner[j]])
    ensures m == Concluded(j)
  {
    hide Plan, Apply, Routed, OrderPipeline.Next, OrderPipeline.Possible, Published, CountMark, IncMark, HandlerSpan;
    var i := s.owner[j];
    assert OwnedBy(s, j, i);
    var f, g := s.http.flights[i], Next(s, m).http.flights[i];
    FlightsKept(s, m);
    SameRequestSame(f, g);
    EventKinds(f);
  }

  lemma OwnedNext(s: Whole, m: Move, j: nat)
    requires Possible(s, m) && Linked(s) && j < |s.owner|
    ensures j < |Next(s, m).orders.requests| && OwnedBy(Next(s, m), j, s.owner[j])
  {
    var t, i := Next(s, m), s.owner[j];
    assert OwnedBy(s, j, i);
    FlightsKept(s, m);
    HandlingsKept(s, m, j);
    if m == Concluded(j) {
      ConcludedIsAnswered(s, j);
    } else {
      if m == Tallied(j) {
        EventKinds(s.http.flights[i]);
      }
      hide Next, Possible, OwnedBy;
      if PastCounter(t.http.flights[i]) && !PastCounter(s.http.flights[i]) {
        CounterPassedOnlyThen(s, m, j);
        assert false;
      }
      OwnedStill(s, t, j, i);
    }
  }

  lemma ConcludedIsAnswered(s: Whole, j: nat)
    requires Possible(s, Concluded(j)) && Linked(s)
    ensures OwnedBy(Next(s, Concluded(j)), j, s.owner[j])
  {
    hide Plan, Apply, Routed, HandlerSpan, CountMark, IncMark, CounterLabel;
    var f, g := s.http.flights[s.owner[j]], Next(s, Concluded(j)).http.flights[s.owner[j]];
    assert OwnedBy(s, j, s.owner[j]);
    SameRequestSame(f, g);
    EventKinds(f);
  }

  lemma HandlingsKept(s: Whole, m: Move, j: nat)
    requires Possible(s, m) && Linked(s) && j < |s.owner|
    ensures var h, t := s.orders.requests[j], Next(s, m).orders;
            && j < |t.requests| && t.requests[j].span == h.span
            && (h.stage.Answered? ==> t.requests[j].stage == h.stage)
            && (Succeeding(t.requests[j].stage) ==> Succeeding(h.stage) || m == Tallied(j))
  {
    hide Linked, Next, Succeeding, OrderPipeline.Next, OrderPipeline.Possible, Plan, HandlerRuns;
    SidesNext(s, m);
    assert j < |s.orders.requests| by {
      LinkedLengths(s);
    }
    var o := OrdersSide(s, m);
    if o.Some? && o.value.Arrive? {
      ArriveKeeps(s.orders, o.value);
    } else if o.Some? {
      HandlingKept(s.orders, o.value);
    }
  }

  lemma LinkedLengths(s: Whole)
    requires Linked(s)
    ensures |s.owner| == |s.orders.requests|
  {
  }

  lemma ArriveKeeps(s: OrderPipeline.System, o: OrderPipeline.Action)
    requires OrderPipeline.Possible(s, o) && o.Arrive?
    ensures var t := OrderPipeline.Next(s, o);
            |t.requests| == |s.requests| + 1 && t.requests[..|s.requests|] == s.requests
  {
  }

  lemma EnteredIsNew(s: Whole, i: nat, body: Option<OrderRequest>)
    requires Possible(s, Enter(i, body)) && Linked(s)
    ensures var t := Next(s, Enter(i, body));
            && |t.owner| == |t.orders.requests| == |s.owner| + 1 && t.owner == s.owner + [i]
            && OwnedBy(t, |s.owner|, i)
    ensures i !in s.owner
  {
    hide Plan, Apply, Routed, HandlerSpan, CountMark, IncMark;
    var f, g := s.http.flights[i], Next(s, Enter(i, body)).http.flights[i];
    SameRequestSame(f, g);
    EventKinds(f);
    forall j | 0 <= j < |s.owner|
      ensures s.owner[j] != i
    {
      assert OwnedBy(s, j, s.owner[j]);
    }
  }

  lemma HandlingStarts(s: Whole, m: Move, i: nat)
    requires Possible(s, m) && Linked(s) && i < |Next(s, m).http.flights|
    ensures HasHandling(Next(s, m).http.flights[i], Next(s, m).owner, i)
  {
    hide Plan, Apply, Routed, HandlerSpan, CountMark, IncMark, HandlerRuns;
    hide OrderPipeline.Next, OrderPipeline.Possible, Published, OwnedBy;
    var t, g := Next(s, m), Next(s, m).http.flights[i];
    if i < |s.http.flights| {
      var f := s.http.flights[i];
      FlightsKept(s, m);
      SameRequestSame(f, g);
      assert HasHandling(f, s.owner, i);
      if HandlerRuns(f) && f.pos > IncMark(f) {
        var j :| 0 <= j < |s.owner| && s.owner[j] == i;
        assert t.owner[j] == i;
      } else if g != f {
        EventKinds(f);
        if m.Enter? {
          assert t.owner[|s.owner|] == m.i;
        }
      }
    } else {
      assert g.pos == 0;
    }
  }

  lemma LinkedStep(s: Whole, m: Move)
    requires Possible(s, m) && Linked(s)
    ensures Linked(Next(s, m))
  {
    hide Plan, Step, Routed, HandlerRuns, HandlerSpan, PastCounter, CountMark, IncMark;
    hide OrderPipeline.Next, OrderPipeline.Possible, Published;
    var t := Next(s, m);
    FlightsKept(s, m);
    if m.Enter? {
      EnteredIsNew(s, m.i, m.body);
    }
    assert t.owner == s.owner + (if m.Enter? then [m.i] else []) && |t.owner| == |t.orders.requests| by {
      HandlingCount(s, m);
    }
    forall i | 0 <= i < |t.http.flights|
      ensures HasHandling(t.http.flights[i], t.owner, i)
    {
      HandlingStarts(s, m, i);
    }
    hide Next, Possible, OwnedBy, HasHandling;
    forall j | 0 <= j < |t.owner|
      ensures OwnedBy(t, j, t.owner[j])
    {
      if j < |s.owner| {
        OwnedNext(s, m, j);
      }
    }
  }

  lemma HandlingCount(s: Whole, m: Move)
    requires Possible(s, m) && Linked(s)
    ensures var t := Next(s, m);
            && t.owner == s.owner + (if m.Enter? then [m.i] else [])
            && |t.orders.requests| == |s.orders.requests| + (if m.Enter? then 1 else 0)
  {
    hide Linked, OrderPipeline.Next, OrderPipeline.Possible, Plan, Step, HandlerRuns, Published;
    SidesNext(s, m);
    var o := OrdersSide(s, m);
    if o.Some? && o.value.Arrive? {
      ArriveKeeps(s.orders, o.value);
    } else if o.Some? {
      HandlingKept(s.orders, o.value);
    }
  }

  lemma {:induction false} AlwaysLinked(enabled: bool, schedule: seq<Move>)
    ensures Linked(Reached(enabled, schedule))
  {
    if schedule != [] {
      hide Linked;
      var s, m := Reached(enabled, schedule[..|schedule| - 1]), schedule[|schedule| - 1];
      AlwaysLinked(enabled, schedule[..|schedule| - 1]);
      if Possible(s, m) {
        LinkedStep(s, m);
      }
    } else {
      assert Reached(enabled, schedule) == Init(enabled);
    }
  }

  /** A move of a request waits for nothing but its handler, and for that only where
      the handler is bound to take part: its handling exists by then, and only the
      handling's own progress, and the answers the database gave it, decide. */
  lemma OnlyHandlerDecides(s: Whole, i: nat) returns (j: nat)
    requires Linked(s) && Emits(s.http, i)
    ensures var f, e := s.http.flights[i], Emission(s.http, i);
            && (!Joint(f, e) ==> Possible(s, Http(Advance(i))))
            && (Joint(f, e) && e.GaugeInc? ==> forall body :: Possible(s, Enter(i, body)))
            && (Joint(f, e) && !e.GaugeInc? ==>
                  && j < |s.owner| && s.owner[j] == i
                  && var h := s.orders.requests[j];
                     && (e.OrderCounted? ==> (Possible(s, Tallied(j)) <==> h.stage.Inserted?))
                     && (e.OrderHandedOver? ==> forall marshals, draw ::
                           Possible(s, HandedOver(j, marshals, draw))
                           <==> h.stage.Tallied? && h.body.Some? && e.order == Inserted(h))
                     && (e.RequestCounted? ==>
                           (Possible(s, Concluded(j)) <==> h.stage == OrderPipeline.Answered(e.code))))
  {
    hide Plan, Apply, CountMark, IncMark, HandlerSpan, OwnedBy, InFlight.Orders, Routed;
    j := 0;
    var f, e := s.http.flights[i], Emission(s.http, i);
    EventKinds(f);
    if Joint(f, e) && !e.GaugeInc? {
      if ReportsOrder(e) {
        OrdersRun(f);
      }
      assert HasHandling(f, s.owner, i);
      j :| 0 <= j < |s.owner| && s.owner[j] == i;
    }
  }

  /** And nothing else waits at all: a request can arrive whenever it is routed as the
      router does, and database, broker and consumer act whenever they could alone. */
  lemma RestIsFree(s: Whole, f: Flight, o: OrderPipeline.Action)
    ensures f.pos == 0 && Routed(f) ==> Possible(s, Http(InFlight.Arrive(f.route, f.draws, f.h, f.req)))
    ensures OrderPipeline.Possible(s.orders, o) && (
              || o.ListProduct? || o.DelistProduct? || o.Validate? || o.Check? || o.Insert? || o.Respond?
              || o.BrokerAppends? || o.WriterReturns? || o.OutcomeCounted? || o.Consume? || o.Rewind?)
            ==> Possible(s, Orders(o)) && Next(s, Orders(o)).orders == OrderPipeline.Next(s.orders, o)
  {
    hide Plan, HandlerRuns, OrderPipeline.Next;
    if f.pos == 0 {
      assert f == Flight(f.route, f.draws, f.h, f.req, 0);
    }
  }

  lemma OrdersRun(f: Flight)
    requires Routed(f) && InFlight.Orders(f)
    ensures HandlerRuns(f)
  {
    hide Performed, CounterLabel;
    var a, n :| f.h == CreateOrder(a, n);
    OrdersExactly(f, a, n);
  }

  // ---------- either side by itself ----------

  /** The event starts the publish its handler is about to start: the order and span it
      carries are those of the handling. */
  lemma HandedOverIsPublish(s: Whole, j: nat, marshals: bool, draw: Draw)
    requires Possible(s, HandedOver(j, marshals, draw)) && Linked(s)
    ensures Next(s, HandedOver(j, marshals, draw)).orders
         == OrderPipeline.Next(s.orders, OrderPipeline.PublishOrder(j, marshals, draw))
  {
    hide Plan, Apply, Routed, HandlerSpan, CountMark, IncMark, OrderPipeline.StartPublish;
    assert OwnedBy(s, j, s.owner[j]);
    EventKinds(s.http.flights[s.owner[j]]);
  }

  /** Every run, seen from either side alone, is a run of that side: nothing the other
      does is more than one of its interleavings. */
  lemma {:induction false} Sides(enabled: bool, schedule: seq<Move>)
    returns (hs: seq<InFlight.Action>, os: seq<OrderPipeline.Action>)
    ensures Reached(enabled, schedule).http == InFlight.Reached(hs)
    ensures Reached(enabled, schedule).orders == OrderPipeline.Reached(enabled, os)
  {
    if schedule == [] {
      hs, os := [], [];
    } else {
      hide Linked, Next, Possible, HttpSide, OrdersSide, InFlight.Reached, OrderPipeline.Reached;
      var s, m := Reached(enabled, schedule[..|schedule| - 1]), schedule[|schedule| - 1];
      hs, os := Sides(enabled, schedule[..|schedule| - 1]);
      if Possible(s, m) {
        AlwaysLinked(enabled, schedule[..|schedule| - 1]);
        SidesNext(s, m);
        hs := HttpGoesOn(hs, HttpSide(s, m));
        os := OrdersGoOn(enabled, os, OrdersSide(s, m));
      }
    }
  }

  lemma HttpGoesOn(hs: seq<InFlight.Action>, h: Option<InFlight.Action>) returns (more: seq<InFlight.Action>)
    ensures InFlight.Reached(more) == if h.Some? then Step(InFlight.Reached(hs), h.value) else InFlight.Reached(hs)
  {
    more := hs;
    if h.Some? {
      more := hs + [h.value];
      assert more[..|hs|] == hs;
    }
  }

  lemma OrdersGoOn(enabled: bool, os: seq<OrderPipeline.Action>, o: Option<OrderPipeline.Action>)
    returns (more: seq<OrderPipeline.Action>)
    requires o.Some? ==> OrderPipeline.Possible(OrderPipeline.Reached(enabled, os), o.value)
    ensures var s := OrderPipeline.Reached(enabled, os);
            OrderPipeline.Reached(enabled, more) == if o.Some? then OrderPipeline.Next(s, o.value) else s
  {
    more := os;
    if o.Some? {
      more := os + [o.value];
      assert more[..|os|] == os;
    }
  }

  /** The step either side takes at a move. */
  ghost function HttpSide(s: Whole, m: Move): Option<InFlight.Action>
    requires Possible(s, m)
  {
    match m
    case Http(h) => Some(h)
    case Orders(_) => None
    case Enter(i, _) => Some(Advance(i))
    case Tallied(j) => Some(Advance(s.owner[j]))
    case HandedOver(j, _, _) => Some(Advance(s.owner[j]))
    case Concluded(j) => Some(Advance(s.owner[j]))
  }

  ghost function OrdersSide(s: Whole, m: Move): Option<OrderPipeline.Action>
    requires Possible(s, m)
  {
    match m
    case Http(_) => None
    case Orders(o) => Some(o)
    case Enter(i, body) => Some(OrderPipeline.Arrive(HandlerSpan(s.http.flights[i]), body))
    case Tallied(j) => Some(OrderPipeline.CountOrder(j))
    case HandedOver(j, marshals, draw) => Some(OrderPipeline.PublishOrder(j, marshals, draw))
    case Concluded(_) => None
  }

  lemma SidesNext(s: Whole, m: Move)
    requires Possible(s, m) && Linked(s)
    ensures var h, o, t := HttpSide(s, m), OrdersSide(s, m), Next(s, m);
            && t.http == (if h.Some? then Step(s.http, h.value) else s.http)
            && (o.Some? ==> OrderPipeline.Possible(s.orders, o.value))
            && t.orders == (if o.Some? then OrderPipeline.Next(s.orders, o.value) else s.orders)
  {
    hide Step, OrderPipeline.Next, Published, HandlerSpan, Linked;
    if m.HandedOver? {
      HandedOverIsPublish(s, m.j, m.marshals, m.draw);
    }
  }

  // ---------- one account of orders ----------

  /** Orders the pipeline has been given, whatever became of them. */
  function Taken(p: OrderPipeline.Pipe): int {
    p.published + p.errors + Sum(p.publishes, OrderPipeline.InFlight)
  }

  lemma TakenNext(s: OrderPipeline.System, o: OrderPipeline.Action)
    requires OrderPipeline.Possible(s, o)
    ensures var t := OrderPipeline.Next(s, o);
            && Taken(t.pipe) == Taken(s.pipe) + (if o.PublishOrder? then 1 else 0)
            && t.created == s.created + (if o.CountOrder? then 1 else 0)
  {
    hide Sum, StartSpan, OrderPipeline.Consumed;
    var t := OrderPipeline.Next(s, o);
    match o {
      case PublishOrder(_, _, _) =>
        if t.pipe.publishes != s.pipe.publishes {
          SumSnoc(s.pipe.publishes, t.pipe.publishes[|s.pipe.publishes|], OrderPipeline.InFlight);
        }
      case WriterReturns(k, _) => OrderPipeline.PublishMoves(s.pipe, k, t.pipe.publishes[k]);
      case OutcomeCounted(k) => OrderPipeline.PublishMoves(s.pipe, k, t.pipe.publishes[k]);
      case _ =>
    }
  }

  predicate Agree(s: Whole) {
    && s.http.readings.ordersCreated == s.orders.created
    && s.http.readings.ordersHandedOver == Taken(s.orders.pipe)
  }

  lemma AgreeNext(s: Whole, m: Move)
    requires Possible(s, m) && Linked(s) && Agree(s)
    ensures Agree(Next(s, m))
  {
    hide Plan, Linked, Taken, OrderPipeline.Next, Published, HandlerSpan, Routed;
    SidesNext(s, m);
    if OrdersSide(s, m).Some? {
      TakenNext(s.orders, OrdersSide(s, m).value);
    }
  }

  lemma {:induction false} AlwaysAgree(enabled: bool, schedule: seq<Move>)
    ensures Agree(Reached(enabled, schedule))
  {
    if schedule != [] {
      hide Linked, Agree, Next, Possible;
      var s, m := Reached(enabled, schedule[..|schedule| - 1]), schedule[|schedule| - 1];
      AlwaysAgree(enabled, schedule[..|schedule| - 1]);
      AlwaysLinked(enabled, schedule[..|schedule| - 1]);
      if Possible(s, m) {
        AgreeNext(s, m);
      }
    } else {
      assert Agree(Init(enabled));
    }
  }

  /** In every reachable state of the whole service, with any chaos, database, broker
      and Redis behaviour: orders answered 201 are at most the orders handed over,
      which are exactly those published, failed or in flight; and these are at most
      the orders created, which both sides count alike and which are committed. */
  lemma {:induction false} OneAccount(enabled: bool, schedule: seq<Move>)
    ensures var s := Reached(enabled, schedule);
            var m, p := s.http.readings, s.orders.pipe;
            && At(m.requests, ("POST", "/orders", 201)) <= m.ordersHandedOver
            && m.ordersHandedOver == p.published + p.errors + Sum(p.publishes, OrderPipeline.InFlight)
            && m.ordersHandedOver <= m.ordersCreated == s.orders.created <= |s.orders.rows|
  {
    hide Step, Plan, Linked, OrderPipeline.Next;
    var hs, os := Sides(enabled, schedule);
    AlwaysAgree(enabled, schedule);
    AlwaysLinked(enabled, schedule);
    assert AllRouted(InFlight.Reached(hs)) by {
      AllFlightsRouted(Reached(enabled, schedule));
    }
    OrdersMatchRed(hs);
    OrderPipeline.OrdersConserved(enabled, os);
    SumNonNegative(Reached(enabled, schedule).orders.requests);
  }

  lemma AllFlightsRouted(s: Whole)
    requires Linked(s)
    ensures AllRouted(s.http)
  {
    hide Routed;
  }

  lemma {:induction false} SumNonNegative(hs: seq<OrderPipeline.Handling>)
    ensures Sum(hs, OrderPipeline.Uncounted) >= 0
  {
    if hs != [] {
      SumNonNegative(hs[..|hs| - 1]);
    }
  }

  /** At rest every 201 is an order published or a publish error, and conversely. */
  lemma {:induction false} OneAccountAtRest(enabled: bool, schedule: seq<Move>)
    requires var s := Reached(enabled, schedule);
             && InFlight.Quiet(s.http)
             && forall k :: 0 <= k < |s.orders.pipe.publishes| ==> s.orders.pipe.publishes[k].delivery.Finished?
    ensures var s := Reached(enabled, schedule);
            At(s.http.readings.requests, ("POST", "/orders", 201))
            == s.orders.pipe.published + s.orders.pipe.errors == s.orders.created
  {
    hide Step, Plan, Linked, OrderPipeline.Next;
    var hs, _ := Sides(enabled, schedule);
    OneAccount(enabled, schedule);
    AlwaysLinked(enabled, schedule);
    AllFlightsRouted(Reached(enabled, schedule));
    OrdersMatchRed(hs);
    SumZero(Reached(enabled, schedule).orders.pipe.publishes, OrderPipeline.InFlight);
  }

  // ---------- one trace ----------

  /** From log to consumer, in every run of the whole service: an order's message was
      handed over by one POST /orders request that is counted as 201, under the span
      of that request's TraceHTTP layer; and if that span and the publish span are
      valid, the span under which the consumer processes the message has the trace id
      of the request's canonical line, latency exemplar and server span. */
  lemma OneTraceID(enabled: bool, schedule: seq<Move>, c: OrderPipeline.Consumption)
    requires c in Reached(enabled, schedule).orders.spans
    ensures var s := Reached(enabled, schedule);
            && c.message.origin < |s.orders.pipe.publishes|
            && var p := s.orders.pipe.publishes[c.message.origin];
            && p.request < |s.owner| && s.owner[p.request] < |s.http.flights|
            && var f := s.http.flights[s.owner[p.request]];
            && InFlight.Orders(f) && p.parent == HandlerSpan(f)
            && (p.span.IsValid() && p.parent.IsValid() ==>
                  forall e :: e in Plan(f) ==> ShowsTrace(e, c.span))
  {
    hide Linked, Plan, OrderPipeline.Next, Step, HandlerSpan, InFlight.Orders, OrderPipeline.Consumed, ShowsTrace;
    var s := Reached(enabled, schedule);
    var _, os := Sides(enabled, schedule);
    AlwaysLinked(enabled, schedule);
    OrderPipeline.TraceContinues(enabled, os, c);
    OrderPipeline.AlwaysGoodLog(enabled, os);
    var k := c.message.origin;
    OwnerOfPublish(s, k);
    var p := s.orders.pipe.publishes[k];
    if p.span.IsValid() && p.parent.IsValid() {
      forall e | e in Plan(s.http.flights[s.owner[p.request]])
        ensures ShowsTrace(e, c.span)
      {
        SignalsShowTrace(s.http.flights[s.owner[p.request]], e, c.span);
      }
    }
  }

  lemma OwnerOfPublish(s: Whole, k: nat)
    requires Linked(s) && OrderPipeline.GoodLog(s.orders) && k < |s.orders.pipe.publishes|
    ensures var p := s.orders.pipe.publishes[k];
            && p.request < |s.owner| && s.owner[p.request] < |s.http.flights|
            && var f := s.http.flights[s.owner[p.request]];
               HandlerRuns(f) && InFlight.Orders(f) && p.parent == HandlerSpan(f)
  {
    hide InFlight.Orders, HandlerSpan, Routed, PastCounter, OrderPipeline.Legitimate, OrderPipeline.MessageOf;
    var p := s.orders.pipe.publishes[k];
    assert OrderPipeline.Owned(s.orders, p);
    assert OwnedBy(s, p.request, s.owner[p.request]);
  }

  /** The signals of a request by which its trace can be found. */
  predicate ShowsTrace(e: Event, consumed: SpanContext) {
    && (e.Logged? && e.line.msg.RequestLine? ==>
          && e.line.ids.Some? && e.line.ids.value.0 == Hex(consumed.traceID)
          && e.line.status == Some(201))
    && (e.DurationObserved? ==> e.exemplar == if consumed.IsSampled() then Some(consumed.traceID) else None)
    && (e.SpanEnded? ==> e.span.context.traceID == consumed.traceID && e.span.status == Some(201))
    && (e.RequestCounted? ==> e.code == 201)
  }

  lemma SignalsShowTrace(f: Flight, e: Event, consumed: SpanContext)
    requires HandlerRuns(f) && InFlight.Orders(f) && HandlerSpan(f).IsValid() && e in Plan(f)
    requires consumed.traceID == HandlerSpan(f).traceID && consumed.IsSampled() == HandlerSpan(f).IsSampled()
    ensures ShowsTrace(e, consumed)
  {
    hide Visit, Performed, SpanOf, Hex;
    Correlated(f.route, f.draws, f.h, f.req);
    OneStatus(f.route, f.draws, f.h, f.req);
  }
}
