/** The order pipeline as a step protocol: handlers, publish goroutines, the topic
    and the consumer (internal/api/handlers.go:43-82, internal/events/producer.go,
    cmd/consumer/main.go:91-148). */
module OrderPipeline {
  import opened Wrappers
  import opened Sums
  import opened Traceparent
  import opened Telemetry
  import opened OrderHandler

  // ---------- messages ----------

  datatype KafkaHeader = KafkaHeader(key: string, value: string)

  /** origin: which publish wrote it. */
  datatype Message = Message(event: OrderEvent, headers: seq<KafkaHeader>, origin: nat)

  const TRACEPARENT := "traceparent"

  function Lookup(headers: seq<KafkaHeader>): Option<string> {
    if headers == [] then None
    else if headers[0].key == TRACEPARENT then Some(headers[0].value)
    else Lookup(headers[1..])
  }

  predicate FirstTraceparent(headers: seq<KafkaHeader>, i: nat) {
    i < |headers| && headers[i].key == "traceparent" && forall j :: 0 <= j < i ==> headers[j].key != "traceparent"
  }

  /** consumeSpanContext: the first traceparent header decides, well-formed or not. */
  method ConsumeSpanContext(headers: seq<KafkaHeader>) returns (sc: Option<SpanContext>)
    ensures sc == Remote(headers)
    ensures forall i: nat :: FirstTraceparent(headers, i) ==> sc == Parse(headers[i].value)
    ensures (forall i :: 0 <= i < |headers| ==> headers[i].key != "traceparent") ==> sc.None?
  {
    for i := 0 to |headers|
      invariant forall j :: 0 <= j < i ==> headers[j].key != TRACEPARENT
      invariant Lookup(headers) == Lookup(headers[i..])
    {
      assert headers[i..][1..] == headers[i + 1..];
      if headers[i].key == TRACEPARENT {
        sc := Parse(headers[i].value);
        return;
      }
    }
    sc := None;
  }

  function Remote(headers: seq<KafkaHeader>): Option<SpanContext> {
    if Lookup(headers).Some? then Parse(Lookup(headers).value) else None
  }

  // ---------- the producer ----------

  datatype Delivery = Writing | Reported(ok: bool) | Finished(ok: bool)

  /** A publish goroutine: the request it is for, its message, the request span it was
      started under and its own span, which was started before the goroutine. */
  datatype Publish = Publish(
    request: nat, event: OrderEvent, parent: SpanContext, span: SpanContext, delivery: Delivery)

  datatype Pipe = Pipe(enabled: bool, publishes: seq<Publish>, topic: seq<Message>, published: nat, errors: nat)

  /** PublishOrder, the part on the request's goroutine. */
  function StartPublish(
    p: Pipe, request: nat, event: OrderEvent, parent: SpanContext, marshals: bool, draw: Draw): Pipe
  {
    if !p.enabled || !marshals then p.(errors := p.errors + 1)
    else p.(publishes := p.publishes + [Publish(request, event, parent, StartSpan(parent, draw), Writing)])
  }

  function MessageOf(p: Pipe, k: nat): Message
    requires k < |p.publishes|
  {
    Message(p.publishes[k].event, [KafkaHeader(TRACEPARENT, Format(p.publishes[k].span))], k)
  }

  /** The broker appends a copy: any number of times, also after the writer has
      given up. */
  function Append(p: Pipe, k: nat): Pipe
    requires k < |p.publishes|
  {
    p.(topic := p.topic + [MessageOf(p, k)])
  }

  predicate InTopic(p: Pipe, k: nat) {
    exists i :: 0 <= i < |p.topic| && p.topic[i].origin == k
  }

  /** WriteMessages returns; success means the message is in the topic. */
  ghost predicate MayReport(p: Pipe, k: nat, ok: bool) {
    k < |p.publishes| && p.publishes[k].delivery.Writing? && (ok ==> InTopic(p, k))
  }

  function Report(p: Pipe, k: nat, ok: bool): Pipe
    requires k < |p.publishes|
  {
    p.(publishes := p.publishes[k := p.publishes[k].(delivery := Reported(ok))])
  }

  /** The outcome counter, and the end of the goroutine. */
  function CountOutcome(p: Pipe, k: nat): Pipe
    requires k < |p.publishes| && p.publishes[k].delivery.Reported?
  {
    var ok := p.publishes[k].delivery.ok;
    var q := p.(publishes := p.publishes[k := p.publishes[k].(delivery := Finished(ok))]);
    if ok then q.(published := p.published + 1) else q.(errors := p.errors + 1)
  }

  class Producer {
    const enabled: bool
    var publishes: seq<Publish>
    var topic: seq<Message>
    var published: nat
    var errors: nat

    function View(): Pipe
      reads this
    {
      Pipe(enabled, publishes, topic, published, errors)
    }

    constructor (enabled: bool)
      ensures View() == Pipe(enabled, [], [], 0, 0)
    {
      this.enabled := enabled;
      publishes, topic, published, errors := [], [], 0, 0;
    }

    method PublishOrder(request: nat, event: OrderEvent, parent: SpanContext, marshals: bool, draw: Draw)
      modifies this
      ensures View() == StartPublish(old(View()), request, event, parent, marshals, draw)
      ensures topic == old(topic) && published == old(published)
      ensures !enabled || !marshals ==> errors == old(errors) + 1 && publishes == old(publishes)
      ensures enabled && marshals ==>
                && errors == old(errors) && |publishes| == |old(publishes)| + 1
                && publishes[..|old(publishes)|] == old(publishes)
                && var p := publishes[|old(publishes)|];
                   && p.request == request && p.event == event && p.parent == parent && p.delivery == Writing
                   && p.span.spanID == draw.spanID && Child(parent, p.span)
    {
      if !enabled {
        errors := errors + 1;
        return;
      }
      if !marshals {
        errors := errors + 1;
        return;
      }
      var span := StartSpan(parent, draw);
      publishes := publishes + [Publish(request, event, parent, span, Writing)];
    }

    /** The goroutine once the writer has answered. */
    method Deliver(k: nat, ok: bool)
      requires MayReport(View(), k, ok)
      modifies this
      ensures View() == CountOutcome(Report(old(View()), k, ok), k)
      ensures publishes == old(publishes)[k := old(publishes)[k].(delivery := Finished(ok))] && topic == old(topic)
      ensures published == old(published) + (if ok then 1 else 0)
      ensures errors == old(errors) + (if ok then 0 else 1)
    {
      publishes := publishes[k := publishes[k].(delivery := Reported(ok))];
      if !ok {
        errors := errors + 1;
      } else {
        published := published + 1;
      }
      publishes := publishes[k := publishes[k].(delivery := Finished(ok))];
    }
  }

  // ---------- the whole service ----------

  /** A request to create an order; body is None if it did not decode. */
  datatype Stage =
    | Decoding
    | Valid
    | Existing
    | Inserted(id: int)
    | Tallied(id: int)
    | HandedOver(id: int)
    | Answered(status: int)

  datatype Handling = Handling(
    span: SpanContext, body: Option<OrderRequest>,
    found: Option<Result<bool>>, created: Option<Result<int>>, stage: Stage)

  datatype Row = Row(id: int, productID: int, qty: int)

  /** A span of the consumer: the message it is for, its remote parent if any, the
      draw it was given. */
  datatype Consumption = Consumption(message: Message, parent: Option<SpanContext>, draw: Draw, span: SpanContext)

  datatype System = System(
    products: set<int>, everListed: set<int>, rows: seq<Row>, created: nat, requests: seq<Handling>,
    pipe: Pipe, offset: nat, consumed: nat, spans: seq<Consumption>)

  datatype Action =
    | ListProduct(id: int)
    | DelistProduct(id: int)
    | Arrive(span: SpanContext, body: Option<OrderRequest>)
    | Validate(i: nat)
    | Check(i: nat, answers: bool)
    | Insert(i: nat, id: int, commits: bool, acknowledged: bool)
    | CountOrder(i: nat)
    | PublishOrder(i: nat, marshals: bool, draw: Draw)
    | Respond(i: nat)
    | BrokerAppends(k: nat)
    | WriterReturns(k: nat, ok: bool)
    | OutcomeCounted(k: nat)
    | Consume(draw: Draw)
    | Rewind(offset: nat)

  ghost predicate Possible(s: System, a: Action) {
    match a
    case Validate(i) => i < |s.requests| && s.requests[i].stage.Decoding?
    case Check(i, _) => i < |s.requests| && s.requests[i].stage.Valid? && s.requests[i].body.Some?
    case Insert(i, id, commits, acknowledged) =>
      && i < |s.requests| && s.requests[i].stage.Existing? && s.requests[i].body.Some?
      && (acknowledged ==> commits)
      && (forall r :: r in s.rows ==> r.id != id)
    case CountOrder(i) => i < |s.requests| && s.requests[i].stage.Inserted?
    case PublishOrder(i, _, _) => i < |s.requests| && s.requests[i].stage.Tallied? && s.requests[i].body.Some?
    case Respond(i) => i < |s.requests| && s.requests[i].stage.HandedOver?
    case BrokerAppends(k) => k < |s.pipe.publishes|
    case WriterReturns(k, ok) => MayReport(s.pipe, k, ok)
    case OutcomeCounted(k) => k < |s.pipe.publishes| && s.pipe.publishes[k].delivery.Reported?
    case Consume(_) => s.offset < |s.pipe.topic|
    case Rewind(o) => o <= |s.pipe.topic|
    case _ => true
  }

  function At(s: System, i: nat, h: Handling): System
    requires i < |s.requests|
  {
    s.(requests := s.requests[i := h])
  }

  ghost function Next(s: System, a: Action): System
    requires Possible(s, a)
  {
    match a
    case ListProduct(id) => s.(products := s.products + {id}, everListed := s.everListed + {id})
    case DelistProduct(id) => s.(products := s.products - {id})
    case Arrive(span, body) => s.(requests := s.requests + [Handling(span, body, None, None, Decoding)])
    case Validate(i) =>
      var h := s.requests[i];
      At(s, i, h.(stage := if h.body.None? || h.body.value.qty <= 0 then Answered(400) else Valid))
    case Check(i, answers) =>
      var h := s.requests[i];
      var listed := h.body.value.productID in s.products;
      if !answers then At(s, i, h.(found := Some(Failed), stage := Answered(500)))
      else At(s, i, h.(found := Some(Ok(listed)), stage := if listed then Existing else Answered(404)))
    case Insert(i, id, commits, acknowledged) =>
      var h := s.requests[i];
      var t := if commits then s.(rows := s.rows + [Row(id, h.body.value.productID, h.body.value.qty)]) else s;
      if acknowledged then At(t, i, h.(created := Some(Ok(id)), stage := Inserted(id)))
      else At(t, i, h.(created := Some(Failed), stage := Answered(500)))
    case CountOrder(i) =>
      At(s, i, s.requests[i].(stage := Tallied(s.requests[i].stage.id))).(created := s.created + 1)
    case PublishOrder(i, marshals, draw) =>
      var h := s.requests[i];
      var event := OrderEvent(h.stage.id, h.body.value.productID, h.body.value.qty);
      At(s, i, h.(stage := HandedOver(h.stage.id))).(pipe := StartPublish(s.pipe, i, event, h.span, marshals, draw))
    case Respond(i) => At(s, i, s.requests[i].(stage := Answered(201)))
    case BrokerAppends(k) => s.(pipe := Append(s.pipe, k))
    case WriterReturns(k, ok) => s.(pipe := Report(s.pipe, k, ok))
    case OutcomeCounted(k) => s.(pipe := CountOutcome(s.pipe, k))
    case Consume(draw) =>
      var m := s.pipe.topic[s.offset];
      s.(offset := s.offset + 1, consumed := s.consumed + 1, spans := s.spans + [Consumed(m, draw)])
    case Rewind(o) => s.(offset := o)
  }

  /** One turn of the read loop: a remote parent if the header gives one, else a
      fresh root. */
  function Consumed(m: Message, draw: Draw): Consumption {
    var parent := Remote(m.headers);
    Consumption(m, parent, draw, StartSpan(if parent.Some? then parent.value else ABSENT, draw))
  }

  /** The read loop of one consumer process. */
  class Consumer {
    var offset: nat
    var consumed: nat
    var spans: seq<Consumption>

    constructor (offset: nat)
      ensures this.offset == offset && consumed == 0 && spans == []
    {
      this.offset := offset;
      consumed, spans := 0, [];
    }

    /** The reader delivers as many messages as there are draws, then fails: every one
        of them is processed once, in order, whatever its headers, and exactly those
        whose headers continue no trace start the one drawn for them. */
    method ReadLoop(topic: seq<Message>, draws: seq<Draw>)
      requires offset + |draws| <= |topic|
      modifies this
      ensures offset == old(offset) + |draws| && consumed == old(consumed) + |draws|
      ensures spans == old(spans) + Processed(topic[old(offset)..offset], draws)
      ensures forall k :: 0 <= k < |draws| ==>
                FreshIfStrange(spans[|old(spans)| + k], topic[old(offset) + k], draws[k])
    {
      for k := 0 to |draws|
        invariant offset == old(offset) + k && consumed == old(consumed) + k
        invariant spans == old(spans) + Processed(topic[old(offset)..offset], draws[..k])
      {
        hide Remote, StartSpan;
        var msg := topic[offset];
        var context := ABSENT;
        var sc := ConsumeSpanContext(msg.headers);
        if sc.Some? {
          context := sc.value;
        }
        var span := StartSpan(context, draws[k]);
        offset, consumed := offset + 1, consumed + 1;
        spans := spans + [Consumption(msg, sc, draws[k], span)];
        assert draws[..k + 1] == draws[..k] + [draws[k]];
        assert topic[old(offset)..offset] == topic[old(offset)..offset - 1] + [msg];
      }
      assert draws[..|draws|] == draws;
      forall k | 0 <= k < |draws|
        ensures FreshIfStrange(spans[|old(spans)| + k], topic[old(offset) + k], draws[k])
      {
        hide Consumed, FreshIfStrange;
        assert spans[|old(spans)| + k] == Consumed(topic[old(offset) + k], draws[k]);
        StrangeHeadersStartFresh(topic[old(offset) + k], draws[k]);
      }
    }
  }

  function Processed(messages: seq<Message>, draws: seq<Draw>): (r: seq<Consumption>)
    requires |messages| == |draws|
    ensures |r| == |messages|
  {
    seq(|messages|, i requires 0 <= i < |messages| => Consumed(messages[i], draws[i]))
  }

  /** Consumer steps of the system taken one after another. */
  ghost function Turns(s: System, draws: seq<Draw>): System {
    if draws == [] then s
    else
      var t, a := Turns(s, draws[..|draws| - 1]), Consume(draws[|draws| - 1]);
      if Possible(t, a) then Next(t, a) else t
  }

  /** So many turns of the read loop are so many consumer steps of the system. */
  lemma {:induction false} ReadLoopIsSteps(s: System, draws: seq<Draw>)
    requires s.offset + |draws| <= |s.pipe.topic|
    ensures Turns(s, draws)
         == s.(offset := s.offset + |draws|, consumed := s.consumed + |draws|,
               spans := s.spans + Processed(s.pipe.topic[s.offset..s.offset + |draws|], draws))
  {
    hide Consumed, Processed;
    if draws == [] {
      assert Processed([], []) == [] && s.spans + [] == s.spans;
    } else {
      var n := |draws| - 1;
      var front, topic := draws[..n], s.pipe.topic;
      ReadLoopIsSteps(s, front);
      ProcessedSnoc(s.spans, topic[s.offset..s.offset + n], topic[s.offset + n], front, draws[n]);
      assert topic[s.offset..s.offset + n + 1] == topic[s.offset..s.offset + n] + [topic[s.offset + n]];
      assert draws == front + [draws[n]];
    }
  }

  lemma ProcessedSnoc(before: seq<Consumption>, messages: seq<Message>, m: Message, draws: seq<Draw>, draw: Draw)
    requires |messages| == |draws|
    ensures before + Processed(messages + [m], draws + [draw])
         == before + Processed(messages, draws) + [Consumed(m, draw)]
  {
    hide Consumed;
  }

  function Init(enabled: bool): System {
    System({}, {}, [], 0, [], Pipe(enabled, [], [], 0, 0), 0, 0, [])
  }

  /** Any interleaving; a step that is not possible changes nothing. */
  ghost function Reached(enabled: bool, schedule: seq<Action>): System {
    if schedule == [] then Init(enabled)
    else
      var s, a := Reached(enabled, schedule[..|schedule| - 1]), schedule[|schedule| - 1];
      if Possible(s, a) then Next(s, a) else s
  }

  // ---------- conservation ----------

  function One(b: bool): int {
    if b then 1 else 0
  }

  function InFlight(p: Publish): int { One(!p.delivery.Finished?) }
  function Succeeded(p: Publish): int { One(p.delivery == Finished(true)) }
  function BetweenCounts(h: Handling): int { One(h.stage.Tallied?) }
  function Uncounted(h: Handling): int { One(h.stage.Inserted?) }

  predicate Balanced(s: System) {
    && s.created == s.pipe.published + s.pipe.errors + Sum(s.pipe.publishes, InFlight) + Sum(s.requests, BetweenCounts)
    && |s.rows| >= s.created + Sum(s.requests, Uncounted)
    && s.pipe.published == Sum(s.pipe.publishes, Succeeded)
    && s.consumed == |s.spans|
  }

  lemma RequestMoves(s: System, i: nat, h: Handling)
    requires i < |s.requests|
    ensures Sum(s.requests[i := h], BetweenCounts)
         == Sum(s.requests, BetweenCounts) - BetweenCounts(s.requests[i]) + BetweenCounts(h)
    ensures Sum(s.requests[i := h], Uncounted)
         == Sum(s.requests, Uncounted) - Uncounted(s.requests[i]) + Uncounted(h)
  {
    SumUpdate(s.requests, i, h, BetweenCounts);
    SumUpdate(s.requests, i, h, Uncounted);
  }

  lemma RequestArrives(s: System, h: Handling)
    requires h.stage.Decoding?
    ensures Sum(s.requests + [h], BetweenCounts) == Sum(s.requests, BetweenCounts)
    ensures Sum(s.requests + [h], Uncounted) == Sum(s.requests, Uncounted)
  {
    SumSnoc(s.requests, h, BetweenCounts);
    SumSnoc(s.requests, h, Uncounted);
  }

  lemma PublishMoves(p: Pipe, k: nat, q: Publish)
    requires k < |p.publishes|
    ensures Sum(p.publishes[k := q], InFlight) == Sum(p.publishes, InFlight) - InFlight(p.publishes[k]) + InFlight(q)
    ensures Sum(p.publishes[k := q], Succeeded)
         == Sum(p.publishes, Succeeded) - Succeeded(p.publishes[k]) + Succeeded(q)
  {
    SumUpdate(p.publishes, k, q, InFlight);
    SumUpdate(p.publishes, k, q, Succeeded);
  }

  lemma BalancedStep(s: System, a: Action)
    requires Possible(s, a) && Balanced(s)
    ensures Balanced(Next(s, a))
  {
    hide Sum, StartSpan, Consumed;
    var t := Next(s, a);
    match a {
      case Arrive(span, body) => RequestArrives(s, Handling(span, body, None, None, Decoding));
      case Validate(i) => RequestMoves(s, i, t.requests[i]);
      case Check(i, _) => RequestMoves(s, i, t.requests[i]);
      case Insert(i, _, _, _) => RequestMoves(s, i, t.requests[i]);
      case CountOrder(i) => RequestMoves(s, i, t.requests[i]);
      case PublishOrder(i, _, draw) =>
        RequestMoves(s, i, t.requests[i]);
        if t.pipe.publishes != s.pipe.publishes {
          var p := t.pipe.publishes[|s.pipe.publishes|];
          SumSnoc(s.pipe.publishes, p, InFlight);
          SumSnoc(s.pipe.publishes, p, Succeeded);
        }
      case Respond(i) => RequestMoves(s, i, t.requests[i]);
      case WriterReturns(k, _) => PublishMoves(s.pipe, k, t.pipe.publishes[k]);
      case OutcomeCounted(k) => PublishMoves(s.pipe, k, t.pipe.publishes[k]);
      case _ =>
    }
  }

  /** In every reachable state, with broker errors, timeouts, late appends, a disabled
      producer and rows committed but not acknowledged all allowed: every counted
      order is published, failed, in flight, or in a handler that has not handed it
      over yet; and there are at least as many rows as counted orders. */
  lemma {:induction false} OrdersConserved(enabled: bool, schedule: seq<Action>)
    ensures Balanced(Reached(enabled, schedule))
  {
    if schedule != [] {
      var s, a := Reached(enabled, schedule[..|schedule| - 1]), schedule[|schedule| - 1];
      OrdersConserved(enabled, schedule[..|schedule| - 1]);
      if Possible(s, a) {
        BalancedStep(s, a);
      }
    }
  }

  predicate Quiet(s: System) {
    && (forall i :: 0 <= i < |s.requests| ==> s.requests[i].stage.Answered?)
    && (forall k :: 0 <= k < |s.pipe.publishes| ==> s.pipe.publishes[k].delivery.Finished?)
  }

  lemma OrdersAtRest(enabled: bool, schedule: seq<Action>)
    requires Quiet(Reached(enabled, schedule))
    ensures var s := Reached(enabled, schedule);
            s.created == s.pipe.published + s.pipe.errors <= |s.rows|
  {
    var s := Reached(enabled, schedule);
    OrdersConserved(enabled, schedule);
    SumZero(s.pipe.publishes, InFlight);
    SumZero(s.requests, BetweenCounts);
    SumZero(s.requests, Uncounted);
  }

  // ---------- what is in the log ----------

  /** A committed order of a request with a positive quantity and a product that was
      listed when it was checked. */
  ghost predicate Legitimate(s: System, e: OrderEvent) {
    Row(e.orderID, e.productID, e.qty) in s.rows && e.qty > 0 && e.productID in s.everListed
  }

  /** The id of the row a request has committed, from then on. */
  function OwnRow(g: Stage): Option<int> {
    match g
    case Inserted(id) => Some(id)
    case Tallied(id) => Some(id)
    case HandedOver(id) => Some(id)
    case _ => None
  }

  ghost predicate GoodRequest(s: System, h: Handling) {
    && (h.stage.Valid? || h.stage.Existing? || OwnRow(h.stage).Some? ==> h.body.Some? && h.body.value.qty > 0)
    && (h.stage.Existing? || OwnRow(h.stage).Some? ==> h.body.value.productID in s.everListed)
    && (OwnRow(h.stage).Some? ==> h.created == Some(Ok(OwnRow(h.stage).value)))
    && (OwnRow(h.stage).Some? ==> Row(OwnRow(h.stage).value, h.body.value.productID, h.body.value.qty) in s.rows)
  }

  /** The publish belongs to one request, which handed over just this order under just
      this span. */
  predicate Owned(s: System, p: Publish) {
    && p.request < |s.requests|
    && var h := s.requests[p.request];
       && h.span == p.parent && h.created == Some(Ok(p.event.orderID))
       && h.body == Some(OrderRequest(p.event.productID, p.event.qty))
       && (h.stage.HandedOver? || h.stage == Answered(201))
  }

  ghost predicate GoodLog(s: System) {
    && s.products <= s.everListed
    && (forall i :: 0 <= i < |s.requests| ==> GoodRequest(s, s.requests[i]))
    && (forall k :: 0 <= k < |s.pipe.publishes| ==>
          Legitimate(s, s.pipe.publishes[k].event) && Owned(s, s.pipe.publishes[k]))
    && (forall j, k :: 0 <= j < k < |s.pipe.publishes| ==> s.pipe.publishes[j].request != s.pipe.publishes[k].request)
    && (forall m :: m in s.pipe.topic ==>
          m.origin < |s.pipe.publishes| && m == MessageOf(s.pipe, m.origin))
    && (forall k :: 0 <= k < |s.pipe.publishes| && s.pipe.publishes[k].delivery in {Reported(true), Finished(true)} ==>
          InTopic(s.pipe, k))
    && (forall c :: c in s.spans ==> c.message in s.pipe.topic && c == Consumed(c.message, c.draw))
  }

  lemma GoodRequestKept(s: System, a: Action, h: Handling)
    requires Possible(s, a) && GoodRequest(s, h)
    ensures GoodRequest(Next(s, a), h)
  {
  }

  lemma RequestsStayGood(s: System, a: Action)
    requires Possible(s, a) && GoodLog(s)
    ensures forall i :: 0 <= i < |Next(s, a).requests| ==> GoodRequest(Next(s, a), Next(s, a).requests[i])
  {
    hide StartPublish, Consumed;
    var t := Next(s, a);
    forall i | 0 <= i < |t.requests|
      ensures GoodRequest(t, t.requests[i])
    {
      if i < |s.requests| {
        GoodRequestKept(s, a, s.requests[i]);
      }
    }
  }

  lemma InTopicKept(p: Pipe, q: Pipe, k: nat)
    requires p.topic <= q.topic && InTopic(p, k)
    ensures InTopic(q, k)
  {
    var i :| 0 <= i < |p.topic| && p.topic[i].origin == k;
    assert q.topic[i].origin == k;
  }

  lemma ConsumedIs(m: Message, draw: Draw)
    ensures Consumed(m, draw).message == m && Consumed(m, draw).draw == draw
  {
  }

  /** A publish keeps its event and its span, so its messages keep their meaning. */
  lemma MessagesKept(s: System, a: Action)
    requires Possible(s, a) && GoodLog(s)
    ensures s.pipe.topic <= Next(s, a).pipe.topic && |s.pipe.publishes| <= |Next(s, a).pipe.publishes|
    ensures forall k :: 0 <= k < |s.pipe.publishes| ==> MessageOf(Next(s, a).pipe, k) == MessageOf(s.pipe, k)
    ensures forall m :: m in Next(s, a).pipe.topic ==>
              m.origin < |Next(s, a).pipe.publishes| && m == MessageOf(Next(s, a).pipe, m.origin)
  {
    hide Format, StartSpan, Consumed;
  }

  lemma PublishesLegitimate(s: System, a: Action)
    requires Possible(s, a) && GoodLog(s)
    ensures forall k :: 0 <= k < |Next(s, a).pipe.publishes| ==>
              Legitimate(Next(s, a), Next(s, a).pipe.publishes[k].event)
  {
    hide Format, StartSpan, Consumed;
    assert forall r :: r in s.rows ==> r in Next(s, a).rows;
    if a.PublishOrder? {
      assert GoodRequest(s, s.requests[a.i]);
    }
  }

  lemma PublishesOwned(s: System, a: Action)
    requires Possible(s, a) && GoodLog(s)
    ensures var t := Next(s, a);
            forall k :: 0 <= k < |t.pipe.publishes| ==> Owned(t, t.pipe.publishes[k])
  {
    hide Format, StartSpan, Consumed, Legitimate, MessageOf;
    var t := Next(s, a);
    if a.PublishOrder? {
      assert GoodRequest(s, s.requests[a.i]);
    }
    forall k | 0 <= k < |s.pipe.publishes|
      ensures Owned(t, s.pipe.publishes[k])
    {
      assert Owned(s, s.pipe.publishes[k]);
    }
    PublishesGrow(s, a);
  }

  /** A request that is about to hand over its order has not done so before. */
  lemma PublishesDistinct(s: System, a: Action)
    requires Possible(s, a) && GoodLog(s)
    ensures var ps := Next(s, a).pipe.publishes;
            forall j, k :: 0 <= j < k < |ps| ==> ps[j].request != ps[k].request
  {
    hide Format, StartSpan, Consumed, Legitimate, MessageOf, GoodRequest, InTopic;
    forall k | a.PublishOrder? && 0 <= k < |s.pipe.publishes|
      ensures s.pipe.publishes[k].request != a.i
    {
      assert Owned(s, s.pipe.publishes[k]);
    }
    PublishesGrow(s, a);
  }

  lemma PublishesGrow(s: System, a: Action)
    requires Possible(s, a)
    ensures var old', new' := s.pipe.publishes, Next(s, a).pipe.publishes;
            && |old'| <= |new'| <= |old'| + 1
            && (forall k :: 0 <= k < |old'| ==> new'[k].(delivery := Writing) == old'[k].(delivery := Writing))
            && (|new'| > |old'| ==> a.PublishOrder? && new'[|old'|].request == a.i)
  {
    hide Format, StartSpan, Consumed;
  }

  lemma {:induction false} LogStaysGood(s: System, a: Action)
    requires Possible(s, a) && GoodLog(s)
    ensures GoodLog(Next(s, a))
  {
    hide Format, StartSpan, Consumed, Remote, Legitimate, GoodRequest, Owned;
    var t := Next(s, a);
    RequestsStayGood(s, a);
    MessagesKept(s, a);
    PublishesLegitimate(s, a);
    PublishesOwned(s, a);
    PublishesDistinct(s, a);
    ReportedStayIn(s, a);
    SpansStayGood(s, a);
  }

  /** Success is reported only of what is in the topic, and stays there. */
  lemma ReportedStayIn(s: System, a: Action)
    requires Possible(s, a) && GoodLog(s)
    ensures var p := Next(s, a).pipe;
            forall k :: 0 <= k < |p.publishes| ==>
              (p.publishes[k].delivery in {Reported(true), Finished(true)} ==> InTopic(p, k))
  {
    hide Format, StartSpan, Consumed, Remote, Legitimate, GoodRequest, Owned;
    var p := Next(s, a).pipe;
    MessagesKept(s, a);
    forall k | 0 <= k < |p.publishes| && p.publishes[k].delivery in {Reported(true), Finished(true)}
      ensures InTopic(p, k)
    {
      InTopicKept(s.pipe, p, k);
    }
  }

  lemma SpansStayGood(s: System, a: Action)
    requires Possible(s, a) && GoodLog(s)
    ensures var t := Next(s, a);
            forall c :: c in t.spans ==> c.message in t.pipe.topic && c == Consumed(c.message, c.draw)
  {
    hide Format, StartSpan, Consumed, Remote, Legitimate, GoodRequest, Owned;
    MessagesKept(s, a);
    if a.Consume? {
      ConsumedIs(s.pipe.topic[s.offset], a.draw);
    }
  }

  lemma {:induction false} AlwaysGoodLog(enabled: bool, schedule: seq<Action>)
    ensures GoodLog(Reached(enabled, schedule))
  {
    if schedule != [] {
      var s, a := Reached(enabled, schedule[..|schedule| - 1]), schedule[|schedule| - 1];
      AlwaysGoodLog(enabled, schedule[..|schedule| - 1]);
      if Possible(s, a) {
        LogStaysGood(s, a);
      }
    }
  }

  /** Safety of the log: every message carries the id, product and quantity of the
      committed order of the one request that handed it over, a request with a
      positive quantity and a listed product; no request is published twice; and the
      orders counted as published are as many publishes whose message is in the log. */
  lemma LogIsSafe(enabled: bool, schedule: seq<Action>)
    ensures var s := Reached(enabled, schedule);
            && (forall m :: m in s.pipe.topic ==> (
                  && Legitimate(s, m.event) && m.origin < |s.pipe.publishes|
                  && m.event == s.pipe.publishes[m.origin].event && Owned(s, s.pipe.publishes[m.origin])))
            && (forall j, k :: 0 <= j < k < |s.pipe.publishes| ==>
                  s.pipe.publishes[j].request != s.pipe.publishes[k].request)
            && s.pipe.published == Sum(s.pipe.publishes, Succeeded)
            && (forall k :: 0 <= k < |s.pipe.publishes| && s.pipe.publishes[k].delivery == Finished(true) ==>
                  InTopic(s.pipe, k))
  {
    AlwaysGoodLog(enabled, schedule);
    OrdersConserved(enabled, schedule);
  }

  // ---------- the answer does not depend on publishing ----------

  /** What the request learnt from its body and the database; an answer it never
      asked for counts as none. */
  function AnswersTo(h: Handling): Answers {
    Answers(h.body, if h.found.Some? then h.found.value else Failed,
            if h.created.Some? then h.created.value else Failed)
  }

  /** The status of the order handler for these answers. */
  function StatusFor(h: Handling): int {
    if Accepts(AnswersTo(h)) then 201 else Refusal(AnswersTo(h))
  }

  predicate Answerable(h: Handling) {
    match h.stage
    case Answered(status) => status == StatusFor(h)
    case Decoding => h.found.None? && h.created.None?
    case Valid => h.body.Some? && h.body.value.qty > 0 && h.found.None? && h.created.None?
    case Existing => h.body.Some? && h.body.value.qty > 0 && h.found == Some(Ok(true)) && h.created.None?
    case _ => StatusFor(h) == 201
  }

  /** Whatever happens to its publish, a request that reached the database is answered
      by what the database said: 201 exactly if the order was inserted. */
  lemma {:induction false} AnswersIgnorePublishing(enabled: bool, schedule: seq<Action>)
    ensures forall i :: 0 <= i < |Reached(enabled, schedule).requests| ==>
              Answerable(Reached(enabled, schedule).requests[i])
  {
    if schedule != [] {
      hide StartPublish, Consumed, Report, Append, CountOutcome;
      AnswersIgnorePublishing(enabled, schedule[..|schedule| - 1]);
    }
  }

  // ---------- trace continuity ----------

  predicate SpansFollow(s: System) {
    forall k :: 0 <= k < |s.pipe.publishes| ==> Child(s.pipe.publishes[k].parent, s.pipe.publishes[k].span)
  }

  /** What StartSpan guarantees of a span and the parent it was started under. */
  predicate Child(parent: SpanContext, span: SpanContext) {
    && (NonZero(parent.traceID) ==> span.traceID == parent.traceID)
    && (parent.IsValid() ==> span.IsSampled() == parent.IsSampled())
  }

  lemma StartSpanIsChild(parent: SpanContext, draw: Draw)
    ensures Child(parent, StartSpan(parent, draw))
  {
  }

  lemma {:induction false} AlwaysSpansFollow(enabled: bool, schedule: seq<Action>)
    ensures SpansFollow(Reached(enabled, schedule))
  {
    if schedule != [] {
      hide StartSpan, Child, Consumed;
      var s, a := Reached(enabled, schedule[..|schedule| - 1]), schedule[|schedule| - 1];
      AlwaysSpansFollow(enabled, schedule[..|schedule| - 1]);
      if a.PublishOrder? && Possible(s, a) {
        StartSpanIsChild(s.requests[a.i].span, a.draw);
      }
    }
  }

  /** Across the process boundary, whatever the interleaving of request, goroutine,
      broker and consumer: every message is processed under a span; if the publish
      span was valid, that span has it as parent, shares its sampled bit, and has the
      trace id and sampled bit of the request; if not, it starts a fresh trace. The
      span itself is always the one drawn for it. */
  lemma {:induction false} TraceContinues(enabled: bool, schedule: seq<Action>, c: Consumption)
    requires c in Reached(enabled, schedule).spans
    ensures var s := Reached(enabled, schedule);
            && c.message in s.pipe.topic && c.message.origin < |s.pipe.publishes|
            && var p := s.pipe.publishes[c.message.origin];
            && p.request < |s.requests| && p.parent == s.requests[p.request].span
            && c.message.headers == [KafkaHeader("traceparent", Format(p.span))]
            && c.span.spanID == c.draw.spanID && !c.span.remote
            && if p.span.IsValid() then
              && c.parent == Some(SpanContext(p.span.traceID, p.span.spanID, p.span.flags % 2, true))
              && c.span.traceID == p.span.traceID && c.span.IsSampled() == p.span.IsSampled()
              && (p.parent.IsValid() ==>
                    c.span.traceID == p.parent.traceID && c.span.IsSampled() == p.parent.IsSampled())
            else
              c.parent.None? && c.span.traceID == c.draw.traceID
  {
    hide Format, Parse, StartSpan, Reached, Legitimate, GoodRequest, InTopic;
    var s := Reached(enabled, schedule);
    AlwaysGoodLog(enabled, schedule);
    AlwaysSpansFollow(enabled, schedule);
    StartSpanRules(if c.parent.Some? then c.parent.value else ABSENT, c.draw);
    var p := s.pipe.publishes[c.message.origin];
    assert c.message == MessageOf(s.pipe, c.message.origin);
    assert Lookup(c.message.headers) == Some(Format(p.span));
    ParseFormat(p.span);
    assert !NonZero(NO_TRACE);
  }

  /** The headers a message continues a trace by: the first traceparent among them is
      version 00 with two non-zero lower-case ids and readable flags. */
  ghost predicate Continues(headers: seq<KafkaHeader>) {
    exists i: nat :: FirstTraceparent(headers, i) && WellFormed(headers[i].value)
  }

  predicate WellFormed(v: string) {
    Shaped(v) && LenientFlags(v[53..])
  }

  lemma {:induction false} LookupFindsFirst(headers: seq<KafkaHeader>, i: nat)
    requires FirstTraceparent(headers, i)
    ensures Lookup(headers) == Some(headers[i].value)
    decreases i
  {
    if i > 0 {
      assert headers[0].key != TRACEPARENT;
      LookupFindsFirst(headers[1..], i - 1);
    }
  }

  lemma {:induction false} FoundIsFirst(headers: seq<KafkaHeader>) returns (i: nat)
    requires Lookup(headers).Some?
    ensures FirstTraceparent(headers, i)
  {
    if headers[0].key == TRACEPARENT {
      i := 0;
    } else {
      i := FoundIsFirst(headers[1..]);
      i := i + 1;
    }
  }

  /** c is the processing of m; it starts the trace that was drawn for it if and only if
      the headers do not continue one. */
  ghost predicate FreshIfStrange(c: Consumption, m: Message, draw: Draw) {
    && c.message == m && c.span.spanID == draw.spanID && (c.parent.None? <==> !Continues(m.headers))
    && (!Continues(m.headers) ==> c.span.traceID == draw.traceID && c.span.IsSampled() == draw.sampled)
  }

  /** A message without a traceparent, or whose first one is malformed, starts a fresh
      trace, and only such a message does; it is processed all the same. */
  lemma StrangeHeadersStartFresh(m: Message, draw: Draw)
    ensures FreshIfStrange(Consumed(m, draw), m, draw)
  {
    hide Parse, Shaped, LenientFlags;
    if Continues(m.headers) {
      var i: nat :| FirstTraceparent(m.headers, i) && WellFormed(m.headers[i].value);
      LookupFindsFirst(m.headers, i);
      Accepted(m.headers[i].value);
    } else if Lookup(m.headers).Some? {
      var i := FoundIsFirst(m.headers);
      LookupFindsFirst(m.headers, i);
      Accepted(m.headers[i].value);
    }
    assert !NonZero(NO_TRACE);
  }
}
