/** POST /orders (internal/api/handlers.go:43-82) as a script for the stack. */
module OrderHandler {
  import opened Wrappers
  import opened Responses
  import opened Telemetry
  import opened Middleware
  import opened StackTheory

  datatype OrderRequest = OrderRequest(productID: int, qty: int)

  /** What the body decodes to, and what the database would answer. */
  datatype Answers = Answers(decoded: Option<OrderRequest>, found: Result<bool>, created: Result<int>)

  predicate Accepts(a: Answers) {
    a.decoded.Some? && a.decoded.value.qty > 0 && a.found == Ok(true) && a.created.Ok?
  }

  function Refusal(a: Answers): int
    requires !Accepts(a)
  {
    if a.decoded.None? || a.decoded.value.qty <= 0 then 400
    else if a.found == Ok(false) then 404
    else 500
  }

  /** The status table of the endpoint: the first of these conditions that applies. */
  function AnswerStatus(a: Answers): (status: int)
    ensures status == 400 <==> a.decoded.None? || a.decoded.value.qty <= 0
    ensures status == 404 <==> a.decoded.Some? && a.decoded.value.qty > 0 && a.found == Ok(false)
    ensures status == 201 <==>
              a.decoded.Some? && a.decoded.value.qty > 0 && a.found == Ok(true) && a.created.Ok?
    ensures status in {201, 400, 404, 500}
  {
    match a
    case Answers(None, _, _) => 400
    case Answers(Some(OrderRequest(_, qty)), found, created) =>
      if qty <= 0 then 400
      else
        match found
        case Failed => 500
        case Ok(false) => 404
        case Ok(true) => if created.Failed? then 500 else 201
  }

  /** The event of an order that was inserted. */
  function OrderOf(a: Answers): OrderEvent
    requires Accepts(a)
  {
    OrderEvent(a.created.value, a.decoded.value.productID, a.decoded.value.qty)
  }

  function CreateOrder(a: Answers, n: nat): Script {
    if Accepts(a) then [CountOrder, HandOver(OrderOf(a))] + WriteJSON(201, n) else WriteJSON(Refusal(a), n)
  }

  lemma RunAccepted(order: OrderEvent, n: nat, ctx: Context, chain: Chain)
    requires chain != [] && chain[0].kind.Connection?
    ensures RunScript([CountOrder, HandOver(order)] + WriteJSON(201, n), ctx, chain)
         == Outcome(ChainBody(ChainHeader(chain, 201), n), [OrderCounted, OrderHandedOver(order, ctx.span)], false)
  {
    var script := [CountOrder, HandOver(order)] + WriteJSON(201, n);
    assert script[1..] == [HandOver(order)] + WriteJSON(201, n);
    assert script[1..][1..] == WriteJSON(201, n);
    RunReply(201, n, ctx, chain);
    assert RunScript(script[1..], ctx, chain).events == [OrderHandedOver(order, ctx.span)];
  }

  /** The handler with its early returns: validate, check, commit, count, hand over,
      respond. */
  method HandleCreateOrder(a: Answers, n: nat, ctx: Context, w: ResponseWriter, t: Sinks)
    requires w.Valid() && t.Valid() && t !in w.repr && w.States()[0].kind.Connection?
    modifies w.repr, t
    ensures var o := RunScript(CreateOrder(a, n), ctx, old(w.States()));
            && w.States() == o.chain && !o.panicked
            && t.Valid() && t.trace == old(t.trace) + o.events
    ensures w.States() == ChainBody(ChainHeader(old(w.States()), AnswerStatus(a)), n)
    ensures t.trace == old(t.trace) + (
              if AnswerStatus(a) == 201 then
                var order := OrderEvent(a.created.value, a.decoded.value.productID, a.decoded.value.qty);
                [OrderCounted, OrderHandedOver(order, ctx.span)]
              else [])
  {
    hide RunScript, ResponseWriter.States, ResponseWriter.Valid, Sinks.Valid;
    assert AnswerStatus(a) == if Accepts(a) then 201 else Refusal(a);
    if !Accepts(a) {
      RunReply(Refusal(a), n, ctx, w.States());
    } else {
      RunAccepted(OrderOf(a), n, ctx, w.States());
    }
    if a.decoded.None? {
      w.SendJSON(400, n);
      return;
    }
    if a.decoded.value.qty <= 0 {
      w.SendJSON(400, n);
      return;
    }
    if a.found.Failed? {
      w.SendJSON(500, n);
      return;
    }
    if !a.found.value {
      w.SendJSON(404, n);
      return;
    }
    if a.created.Failed? {
      w.SendJSON(500, n);
      return;
    }
    t.OrderCreated();
    t.PublishOrder(OrderEvent(a.created.value, a.decoded.value.productID, a.decoded.value.qty), ctx.span);
    w.SendJSON(201, n);
  }

  /** What it reports: the order it inserted, with product and quantity as decoded,
      under the span of its context. */
  function Reported(a: Answers, ctx: Context): seq<Event> {
    if Accepts(a) then [OrderCounted, OrderHandedOver(OrderOf(a), ctx.span)] else []
  }

  lemma ReportedExactly(a: Answers, ctx: Context)
    ensures a.decoded.Some? && a.decoded.value.qty > 0 && a.found == Ok(true) && a.created.Ok? ==>
              Reported(a, ctx) == [
                OrderCounted,
                OrderHandedOver(OrderEvent(a.created.value, a.decoded.value.productID, a.decoded.value.qty), ctx.span)]
    ensures !(a.decoded.Some? && a.decoded.value.qty > 0 && a.found == Ok(true) && a.created.Ok?) ==>
              Reported(a, ctx) == []
  {
  }

  lemma ReplyTotal(code: int, n: nat)
    ensures BodyTotal(WriteJSON(code, n)) == n
  {
    var rest: Script := [Body(n)];
    assert WriteJSON(code, n)[1..] == rest && rest[1..] == [];
    assert BodyTotal(rest) == n;
  }

  /** No answer of the database makes the handler panic or write before its header; it
      answers by the status table, with the whole body, and reports an order exactly
      when it answers 201. */
  lemma CreateOrderTrims(a: Answers, n: nat)
    ensures Trim(CreateOrder(a, n), false) == Cut(CreateOrder(a, n), false)
    ensures RecordedStatus(CreateOrder(a, n)) == AnswerStatus(a)
    ensures BodyTotal(CreateOrder(a, n)) == n
    ensures RecordedStatus(CreateOrder(a, n)) == if Accepts(a) then 201 else Refusal(a)
    ensures HeaderBeforeBody(CreateOrder(a, n))
    ensures forall ctx :: Noted(CreateOrder(a, n), ctx) == Reported(a, ctx)
  {
    var script := CreateOrder(a, n);
    var reply := if Accepts(a) then WriteJSON(201, n) else WriteJSON(Refusal(a), n);
    var rest: Script := [Body(n)];
    assert reply[1..] == rest && rest[1..] == [];
    ReplyTotal(if Accepts(a) then 201 else Refusal(a), n);
    assert Trim(rest, true) == Cut(rest, false);
    assert Trim(reply, false) == Cut(reply, false);
    forall ctx
      ensures Noted(reply, ctx) == []
    {
      assert Noted(rest, ctx) == [];
    }
    if Accepts(a) {
      assert script[1..] == [HandOver(OrderOf(a))] + reply && script[1..][1..] == reply;
      assert BodyTotal(script[1..]) == n;
      assert Trim(script[1..], false) == Cut(script[1..], false);
      forall ctx
        ensures Noted(script, ctx) == [OrderCounted, OrderHandedOver(OrderOf(a), ctx.span)]
      {
        assert Noted(script[1..], ctx) == [OrderHandedOver(OrderOf(a), ctx.span)];
      }
      assert FirstHeader(reply) == Some(201) && !BodyFirst(reply);
      assert FirstHeader(script[1..]) == Some(201) && !BodyFirst(script[1..]);
    }
  }
}
