/** What the order pipeline does when nothing interferes: the way of one order from any
    state, and what each failure leaves behind. The laws of OrderPipeline say what no
    run can do; these say what a run does. */
module OrderRuns {
  import opened Wrappers
  import opened Traceparent
  import opened Telemetry
  import opened OrderHandler
  import opened OrderPipeline

  ghost function One(s: System, a: Action): System {
    if Possible(s, a) then Next(s, a) else s
  }

  /** Steps taken one after another from any state. */
  ghost function After(s: System, steps: seq<Action>): System {
    if steps == [] then s else One(After(s, steps[..|steps| - 1]), steps[|steps| - 1])
  }

  lemma AfterStep(s: System, steps: seq<Action>, a: Action)
    ensures After(s, steps + [a]) == One(After(s, steps), a)
    ensures After(s, []) == s && After(s, [a]) == One(s, a)
  {
    assert (steps + [a])[..|steps + [a]| - 1] == steps;
    assert [a][..0] == [];
  }

  lemma {:induction false} ReachedAfter(enabled: bool, schedule: seq<Action>, steps: seq<Action>)
    ensures Reached(enabled, schedule + steps) == After(Reached(enabled, schedule), steps)
  {
    if steps == [] {
      assert schedule + steps == schedule;
    } else {
      ReachedAfter(enabled, schedule, steps[..|steps| - 1]);
      assert (schedule + steps)[..|schedule + steps| - 1] == schedule + steps[..|steps| - 1];
    }
  }

  lemma AfterPrefix(s: System, steps: seq<Action>, k: nat)
    requires k < |steps|
    ensures After(s, steps[..0]) == s
    ensures After(s, steps[..k + 1]) == One(After(s, steps[..k]), steps[k])
  {
    assert steps[..k + 1] == steps[..k] + [steps[k]];
    AfterStep(s, steps[..k], steps[k]);
  }

  // ---------- one step of the youngest request ----------

  /** The requests of s and one more. */
  function With(s: System, h: Handling): System {
    s.(requests := s.requests + [h])
  }

  lemma Moved(s: System, h: Handling, g: Handling)
    ensures OrderPipeline.At(With(s, h), |s.requests|, g) == With(s, g)
  {
    assert (s.requests + [h])[|s.requests| := g] == s.requests + [g];
  }

  lemma Validated(s: System, h: Handling)
    requires h.stage.Decoding?
    ensures One(With(s, h), Validate(|s.requests|))
         == With(s, h.(stage := if h.body.Some? && h.body.value.qty > 0 then Valid else Answered(400)))
  {
    Moved(s, h, h.(stage := if h.body.Some? && h.body.value.qty > 0 then Valid else Answered(400)));
  }

  lemma Checked(s: System, h: Handling)
    requires h.stage.Valid? && h.body.Some?
    ensures One(With(s, h), Check(|s.requests|, false)) == With(s, h.(found := Some(Failed), stage := Answered(500)))
    ensures h.body.value.productID in s.products ==>
              One(With(s, h), Check(|s.requests|, true)) == With(s, h.(found := Some(Ok(true)), stage := Existing))
    ensures h.body.value.productID !in s.products ==>
              One(With(s, h), Check(|s.requests|, true))
              == With(s, h.(found := Some(Ok(false)), stage := Answered(404)))
  {
    Moved(s, h, h.(found := Some(Failed), stage := Answered(500)));
    Moved(s, h, h.(found := Some(Ok(true)), stage := Existing));
    Moved(s, h, h.(found := Some(Ok(false)), stage := Answered(404)));
  }

  predicate FreshID(s: System, id: int) {
    forall r :: r in s.rows ==> r.id != id
  }

  function Committed(s: System, order: OrderRequest, id: int): System {
    s.(rows := s.rows + [Row(id, order.productID, order.qty)])
  }

  lemma InsertedRow(s: System, h: Handling, id: int, commits: bool)
    requires h.stage.Existing? && h.body.Some? && FreshID(s, id)
    ensures One(With(s, h), Insert(|s.requests|, id, true, true))
         == With(Committed(s, h.body.value, id), h.(created := Some(Ok(id)), stage := Inserted(id)))
    ensures One(With(s, h), Insert(|s.requests|, id, commits, false))
         == With(if commits then Committed(s, h.body.value, id) else s,
                 h.(created := Some(Failed), stage := Answered(500)))
  {
    var t := Committed(s, h.body.value, id);
    Moved(t, h, h.(created := Some(Ok(id)), stage := Inserted(id)));
    Moved(t, h, h.(created := Some(Failed), stage := Answered(500)));
    Moved(s, h, h.(created := Some(Failed), stage := Answered(500)));
  }

  lemma CountedOnce(s: System, h: Handling)
    requires h.stage.Inserted?
    ensures One(With(s, h), CountOrder(|s.requests|))
         == With(s.(created := s.created + 1), h.(stage := Tallied(h.stage.id)))
  {
    Moved(s, h, h.(stage := Tallied(h.stage.id)));
  }

  /** An enabled producer with an order that encodes starts one publish, for just this
      order under just this span; in every other case one error is counted. */
  lemma PublishStarted(s: System, h: Handling, marshals: bool, draw: Draw)
    requires h.stage.Tallied? && h.body.Some?
    ensures var t := With(s, h.(stage := HandedOver(h.stage.id)));
            var order := OrderEvent(h.stage.id, h.body.value.productID, h.body.value.qty);
            One(With(s, h), PublishOrder(|s.requests|, marshals, draw))
            == if s.pipe.enabled && marshals then
                 var p := Publish(|s.requests|, order, h.span, StartSpan(h.span, draw), Writing);
                 t.(pipe := s.pipe.(publishes := s.pipe.publishes + [p]))
               else t.(pipe := s.pipe.(errors := s.pipe.errors + 1))
  {
    hide StartSpan;
    Moved(s, h, h.(stage := HandedOver(h.stage.id)));
  }

  lemma Responded(s: System, h: Handling)
    requires h.stage.HandedOver?
    ensures One(With(s, h), Respond(|s.requests|)) == With(s, h.(stage := Answered(201)))
  {
    Moved(s, h, h.(stage := Answered(201)));
  }

  // ---------- the ways a request can go ----------

  function Arrived(span: SpanContext, body: Option<OrderRequest>): Handling {
    Handling(span, body, None, None, Decoding)
  }

  /** A body that does not decode, or asks for no positive quantity: 400, and nothing
      else has changed. */
  lemma InvalidOrder(s: System, span: SpanContext, body: Option<OrderRequest>)
    requires body.None? || body.value.qty <= 0
    ensures After(s, [Arrive(span, body), Validate(|s.requests|)])
         == With(s, Handling(span, body, None, None, Answered(400)))
  {
    var steps := [Arrive(span, body), Validate(|s.requests|)];
    AfterPrefix(s, steps, 0);
    AfterPrefix(s, steps, 1);
    Validated(s, Arrived(span, body));
    assert steps[..2] == steps;
  }

  function Checking(s: System, span: SpanContext, order: OrderRequest, answers: bool): seq<Action> {
    [Arrive(span, Some(order)), Validate(|s.requests|), Check(|s.requests|, answers)]
  }

  /** A product that is not listed: 404; a check that fails: 500; nothing else has
      changed. A listed one is found. */
  lemma CheckedOrder(s: System, span: SpanContext, order: OrderRequest)
    requires order.qty > 0
    ensures After(s, Checking(s, span, order, false))
         == With(s, Handling(span, Some(order), Some(Failed), None, Answered(500)))
    ensures order.productID !in s.products ==>
              After(s, Checking(s, span, order, true))
              == With(s, Handling(span, Some(order), Some(Ok(false)), None, Answered(404)))
    ensures order.productID in s.products ==>
              After(s, Checking(s, span, order, true))
              == With(s, Handling(span, Some(order), Some(Ok(true)), None, Existing))
  {
    forall answers: bool
      ensures After(s, Checking(s, span, order, answers))
           == One(With(s, Arrived(span, Some(order)).(stage := Valid)), Check(|s.requests|, answers))
    {
      var steps := Checking(s, span, order, answers);
      AfterPrefix(s, steps, 0);
      AfterPrefix(s, steps, 1);
      AfterPrefix(s, steps, 2);
      assert One(s, steps[0]) == With(s, Arrived(span, Some(order)));
      hide One, After;
      Validated(s, Arrived(span, Some(order)));
      assert steps[..3] == steps;
    }
    Checked(s, Arrived(span, Some(order)).(stage := Valid));
  }

  /** An insert that fails: 500, uncounted and unpublished, whether or not the row was
      committed. */
  lemma FailedInsert(s: System, span: SpanContext, order: OrderRequest, id: int, commits: bool)
    requires order.qty > 0 && order.productID in s.products && FreshID(s, id)
    ensures After(s, Checking(s, span, order, true) + [Insert(|s.requests|, id, commits, false)])
         == With(if commits then Committed(s, order, id) else s,
                 Handling(span, Some(order), Some(Ok(true)), Some(Failed), Answered(500)))
  {
    hide One;
    CheckedOrder(s, span, order);
    AfterStep(s, Checking(s, span, order, true), Insert(|s.requests|, id, commits, false));
    InsertedRow(s, Handling(span, Some(order), Some(Ok(true)), None, Existing), id, commits);
  }

  function Ordering(
    s: System, span: SpanContext, order: OrderRequest, id: int, marshals: bool, draw: Draw): seq<Action>
  {
    Checking(s, span, order, true)
    + [Insert(|s.requests|, id, true, true)] + [CountOrder(|s.requests|)]
    + [PublishOrder(|s.requests|, marshals, draw)] + [Respond(|s.requests|)]
  }

  /** From any state, an order of a positive quantity of a listed product whose insert
      succeeds leaves one new row with just that product and quantity and one counted
      order; it is handed to one publish of its own under its request's span, or to
      the error counter if publishing is disabled or the event does not encode; and
      either way it is answered 201. */
  lemma AcceptedOrder(s: System, span: SpanContext, order: OrderRequest, id: int, marshals: bool, draw: Draw)
    requires order.qty > 0 && order.productID in s.products && FreshID(s, id)
    ensures var t := With(Committed(s, order, id).(created := s.created + 1),
                          Handling(span, Some(order), Some(Ok(true)), Some(Ok(id)), Answered(201)));
            After(s, Ordering(s, span, order, id, marshals, draw))
            == if s.pipe.enabled && marshals then
                 var event := OrderEvent(id, order.productID, order.qty);
                 var p := Publish(|s.requests|, event, span, StartSpan(span, draw), Writing);
                 t.(pipe := s.pipe.(publishes := s.pipe.publishes + [p]))
               else t.(pipe := s.pipe.(errors := s.pipe.errors + 1))
  {
    hide One, After, StartSpan;
    var i, s1 := |s.requests|, Committed(s, order, id);
    var s2 := s1.(created := s.created + 1);
    var h := Handling(span, Some(order), Some(Ok(true)), Some(Ok(id)), Existing);
    var a := Checking(s, span, order, true);
    var b := a + [Insert(i, id, true, true)] + [CountOrder(i)];
    CheckedOrder(s, span, order);
    AfterStep(s, a, Insert(i, id, true, true));
    InsertedRow(s, h.(created := None), id, true);
    AfterStep(s, a + [Insert(i, id, true, true)], CountOrder(i));
    CountedOnce(s1, h.(stage := Inserted(id)));
    AfterStep(s, b, PublishOrder(i, marshals, draw));
    PublishStarted(s2, h.(stage := Tallied(id)), marshals, draw);
    AfterStep(s, b + [PublishOrder(i, marshals, draw)], Respond(i));
    var event := OrderEvent(id, order.productID, order.qty);
    var p := Publish(i, event, span, StartSpan(span, draw), Writing);
    var pipe := if s.pipe.enabled && marshals then s.pipe.(publishes := s.pipe.publishes + [p])
                else s.pipe.(errors := s.pipe.errors + 1);
    Responded(s2.(pipe := pipe), h.(stage := HandedOver(id)));
  }

  // ---------- the way of a publish ----------

  /** From any state in which a publish is being written: once the broker has appended
      its message and the writer has returned, the message of that publish is in the
      topic, under the header the consumer looks for, and one publish has succeeded. */
  lemma DeliveredOrder(s: System, k: nat)
    requires k < |s.pipe.publishes| && s.pipe.publishes[k].delivery.Writing?
    ensures var p := s.pipe.publishes[k];
            After(s, [BrokerAppends(k), WriterReturns(k, true), OutcomeCounted(k)])
            == s.(pipe := s.pipe.(
                 topic := s.pipe.topic + [Message(p.event, [KafkaHeader("traceparent", Format(p.span))], k)],
                 publishes := s.pipe.publishes[k := p.(delivery := Finished(true))],
                 published := s.pipe.published + 1))
  {
    var p, q := s.pipe.publishes[k], s.pipe;
    var t := s.(pipe := q.(topic := q.topic + [Message(p.event, [KafkaHeader("traceparent", Format(p.span))], k)]));
    BrokerAppended(s, k);
    WriterReturned(t, k, true);
    ThreeSteps(s, BrokerAppends(k), WriterReturns(k, true), OutcomeCounted(k));
  }

  lemma BrokerAppended(s: System, k: nat)
    requires k < |s.pipe.publishes|
    ensures var p, q := s.pipe.publishes[k], s.pipe;
            var t, m := One(s, BrokerAppends(k)), Message(p.event, [KafkaHeader("traceparent", Format(p.span))], k);
            && t == s.(pipe := q.(topic := q.topic + [m]))
            && InTopic(t.pipe, k)
  {
    hide Format;
    assert One(s, BrokerAppends(k)).pipe.topic[|s.pipe.topic|].origin == k;
  }

  lemma WriterReturned(s: System, k: nat, ok: bool)
    requires k < |s.pipe.publishes| && s.pipe.publishes[k].delivery.Writing? && (ok ==> InTopic(s.pipe, k))
    ensures var p, q := s.pipe.publishes[k], s.pipe;
            One(One(s, WriterReturns(k, ok)), OutcomeCounted(k))
            == s.(pipe := q.(
                 publishes := q.publishes[k := p.(delivery := Finished(ok))],
                 published := q.published + (if ok then 1 else 0),
                 errors := q.errors + (if ok then 0 else 1)))
  {
    var p := s.pipe.publishes[k];
    var t := One(s, WriterReturns(k, ok));
    assert t == s.(pipe := s.pipe.(publishes := s.pipe.publishes[k := p.(delivery := Reported(ok))]));
    hide InTopic;
    assert t.pipe.publishes[k := p.(delivery := Finished(ok))] == s.pipe.publishes[k := p.(delivery := Finished(ok))];
  }

  lemma ThreeSteps(s: System, a: Action, b: Action, c: Action)
    ensures After(s, [a, b]) == One(One(s, a), b)
    ensures After(s, [a, b, c]) == One(One(One(s, a), b), c)
  {
    hide One;
    AfterStep(s, [], a);
    AfterStep(s, [a], b);
    AfterStep(s, [a, b], c);
    assert [a, b] == [a] + [b] && [a, b, c] == [a, b] + [c];
  }

  /** A write that fails counts one error and nothing else. */
  lemma FailedOrder(s: System, k: nat)
    requires k < |s.pipe.publishes| && s.pipe.publishes[k].delivery.Writing?
    ensures After(s, [WriterReturns(k, false), OutcomeCounted(k)])
         == s.(pipe := s.pipe.(
              publishes := s.pipe.publishes[k := s.pipe.publishes[k].(delivery := Finished(false))],
              errors := s.pipe.errors + 1))
  {
    WriterReturned(s, k, false);
    ThreeSteps(s, WriterReturns(k, false), OutcomeCounted(k), OutcomeCounted(k));
  }

  /** A consumer put back to an offset reads the message there again, under a new span. */
  lemma ReadAgain(s: System, offset: nat, draw: Draw)
    requires offset < |s.pipe.topic|
    ensures After(s, [Rewind(offset), Consume(draw)])
         == s.(offset := offset + 1, consumed := s.consumed + 1,
               spans := s.spans + [Consumed(s.pipe.topic[offset], draw)])
  {
    hide Consumed, After;
    ThreeSteps(s, Rewind(offset), Consume(draw), Consume(draw));
    assert One(s, Rewind(offset)) == s.(offset := offset);
  }

  lemma Listing(s: System, id: int)
    ensures After(s, [ListProduct(id)]).products == s.products + {id}
    ensures After(s, [ListProduct(id), DelistProduct(id)]).products == s.products - {id}
  {
    AfterStep(s, [], ListProduct(id));
    ThreeSteps(s, ListProduct(id), DelistProduct(id), DelistProduct(id));
    assert s.products + {id} - {id} == s.products - {id};
  }

  // ---------- a publish of its own, for good ----------

  lemma {:induction false} PublishesStay(s: System, steps: seq<Action>, k: nat)
    requires k < |s.pipe.publishes|
    ensures k < |After(s, steps).pipe.publishes|
    ensures After(s, steps).pipe.publishes[k].(delivery := Writing) == s.pipe.publishes[k].(delivery := Writing)
  {
    if steps != [] {
      hide Next, Possible;
      var t, a := After(s, steps[..|steps| - 1]), steps[|steps| - 1];
      PublishesStay(s, steps[..|steps| - 1], k);
      if Possible(t, a) {
        PublishesGrow(t, a);
      }
    }
  }

  /** In every run, an order handed over to an enabled producer with an event that
      encodes has a publish of its own in every later state: for its request, with its
      id, product and quantity, under its request's span. */
  lemma HandedOverHasPublish(
    schedule: seq<Action>, i: nat, draw: Draw, later: seq<Action>)
    requires Possible(Reached(true, schedule), PublishOrder(i, true, draw))
    ensures var before, s := Reached(true, schedule), Reached(true, schedule + [PublishOrder(i, true, draw)] + later);
            var h, k := before.requests[i], |before.pipe.publishes|;
            && k < |s.pipe.publishes|
            && var p := s.pipe.publishes[k];
               && p.request == i && p.parent == h.span && p.span == StartSpan(h.span, draw)
               && p.event == OrderEvent(h.stage.id, h.body.value.productID, h.body.value.qty)
  {
    hide StartSpan;
    var a := PublishOrder(i, true, draw);
    var before := Reached(true, schedule);
    AlwaysEnabled(true, schedule);
    ReachedAfter(true, schedule, [a]);
    AfterStep(before, [], a);
    ReachedAfter(true, schedule + [a], later);
    PublishesStay(Reached(true, schedule + [a]), later, |before.pipe.publishes|);
  }

  lemma {:induction false} AlwaysEnabled(enabled: bool, schedule: seq<Action>)
    ensures Reached(enabled, schedule).pipe.enabled == enabled
  {
    if schedule != [] {
      hide StartSpan, Consumed;
      AlwaysEnabled(enabled, schedule[..|schedule| - 1]);
    }
  }
}
