/** Any number of requests in flight, interleaved at the granularity of single
    metric updates, log lines and span events. */
module InFlight {
  import opened Wrappers
  import opened Traceparent
  import opened Responses
  import opened Telemetry
  import opened Middleware
  import opened StackTheory
  import opened Sums
  import opened Router
  import opened OrderHandler
  import opened ChaosControl

  /** One request: what it will emit is fixed by its stack, handler and draws; pos
      events have been emitted so far. */
  datatype Flight = Flight(route: Route, draws: Draws, h: Script, req: Request, pos: nat)

  function Plan(f: Flight): seq<Event> {
    Visit(f.route, f.draws, f.h, f.req).events
  }

  datatype Service = Service(flights: seq<Flight>, readings: Readings, trace: seq<Event>)

  datatype Action =
    | Arrive(route: Route, draws: Draws, h: Script, req: Request)
    | Advance(i: nat)

  function Step(s: Service, a: Action): Service {
    match a
    case Arrive(route, draws, h, req) => s.(flights := s.flights + [Flight(route, draws, h, req, 0)])
    case Advance(i) =>
      if i < |s.flights| && s.flights[i].pos < |Plan(s.flights[i])| then
        var f := s.flights[i];
        var e := Plan(f)[f.pos];
        Service(s.flights[i := f.(pos := f.pos + 1)], Apply(s.readings, e), s.trace + [e])
      else s
  }

  /** Every run is the effect of some schedule; a step that is not possible changes
      nothing. */
  function Reached(schedule: seq<Action>): Service {
    if schedule == [] then Service([], BLANK, [])
    else Step(Reached(schedule[..|schedule| - 1]), schedule[|schedule| - 1])
  }

  // ---------- every signal is the sum of the requests' own ----------

  function Emitted(f: Flight): seq<Event> {
    var plan := Plan(f);
    if f.pos <= |plan| then plan[..f.pos] else plan
  }

  function Share(s: Signal): Flight -> int {
    (f: Flight) => Tally(Emitted(f), s)
  }

  ghost predicate Consistent(s: Service) {
    && s.readings == ApplyAll(BLANK, s.trace)
    && (forall i :: 0 <= i < |s.flights| ==> s.flights[i].pos <= |Plan(s.flights[i])|)
  }

  lemma AdvanceShares(s: Service, i: nat, sig: Signal)
    requires i < |s.flights| && s.flights[i].pos < |Plan(s.flights[i])|
    ensures Sum(Step(s, Advance(i)).flights, Share(sig))
         == Sum(s.flights, Share(sig)) + WeightOf(sig, Plan(s.flights[i])[s.flights[i].pos])
  {
    hide Plan, Apply, WeightOf;
    var f := s.flights[i];
    var f', e := f.(pos := f.pos + 1), Plan(f)[f.pos];
    SamePlan(f, f');
    SumUpdate(s.flights, i, f', Share(sig));
    assert Emitted(f') == Emitted(f) + [e];
    TallySnoc(Emitted(f), e, sig);
  }

  lemma {:induction false} AlwaysConsistent(schedule: seq<Action>)
    ensures Consistent(Reached(schedule))
  {
    if schedule != [] {
      hide Plan, Apply;
      var before, a := schedule[..|schedule| - 1], schedule[|schedule| - 1];
      AlwaysConsistent(before);
      var s := Reached(before);
      if a.Advance? && a.i < |s.flights| && s.flights[a.i].pos < |Plan(s.flights[a.i])| {
        var f := s.flights[a.i];
        SamePlan(f, f.(pos := f.pos + 1));
        ApplyOne(BLANK, s.trace, Plan(f)[f.pos]);
      }
    }
  }

  lemma {:induction false} Conserved(schedule: seq<Action>, sig: Signal)
    ensures var s := Reached(schedule);
            Tally(s.trace, sig) == Sum(s.flights, Share(sig))
  {
    hide Step, Tally, Share;
    if schedule == [] {
      Tally1(GaugeInc(""), sig);
    } else {
      Conserved(schedule[..|schedule| - 1], sig);
      StepConserves(Reached(schedule[..|schedule| - 1]), schedule[|schedule| - 1], sig);
    }
  }

  lemma StepConserves(s: Service, a: Action, sig: Signal)
    requires Tally(s.trace, sig) == Sum(s.flights, Share(sig))
    ensures var t := Step(s, a);
            Tally(t.trace, sig) == Sum(t.flights, Share(sig))
  {
    hide Plan, Apply, WeightOf, Tally, Share, Sum;
    match a {
      case Arrive(route, draws, h, req) =>
        SumSnoc(s.flights, Flight(route, draws, h, req, 0), Share(sig));
        NothingYet(Flight(route, draws, h, req, 0), sig);
      case Advance(i) =>
        if i < |s.flights| && s.flights[i].pos < |Plan(s.flights[i])| {
          AdvanceShares(s, i, sig);
          TallySnoc(s.trace, Plan(s.flights[i])[s.flights[i].pos], sig);
        }
    }
  }

  lemma NothingYet(f: Flight, sig: Signal)
    requires f.pos == 0
    ensures Share(sig)(f) == 0
  {
    hide Plan;
    Tally1(GaugeInc(""), sig);
    assert Emitted(f) == [];
  }

  lemma SamePlan(f: Flight, g: Flight)
    requires g == f.(pos := g.pos)
    ensures Plan(f) == Plan(g)
  {
  }

  lemma TallySnoc(es: seq<Event>, e: Event, sig: Signal)
    ensures Tally(es + [e], sig) == Tally(es, sig) + WeightOf(sig, e)
  {
    SumSnoc(es, e, Weight(sig));
  }

  // ---------- a scrape reads the tallies ----------

  lemma ApplyReads(m: Readings, e: Event, v: string, r: string, c: int)
    ensures var m' := Apply(m, e);
            && GaugeAt(m'.inProgress, r) == GaugeAt(m.inProgress, r) + WeightOf(InProgress(r), e)
            && At(m'.durations, (v, r)) == At(m.durations, (v, r)) + WeightOf(Observed(v, r), e)
            && At(m'.summaries, (v, r)) == At(m.summaries, (v, r)) + WeightOf(Summarised(v, r), e)
            && At(m'.requests, (v, r, c)) == At(m.requests, (v, r, c)) + WeightOf(CountedAs(v, r, c), e)
            && m'.ordersCreated == m.ordersCreated + WeightOf(OrdersCounted, e)
            && m'.ordersHandedOver == m.ordersHandedOver + WeightOf(OrdersHandedOver, e)
  {
  }

  lemma {:induction false} ScrapeReads(trace: seq<Event>, v: string, r: string, c: int)
    ensures var m := ApplyAll(BLANK, trace);
            && GaugeAt(m.inProgress, r) == Tally(trace, InProgress(r))
            && At(m.durations, (v, r)) == Tally(trace, Observed(v, r))
            && At(m.summaries, (v, r)) == Tally(trace, Summarised(v, r))
            && At(m.requests, (v, r, c)) == Tally(trace, CountedAs(v, r, c))
            && m.ordersCreated == Tally(trace, OrdersCounted)
            && m.ordersHandedOver == Tally(trace, OrdersHandedOver)
  {
    hide Apply, WeightOf;
    if trace != [] {
      var front, e := trace[..|trace| - 1], trace[|trace| - 1];
      ScrapeReads(front, v, r, c);
      assert trace == front + [e];
      ApplyReads(ApplyAll(BLANK, front), e, v, r, c);
      TallySnoc(front, e, InProgress(r));
      TallySnoc(front, e, Observed(v, r));
      TallySnoc(front, e, Summarised(v, r));
      TallySnoc(front, e, CountedAs(v, r, c));
      TallySnoc(front, e, OrdersCounted);
      TallySnoc(front, e, OrdersHandedOver);
    }
  }

  /** The lines logged and the spans ended, in order, and the exemplar a series shows. */
  function LinesOf(trace: seq<Event>): seq<Line> {
    if trace == [] then []
    else
      var e := trace[|trace| - 1];
      LinesOf(trace[..|trace| - 1]) + (if e.Logged? then [e.line] else [])
  }

  function SpansOf(trace: seq<Event>): seq<Span> {
    if trace == [] then []
    else
      var e := trace[|trace| - 1];
      SpansOf(trace[..|trace| - 1]) + (if e.SpanEnded? then [e.span] else [])
  }

  function LastExemplar(trace: seq<Event>, v: string, r: string): Option<TraceID> {
    if trace == [] then None
    else
      var e := trace[|trace| - 1];
      if e.DurationObserved? && e.verb == v && e.route == r && e.exemplar.Some? then e.exemplar
      else LastExemplar(trace[..|trace| - 1], v, r)
  }

  function ExemplarAt(m: Readings, v: string, r: string): Option<TraceID> {
    if (v, r) in m.exemplars then Some(m.exemplars[(v, r)]) else None
  }

  lemma ApplyKeeps(m: Readings, e: Event, v: string, r: string)
    ensures var m' := Apply(m, e);
            && m'.lines == m.lines + (if e.Logged? then [e.line] else [])
            && m'.ended == m.ended + (if e.SpanEnded? then [e.span] else [])
            && m'.started == m.started + WeightOf(SpansStarted, e)
            && |m'.ended| == |m.ended| + WeightOf(SpansEnded, e)
            && ExemplarAt(m', v, r)
               == (if e.DurationObserved? && e.verb == v && e.route == r && e.exemplar.Some? then e.exemplar
                   else ExemplarAt(m, v, r))
  {
  }

  /** The sinks keep every line and span, in order, count every span started, and show
      on each series the last exemplar attached to it, if any. */
  lemma {:induction false} SinksKeep(trace: seq<Event>, v: string, r: string)
    ensures var m := ApplyAll(BLANK, trace);
            && m.lines == LinesOf(trace) && m.ended == SpansOf(trace)
            && m.started == Tally(trace, SpansStarted) && |m.ended| == Tally(trace, SpansEnded)
            && ExemplarAt(m, v, r) == LastExemplar(trace, v, r)
  {
    if trace != [] {
      hide Tally, Apply, WeightOf;
      var front, e := trace[..|trace| - 1], trace[|trace| - 1];
      SinksKeep(front, v, r);
      assert trace == front + [e];
      ApplyKeeps(ApplyAll(BLANK, front), e, v, r);
      TallySnoc(front, e, SpansStarted);
      TallySnoc(front, e, SpansEnded);
    }
  }

  // ---------- one request that nothing interrupts ----------

  function Repeated(s: Service, i: nat, n: nat): Service {
    if n == 0 then s else Step(Repeated(s, i, n - 1), Advance(i))
  }

  lemma {:induction false} RunsOn(s: Service, i: nat, n: nat)
    requires i < |s.flights| && s.flights[i].pos + n <= |Plan(s.flights[i])|
    ensures var t, f := Repeated(s, i, n), s.flights[i];
            var es := Plan(f)[f.pos..f.pos + n];
            && t.flights == s.flights[i := f.(pos := f.pos + n)]
            && t.trace == s.trace + es && t.readings == ApplyAll(s.readings, es)
    decreases n
  {
    hide Plan, Apply;
    var f := s.flights[i];
    if n == 0 {
      assert Plan(f)[f.pos..f.pos] == [];
    } else {
      RunsOn(s, i, n - 1);
      var front, e := Plan(f)[f.pos..f.pos + n - 1], Plan(f)[f.pos + n - 1];
      SamePlan(f, f.(pos := f.pos + n - 1));
      assert Plan(f)[f.pos..f.pos + n] == front + [e];
      ApplyOne(s.readings, front, e);
    }
  }

  /** From any state a request can arrive and run to its end; if nothing interrupts it,
      the service emits just what Visit says of it, and the sinks take it all. */
  lemma RunsToEnd(s: Service, route: Route, draws: Draws, h: Script, req: Request)
    ensures var es := Visit(route, draws, h, req).events;
            var t := Repeated(Step(s, Arrive(route, draws, h, req)), |s.flights|, |es|);
            && t.flights == s.flights + [Flight(route, draws, h, req, |es|)]
            && t.trace == s.trace + es && t.readings == ApplyAll(s.readings, es)
  {
    hide Visit, Apply;
    var es := Visit(route, draws, h, req).events;
    RunsOn(Step(s, Arrive(route, draws, h, req)), |s.flights|, |es|);
    assert es[0..|es|] == es;
  }

  /** sum over the status label of http_requests_total{method=v, route=r}, for
      status codes in [lo, hi). */
  function StatusSum(m: map<(string, string, int), nat>, v: string, r: string, lo: int, hi: int): nat
    decreases hi - lo
  {
    if lo >= hi then 0 else At(m, (v, r, lo)) + StatusSum(m, v, r, lo + 1, hi)
  }

  /** Every status label in use lies in the range. */
  ghost predicate Covers(m: map<(string, string, int), nat>, v: string, r: string, lo: int, hi: int) {
    forall k :: k in m && k.0 == v && k.1 == r ==> lo <= k.2 < hi
  }

  lemma {:induction false} StatusSumInc(
    m: map<(string, string, int), nat>, v: string, r: string, lo: int, hi: int, v': string, r': string, c: int)
    ensures var m' := m[(v', r', c) := At(m, (v', r', c)) + 1];
            StatusSum(m', v, r, lo, hi)
            == StatusSum(m, v, r, lo, hi) + (if (v, r) == (v', r') && lo <= c < hi then 1 else 0)
    decreases hi - lo
  {
    if lo < hi {
      StatusSumInc(m, v, r, lo + 1, hi, v', r', c);
    }
  }

  lemma {:induction false} StatusSumBlank(v: string, r: string, lo: int, hi: int)
    ensures StatusSum(map[], v, r, lo, hi) == 0
    decreases hi - lo
  {
    if lo < hi {
      StatusSumBlank(v, r, lo + 1, hi);
    }
  }

  lemma StatusSumApply(m: Readings, e: Event, v: string, r: string, lo: int, hi: int)
    requires Covers(Apply(m, e).requests, v, r, lo, hi)
    ensures Covers(m.requests, v, r, lo, hi)
    ensures StatusSum(Apply(m, e).requests, v, r, lo, hi)
         == StatusSum(m.requests, v, r, lo, hi) + WeightOf(Counted(v, r), e)
  {
    assert forall k :: k in m.requests ==> k in Apply(m, e).requests;
    if e.RequestCounted? {
      assert (e.verb, e.route, e.code) in Apply(m, e).requests;
      StatusSumInc(m.requests, v, r, lo, hi, e.verb, e.route, e.code);
    }
  }

  lemma {:induction false} StatusSumReads(trace: seq<Event>, v: string, r: string, lo: int, hi: int)
    requires Covers(ApplyAll(BLANK, trace).requests, v, r, lo, hi)
    ensures StatusSum(ApplyAll(BLANK, trace).requests, v, r, lo, hi) == Tally(trace, Counted(v, r))
  {
    if trace == [] {
      StatusSumBlank(v, r, lo, hi);
    } else {
      hide Apply, WeightOf;
      var front, e := trace[..|trace| - 1], trace[|trace| - 1];
      StatusSumApply(ApplyAll(BLANK, front), e, v, r, lo, hi);
      StatusSumReads(front, v, r, lo, hi);
      assert trace == front + [e];
      TallySnoc(front, e, Counted(v, r));
    }
  }

  // ---------- where one request is ----------

  /** Positions of its gauge increment and of the four updates that end it. */
  function IncMark(f: Flight): nat {
    if f.route.PlainRoute? then 0 else 1
  }

  function CountMark(f: Flight): nat {
    |Head(f.route, f.draws, Performed(f.route, f.draws, f.h), f.req)|
  }

  /** An event that no HTTP metric counts. */
  predicate Unmeasured(e: Event) {
    e.Logged? || e.SpanStarted? || e.SpanEnded? || e.OrderCounted? || e.OrderHandedOver?
  }

  lemma Marks(f: Flight)
    ensures var plan, i, c, t := Plan(f), IncMark(f), CountMark(f), Performed(f.route, f.draws, f.h);
            && i < c && c + 4 <= |plan|
            && plan[i] == GaugeInc(f.req.route)
            && plan[c] == RequestCounted(f.req.verb, f.req.route, CounterLabel(t))
            && plan[c + 1].DurationObserved? && plan[c + 1].verb == f.req.verb && plan[c + 1].route == f.req.route
            && plan[c + 2] == SummaryObserved(f.req.verb, f.req.route)
            && plan[c + 3] == GaugeDec(f.req.route)
            && (forall k :: 0 <= k < |plan| && k != i && !(c <= k < c + 4) ==> Unmeasured(plan[k]))
  {
    var t := Performed(f.route, f.draws, f.h);
    var ctx := HandlerContext(f.route, f.draws, f.req);
    RequestRecord(f.route, f.draws, f.h, f.req);
    NotedHasNoDuration(t.ops, ctx);
    var head, mid := Head(f.route, f.draws, t, f.req), Recorded(f.req, ctx, CounterLabel(t));
    var tail, plan, c := Tail(f.route, f.draws, t, f.req), Plan(f), CountMark(f);
    assert plan == head + mid + tail && |mid| == 4;
    assert head[IncMark(f)] == GaugeInc(f.req.route);
    forall k | 0 <= k < |plan| && k != IncMark(f) && !(c <= k < c + 4)
      ensures Unmeasured(plan[k])
    {
      if k < c {
        assert plan[k] == head[k];
        var noted := Noted(t.ops, ctx);
        if k > IncMark(f) {
          assert head[k] == noted[k - IncMark(f) - 1];
          assert noted[k - IncMark(f) - 1] in noted;
        }
      } else {
        assert plan[k] == tail[k - c - 4];
      }
    }
  }

  /** A prefix sum of a weight that is zero except at two places. */
  lemma {:induction false} TwoPoints(es: seq<Event>, k: nat, f: Event -> int, i: nat, j: nat)
    requires k <= |es| && i < j < |es|
    requires forall m :: 0 <= m < |es| && m != i && m != j ==> f(es[m]) == 0
    ensures Sum(es[..k], f) == (if i < k then f(es[i]) else 0) + (if j < k then f(es[j]) else 0)
  {
    if k > 0 {
      TwoPoints(es, k - 1, f, i, j);
      assert es[..k] == es[..k - 1] + [es[k - 1]];
      SumSnoc(es[..k - 1], es[k - 1], f);
    }
  }

  predicate On(f: Flight, v: string, r: string) {
    f.req.verb == v && f.req.route == r
  }

  /** Between its Inc and its Dec; and past its counter, histogram, summary. */
  predicate Open(f: Flight) { IncMark(f) < f.pos <= CountMark(f) + 3 }
  predicate PastCounter(f: Flight) { f.pos > CountMark(f) }
  predicate PastHistogram(f: Flight) { f.pos > CountMark(f) + 1 }
  predicate PastSummary(f: Flight) { f.pos > CountMark(f) + 2 }

  function One(b: bool): int { if b then 1 else 0 }

  lemma GaugeShare(f: Flight, r: string)
    requires f.pos <= |Plan(f)|
    ensures Share(InProgress(r))(f) == One(f.req.route == r && Open(f))
  {
    hide Visit, Performed, Head;
    Marks(f);
    TwoPoints(Plan(f), f.pos, Weight(InProgress(r)), IncMark(f), CountMark(f) + 3);
  }

  lemma CounterShare(f: Flight, v: string, r: string, code: int)
    requires f.pos <= |Plan(f)|
    ensures Share(Counted(v, r))(f) == One(On(f, v, r) && PastCounter(f))
    ensures Share(CountedAs(v, r, code))(f)
         == One(On(f, v, r) && PastCounter(f) && CounterLabel(Performed(f.route, f.draws, f.h)) == code)
  {
    hide Visit, Performed, Head;
    Marks(f);
    var c := CountMark(f);
    TwoPoints(Plan(f), f.pos, Weight(Counted(v, r)), c, c + 1);
    TwoPoints(Plan(f), f.pos, Weight(CountedAs(v, r, code)), c, c + 1);
  }

  lemma DurationShare(f: Flight, v: string, r: string)
    requires f.pos <= |Plan(f)|
    ensures Share(Observed(v, r))(f) == One(On(f, v, r) && PastHistogram(f))
    ensures Share(Summarised(v, r))(f) == One(On(f, v, r) && PastSummary(f))
  {
    hide Visit, Performed, Head;
    Marks(f);
    var c := CountMark(f);
    TwoPoints(Plan(f), f.pos, Weight(Observed(v, r)), c + 1, c + 2);
    TwoPoints(Plan(f), f.pos, Weight(Summarised(v, r)), c + 2, c + 3);
  }

  // ---------- the RED metrics in every reachable state ----------

  function OpenOn(r: string): Flight -> int { (f: Flight) => One(f.req.route == r && Open(f)) }
  function CountedNotObserved(v: string, r: string): Flight -> int {
    (f: Flight) => One(On(f, v, r) && PastCounter(f) && !PastHistogram(f))
  }
  function ObservedNotSummarised(v: string, r: string): Flight -> int {
    (f: Flight) => One(On(f, v, r) && PastHistogram(f) && !PastSummary(f))
  }
  function HandledOn(v: string, r: string): Flight -> int { (f: Flight) => One(On(f, v, r) && PastCounter(f)) }

  /** In every interleaving of any number of requests through any router stacks,
      handlers and panics: the gauge of a route is the number of requests between
      their Inc and their Dec; the counter summed over statuses is the number of
      requests past it, and exceeds the histogram count by those between the two
      steps; and likewise the histogram and the summary. */
  lemma {:induction false} RedMetrics(schedule: seq<Action>, v: string, r: string, lo: int, hi: int)
    requires Covers(Reached(schedule).readings.requests, v, r, lo, hi)
    ensures var s := Reached(schedule);
            && GaugeAt(s.readings.inProgress, r) == Sum(s.flights, OpenOn(r))
            && StatusSum(s.readings.requests, v, r, lo, hi) == Sum(s.flights, HandledOn(v, r))
            && StatusSum(s.readings.requests, v, r, lo, hi)
            == At(s.readings.durations, (v, r)) + Sum(s.flights, CountedNotObserved(v, r))
            && At(s.readings.durations, (v, r))
            == At(s.readings.summaries, (v, r)) + Sum(s.flights, ObservedNotSummarised(v, r))
  {
    hide Plan;
    var s := Reached(schedule);
    Conserved(schedule, InProgress(r));
    Conserved(schedule, Counted(v, r));
    Conserved(schedule, Observed(v, r));
    Conserved(schedule, Summarised(v, r));
    ScrapeReads(s.trace, v, r, 0);
    AlwaysConsistent(schedule);
    StatusSumReads(s.trace, v, r, lo, hi);
    forall i | 0 <= i < |s.flights|
      ensures Share(InProgress(r))(s.flights[i]) == OpenOn(r)(s.flights[i])
      ensures Share(Counted(v, r))(s.flights[i]) == HandledOn(v, r)(s.flights[i])
      ensures Share(Counted(v, r))(s.flights[i])
           == Share(Observed(v, r))(s.flights[i]) + CountedNotObserved(v, r)(s.flights[i])
      ensures Share(Observed(v, r))(s.flights[i])
           == Share(Summarised(v, r))(s.flights[i]) + ObservedNotSummarised(v, r)(s.flights[i])
    {
      GaugeShare(s.flights[i], r);
      CounterShare(s.flights[i], v, r, 0);
      DurationShare(s.flights[i], v, r);
    }
    SumEqual(s.flights, Share(InProgress(r)), OpenOn(r));
    SumEqual(s.flights, Share(Counted(v, r)), HandledOn(v, r));
    SumPlus(s.flights, Share(Observed(v, r)), CountedNotObserved(v, r), Share(Counted(v, r)));
    SumPlus(s.flights, Share(Summarised(v, r)), ObservedNotSummarised(v, r), Share(Observed(v, r)));
  }

  ghost predicate Quiet(s: Service) {
    forall i :: 0 <= i < |s.flights| ==> s.flights[i].pos == |Plan(s.flights[i])|
  }

  function AllOn(v: string, r: string): Flight -> int { (f: Flight) => One(On(f, v, r)) }

  /** Once no request is in flight, the gauge is back to zero and the counter summed
      over statuses, the histogram and the summary all equal the number of requests
      there were, panicking ones included. */
  lemma {:induction false} RedMetricsAtRest(schedule: seq<Action>, v: string, r: string, lo: int, hi: int)
    requires Covers(Reached(schedule).readings.requests, v, r, lo, hi)
    requires Quiet(Reached(schedule))
    ensures var s := Reached(schedule);
            && GaugeAt(s.readings.inProgress, r) == 0
            && StatusSum(s.readings.requests, v, r, lo, hi) == At(s.readings.durations, (v, r))
            == At(s.readings.summaries, (v, r)) == Sum(s.flights, AllOn(v, r))
  {
    hide Plan, Head;
    var s := Reached(schedule);
    RedMetrics(schedule, v, r, lo, hi);
    forall i | 0 <= i < |s.flights|
      ensures OpenOn(r)(s.flights[i]) == 0
      ensures CountedNotObserved(v, r)(s.flights[i]) == ObservedNotSummarised(v, r)(s.flights[i]) == 0
      ensures HandledOn(v, r)(s.flights[i]) == AllOn(v, r)(s.flights[i])
    {
      Marks(s.flights[i]);
    }
    SumZero(s.flights, OpenOn(r));
    SumZero(s.flights, CountedNotObserved(v, r));
    SumZero(s.flights, ObservedNotSummarised(v, r));
    SumEqual(s.flights, HandledOn(v, r), AllOn(v, r));
  }

  // ---------- orders and the RED metrics ----------

  /** POST /orders runs the order handler; no other handler reports orders. */
  ghost predicate Routed(f: Flight) {
    if On(f, "POST", "/orders") then
      f.route.BusinessRoute? && exists a: Answers, n: nat :: f.h == CreateOrder(a, n)
    else
      forall i :: 0 <= i < |f.h| ==> !f.h[i].CountOrder? && !f.h[i].HandOver?
  }

  /** Whether this request gets as far as a committed order. */
  predicate Orders(f: Flight) {
    On(f, "POST", "/orders") && CounterLabel(Performed(f.route, f.draws, f.h)) == 201
  }

  lemma {:induction false} NoOrderOps(script: Script, sent: bool)
    requires forall i :: 0 <= i < |script| ==> !script[i].CountOrder? && !script[i].HandOver?
    ensures forall ctx :: forall e :: e in Noted(Trim(script, sent).ops, ctx) ==> e.Logged?
  {
    if script != [] {
      var rest := script[1..];
      var op := script[0];
      NoOrderOps(rest, sent || op.Body? || (op.Header? && FinalCode(op.code)));
      forall ctx
        ensures Noted([script[0]], ctx) == Note(script[0], ctx)
      {
        assert [script[0]][1..] == [];
        assert Noted([], ctx) == [];
      }
    }
  }

  /** The script performed is the handler's, or a gate's reply in its place. */
  lemma AnswerOf(f: Flight)
    ensures var script := Answering(Stack(f.route, f.draws), f.h);
            script == f.h
            || (f.route.BusinessRoute?
                && exists n: nat :: script == [LogWarning("chaos injected failure")] + WriteJSON(500, n))
            || (f.route.BusinessRoute? && f.route.cancelled && script == [])
            || (f.route.ControlRoute? && exists n: nat :: script == WriteJSON(401, n))
  {
    var front, back := Recording(!f.route.PlainRoute?, f.draws), Gates(f.route);
    AnsweringTail(front, back, f.h);
    if back != [] {
      assert back[1..] == [];
      assert Answering([], f.h) == f.h;
      match f.route {
        case BusinessRoute(s, c, lot, n) =>
          if GateVerdict(back[0]).Reply? && GateVerdict(back[0]).script != [] {
            assert GateVerdict(back[0]).script == [LogWarning("chaos injected failure")] + WriteJSON(500, n);
          }
        case ControlRoute(_, _, n) =>
          if GateVerdict(back[0]).Reply? {
            assert GateVerdict(back[0]).script == WriteJSON(401, n);
          }
        case PlainRoute =>
      }
    }
  }

  /** A request reports its order in two consecutive events right after the gauge
      if it is to be counted as 201, and reports no order otherwise. */
  lemma OrderEvents(f: Flight)
    requires Routed(f)
    ensures var ctx := HandlerContext(f.route, f.draws, f.req);
            var noted := Noted(Performed(f.route, f.draws, f.h).ops, ctx);
            if Orders(f) then
              exists a: Answers, n: nat :: f.h == CreateOrder(a, n) && AnswerStatus(a) == 201 && noted == [
                OrderCounted,
                OrderHandedOver(OrderEvent(a.created.value, a.decoded.value.productID, a.decoded.value.qty), ctx.span)]
            else forall i :: 0 <= i < |noted| ==> noted[i].Logged?
  {
    var script := Answering(Stack(f.route, f.draws), f.h);
    AnswerOf(f);
    if On(f, "POST", "/orders") && script == f.h {
      var a, n :| f.h == CreateOrder(a, n);
      CreateOrderTrims(a, n);
      assert Performed(f.route, f.draws, f.h).ops == CreateOrder(a, n);
      var ctx := HandlerContext(f.route, f.draws, f.req);
      assert Noted(CreateOrder(a, n), ctx) == Reported(a, ctx);
      ReportedExactly(a, ctx);
    } else {
      NoOrderOps(script, false);
      if On(f, "POST", "/orders") {
        ChaosRepliesAreNot201(script);
      }
    }
  }

  lemma ChaosRepliesAreNot201(script: Script)
    requires script == [] || exists n: nat :: script == [LogWarning("chaos injected failure")] + WriteJSON(500, n)
    ensures CounterLabel(Trim(script, false)) != 201
  {
    if script != [] {
      var n: nat :| script == [LogWarning("chaos injected failure")] + WriteJSON(500, n);
      assert script[1..] == WriteJSON(500, n);
      WriteJSONIsHeaderFirst(500, n);
      assert Trim(script, false).ops[1..] == WriteJSON(500, n);
    }
  }

  /** Exactly the requests that get past the chaos gate, and whose order passes
      validation and is inserted, move the order metrics. */
  lemma OrdersExactly(f: Flight, a: Answers, n: nat)
    requires On(f, "POST", "/orders") && f.route.BusinessRoute? && f.h == CreateOrder(a, n)
    ensures Orders(f) <==> Inject(f.route.snapshot, f.route.cancelled, f.route.lot).Proceed? && Accepts(a)
  {
    var gate, script := Gates(f.route), Answering(Stack(f.route, f.draws), f.h);
    AnsweringTail(Recording(true, f.draws), gate, f.h);
    assert gate[1..] == [] && Answering([], f.h) == f.h;
    if Inject(f.route.snapshot, f.route.cancelled, f.route.lot).Proceed? {
      CreateOrderTrims(a, n);
    } else {
      if script != [] {
        assert script == [LogWarning("chaos injected failure")] + WriteJSON(500, f.route.chaosBody);
      }
      ChaosRepliesAreNot201(script);
    }
  }

  predicate ReportsOrder(e: Event) {
    e.OrderCounted? || e.OrderHandedOver?
  }

  lemma TailEvents(r: Route, d: Draws, t: Cut, req: Request)
    ensures forall i :: 0 <= i < |Tail(r, d, t, req)| ==> !ReportsOrder(Tail(r, d, t, req)[i])
  {
  }

  /** What the handler reported, by position in the plan. */
  lemma HandlerEvents(f: Flight)
    ensures var noted := Noted(Performed(f.route, f.draws, f.h).ops, HandlerContext(f.route, f.draws, f.req));
            && CountMark(f) == IncMark(f) + 1 + |noted| <= |Plan(f)|
            && forall k :: IncMark(f) < k < CountMark(f) ==> Plan(f)[k] == noted[k - IncMark(f) - 1]
    ensures forall k :: 0 <= k < |Plan(f)| && !(IncMark(f) < k < CountMark(f)) ==> !ReportsOrder(Plan(f)[k])
  {
    hide Performed, HandlerContext, Tail, CounterLabel, Noted;
    var t := Performed(f.route, f.draws, f.h);
    var head, tail := Head(f.route, f.draws, t, f.req), Tail(f.route, f.draws, t, f.req);
    RequestRecord(f.route, f.draws, f.h, f.req);
    TailEvents(f.route, f.draws, t, f.req);
    var mid := Recorded(f.req, HandlerContext(f.route, f.draws, f.req), CounterLabel(t));
    assert Plan(f) == head + mid + tail;
    forall k | 0 <= k < |Plan(f)| && !(IncMark(f) < k < CountMark(f))
      ensures !ReportsOrder(Plan(f)[k])
    {
      if k >= |head| + 4 {
        assert Plan(f)[k] == tail[k - |head| - 4];
      }
    }
  }

  /** e hands over the order that was inserted, under the span of the request's own
      TraceHTTP layer. */
  ghost predicate HandsOver(f: Flight, e: Event) {
    exists a: Answers, n: nat :: f.h == CreateOrder(a, n) && AnswerStatus(a) == 201
      && e == OrderHandedOver(
           OrderEvent(a.created.value, a.decoded.value.productID, a.decoded.value.qty),
           HandlerContext(f.route, f.draws, f.req).span)
  }

  lemma OrderMarks(f: Flight)
    requires Routed(f)
    ensures var plan, i := Plan(f), IncMark(f);
            && i + 4 < |plan|
            && (Orders(f) ==> CountMark(f) == i + 3 && plan[i + 1] == OrderCounted && HandsOver(f, plan[i + 2]))
            && (forall k :: 0 <= k < |plan| && !(Orders(f) && i < k < i + 3) ==> !ReportsOrder(plan[k]))
  {
    hide Plan, Performed, Orders, CountMark, Noted;
    Marks(f);
    OrderEvents(f);
    HandlerEvents(f);
  }

  lemma OrderPoints(plan: seq<Event>, pos: nat, ordered: bool, i: nat)
    requires pos <= |plan| && i + 4 < |plan|
    requires ordered ==> plan[i + 1] == OrderCounted && plan[i + 2].OrderHandedOver?
    requires forall k :: 0 <= k < |plan| && !(ordered && i < k < i + 3) ==> !ReportsOrder(plan[k])
    ensures Tally(plan[..pos], OrdersCounted) == One(ordered && pos > i + 1)
    ensures Tally(plan[..pos], OrdersHandedOver) == One(ordered && pos > i + 2)
  {
    TwoPoints(plan, pos, Weight(OrdersCounted), i + 1, i + 2);
    TwoPoints(plan, pos, Weight(OrdersHandedOver), i + 1, i + 2);
  }

  lemma OrderShares(f: Flight)
    requires f.pos <= |Plan(f)| && Routed(f)
    ensures Share(OrdersCounted)(f) == One(Orders(f) && f.pos > IncMark(f) + 1)
    ensures Share(OrdersHandedOver)(f) == One(Orders(f) && f.pos > IncMark(f) + 2)
    ensures Share(CountedAs("POST", "/orders", 201))(f) == One(Orders(f) && f.pos > CountMark(f))
    ensures Orders(f) ==> CountMark(f) == IncMark(f) + 3
  {
    hide Plan, CountMark;
    var plan, i := Plan(f), IncMark(f);
    OrderMarks(f);
    CounterShare(f, "POST", "/orders", 201);
    OrderPoints(plan, f.pos, Orders(f), i);
  }

  ghost predicate AllRouted(s: Service) {
    forall i :: 0 <= i < |s.flights| ==> Routed(s.flights[i])
  }

  /** What this request has done to the three metrics so far; nothing unless Orders. */
  predicate MovesIfOrders(f: Flight) {
    || Orders(f)
    || Share(CountedAs("POST", "/orders", 201))(f) == Share(OrdersHandedOver)(f) == Share(OrdersCounted)(f) == 0
  }

  /** In every interleaving, 201s counted on POST /orders never exceed the orders
      handed to the publisher, nor those the orders counted; and at rest the three
      are equal. A refused or chaos-stopped request (OrdersExactly) has moved none of
      them at any time. */
  lemma OrdersMatchRed(schedule: seq<Action>)
    requires AllRouted(Reached(schedule))
    ensures var m := Reached(schedule).readings;
            && At(m.requests, ("POST", "/orders", 201)) <= m.ordersHandedOver <= m.ordersCreated
            && (Quiet(Reached(schedule)) ==>
                  At(m.requests, ("POST", "/orders", 201)) == m.ordersHandedOver == m.ordersCreated)
    ensures forall i :: 0 <= i < |Reached(schedule).flights| ==> MovesIfOrders(Reached(schedule).flights[i])
  {
    hide Plan;
    var s := Reached(schedule);
    var counted := CountedAs("POST", "/orders", 201);
    AlwaysConsistent(schedule);
    Conserved(schedule, counted);
    Conserved(schedule, OrdersHandedOver);
    Conserved(schedule, OrdersCounted);
    ScrapeReads(s.trace, "POST", "/orders", 201);
    forall i | 0 <= i < |s.flights|
      ensures var f := s.flights[i];
              && Share(counted)(f) <= Share(OrdersHandedOver)(f) <= Share(OrdersCounted)(f)
              && (Quiet(s) ==> Share(counted)(f) == Share(OrdersHandedOver)(f) == Share(OrdersCounted)(f))
              && MovesIfOrders(f)
    {
      OrderShares(s.flights[i]);
      Marks(s.flights[i]);
    }
    SumMono(s.flights, Share(counted), Share(OrdersHandedOver));
    SumMono(s.flights, Share(OrdersHandedOver), Share(OrdersCounted));
    if Quiet(s) {
      SumEqual(s.flights, Share(counted), Share(OrdersHandedOver));
      SumEqual(s.flights, Share(OrdersHandedOver), Share(OrdersCounted));
    }
  }
}
