/** Runtime fault injection and its admin guard (internal/api/chaos.go). */
module ChaosControl {
  import opened Wrappers
  import opened Responses

  const MAX_LATENCY_MS := 10_000

  /** error_ratio is a float in the source; rounding plays no part here. */
  datatype ChaosState = ChaosState(enabled: bool, latencyMs: int, errorRatio: real)

  // ---------- one request against one snapshot ----------

  datatype Injection = Proceed | GiveUp | Fail

  /** cancelled: the client leaves during the injected latency; lot: the draw from
      [0,1). */
  function Inject(s: ChaosState, cancelled: bool, lot: real): Injection {
    if s.enabled && s.latencyMs > 0 && cancelled then GiveUp
    else if s.enabled && s.errorRatio > 0.0 && lot < s.errorRatio then Fail
    else Proceed
  }

  /** Who decides: the client only during injected latency, the draw only below the
      ratio and only if the client is still there. */
  lemma InjectExactly(s: ChaosState, cancelled: bool, lot: real)
    requires 0.0 <= lot
    ensures Inject(s, cancelled, lot) == GiveUp <==> s.enabled && s.latencyMs > 0 && cancelled
    ensures Inject(s, cancelled, lot) == Fail
       <==> s.enabled && (s.latencyMs <= 0 || !cancelled) && lot < s.errorRatio
  {
  }

  /** A snapshot is harmless, whatever the client and the draw do, exactly when it
      is disabled or injects neither latency nor errors. */
  lemma HarmlessExactly(s: ChaosState)
    ensures (forall cancelled: bool, lot: real | 0.0 <= lot < 1.0 :: Inject(s, cancelled, lot).Proceed?)
       <==> !s.enabled || (s.latencyMs <= 0 && s.errorRatio <= 0.0)
  {
    if s.enabled && s.latencyMs > 0 {
      assert !Inject(s, true, 0.0).Proceed?;
    }
    if s.enabled && s.errorRatio > 0.0 {
      assert !Inject(s, false, 0.0).Proceed?;
    }
  }

  // ---------- the admin guard ----------

  datatype Credentials = Credentials(query: string, authorization: string)

  const BEARER := "Bearer "

  function Presented(c: Credentials): string {
    if BEARER <= c.authorization then c.authorization[|BEARER|..] else c.query
  }

  predicate Admitted(configured: string, c: Credentials) {
    configured == "" || Presented(c) == configured
  }

  /** Without a configured token everyone is admitted; under one, a bearer header
      decides alone, and the query token counts only when there is none. */
  lemma AdmittedExactly(configured: string, c: Credentials)
    ensures Admitted(configured, c) <==> (
              || configured == ""
              || c.authorization == "Bearer " + configured
              || (!("Bearer " <= c.authorization) && c.query == configured))
  {
    if BEARER <= c.authorization {
      assert c.authorization == BEARER + c.authorization[|BEARER|..];
    }
  }

  lemma OpenWithoutToken(c: Credentials)
    ensures Admitted("", c)
  {
  }

  // ---------- setting the state ----------

  function Clamp(n: int, lo: int, hi: int): int {
    if n < lo then lo else if n > hi then hi else n
  }

  function Sanitised(s: ChaosState): ChaosState {
    var r := if s.errorRatio > 0.0 then s.errorRatio else 0.0;
    ChaosState(s.enabled, Clamp(s.latencyMs, 0, MAX_LATENCY_MS), if r < 1.0 then r else 1.0)
  }

  predicate Safe(s: ChaosState) {
    0 <= s.latencyMs <= MAX_LATENCY_MS && 0.0 <= s.errorRatio <= 1.0
  }

  /** The stored value is the one nearest safe value: any other safe latency or ratio
      is strictly further from what was asked for. */
  lemma SanitisedIsNearest(s: ChaosState, other: ChaosState)
    requires 0 <= other.latencyMs <= 10_000 && 0.0 <= other.errorRatio <= 1.0
    ensures 0 <= Sanitised(s).latencyMs <= 10_000 && 0.0 <= Sanitised(s).errorRatio <= 1.0
    ensures Sanitised(s) == s <==> 0 <= s.latencyMs <= 10_000 && 0.0 <= s.errorRatio <= 1.0
    ensures Safe(Sanitised(s)) && Sanitised(s).enabled == s.enabled
    ensures other.latencyMs != Sanitised(s).latencyMs ==>
              Nearer(Sanitised(s).latencyMs as real, other.latencyMs as real, s.latencyMs as real)
    ensures other.errorRatio != Sanitised(s).errorRatio ==>
              Nearer(Sanitised(s).errorRatio, other.errorRatio, s.errorRatio)
  {
  }

  predicate Nearer(x: real, y: real, target: real) {
    Distance(x, target) < Distance(y, target)
  }

  function Distance(x: real, y: real): real {
    if x < y then y - x else x - y
  }

  function Flag(s: ChaosState): int {
    if s.enabled then 1 else 0
  }

  class Chaos {
    var state: ChaosState
    var gauge: int

    /** Between requests to set it, the gauge shows the flag. */
    ghost predicate Valid()
      reads this
    {
      Safe(state) && gauge == Flag(state)
    }

    constructor ()
      ensures Valid() && state == ChaosState(false, 0, 0.0)
    {
      state, gauge := ChaosState(false, 0, 0.0), 0;
    }

    method Get() returns (s: ChaosState)
      ensures s == state
    {
      s := state;
    }

    method Set(s: ChaosState)
      modifies this
      ensures state == s && gauge == if s.enabled then 1 else 0
    {
      state := s;
      gauge := if s.enabled then 1 else 0;
    }

    /** POST /admin/chaos; body is the decoded request, if it decoded. */
    method HandleSet(body: Option<ChaosState>, n: nat, w: ResponseWriter)
      requires Valid() && w.Valid() && this !in w.repr
      modifies this, w.repr
      ensures Valid()
      ensures state == if body.Some? then Sanitised(body.value) else old(state)
      ensures w.States() == ChainBody(ChainHeader(old(w.States()), if body.Some? then 200 else 400), n)
    {
      if body.None? {
        w.SendJSON(400, n);
        return;
      }
      var latency := Clamp(body.value.latencyMs, 0, MAX_LATENCY_MS);
      var ratio := body.value.errorRatio;
      if ratio < 0.0 {
        ratio := 0.0;
      }
      if ratio > 1.0 {
        ratio := 1.0;
      }
      Set(ChaosState(body.value.enabled, latency, ratio));
      w.SendJSON(200, n);
    }
  }

  // ---------- concurrent setters ----------

  /** A setter first stores the pointer, then moves the gauge. */
  datatype Phase = Decided | Stored | Done

  datatype Setter = Setter(value: ChaosState, phase: Phase)

  datatype Control = Control(
    stored: ChaosState, gauge: int, history: seq<ChaosState>, setters: seq<Setter>, snapshots: seq<ChaosState>)

  /** Begin: a body was decoded and sanitised. */
  datatype Action = Begin(wanted: ChaosState) | Store(i: nat) | ShowGauge(i: nat) | Snapshot

  const OFF := ChaosState(false, 0, 0.0)

  const START := Control(OFF, 0, [OFF], [], [])

  predicate Enabled(c: Control, a: Action) {
    match a
    case Store(i) => i < |c.setters| && c.setters[i].phase.Decided?
    case ShowGauge(i) => i < |c.setters| && c.setters[i].phase.Stored?
    case _ => true
  }

  function Next(c: Control, a: Action): Control
    requires Enabled(c, a)
  {
    match a
    case Begin(wanted) => c.(setters := c.setters + [Setter(Sanitised(wanted), Decided)])
    case Store(i) =>
      var v := c.setters[i].value;
      c.(stored := v, history := c.history + [v], setters := c.setters[i := Setter(v, Stored)])
    case ShowGauge(i) =>
      var v := c.setters[i].value;
      c.(gauge := Flag(v), setters := c.setters[i := Setter(v, Done)])
    case Snapshot => c.(snapshots := c.snapshots + [c.stored])
  }

  /** Any interleaving: a schedule that asks for a step that is not possible leaves
      the state alone. */
  function Turn(c: Control, a: Action): Control {
    if Enabled(c, a) then Next(c, a) else c
  }

  function Reached(schedule: seq<Action>): Control {
    if schedule == [] then START
    else Turn(Reached(schedule[..|schedule| - 1]), schedule[|schedule| - 1])
  }

  // ---------- what the schedule says ----------

  /** The states asked for, in the order the requests came. */
  function Begun(schedule: seq<Action>): seq<ChaosState> {
    if schedule == [] then []
    else
      var front, a := schedule[..|schedule| - 1], schedule[|schedule| - 1];
      Begun(front) + (if a.Begin? then [a.wanted] else [])
  }

  /** The request whose store, or whose gauge move, came last. */
  function LastStorer(schedule: seq<Action>): Option<nat> {
    if schedule == [] then None
    else
      var front, a := schedule[..|schedule| - 1], schedule[|schedule| - 1];
      if a.Store? && Enabled(Reached(front), a) then Some(a.i) else LastStorer(front)
  }

  function LastShower(schedule: seq<Action>): Option<nat> {
    if schedule == [] then None
    else
      var front, a := schedule[..|schedule| - 1], schedule[|schedule| - 1];
      if a.ShowGauge? && Enabled(Reached(front), a) then Some(a.i) else LastShower(front)
  }

  /** What request o asked for; no request at all counts as off. */
  function AskedBy(asked: seq<ChaosState>, o: Option<nat>): ChaosState {
    if o.Some? && o.value < |asked| then asked[o.value] else OFF
  }

  /** In every run, whatever sets overlap: setter i carries the sanitised form of the
      i-th request; what is stored is what the request that stored last asked for,
      sanitised; and the gauge shows the flag of the request that moved it last. */
  lemma {:induction false} StoredIsLastAsked(schedule: seq<Action>)
    ensures var c, asked := Reached(schedule), Begun(schedule);
            && |c.setters| == |asked|
            && (forall i :: 0 <= i < |asked| ==> c.setters[i].value == Sanitised(asked[i]))
            && (LastStorer(schedule).Some? ==> LastStorer(schedule).value < |asked|)
            && (LastShower(schedule).Some? ==> LastShower(schedule).value < |asked|)
            && c.stored == Sanitised(AskedBy(asked, LastStorer(schedule)))
            && c.gauge == Flag(AskedBy(asked, LastShower(schedule)))
  {
    if schedule != [] {
      StoredIsLastAsked(schedule[..|schedule| - 1]);
    }
  }

  /** The gauge is right exactly when the request that moved it last and the request
      that stored last asked for the same flag. */
  lemma GaugeRightExactly(schedule: seq<Action>)
    ensures var c, asked := Reached(schedule), Begun(schedule);
            c.gauge == (if c.stored.enabled then 1 else 0)
            <==> AskedBy(asked, LastShower(schedule)).enabled == AskedBy(asked, LastStorer(schedule)).enabled
  {
    StoredIsLastAsked(schedule);
  }

  /** s is the sanitised form of some request. */
  ghost predicate AskedFor(schedule: seq<Action>, s: ChaosState) {
    exists i :: 0 <= i < |Begun(schedule)| && s == Sanitised(Begun(schedule)[i])
  }

  /** In every run the stored state and every snapshot a request acted on are safe
      states that one single set put there whole. */
  lemma {:induction false} ChaosSafe(schedule: seq<Action>)
    ensures var c := Reached(schedule);
            && 0 <= c.stored.latencyMs <= 10_000 && 0.0 <= c.stored.errorRatio <= 1.0 && c.stored in c.history
            && (forall s :: s in c.snapshots ==>
                  0 <= s.latencyMs <= 10_000 && 0.0 <= s.errorRatio <= 1.0 && s in c.history)
            && (forall s :: s in c.history ==> s == OFF || AskedFor(schedule, s))
  {
    if schedule != [] {
      var before, a := schedule[..|schedule| - 1], schedule[|schedule| - 1];
      ChaosSafe(before);
      StoredIsLastAsked(before);
      StoredIsLastAsked(schedule);
      forall s | s in Reached(schedule).history && s != OFF
        ensures AskedFor(schedule, s)
      {
        if s in Reached(before).history {
          var i :| 0 <= i < |Begun(before)| && s == Sanitised(Begun(before)[i]);
          assert Begun(schedule)[i] == Begun(before)[i];
        } else {
          assert a.Store? && Begun(schedule) == Begun(before);
          assert s == Sanitised(Begun(schedule)[a.i]);
        }
      }
    }
  }

  /** A set is in force from its own store, whatever other sets did between its
      decision and that store, until another set stores. */
  lemma {:induction false} StoredUntilNextStore(schedule: seq<Action>, i: nat, others: seq<Action>)
    requires Enabled(Reached(schedule), Store(i))
    requires forall k :: 0 <= k < |others| ==> !others[k].Store?
    ensures i < |Begun(schedule)|
    ensures Reached(schedule + [Store(i)] + others).stored == Sanitised(Begun(schedule)[i])
  {
    var stored := schedule + [Store(i)];
    if others == [] {
      StoredIsLastAsked(schedule);
      assert stored + others == stored && stored[..|stored| - 1] == schedule;
    } else {
      StoredUntilNextStore(schedule, i, others[..|others| - 1]);
      assert (stored + others)[..|stored + others| - 1] == stored + others[..|others| - 1];
    }
  }

  /** From every reachable state a set can be begun, stored and shown, and a request
      can take its snapshot; and each does just that. */
  lemma SetGoesThrough(schedule: seq<Action>, wanted: ChaosState)
    ensures var c, n := Reached(schedule), |Reached(schedule).setters|;
            var steps := [Begin(wanted), Store(n), ShowGauge(n), Snapshot];
            var d := Reached(schedule + steps);
            && d.stored == Sanitised(wanted) && d.gauge == (if wanted.enabled then 1 else 0)
            && d.setters == c.setters + [Setter(Sanitised(wanted), Done)]
            && d.history == c.history + [d.stored] && d.snapshots == c.snapshots + [d.stored]
  {
    var c, n := Reached(schedule), |Reached(schedule).setters|;
    var s1, s2 := schedule + [Begin(wanted)], schedule + [Begin(wanted), Store(n)];
    var s3, s4 := s2 + [ShowGauge(n)], schedule + [Begin(wanted), Store(n), ShowGauge(n), Snapshot];
    assert s1[..|s1| - 1] == schedule && s2[..|s2| - 1] == s1 && s3[..|s3| - 1] == s2 && s4[..|s4| - 1] == s3;
    var v := Sanitised(wanted);
    assert Reached(s1).setters == c.setters + [Setter(v, Decided)];
    assert Reached(s2).setters == c.setters + [Setter(v, Stored)];
    assert Reached(s3).setters == c.setters + [Setter(v, Done)];
  }

  // ---------- sets that do not overlap ----------

  predicate MidWay(c: Control) {
    exists i :: 0 <= i < |c.setters| && c.setters[i].phase.Stored?
  }

  /** No set stores while another one is between its two steps. */
  predicate NeverOverlaps(schedule: seq<Action>) {
    forall k :: 0 <= k < |schedule| && schedule[k].Store? ==> !MidWay(Reached(schedule[..k]))
  }

  /** Then only the last storer can be mid-way, and if it is not, it has moved the
      gauge last. */
  lemma {:induction false} SettledWithoutOverlap(schedule: seq<Action>)
    requires NeverOverlaps(schedule)
    ensures var c := Reached(schedule);
            && (forall i :: 0 <= i < |c.setters| && c.setters[i].phase.Stored? ==> LastStorer(schedule) == Some(i))
            && (!MidWay(c) ==> LastShower(schedule) == LastStorer(schedule))
  {
    if schedule != [] {
      var before := schedule[..|schedule| - 1];
      forall k | 0 <= k < |before| && before[k].Store?
        ensures !MidWay(Reached(before[..k]))
      {
        assert before[..k] == schedule[..k] && schedule[k].Store?;
      }
      SettledWithoutOverlap(before);
      var c, d, a := Reached(before), Reached(schedule), schedule[|schedule| - 1];
      if MidWay(c) && (a.Begin? || a.Snapshot? || !Enabled(c, a)) {
        var i :| 0 <= i < |c.setters| && c.setters[i].phase.Stored?;
        assert d.setters[i].phase.Stored?;
      }
      if a.Store? && Enabled(c, a) {
        assert schedule[|schedule| - 1].Store? && schedule[..|schedule| - 1] == before;
        assert d.setters[a.i].phase.Stored?;
      }
    }
  }

  /** Sets that do not overlap keep the gauge honest whenever none is mid-way. */
  lemma {:induction false} GaugeFollowsFlag(schedule: seq<Action>)
    requires NeverOverlaps(schedule) && !MidWay(Reached(schedule))
    ensures Reached(schedule).gauge == if Reached(schedule).stored.enabled then 1 else 0
  {
    SettledWithoutOverlap(schedule);
    GaugeRightExactly(schedule);
  }

  /** Two overlapping sets can leave the gauge at 1 for good with chaos off. */
  lemma OverlapStrandsGauge(on: ChaosState, off: ChaosState)
    requires on.enabled && !off.enabled
    ensures var c := Reached([Begin(on), Begin(off), Store(0), Store(1), ShowGauge(1), ShowGauge(0)]);
            !MidWay(c) && !c.stored.enabled && c.gauge == 1
  {
    var s := [Begin(on), Begin(off), Store(0), Store(1), ShowGauge(1), ShowGauge(0)];
    var x, y := Sanitised(on), Sanitised(off);
    assert s[..5][..4] == s[..4] && s[..4][..3] == s[..3] && s[..3][..2] == s[..2];
    assert s[..2][..1] == s[..1] && s[..1][..0] == [];
    assert Reached(s[..1]).setters == [Setter(x, Decided)];
    assert Reached(s[..2]).setters == [Setter(x, Decided), Setter(y, Decided)];
    assert Reached(s[..3]).setters == [Setter(x, Stored), Setter(y, Decided)];
    assert Reached(s[..4]).setters == [Setter(x, Stored), Setter(y, Stored)];
    assert Reached(s[..5]).setters == [Setter(x, Stored), Setter(y, Done)];
    assert Reached(s).setters == [Setter(x, Done), Setter(y, Done)];
  }
}
