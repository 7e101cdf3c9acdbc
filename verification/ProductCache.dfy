/** The read-through products cache (internal/cache/cache.go) over a Redis that may
    fail, expire, be flushed or hold undecodable bytes, with concurrent callers and
    a changing products table. Times are milliseconds. */
module ProductCache {
  import opened Wrappers
  import opened Sums

  datatype Product = Product(id: int, name: string, price: real)

  type Products = seq<Product>

  const TTL := 30_000

  /** What the key holds: the JSON of a product list, or bytes that do not decode.
      loadedAt remembers when the list was read from the table. */
  datatype Entry = Entry(blob: Option<Products>, loadedAt: nat, setAt: nat) {
    predicate Live(now: nat) {
      now < setAt + TTL
    }
  }

  // ---------- one call on its own ----------

  /** The outcome of a Set as the server and as the client saw it. */
  datatype SetFate = Stored | Lost | StoredUnacknowledged

  /** Everything outside the code's control during one call. */
  datatype Environment = Environment(
    now: nat, getFails: bool, table: Result<Products>, loadDone: nat, encodes: bool, setTime: nat, fate: SetFate)

  datatype CacheState = CacheState(enabled: bool, entry: Option<Entry>, hits: nat, misses: nat, errors: nat)

  datatype Answer = Answer(products: Result<Products>, loaded: bool)

  /** What a Get returns, if the server answers and still holds a decodable list. */
  function Cached(c: CacheState, e: Environment): Option<Products> {
    if c.enabled && !e.getFails && c.entry.Some? && c.entry.value.Live(e.now) then c.entry.value.blob else None
  }

  /** Failures of the cache itself during one call: of Get or of decoding, and of
      encoding or of Set. */
  predicate ReadFault(c: CacheState, e: Environment) {
    c.enabled && (e.getFails || (c.entry.Some? && c.entry.value.Live(e.now) && c.entry.value.blob.None?))
  }

  predicate WriteFault(c: CacheState, e: Environment) {
    c.enabled && Cached(c, e).None? && e.table.Ok? && (!e.encodes || !e.fate.Stored?)
  }

  predicate Writes(c: CacheState, e: Environment) {
    c.enabled && Cached(c, e).None? && e.table.Ok? && e.encodes && !e.fate.Lost?
  }

  class Cache {
    const enabled: bool
    var entry: Option<Entry>
    var hits: nat
    var misses: nat
    var errors: nat

    function State(): CacheState
      reads this
    {
      CacheState(enabled, entry, hits, misses, errors)
    }

    constructor (enabled: bool)
      ensures State() == CacheState(enabled, None, 0, 0, 0)
    {
      this.enabled := enabled;
      entry, hits, misses, errors := None, 0, 0, 0;
    }

    /** The contract says what a caller is promised, fault by fault: the cached list
        if there is one to be had, else exactly what the table answers; one hit or
        one miss; one error per failure of the cache; and the key changed only by a
        Set that reached the server. */
    method Lookup(e: Environment) returns (a: Answer)
      modifies this
      ensures a == if Cached(old(State()), e).Some?
                   then Answer(Ok(Cached(old(State()), e).value), false) else Answer(e.table, true)
      ensures hits == old(hits) + (if a.loaded then 0 else 1)
      ensures misses == old(misses) + (if a.loaded then 1 else 0)
      ensures errors == old(errors) + (if ReadFault(old(State()), e) then 1 else 0)
                                    + (if WriteFault(old(State()), e) then 1 else 0)
      ensures entry == if Writes(old(State()), e)
                       then Some(Entry(Some(e.table.value), e.loadDone, e.setTime)) else old(entry)
      // The same again, case by case.
      ensures !enabled ==> a == Answer(e.table, true) && entry == old(entry)
      ensures enabled && e.getFails ==> a == Answer(e.table, true)
      ensures enabled && (old(entry).None? || e.now >= old(entry).value.setAt + 30_000) ==> a == Answer(e.table, true)
      ensures enabled && !e.getFails && old(entry).Some? && e.now < old(entry).value.setAt + 30_000 ==>
                match old(entry).value.blob
                case Some(products) => a == Answer(Ok(products), false) && entry == old(entry)
                case None => a == Answer(e.table, true)
      ensures enabled && a.loaded && e.table.Ok? && e.encodes && e.fate.Stored? ==>
                entry == Some(Entry(Some(e.table.value), e.loadDone, e.setTime))
      ensures a.loaded && (e.table.Failed? || !e.encodes || e.fate.Lost?) ==> entry == old(entry)
      ensures var unread := old(entry).Some? && e.now < old(entry).value.setAt + 30_000
                            && old(entry).value.blob.None?;
              errors == old(errors)
                + (if enabled && (e.getFails || unread) then 1 else 0)
                + (if enabled && a.loaded && e.table.Ok? && (!e.encodes || !e.fate.Stored?) then 1 else 0)
    {
      if !enabled {
        misses := misses + 1;
        return Answer(e.table, true);
      }
      if !e.getFails && entry.Some? && entry.value.Live(e.now) {
        if entry.value.blob.Some? {
          hits := hits + 1;
          return Answer(Ok(entry.value.blob.value), false);
        }
        errors := errors + 1;
      } else if e.getFails {
        errors := errors + 1;
      }
      misses := misses + 1;
      if e.table.Failed? {
        return Answer(Failed, true);
      }
      var products := e.table.value;
      if !e.encodes {
        errors := errors + 1;
        return Answer(Ok(products), true);
      }
      if !e.fate.Lost? {
        entry := Some(Entry(Some(products), e.loadDone, e.setTime));
      }
      if !e.fate.Stored? {
        errors := errors + 1;
      }
      return Answer(Ok(products), true);
    }

    method Flush()
      modifies this
      ensures State() == old(State()).(entry := if enabled then None else old(entry))
    {
      if enabled {
        entry := None;
      }
    }
  }

  // ---------- concurrent callers ----------

  /** Where a result came from: the cache at seenAt, or the table, with what failed on
      the way. heldAt is a moment at which the table held it. */
  datatype Source = FromCache(seenAt: nat) | FromTable(readFault: bool, writeFault: bool)

  /** readFault: Get failed or what it returned did not decode. */
  datatype Phase =
    | Asking
    | Found(products: Products, heldAt: nat, seenAt: nat)
    | NotFound(readFault: bool)
    | Loading(readFault: bool)
    | Storing(products: Products, heldAt: nat, readFault: bool)
    | Returned(products: Products, heldAt: nat, source: Source)
    | LoadFailed(readFault: bool)

  datatype Version = Version(products: Products, from: nat)

  /** delay: the longest load-to-Set delay of any list ever stored. asked: when each
      call was made. */
  datatype System = System(
    enabled: bool, clock: nat, table: seq<Version>, entry: Option<Entry>, delay: nat,
    hits: nat, misses: nat, errors: nat, loads: nat, asked: seq<nat>, calls: seq<Phase>)

  datatype Action =
    | Call
    | Get(i: nat, fails: bool)
    | Count(i: nat)
    | Load(i: nat, succeeds: bool)
    | Set(i: nat, encodes: bool, fate: SetFate)
    | Tick(ms: nat)
    | FlushAll
    | Corrupt
    | ChangeTable(products: Products)

  function Current(s: System): Products
    requires s.table != []
  {
    s.table[|s.table| - 1].products
  }

  function Start(enabled: bool, products: Products): System {
    System(enabled, 0, [Version(products, 0)], None, 0, 0, 0, 0, 0, [], [])
  }

  function Max(a: nat, b: nat): nat {
    if a < b then b else a
  }

  function With(s: System, i: nat, p: Phase): System
    requires i < |s.calls|
  {
    s.(calls := s.calls[i := p])
  }

  function DoGet(s: System, i: nat, fails: bool): System
    requires i < |s.calls|
  {
    if !s.enabled then With(s, i, NotFound(false))
    else if fails then With(s, i, NotFound(true))
    else if s.entry.None? || !s.entry.value.Live(s.clock) then With(s, i, NotFound(false))
    else if s.entry.value.blob.None? then With(s, i, NotFound(true))
    else With(s, i, Found(s.entry.value.blob.value, s.entry.value.loadedAt, s.clock))
  }

  function DoCount(s: System, i: nat): System
    requires i < |s.calls|
  {
    match s.calls[i]
    case Found(p, h, t) => With(s, i, Returned(p, h, FromCache(t))).(hits := s.hits + 1)
    case NotFound(fault) =>
      With(s, i, Loading(fault)).(misses := s.misses + 1, errors := s.errors + if fault then 1 else 0)
    case _ => s
  }

  function DoLoad(s: System, i: nat, succeeds: bool): System
    requires i < |s.calls| && s.calls[i].Loading? && s.table != []
  {
    var t, fault := s.(loads := s.loads + 1), s.calls[i].readFault;
    if !succeeds then With(t, i, LoadFailed(fault))
    else if !s.enabled then With(t, i, Returned(Current(s), s.clock, FromTable(fault, false)))
    else With(t, i, Storing(Current(s), s.clock, fault))
  }

  function DoSet(s: System, i: nat, encodes: bool, fate: SetFate): System
    requires i < |s.calls| && s.calls[i].Storing?
  {
    var Storing(p, h, fault) := s.calls[i];
    var failed := !encodes || !fate.Stored?;
    var t := With(s, i, Returned(p, h, FromTable(fault, failed))).(errors := s.errors + if failed then 1 else 0);
    if encodes && !fate.Lost? then
      t.(entry := Some(Entry(Some(p), h, s.clock)), delay := Max(s.delay, if h <= s.clock then s.clock - h else 0))
    else t
  }

  /** One atomic step; a step that is not possible changes nothing. */
  function Step(s: System, a: Action): (r: System)
    requires s.table != []
    ensures r.table != []
  {
    match a
    case Call => s.(calls := s.calls + [Asking], asked := s.asked + [s.clock])
    case Get(i, fails) => if i < |s.calls| && s.calls[i].Asking? then DoGet(s, i, fails) else s
    case Count(i) => if i < |s.calls| then DoCount(s, i) else s
    case Load(i, succeeds) => if i < |s.calls| && s.calls[i].Loading? then DoLoad(s, i, succeeds) else s
    case Set(i, encodes, fate) => if i < |s.calls| && s.calls[i].Storing? then DoSet(s, i, encodes, fate) else s
    case Tick(ms) => s.(clock := s.clock + ms)
    case FlushAll => if s.enabled then s.(entry := None) else s
    case Corrupt => if s.entry.Some? then s.(entry := Some(s.entry.value.(blob := None))) else s
    case ChangeTable(p) => s.(table := s.table + [Version(p, s.clock)])
  }

  function Run(s: System, schedule: seq<Action>): (r: System)
    requires s.table != []
    ensures r.table != []
  {
    if schedule == [] then s else Step(Run(s, schedule[..|schedule| - 1]), schedule[|schedule| - 1])
  }

  // ---------- staleness ----------

  /** The table held p at time t. */
  ghost predicate Held(s: System, p: Products, t: nat) {
    exists k :: 0 <= k < |s.table| && HeldBy(s, k, p, t)
  }

  predicate HeldBy(s: System, k: nat, p: Products, t: nat)
    requires k < |s.table|
  {
    s.table[k].products == p && s.table[k].from <= t && (k + 1 < |s.table| ==> t <= s.table[k + 1].from)
  }

  ghost predicate GoodEntry(s: System, e: Entry) {
    && e.loadedAt <= e.setAt <= s.clock && e.setAt - e.loadedAt <= s.delay
    && (e.blob.Some? ==> Held(s, e.blob.value, e.loadedAt))
  }

  /** The moment of its own call by which a returned list is judged: when the cache
      was read, or when the table was. */
  function Moment(p: Phase): nat
    requires p.Returned?
  {
    if p.source.FromCache? then p.source.seenAt else p.heldAt
  }

  ghost predicate GoodPhase(s: System, asked: nat, p: Phase) {
    match p
    case Found(products, heldAt, seenAt) =>
      && asked <= seenAt <= s.clock && heldAt <= seenAt < heldAt + TTL + s.delay
      && Held(s, products, heldAt)
    case Storing(products, heldAt, _) => asked <= heldAt <= s.clock && Held(s, products, heldAt)
    case Returned(products, heldAt, _) =>
      && asked <= Moment(p) <= s.clock && heldAt <= Moment(p) < heldAt + TTL + s.delay
      && Held(s, products, heldAt)
    case _ => true
  }

  ghost predicate Fresh(s: System) {
    && s.table != [] && (forall k :: 0 <= k < |s.table| ==> s.table[k].from <= s.clock)
    && (s.entry.Some? ==> GoodEntry(s, s.entry.value))
    && |s.asked| == |s.calls| && (forall i :: 0 <= i < |s.asked| ==> s.asked[i] <= s.clock)
    && (forall i :: 0 <= i < |s.calls| ==> GoodPhase(s, s.asked[i], s.calls[i]))
  }

  /** Time and table changes never unmake a moment at which a list was current. */
  lemma HeldForever(s: System, a: Action, p: Products, t: nat)
    requires Fresh(s) && t <= s.clock && Held(s, p, t)
    ensures Held(Step(s, a), p, t)
  {
    var k :| 0 <= k < |s.table| && HeldBy(s, k, p, t);
    assert HeldBy(Step(s, a), k, p, t);
  }

  lemma CurrentIsHeld(s: System)
    requires Fresh(s)
    ensures Held(s, Current(s), s.clock)
  {
    assert HeldBy(s, |s.table| - 1, Current(s), s.clock);
  }

  lemma PhaseKept(s: System, a: Action, asked: nat, p: Phase)
    requires Fresh(s) && GoodPhase(s, asked, p)
    ensures GoodPhase(Step(s, a), asked, p)
  {
    hide Held;
    match p {
      case Found(products, heldAt, _) => HeldForever(s, a, products, heldAt);
      case Storing(products, heldAt, _) => HeldForever(s, a, products, heldAt);
      case Returned(products, heldAt, _) => HeldForever(s, a, products, heldAt);
      case _ =>
    }
  }

  lemma EntryKept(s: System, a: Action)
    requires Fresh(s)
    ensures Step(s, a).entry.Some? ==> GoodEntry(Step(s, a), Step(s, a).entry.value)
  {
    hide Held;
    if s.entry.Some? && s.entry.value.blob.Some? {
      HeldForever(s, a, s.entry.value.blob.value, s.entry.value.loadedAt);
    }
    if a.Set? && a.i < |s.calls| && s.calls[a.i].Storing? {
      HeldForever(s, a, s.calls[a.i].products, s.calls[a.i].heldAt);
    }
  }

  lemma FreshStep(s: System, a: Action)
    requires Fresh(s)
    ensures Fresh(Step(s, a))
  {
    hide Held, GoodEntry;
    var t := Step(s, a);
    EntryKept(s, a);
    forall i | 0 <= i < |t.calls|
      ensures GoodPhase(t, t.asked[i], t.calls[i])
    {
      if i < |s.calls| && t.calls[i] == s.calls[i] {
        PhaseKept(s, a, s.asked[i], s.calls[i]);
      } else if i < |s.calls| {
        NewPhase(s, a, i);
      }
    }
  }

  /** The phase a step puts a call into is a good one. */
  lemma NewPhase(s: System, a: Action, i: nat)
    requires Fresh(s) && i < |s.calls| && i < |Step(s, a).calls| && Step(s, a).calls[i] != s.calls[i]
    ensures GoodPhase(Step(s, a), s.asked[i], Step(s, a).calls[i])
  {
    hide Held;
    CurrentIsHeld(s);
    match a {
      case Get(_, _) =>
        if s.entry.Some? && s.entry.value.blob.Some? {
          HeldForever(s, a, s.entry.value.blob.value, s.entry.value.loadedAt);
        }
      case Count(_) => PhaseKept(s, a, s.asked[i], s.calls[i]);
      case Load(_, _) => HeldForever(s, a, Current(s), s.clock);
      case Set(_, _, _) => PhaseKept(s, a, s.asked[i], s.calls[i]);
      case _ =>
    }
  }

  lemma {:induction false} AlwaysFresh(enabled: bool, products: Products, schedule: seq<Action>)
    ensures Fresh(Run(Start(enabled, products), schedule))
  {
    if schedule != [] {
      AlwaysFresh(enabled, products, schedule[..|schedule| - 1]);
      FreshStep(Run(Start(enabled, products), schedule[..|schedule| - 1]), schedule[|schedule| - 1]);
    }
  }

  /** Bounded staleness, in every run with any number of callers, faults, flushes and
      table changes: a returned list is one the table held, and at some moment of its
      own call, no earlier than the call was made, that was less than 30 s plus the
      longest load-to-Set delay ago; a list loaded from the table was the table's at
      that very moment. */
  lemma BoundedStaleness(enabled: bool, products: Products, schedule: seq<Action>, i: nat)
    requires i < |Run(Start(enabled, products), schedule).calls|
    requires Run(Start(enabled, products), schedule).calls[i].Returned?
    ensures var s := Run(Start(enabled, products), schedule);
            var r := s.calls[i];
            && |s.asked| == |s.calls| && Held(s, r.products, r.heldAt)
            && s.asked[i] <= Moment(r) <= s.clock
            && r.heldAt <= Moment(r) < r.heldAt + 30_000 + s.delay
            && (r.source.FromTable? ==> Moment(r) == r.heldAt)
  {
    AlwaysFresh(enabled, products, schedule);
    var s := Run(Start(enabled, products), schedule);
    assert GoodPhase(s, s.asked[i], s.calls[i]);
  }

  predicate TableFixed(schedule: seq<Action>) {
    forall k :: 0 <= k < |schedule| ==> !schedule[k].ChangeTable?
  }

  lemma {:induction false} TableStays(s: System, schedule: seq<Action>)
    requires s.table != [] && TableFixed(schedule)
    ensures Run(s, schedule).table == s.table
  {
    if schedule != [] {
      TableStays(s, schedule[..|schedule| - 1]);
      var t, a := Run(s, schedule[..|schedule| - 1]), schedule[|schedule| - 1];
      assert !a.ChangeTable?;
    }
  }

  /** Transparency: while the table does not change, every list returned by any
      caller, whatever happens to Redis, is the one a direct load returns. */
  lemma TransparentWhenFixed(enabled: bool, products: Products, schedule: seq<Action>, i: nat)
    requires TableFixed(schedule)
    requires i < |Run(Start(enabled, products), schedule).calls|
    requires Run(Start(enabled, products), schedule).calls[i].Returned?
    ensures Run(Start(enabled, products), schedule).calls[i].products == products
  {
    BoundedStaleness(enabled, products, schedule, i);
    TableStays(Start(enabled, products), schedule);
  }

  /** One slow caller stores, d ms after it was replaced, a list another caller reads
      in the last millisecond of its life. */
  function SlowStore(d: nat, new': Products): seq<Action> {
    [Call, Get(0, false), Count(0), Load(0, true), Tick(1), ChangeTable(new'), Tick(d), Set(0, true, Stored)]
  }

  function LateRead(): seq<Action> {
    [Tick(TTL - 1), Call, Get(1, false), Count(1)]
  }

  function AfterSlowStore(d: nat, old': Products, new': Products): System {
    System(true, d + 1, [Version(old', 0), Version(new', 1)], Some(Entry(Some(old'), 0, d + 1)), d + 1,
           0, 1, 0, 1, [0], [Returned(old', 0, FromTable(false, false))])
  }

  lemma SlowStoreRuns(d: nat, old': Products, new': Products)
    ensures Run(Start(true, old'), SlowStore(d, new')) == AfterSlowStore(d, old', new')
  {
    hide Run;
    var s0, a := Start(true, old'), SlowStore(d, new');
    RunStep(s0, a, 0);
    RunStep(s0, a, 1);
    assert Run(s0, a[..2]) == s0.(calls := [NotFound(false)], asked := [0]);
    RunStep(s0, a, 2);
    assert Run(s0, a[..3]) == s0.(calls := [Loading(false)], asked := [0], misses := 1);
    RunStep(s0, a, 3);
    RunStep(s0, a, 4);
    RunStep(s0, a, 5);
    assert Run(s0, a[..6])
        == System(true, 1, [Version(old', 0), Version(new', 1)], None, 0, 0, 1, 0, 1, [0], [Storing(old', 0, false)]);
    RunStep(s0, a, 6);
    RunStep(s0, a, 7);
    assert a[..8] == a;
  }

  lemma LateReadRuns(s: System)
    requires s.table != [] && s.enabled && |s.calls| == |s.asked| == 1
    requires s.entry.Some? && s.entry.value.blob.Some? && s.entry.value.setAt == s.clock
    ensures var t, e := Run(s, LateRead()), s.entry.value;
            t == s.(clock := s.clock + TTL - 1, asked := t.asked, calls := t.calls, hits := s.hits + 1)
            && t.asked == s.asked + [t.clock]
            && t.calls == s.calls + [Returned(e.blob.value, e.loadedAt, FromCache(t.clock))]
  {
    hide Run;
    var a, e := LateRead(), s.entry.value;
    var late := s.(clock := s.clock + TTL - 1);
    var asking := late.(calls := s.calls + [Asking], asked := s.asked + [late.clock]);
    var found := asking.(calls := s.calls + [Found(e.blob.value, e.loadedAt, late.clock)]);
    RunStep(s, a, 0);
    RunStep(s, a, 1);
    assert Run(s, a[..2]) == asking;
    RunStep(s, a, 2);
    assert asking.calls[1 := found.calls[1]] == found.calls;
    assert Run(s, a[..3]) == found;
    RunStep(s, a, 3);
    assert a[..4] == a;
  }

  /** The bound cannot be improved, for any delay: with a load-to-Set delay of d + 1,
      a caller is given, through a live entry, a list exactly TTL + d old that the
      table had given up all but a millisecond of that time ago. */
  lemma DelayCounts(d: nat, old': Products, new': Products)
    ensures var s := Run(Start(true, old'), SlowStore(d, new') + LateRead());
            && s.delay == d + 1 && s.table == [Version(old', 0), Version(new', 1)]
            && s.asked == [0, 30_000 + d] && |s.calls| == 2
            && s.calls[1] == Returned(old', 0, FromCache(30_000 + d))
  {
    SlowStoreRuns(d, old', new');
    RunConcat(Start(true, old'), SlowStore(d, new'), LateRead());
    LateReadRuns(AfterSlowStore(d, old', new'));
  }

  lemma {:induction false} RunConcat(s: System, a: seq<Action>, b: seq<Action>)
    requires s.table != []
    ensures Run(s, a + b) == Run(Run(s, a), b)
  {
    if b == [] {
      assert a + b == a;
    } else {
      RunConcat(s, a, b[..|b| - 1]);
      assert (a + b)[..|a + b| - 1] == a + b[..|b| - 1];
    }
  }

  lemma {:induction false} RunStep(s: System, schedule: seq<Action>, k: nat)
    requires s.table != [] && k < |schedule|
    ensures Run(s, schedule[..0]) == s
    ensures Run(s, schedule[..k + 1]) == Step(Run(s, schedule[..k]), schedule[k])
  {
    assert schedule[..k + 1][..k] == schedule[..k];
  }

  // ---------- accounting ----------

  function One(b: bool): int {
    if b then 1 else 0
  }

  function Hit(p: Phase): int { One(p.Returned? && p.source.FromCache?) }
  function Loaded(p: Phase): int { One(p.Storing? || p.LoadFailed? || (p.Returned? && p.source.FromTable?)) }
  function AwaitingLoad(p: Phase): int { One(p.Loading?) }
  /** The cache operations of a call that failed, once their failure is known. */
  function Faults(p: Phase): int {
    match p
    case Loading(fault) => One(fault)
    case Storing(_, _, fault) => One(fault)
    case LoadFailed(fault) => One(fault)
    case Returned(_, _, FromTable(read, write)) => One(read) + One(write)
    case _ => 0
  }

  function Counted(p: Phase): int { One(!p.Asking? && !p.Found? && !p.NotFound?) }

  predicate Accounts(s: System) {
    && s.hits == Sum(s.calls, Hit)
    && s.loads == Sum(s.calls, Loaded)
    && s.misses == Sum(s.calls, Loaded) + Sum(s.calls, AwaitingLoad)
    && s.hits + s.misses == Sum(s.calls, Counted)
    && s.errors == Sum(s.calls, Faults)
  }

  lemma Moved(calls: seq<Phase>, i: nat, p: Phase)
    requires i < |calls|
    ensures Sum(calls[i := p], Hit) == Sum(calls, Hit) - Hit(calls[i]) + Hit(p)
    ensures Sum(calls[i := p], Loaded) == Sum(calls, Loaded) - Loaded(calls[i]) + Loaded(p)
    ensures Sum(calls[i := p], AwaitingLoad) == Sum(calls, AwaitingLoad) - AwaitingLoad(calls[i]) + AwaitingLoad(p)
    ensures Sum(calls[i := p], Counted) == Sum(calls, Counted) - Counted(calls[i]) + Counted(p)
    ensures Sum(calls[i := p], Faults) == Sum(calls, Faults) - Faults(calls[i]) + Faults(p)
  {
    SumUpdate(calls, i, p, Hit);
    SumUpdate(calls, i, p, Loaded);
    SumUpdate(calls, i, p, AwaitingLoad);
    SumUpdate(calls, i, p, Counted);
    SumUpdate(calls, i, p, Faults);
  }

  lemma Joined(calls: seq<Phase>)
    ensures Sum(calls + [Asking], Hit) == Sum(calls, Hit)
    ensures Sum(calls + [Asking], Loaded) == Sum(calls, Loaded)
    ensures Sum(calls + [Asking], AwaitingLoad) == Sum(calls, AwaitingLoad)
    ensures Sum(calls + [Asking], Counted) == Sum(calls, Counted)
    ensures Sum(calls + [Asking], Faults) == Sum(calls, Faults)
  {
    SumSnoc(calls, Asking, Hit);
    SumSnoc(calls, Asking, Loaded);
    SumSnoc(calls, Asking, AwaitingLoad);
    SumSnoc(calls, Asking, Counted);
    SumSnoc(calls, Asking, Faults);
  }

  lemma AccountsStep(s: System, a: Action)
    requires s.table != [] && Accounts(s)
    ensures Accounts(Step(s, a))
  {
    hide Sum;
    var t := Step(s, a);
    if a.Call? {
      Joined(s.calls);
    } else if (a.Get? || a.Count? || a.Load? || a.Set?) && a.i < |s.calls| {
      assert t.calls == s.calls[a.i := t.calls[a.i]];
      Moved(s.calls, a.i, t.calls[a.i]);
    }
  }

  /** In every run: hits plus misses is the number of calls whose lookup has been
      counted, a call is counted as a hit exactly if it returned from the cache,
      misses exceed loads by the calls that are about to load, and cache_errors is
      the number of failed Gets, decodings, encodings and Sets. */
  lemma {:induction false} CacheAccounts(enabled: bool, products: Products, schedule: seq<Action>)
    ensures Accounts(Run(Start(enabled, products), schedule))
  {
    if schedule != [] {
      CacheAccounts(enabled, products, schedule[..|schedule| - 1]);
      AccountsStep(Run(Start(enabled, products), schedule[..|schedule| - 1]), schedule[|schedule| - 1]);
    }
  }

  predicate Quiet(s: System) {
    forall i :: 0 <= i < |s.calls| ==> s.calls[i].Returned? || s.calls[i].LoadFailed?
  }

  lemma {:induction false} CountAll(calls: seq<Phase>)
    requires forall i :: 0 <= i < |calls| ==> Counted(calls[i]) == 1
    ensures Sum(calls, Counted) == |calls|
  {
    if calls != [] {
      CountAll(calls[..|calls| - 1]);
    }
  }

  /** When no call is under way, hits and misses together are the calls there were,
      and every miss is a load. */
  lemma CacheAtRest(enabled: bool, products: Products, schedule: seq<Action>)
    requires Quiet(Run(Start(enabled, products), schedule))
    ensures var s := Run(Start(enabled, products), schedule);
            s.hits + s.misses == |s.calls| && s.loads == s.misses
  {
    var s := Run(Start(enabled, products), schedule);
    CacheAccounts(enabled, products, schedule);
    CountAll(s.calls);
    SumZero(s.calls, AwaitingLoad);
  }

  /** The load of call i ran and failed at step k. */
  ghost predicate LoadFailsAt(s: System, schedule: seq<Action>, i: nat, k: nat)
    requires s.table != [] && k < |schedule|
  {
    var before := Run(s, schedule[..k]);
    schedule[k] == Load(i, false) && i < |before.calls| && before.calls[i].Loading?
  }

  /** In every run a call returns an error exactly if its own load ran and failed: no
      failure of Get, decoding, encoding or Set, of its own or of others, does it. */
  lemma {:induction false} ErrorsAreLoadErrors(s: System, schedule: seq<Action>, i: nat)
    requires s.table != [] && s.calls == [] && i < |Run(s, schedule).calls|
    ensures Run(s, schedule).calls[i].LoadFailed?
       <==> exists k :: 0 <= k < |schedule| && LoadFailsAt(s, schedule, i, k)
  {
    if schedule != [] {
      hide Step;
      var n := |schedule| - 1;
      var front := schedule[..n];
      var before := Run(s, front);
      StepFails(before, schedule[n], i);
      if i < |before.calls| {
        ErrorsAreLoadErrors(s, front, i);
      } else {
        CallsGrow(s, front, i);
      }
      forall k | 0 <= k < n
        ensures LoadFailsAt(s, schedule, i, k) <==> LoadFailsAt(s, front, i, k)
      {
        assert front[..k] == schedule[..k];
      }
      assert LoadFailsAt(s, schedule, i, n)
        <==> (schedule[n] == Load(i, false) && i < |before.calls| && before.calls[i].Loading?);
    }
  }

  lemma StepFails(s: System, a: Action, i: nat)
    requires s.table != [] && i < |Step(s, a).calls|
    ensures |s.calls| <= |Step(s, a).calls|
    ensures Step(s, a).calls[i].LoadFailed?
       <==> i < |s.calls| && (s.calls[i].LoadFailed? || (a == Load(i, false) && s.calls[i].Loading?))
  {
  }

  lemma {:induction false} CallsGrow(s: System, schedule: seq<Action>, i: nat)
    requires s.table != [] && i >= |Run(s, schedule).calls|
    ensures forall k :: 0 <= k < |schedule| ==> !LoadFailsAt(s, schedule, i, k)
  {
    if schedule != [] {
      var n := |schedule| - 1;
      var front := schedule[..n];
      CallsGrow(s, front, i);
      forall k | 0 <= k < |schedule|
        ensures !LoadFailsAt(s, schedule, i, k)
      {
        if k < n {
          assert front[..k] == schedule[..k] && !LoadFailsAt(s, front, i, k);
        }
      }
    }
  }

  // ---------- what befalls the key ----------

  /** After a flush or an expiry a caller finds nothing, after a corruption it finds a
      fault, and otherwise what was stored; whatever else there is in the system. */
  lemma KeyAsFound(s: System, i: nat)
    requires s.table != [] && s.enabled && i < |s.calls| && s.calls[i].Asking?
    ensures var t := Step(Step(s, FlushAll), Get(i, false)); t.calls[i] == NotFound(false)
    ensures s.entry.Some? && s.clock < s.entry.value.setAt + 30_000 ==>
              Step(Step(s, Corrupt), Get(i, false)).calls[i] == NotFound(true)
    ensures s.entry.Some? && s.clock >= s.entry.value.setAt + 30_000 ==>
              Step(s, Get(i, false)).calls[i] == NotFound(false)
    ensures s.entry.Some? && s.clock < s.entry.value.setAt + 30_000 && s.entry.value.blob.Some? ==>
              Step(s, Get(i, false)).calls[i] == Found(s.entry.value.blob.value, s.entry.value.loadedAt, s.clock)
    ensures Step(s, Get(i, true)).calls[i] == NotFound(true)
  {
  }

  // ---------- the two views agree ----------

  function View(s: System): CacheState {
    CacheState(s.enabled, s.entry, s.hits, s.misses, s.errors)
  }

  /** The steps of one call that only time passes between; those its path does not
      need change nothing. */
  function Alone(s: System, e: Environment): System
    requires s.table != [] && e.now <= e.loadDone <= e.setTime
  {
    var n := |s.calls|;
    var asked := Step(s, Call);
    var looked := Step(asked, Get(n, e.getFails));
    var counted := Step(looked, Count(n));
    var loaded := Step(Step(counted, Tick(e.loadDone - e.now)), Load(n, e.table.Ok?));
    Step(Step(loaded, Tick(e.setTime - e.loadDone)), Set(n, e.encodes, e.fate))
  }

  /** The lookup and its counting. */
  lemma AloneCounts(s: System, e: Environment)
    requires s.table != [] && e.now == s.clock
    ensures var c, n := View(s), |s.calls|;
            var t := Step(Step(Step(s, Call), Get(n, e.getFails)), Count(n));
            && t.calls == s.calls + [
                 if Cached(c, e).Some? then Returned(Cached(c, e).value, s.entry.value.loadedAt, FromCache(s.clock))
                 else Loading(ReadFault(c, e))]
            && t == s.(calls := t.calls, asked := t.asked,
                       hits := s.hits + (if Cached(c, e).Some? then 1 else 0),
                       misses := s.misses + (if Cached(c, e).Some? then 0 else 1),
                       errors := s.errors + (if ReadFault(c, e) then 1 else 0))
  {
    var n := |s.calls|;
    var asked := Step(s, Call);
    assert asked.calls[n] == Asking;
    var looked := DoGet(asked, n, e.getFails);
    assert Step(asked, Get(n, e.getFails)) == looked;
    assert looked.calls == s.calls + [looked.calls[n]];
  }

  /** A call between whose steps only time passes does to the cache, the counters and
      its caller exactly what Cache.Lookup promises. */
  lemma AloneIsLookup(s: System, e: Environment)
    requires s.table != [] && s.clock == e.now <= e.loadDone <= e.setTime
    requires e.table == Ok(Current(s)) || e.table == Failed
    ensures var c, t, r := View(s), Alone(s, e), Alone(s, e).calls[|s.calls|];
            && (if Cached(c, e).Some? then r.Returned? && r.products == Cached(c, e).value
                else if e.table.Ok? then r.Returned? && r.products == e.table.value else r.LoadFailed?)
            && View(t) == CacheState(c.enabled,
                 if Writes(c, e) then Some(Entry(Some(e.table.value), e.loadDone, e.setTime)) else c.entry,
                 c.hits + (if Cached(c, e).Some? then 1 else 0),
                 c.misses + (if Cached(c, e).Some? then 0 else 1),
                 c.errors + (if ReadFault(c, e) then 1 else 0) + (if WriteFault(c, e) then 1 else 0))
  {
    hide DoGet, DoCount;
    AloneCounts(s, e);
  }
}
