/**
 * Session counters (src/server/mcp-diagnostics.ts): gauges kept incrementally, which must agree with the
 * sessions they summarise. Sessions are numbered in the order in which they are created.
 */
module SessionCounters {

  datatype Gauge =
    | OpenResponses | SseResponses | Operations | Claims | RenewalTimers | LifetimeTimers | DrainTimers

  datatype Gauges = Gauges(
    openResponses: int, sseResponses: int, operations: int, claims: int,
    renewalTimers: int, lifetimeTimers: int, drainTimers: int)

  const ZERO := Gauges(0, 0, 0, 0, 0, 0, 0)

  function Value(g: Gauges, gauge: Gauge): int {
    match gauge
    case OpenResponses => g.openResponses
    case SseResponses => g.sseResponses
    case Operations => g.operations
    case Claims => g.claims
    case RenewalTimers => g.renewalTimers
    case LifetimeTimers => g.lifetimeTimers
    case DrainTimers => g.drainTimers
  }

  function Add(g: Gauges, gauge: Gauge, delta: int): Gauges {
    match gauge
    case OpenResponses => g.(openResponses := g.openResponses + delta)
    case SseResponses => g.(sseResponses := g.sseResponses + delta)
    case Operations => g.(operations := g.operations + delta)
    case Claims => g.(claims := g.claims + delta)
    case RenewalTimers => g.(renewalTimers := g.renewalTimers + delta)
    case LifetimeTimers => g.(lifetimeTimers := g.lifetimeTimers + delta)
    case DrainTimers => g.(drainTimers := g.drainTimers + delta)
  }

  datatype Reason =
    | ClientDelete | AbsoluteLifetime | AuthenticationPolicy | ControllerShutdown | InitializationFailed
    | TransportClose | IdleExpired | AbandonedTransport | AdmissionRefused

  datatype Closing = Open | Closed(reason: Reason)

  datatype Entry = Entry(initialized: bool, closing: Closing, gauges: Gauges)

  predicate Busy(e: Entry) { e.gauges.operations != 0 || e.gauges.openResponses != 0 }

  const RECENT_LIMIT: nat := 64

  /**
   * `entries` are all sessions ever created, `retained` the numbers of those still kept. `refusals` and
   * `history` say what happened so far; the other fields are what the original keeps.
   */
  datatype State = State(
    entries: seq<Entry>, retained: set<nat>, totals: Gauges, reasons: multiset<Reason>, recent: seq<Reason>,
    logical: int, initializing: int, draining: int, refusals: nat, history: seq<Reason>)

  const INITIAL := State([], {}, ZERO, multiset{}, [], 0, 0, 0, 0, [])

  // ---- steps ----

  function Create(s: State): State {
    s.(entries := s.entries + [Entry(false, Open, ZERO)], retained := s.retained + {|s.entries|},
       initializing := s.initializing + 1)
  }

  function Initialize(s: State, i: nat): State
    requires i < |s.entries|
  {
    if s.entries[i].initialized then s
    else s.(entries := s.entries[i := s.entries[i].(initialized := true)],
            logical := s.logical + 1, initializing := s.initializing - 1)
  }

  function Change(s: State, i: nat, gauge: Gauge, delta: int): State
    requires i < |s.entries|
  {
    var e := s.entries[i].(gauges := Add(s.entries[i].gauges, gauge, delta));
    var t := s.(entries := s.entries[i := e], totals := Add(s.totals, gauge, delta));
    if e.closing.Closed? && !Busy(e) && i in s.retained
    then t.(retained := s.retained - {i}, draining := s.draining - 1) else t
  }

  function Push(recent: seq<Reason>, reason: Reason): seq<Reason> {
    if |recent| + 1 > RECENT_LIMIT then (recent + [reason])[1..] else recent + [reason]
  }

  function Record(s: State, reason: Reason): State {
    s.(reasons := s.reasons + multiset{reason}, recent := Push(s.recent, reason), history := s.history + [reason])
  }

  function Refuse(s: State): State { Record(s, AdmissionRefused).(refusals := s.refusals + 1) }

  /** The session leaves the gauge it was counted in; a busy one is kept and drains. */
  function CloseEntry(s: State, i: nat, reason: Reason): State
    requires i < |s.entries|
  {
    var e := s.entries[i];
    s.(entries := s.entries[i := e.(closing := Closed(reason))],
       logical := if e.initialized then s.logical - 1 else s.logical,
       initializing := if e.initialized then s.initializing else s.initializing - 1,
       draining := if Busy(e) then s.draining + 1 else s.draining,
       retained := if Busy(e) then s.retained else s.retained - {i})
  }

  function Close(s: State, i: nat, reason: Reason): State
    requires i < |s.entries|
  {
    if s.entries[i].closing.Closed? then s else Record(CloseEntry(s, i, reason), reason)
  }

  /** A snapshot forgets the oldest recent closures. */
  function Trim(s: State, n: nat): State {
    if n <= |s.recent| then s.(recent := s.recent[n..]) else s
  }

  datatype Event =
    | Creates
    | Initializes(i: nat)
    | Changes(i: nat, gauge: Gauge, delta: int)
    | Refuses
    | Closes(i: nat, reason: Reason)
    | Trims(n: nat)

  ghost predicate Enabled(s: State, e: Event) {
    (e.Initializes? || e.Changes? || e.Closes?) ==> e.i < |s.entries|
  }

  function Next(s: State, e: Event): State {
    match e
    case Creates => Create(s)
    case Initializes(i) => if i < |s.entries| then Initialize(s, i) else s
    case Changes(i, gauge, delta) => if i < |s.entries| then Change(s, i, gauge, delta) else s
    case Refuses => Refuse(s)
    case Closes(i, reason) => if i < |s.entries| then Close(s, i, reason) else s
    case Trims(n) => Trim(s, n)
  }

  // ---- what the counters mean ----

  datatype Part = Initializing | Logical | Draining

  function PartOf(e: Entry): Part {
    if e.closing.Closed? then Draining else if e.initialized then Logical else Initializing
  }

  predicate Belongs(s: State, i: nat, part: Part) {
    i in s.retained && i < |s.entries| && PartOf(s.entries[i]) == part
  }

  function Members(s: State, part: Part): set<nat> {
    set i | i in s.retained && Belongs(s, i, part)
  }

  function Counter(s: State, part: Part): int {
    match part
    case Initializing => s.initializing
    case Logical => s.logical
    case Draining => s.draining
  }

  /** What `late` initializations of closed sessions add to a gauge: each moves a session that is in neither part. */
  function Drift(part: Part, late: nat): int {
    match part
    case Initializing => 0 - late
    case Logical => late
    case Draining => 0
  }

  /** The gauges are the sizes of the parts, shifted by the initializations that came too late. */
  ghost predicate Counted(s: State, late: nat) {
    forall part :: Counter(s, part) == |Members(s, part)| + Drift(part, late)
  }

  /** Open sessions are kept, and closed ones only while they are busy. */
  ghost predicate Kept(s: State) {
    && (forall i :: i in s.retained ==> i < |s.entries|)
    && (forall i :: 0 <= i < |s.entries| && s.entries[i].closing.Open? ==> i in s.retained)
    && (forall i :: i in s.retained && s.entries[i].closing.Closed? ==> Busy(s.entries[i]))
  }

  function Sum(entries: seq<Entry>, gauge: Gauge): int {
    if entries == [] then 0 else Sum(entries[..|entries| - 1], gauge) + Value(entries[|entries| - 1].gauges, gauge)
  }

  function Once(present: bool): nat { if present then 1 else 0 }

  /** How many sessions were closed for a reason. */
  function ClosedFor(entries: seq<Entry>, reason: Reason): nat {
    if entries == [] then 0
    else ClosedFor(entries[..|entries| - 1], reason) + Once(entries[|entries| - 1].closing == Closed(reason))
  }

  /** What a close reason must have counted: closures, and refused admissions. */
  function Counts(s: State, reason: Reason): nat {
    ClosedFor(s.entries, reason) + if reason.AdmissionRefused? then s.refusals else 0
  }

  ghost predicate ReasonsCounted(s: State) {
    forall reason :: s.reasons[reason] == Counts(s, reason)
  }

  ghost predicate Summed(s: State) {
    forall gauge :: Value(s.totals, gauge) == Sum(s.entries, gauge)
  }

  ghost predicate Explained(s: State) {
    && ReasonsCounted(s)
    && |s.recent| <= RECENT_LIMIT && |s.recent| <= |s.history|
    && s.recent == s.history[|s.history| - |s.recent|..]
  }

  ghost predicate Inv(s: State, late: nat) { Counted(s, late) && Kept(s) && Summed(s) && Explained(s) }

  // ---- sums ----

  lemma {:induction false} SumUpdates(entries: seq<Entry>, i: nat, e: Entry, gauge: Gauge)
    requires i < |entries|
    ensures Sum(entries[i := e], gauge)
            == Sum(entries, gauge) - Value(entries[i].gauges, gauge) + Value(e.gauges, gauge)
    decreases |entries|
  {
    var n := |entries| - 1;
    if i < n {
      assert entries[i := e][..n] == entries[..n][i := e];
      SumUpdates(entries[..n], i, e, gauge);
    } else {
      assert entries[i := e][..n] == entries[..n];
    }
  }

  lemma {:induction false} ClosedForUpdates(entries: seq<Entry>, i: nat, e: Entry, reason: Reason)
    requires i < |entries|
    ensures ClosedFor(entries[i := e], reason)
            == ClosedFor(entries, reason) - Once(entries[i].closing == Closed(reason)) + Once(e.closing == Closed(reason))
    decreases |entries|
  {
    var n := |entries| - 1;
    if i < n {
      assert entries[i := e][..n] == entries[..n][i := e];
      ClosedForUpdates(entries[..n], i, e, reason);
    } else {
      assert entries[i := e][..n] == entries[..n];
    }
  }

  /** Replacing a session without closing it leaves the reasons alone. */
  lemma ReasonsStay(s: State, t: State, i: nat)
    requires ReasonsCounted(s) && i < |s.entries| && i < |t.entries| && t.entries == s.entries[i := t.entries[i]]
    requires t.entries[i].closing == s.entries[i].closing && t.reasons == s.reasons && t.refusals == s.refusals
    ensures ReasonsCounted(t)
  {
    forall reason ensures t.reasons[reason] == Counts(t, reason) {
      ClosedForUpdates(s.entries, i, t.entries[i], reason);
    }
  }

  // ---- membership ----

  /** Only session `i` moved between the parts, or in or out of those retained. */
  ghost predicate OnlyMoves(s: State, t: State, i: nat) {
    forall j: nat, part :: j != i ==> (Belongs(s, j, part) <==> Belongs(t, j, part))
  }

  lemma MovesOne(a: set<nat>, b: set<nat>, i: nat)
    requires a - {i} == b - {i}
    ensures |b| == |a| - Once(i in a) + Once(i in b)
  {
    if i in a { assert a == (a - {i}) + {i}; } else { assert a == a - {i}; }
    if i in b { assert b == (b - {i}) + {i}; } else { assert b == b - {i}; }
  }

  lemma Moves(s: State, t: State, i: nat, part: Part)
    requires OnlyMoves(s, t, i)
    ensures |Members(t, part)| == |Members(s, part)| - Once(Belongs(s, i, part)) + Once(Belongs(t, i, part))
  {
    var a, b := Members(s, part), Members(t, part);
    forall j | j != i ensures j in a <==> j in b {
      assert Belongs(s, j, part) <==> Belongs(t, j, part);
    }
    MovesOne(a, b, i);
  }

  /** The counters follow one session that moves. */
  ghost predicate Follows(s: State, t: State, i: nat) {
    forall part :: Counter(t, part) == Counter(s, part) - Once(Belongs(s, i, part)) + Once(Belongs(t, i, part))
  }

  lemma CountersFollow(s: State, t: State, i: nat, late: nat)
    requires Counted(s, late) && OnlyMoves(s, t, i)
    ensures Counted(t, late) <==> Follows(s, t, i)
  {
    forall part ensures |Members(t, part)| == |Members(s, part)| - Once(Belongs(s, i, part)) + Once(Belongs(t, i, part)) {
      Moves(s, t, i, part);
    }
  }

  // ---- every step ----

  lemma CreateKeeps(s: State, late: nat)
    requires Inv(s, late)
    ensures Inv(Create(s), late)
  {
    var t, i := Create(s), |s.entries|;
    CountersFollow(s, t, i, late);
    assert t.entries[..i] == s.entries;
    assert ReasonsCounted(t);
  }

  lemma SumsFollow(s: State, t: State, i: nat)
    requires Summed(s) && i < |s.entries| && i < |t.entries| && t.entries == s.entries[i := t.entries[i]]
    requires forall g ::
      Value(t.totals, g) - Value(s.totals, g) == Value(t.entries[i].gauges, g) - Value(s.entries[i].gauges, g)
    ensures Summed(t)
  {
    forall g ensures Value(t.totals, g) == Sum(t.entries, g) {
      SumUpdates(s.entries, i, t.entries[i], g);
    }
  }

  lemma ChangeKeeps(s: State, i: nat, gauge: Gauge, delta: int, late: nat)
    requires Inv(s, late) && i < |s.entries|
    ensures Inv(Change(s, i, gauge, delta), late)
  {
    var t := Change(s, i, gauge, delta);
    AddShifts(s.totals, s.entries[i].gauges, gauge, delta);
    SumsFollow(s, t, i);
    ReasonsStay(s, t, i);
    ChangeCounts(s, t, i, gauge, delta, late);
  }

  lemma AddShifts(a: Gauges, b: Gauges, gauge: Gauge, delta: int)
    ensures forall g :: Value(Add(a, gauge, delta), g) - Value(a, g) == Value(Add(b, gauge, delta), g) - Value(b, g)
  {
  }

  lemma ChangeCounts(s: State, t: State, i: nat, gauge: Gauge, delta: int, late: nat)
    requires Counted(s, late) && Kept(s) && i < |s.entries| && t == Change(s, i, gauge, delta)
    ensures Counted(t, late) && Kept(t)
  {
    CountersFollow(s, t, i, late);
  }

  lemma CloseEntryFollows(s: State, t: State, i: nat, reason: Reason)
    requires Kept(s) && i < |s.entries| && s.entries[i].closing.Open? && t == CloseEntry(s, i, reason)
    ensures OnlyMoves(s, t, i) && Follows(s, t, i)
  {
  }

  lemma CloseEntryKeeps(s: State, t: State, i: nat, reason: Reason, late: nat)
    requires Counted(s, late) && Kept(s) && Summed(s) && i < |s.entries|
    requires s.entries[i].closing.Open? && t == CloseEntry(s, i, reason)
    ensures Counted(t, late) && Kept(t) && Summed(t)
  {
    CloseEntryFollows(s, t, i, reason);
    CountersFollow(s, t, i, late);
    SumsFollow(s, t, i);
  }

  lemma RecordCounts(s: State, reason: Reason, late: nat)
    requires Counted(s, late) && Kept(s) && Summed(s)
    ensures var t := Record(s, reason); Counted(t, late) && Kept(t) && Summed(t)
  {
    var t := Record(s, reason);
    forall part ensures Counter(t, part) == |Members(t, part)| + Drift(part, late) {
      assert Members(t, part) == Members(s, part);
      assert Counter(s, part) == |Members(s, part)| + Drift(part, late);
    }
  }

  lemma CloseExplains(s: State, i: nat, reason: Reason)
    requires Explained(s) && i < |s.entries| && s.entries[i].closing.Open?
    ensures Explained(Close(s, i, reason))
  {
    var t := Close(s, i, reason);
    RecordExplains(s, reason);
    forall r ensures t.reasons[r] == Counts(t, r) {
      ClosedForUpdates(s.entries, i, t.entries[i], r);
    }
  }

  lemma CloseKeeps(s: State, i: nat, reason: Reason, late: nat)
    requires Inv(s, late) && i < |s.entries|
    ensures Inv(Close(s, i, reason), late)
  {
    if s.entries[i].closing.Open? {
      var t := CloseEntry(s, i, reason);
      CloseEntryKeeps(s, t, i, reason, late);
      RecordCounts(t, reason, late);
      CloseExplains(s, i, reason);
    }
  }

  /** The recent list stays a bounded end of the history. */
  lemma RecordExplains(s: State, reason: Reason)
    requires Explained(s)
    ensures var t := Record(s, reason);
            && |t.recent| <= RECENT_LIMIT && |t.recent| <= |t.history|
            && t.recent == t.history[|t.history| - |t.recent|..]
  {
  }

  /** `initialize` keeps the counters exactly when the session is open or was initialized before. */
  lemma InitializeKeepsExactly(s: State, i: nat, late: nat)
    requires Inv(s, late) && i < |s.entries|
    ensures Inv(Initialize(s, i), late) <==> (s.entries[i].closing.Open? || s.entries[i].initialized)
  {
    var t := Initialize(s, i);
    CountersFollow(s, t, i, late);
    SumsFollow(s, t, i);
    ReasonsStay(s, t, i);
    if s.entries[i].closing.Closed? && !s.entries[i].initialized {
      assert Counter(t, Logical) == Counter(s, Logical) + 1;
      assert !Follows(s, t, i);
    }
  }

  /** Otherwise it shifts two gauges by one and leaves everything else in agreement. */
  lemma InitializeShifts(s: State, i: nat, late: nat)
    requires Inv(s, late) && i < |s.entries| && s.entries[i].closing.Closed? && !s.entries[i].initialized
    ensures Inv(Initialize(s, i), late + 1)
  {
    var t := Initialize(s, i);
    SumsFollow(s, t, i);
    ReasonsStay(s, t, i);
    MembersStay(s, t, i);
    forall part ensures Counter(t, part) == |Members(t, part)| + Drift(part, late + 1) {
      assert Members(t, part) == Members(s, part);
      assert Counter(s, part) == |Members(s, part)| + Drift(part, late);
    }
  }

  /** Initializing a closed session moves it between no parts. */
  lemma MembersStay(s: State, t: State, i: nat)
    requires i < |s.entries| && s.entries[i].closing.Closed? && t == Initialize(s, i)
    ensures forall part :: Members(t, part) == Members(s, part)
  {
    forall part ensures Members(t, part) == Members(s, part) {
      forall j: nat ensures Belongs(t, j, part) <==> Belongs(s, j, part) {}
    }
  }

  lemma RefuseKeeps(s: State, late: nat)
    requires Inv(s, late)
    ensures Inv(Refuse(s), late)
  {
    var t := Refuse(s);
    RecordExplains(s, AdmissionRefused);
    assert Counted(t, late) by {
      forall part ensures Members(t, part) == Members(s, part) {}
    }
    assert Summed(t);
  }

  lemma TrimKeeps(s: State, n: nat, late: nat)
    requires Inv(s, late)
    ensures Inv(Trim(s, n), late)
  {
    var t := Trim(s, n);
    assert Counted(t, late) by {
      forall part ensures Members(t, part) == Members(s, part) {}
    }
    assert Summed(t);
  }

  /** Late: `initialize` is called on a session that was closed before it was initialized. */
  predicate Late(s: State, e: Event) {
    e.Initializes? && e.i < |s.entries| && s.entries[e.i].closing.Closed? && !s.entries[e.i].initialized
  }

  lemma StepKeepsExactly(s: State, e: Event, late: nat)
    requires Inv(s, late) && Enabled(s, e)
    ensures Inv(Next(s, e), late) <==> !Late(s, e)
  {
    match e
    case Creates => CreateKeeps(s, late);
    case Initializes(i) => InitializeKeepsExactly(s, i, late);
    case Changes(i, gauge, delta) => ChangeKeeps(s, i, gauge, delta, late);
    case Refuses => RefuseKeeps(s, late);
    case Closes(i, reason) => CloseKeeps(s, i, reason, late);
    case Trims(n) => TrimKeeps(s, n, late);
  }

  // ---- every history ----

  function After(events: seq<Event>): State {
    if events == [] then INITIAL else Next(After(events[..|events| - 1]), events[|events| - 1])
  }

  /** Every event of the history is possible when it happens. */
  ghost predicate Possible(events: seq<Event>) {
    events == []
    || (Possible(events[..|events| - 1]) && Enabled(After(events[..|events| - 1]), events[|events| - 1]))
  }

  /** How many initializations of the history were late. */
  function LateSteps(events: seq<Event>): nat {
    if events == [] then 0
    else
      LateSteps(events[..|events| - 1]) + Once(Late(After(events[..|events| - 1]), events[|events| - 1]))
  }

  lemma {:induction false} HistoriesKeep(events: seq<Event>)
    requires Possible(events)
    ensures Inv(After(events), LateSteps(events))
    decreases |events|
  {
    if events == [] {
      forall part ensures Members(INITIAL, part) == {} {}
    } else {
      var rest, e := events[..|events| - 1], events[|events| - 1];
      HistoriesKeep(rest);
      if Late(After(rest), e) {
        InitializeShifts(After(rest), e.i, LateSteps(rest));
      } else {
        StepKeepsExactly(After(rest), e, LateSteps(rest));
      }
    }
  }

  lemma PartsAddUp(s: State)
    requires Kept(s)
    ensures |Members(s, Initializing)| + |Members(s, Logical)| + |Members(s, Draining)| == |s.retained|
  {
    var a, b, c := Members(s, Initializing), Members(s, Logical), Members(s, Draining);
    forall i ensures i in s.retained <==> i in a + b + c {
      if i in s.retained {
        assert Belongs(s, i, PartOf(s.entries[i]));
      }
    }
    assert s.retained == a + b + c;
    assert a !! b && (a + b) !! c;
  }

  /**
   * Over every history each gauge is the size of its part, but for the late initializations: `logical` has
   * one too many for each, `initializing` one too few. Together they always count what is retained.
   */
  lemma GaugesDriftByLateSteps(events: seq<Event>)
    requires Possible(events)
    ensures var s := After(events);
            && s.logical == |Members(s, Logical)| + LateSteps(events)
            && s.initializing == |Members(s, Initializing)| - LateSteps(events)
            && s.draining == |Members(s, Draining)|
            && s.logical + s.initializing + s.draining == |s.retained|
  {
    HistoriesKeep(events);
    CountersAre(After(events), LateSteps(events));
    PartsAddUp(After(events));
  }

  lemma CountersAre(s: State, late: nat)
    requires Counted(s, late)
    ensures s.logical == |Members(s, Logical)| + late && s.initializing == |Members(s, Initializing)| - late
    ensures s.draining == |Members(s, Draining)|
  {
    assert Counter(s, Logical) == |Members(s, Logical)| + Drift(Logical, late);
    assert Counter(s, Initializing) == |Members(s, Initializing)| + Drift(Initializing, late);
    assert Counter(s, Draining) == |Members(s, Draining)| + Drift(Draining, late);
  }

  /** So the gauges are right exactly after the histories in which no initialization was late. */
  lemma GaugesAgreeExactly(events: seq<Event>)
    requires Possible(events)
    ensures Counted(After(events), 0) <==> LateSteps(events) == 0
  {
    HistoriesKeep(events);
    CountersAre(After(events), LateSteps(events));
    if Counted(After(events), 0) {
      CountersAre(After(events), 0);
    }
  }

  /** A session created, closed and then initialized: nothing is retained, yet the gauges say otherwise. */
  lemma LateInitializationIsCounted(reason: Reason)
    ensures var events := [Creates, Closes(0, reason), Initializes(0)];
            && Possible(events) && LateSteps(events) == 1
            && After(events).retained == {} && After(events).logical == 1 && After(events).initializing == -1
  {
    var events := [Creates, Closes(0, reason), Initializes(0)];
    var two, one := [Creates, Closes(0, reason)], [Creates];
    assert events[..2] == two && two[..1] == one && one[..0] == [];
    assert After(one) == Create(INITIAL) && LateSteps(one) == 0;
    assert After(two) == Close(Create(INITIAL), 0, reason) && LateSteps(two) == 0;
  }

  /** Over every history every total is the sum over all sessions, and every reason counts its closures and refusals. */
  lemma TotalsAndReasonsAddUp(events: seq<Event>)
    requires Possible(events)
    ensures var s := After(events);
            && (forall gauge :: Value(s.totals, gauge) == Sum(s.entries, gauge))
            && (forall reason :: s.reasons[reason] == ClosedFor(s.entries, reason)
                                                      + if reason.AdmissionRefused? then s.refusals else 0)
            && |s.recent| <= 64 && |s.recent| <= |s.history|
            && s.recent == s.history[|s.history| - |s.recent|..]
  {
    HistoriesKeep(events);
    var s := After(events);
    forall reason ensures s.reasons[reason] == Counts(s, reason) {}
  }

  // ---- what was applied ----

  /** The sum of the deltas that the history's changes name this gauge with. */
  function Applied(events: seq<Event>, gauge: Gauge): int {
    if events == [] then 0
    else
      var last := events[|events| - 1];
      Applied(events[..|events| - 1], gauge) + if last.Changes? && last.gauge == gauge then last.delta else 0
  }

  /** The same for the changes of one session. */
  function AppliedTo(events: seq<Event>, i: nat, gauge: Gauge): int {
    if events == [] then 0
    else
      var last := events[|events| - 1];
      AppliedTo(events[..|events| - 1], i, gauge)
      + if last.Changes? && last.i == i && last.gauge == gauge then last.delta else 0
  }

  function AllApplied(events: seq<Event>): Gauges {
    Gauges(Applied(events, OpenResponses), Applied(events, SseResponses), Applied(events, Operations),
           Applied(events, Claims), Applied(events, RenewalTimers), Applied(events, LifetimeTimers),
           Applied(events, DrainTimers))
  }

  function AllAppliedTo(events: seq<Event>, i: nat): Gauges {
    Gauges(AppliedTo(events, i, OpenResponses), AppliedTo(events, i, SseResponses), AppliedTo(events, i, Operations),
           AppliedTo(events, i, Claims), AppliedTo(events, i, RenewalTimers), AppliedTo(events, i, LifetimeTimers),
           AppliedTo(events, i, DrainTimers))
  }

  /** Over every history each total is the sum of the deltas applied to its own gauge. */
  lemma {:induction false} TotalsAreApplied(events: seq<Event>)
    requires Possible(events)
    ensures After(events).totals == AllApplied(events)
    decreases |events|
  {
    if events != [] {
      TotalsAreApplied(events[..|events| - 1]);
    }
  }

  /** And each session's gauges are the sums of the deltas applied to it; nothing is applied before it is created. */
  lemma {:induction false} SessionsAreApplied(events: seq<Event>, i: nat)
    requires Possible(events)
    ensures AllAppliedTo(events, i) == if i < |After(events).entries| then After(events).entries[i].gauges else ZERO
    decreases |events|
  {
    if events != [] {
      SessionsAreApplied(events[..|events| - 1], i);
    }
  }

  /**
   * Over every history: every open session is retained, and a closed one that is retained still has an
   * operation or an open response.
   */
  lemma RetainedMeans(events: seq<Event>, i: nat)
    requires Possible(events) && i < |After(events).entries|
    ensures var s, e := After(events), After(events).entries[i];
            && (e.closing.Open? ==> i in s.retained)
            && (i in s.retained ==> e.closing.Open? || e.gauges.operations != 0 || e.gauges.openResponses != 0)
  {
    HistoriesKeep(events);
  }
}
