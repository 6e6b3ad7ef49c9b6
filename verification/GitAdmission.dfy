/**
 * Admission of Git commands (src/server/git-worktrees.ts): three queues by priority, a limit on running
 * commands and a smaller one on remote commands.
 */
module GitAdmission {
  datatype Priority = Operational | Background | Remote

  datatype Outcome = Refused | Completed | Abandoned

  datatype Limits = Limits(running: nat, queued: nat, remote: nat)

  /**
   * Commands are numbered as they are submitted; `active` holds those running, `settled` those whose promise
   * is settled. `running` and `remoteRunning` are the counters the original keeps.
   */
  datatype State = State(
    operational: seq<nat>, background: seq<nat>, remote: seq<nat>,
    active: map<nat, Priority>, running: int, remoteRunning: int, closed: bool,
    submitted: nat, settled: map<nat, Outcome>)

  function Queue(s: State, p: Priority): seq<nat> {
    match p
    case Operational => s.operational
    case Background => s.background
    case Remote => s.remote
  }

  function WithQueue(s: State, p: Priority, queue: seq<nat>): State {
    match p
    case Operational => s.(operational := queue)
    case Background => s.(background := queue)
    case Remote => s.(remote := queue)
  }

  // ---- steps ----

  predicate Serves(l: Limits, s: State, p: Priority) {
    Queue(s, p) != [] && (p.Remote? ==> s.remoteRunning < l.remote)
  }

  predicate Idle(l: Limits, s: State) {
    !Serves(l, s, Operational) && !Serves(l, s, Remote) && !Serves(l, s, Background)
  }

  /** The class whose first command is taken next. */
  function Choice(l: Limits, s: State): Priority {
    if Serves(l, s, Operational) then Operational else if Serves(l, s, Remote) then Remote else Background
  }

  function Start(s: State, p: Priority): State
    requires Queue(s, p) != []
  {
    var queue := Queue(s, p);
    WithQueue(s, p, queue[1..]).(
      active := s.active[queue[0] := p],
      running := s.running + 1,
      remoteRunning := if p.Remote? then s.remoteRunning + 1 else s.remoteRunning)
  }

  function Waiting(s: State): nat { |s.operational| + |s.background| + |s.remote| }

  function Pump(l: Limits, s: State): State
    decreases Waiting(s)
  {
    if s.closed || s.running >= l.running || Idle(l, s) then s else Pump(l, Start(s, Choice(l, s)))
  }

  function Submit(l: Limits, s: State, p: Priority): State {
    var id, t := s.submitted, s.(submitted := s.submitted + 1);
    if s.closed || |Queue(s, p)| >= l.queued then t.(settled := s.settled[id := Refused])
    else Pump(l, WithQueue(t, p, Queue(s, p) + [id]))
  }

  function Release(s: State, id: nat): State
    requires id in s.active
  {
    s.(active := s.active - {id}, running := s.running - 1,
       remoteRunning := if s.active[id].Remote? then s.remoteRunning - 1 else s.remoteRunning,
       settled := s.settled[id := Completed])
  }

  function Complete(l: Limits, s: State, id: nat): State
    requires id in s.active
  {
    Pump(l, Release(s, id))
  }

  function Queued(s: State): seq<nat> { s.operational + s.remote + s.background }

  function Close(s: State): State {
    s.(closed := true, operational := [], background := [], remote := [],
       settled := s.settled + map id | id in Queued(s) :: Abandoned)
  }

  datatype Event = Submits(priority: Priority) | Completes(id: nat) | Closes

  predicate Enabled(s: State, e: Event) { e.Completes? ==> e.id in s.active }

  function Next(l: Limits, s: State, e: Event): State
    requires Enabled(s, e)
  {
    match e
    case Submits(p) => Submit(l, s, p)
    case Completes(id) => Complete(l, s, id)
    case Closes => Close(s)
  }

  const INITIAL := State([], [], [], map[], 0, 0, false, 0, map[])

  // ---- what every step keeps ----

  function RemoteActive(s: State): set<nat> { set id | id in s.active && s.active[id].Remote? }

  /** The counters count, and stay within their limits. */
  ghost predicate Counted(l: Limits, s: State) {
    && s.running == |s.active| <= l.running
    && s.remoteRunning == |RemoteActive(s)| <= l.remote
  }

  function Times(queue: seq<nat>, id: nat): nat { multiset(queue)[id] }

  function Once(present: bool): nat { if present then 1 else 0 }

  /** In how many places a command is. */
  function Spots(s: State, id: nat): nat {
    Times(s.operational, id) + Times(s.remote, id) + Times(s.background, id)
    + Once(id in s.active) + Once(id in s.settled)
  }

  /** Every submitted command is queued, running or settled, and is so once. */
  ghost predicate Placed(s: State) {
    forall id: nat :: Spots(s, id) == Once(id < s.submitted)
  }

  ghost predicate Short(l: Limits, s: State) {
    |s.operational| <= l.queued && |s.background| <= l.queued && |s.remote| <= l.queued
  }

  /** No command waits that could run. */
  ghost predicate Busy(l: Limits, s: State) {
    if s.closed then Queued(s) == [] else s.running >= l.running || Idle(l, s)
  }

  ghost predicate Inv(l: Limits, s: State) { Counted(l, s) && Placed(s) && Short(l, s) && Busy(l, s) }

  lemma RemoteAtMostRunning(s: State)
    ensures |RemoteActive(s)| <= |s.active|
  {
    CardinalitySubset(RemoteActive(s), s.active.Keys);
  }

  lemma {:induction false} CardinalitySubset(a: set<nat>, b: set<nat>)
    requires a <= b
    ensures |a| <= |b|
    decreases |a|
  {
    if a != {} {
      var x :| x in a;
      CardinalitySubset(a - {x}, b - {x});
    }
  }

  lemma HeadTimes(queue: seq<nat>, id: nat)
    requires queue != []
    ensures Times(queue, id) == Once(id == queue[0]) + Times(queue[1..], id)
  {
    assert queue == [queue[0]] + queue[1..];
  }

  lemma LastTimes(queue: seq<nat>, last: nat, id: nat)
    ensures Times(queue + [last], id) == Times(queue, id) + Once(id == last)
  {
  }

  lemma StartPlaces(s: State, p: Priority)
    requires Placed(s) && Queue(s, p) != []
    ensures Queue(s, p)[0] !in s.active && Placed(Start(s, p))
  {
    var t, first := Start(s, p), Queue(s, p)[0];
    HeadTimes(Queue(s, p), first);
    assert Spots(s, first) <= 1;
    forall id: nat ensures Spots(t, id) == Spots(s, id) {
      HeadTimes(Queue(s, p), id);
    }
  }

  lemma StartCounts(l: Limits, s: State, p: Priority)
    requires Counted(l, s) && Serves(l, s, p) && s.running < l.running && Queue(s, p)[0] !in s.active
    ensures Counted(l, Start(s, p))
  {
    var t, id := Start(s, p), Queue(s, p)[0];
    assert t.active.Keys == s.active.Keys + {id};
    if p.Remote? {
      assert RemoteActive(t) == RemoteActive(s) + {id};
    } else {
      assert RemoteActive(t) == RemoteActive(s);
    }
  }

  lemma {:induction false} PumpKeeps(l: Limits, s: State)
    requires Counted(l, s) && Placed(s) && (s.closed ==> Queued(s) == [])
    ensures var t := Pump(l, s);
            Counted(l, t) && Placed(t) && Busy(l, t) && t.settled == s.settled && t.submitted == s.submitted
    decreases Waiting(s)
  {
    if !s.closed && s.running < l.running && !Idle(l, s) {
      var p := Choice(l, s);
      StartPlaces(s, p);
      StartCounts(l, s, p);
      PumpKeeps(l, Start(s, p));
    }
  }

  ghost predicate Suffix(q: seq<nat>, r: seq<nat>) { |r| <= |q| && r == q[|q| - |r|..] }

  lemma SuffixOfTail(q: seq<nat>, r: seq<nat>)
    requires q != [] && Suffix(q[1..], r)
    ensures Suffix(q, r)
  {
  }

  lemma {:induction false} PumpShortens(l: Limits, s: State, p: Priority)
    ensures Suffix(Queue(s, p), Queue(Pump(l, s), p))
    decreases Waiting(s)
  {
    if !s.closed && s.running < l.running && !Idle(l, s) {
      var c := Choice(l, s);
      PumpShortens(l, Start(s, c), p);
      if p == c {
        SuffixOfTail(Queue(s, p), Queue(Pump(l, s), p));
      }
    }
  }

  lemma ReleaseCounts(l: Limits, s: State, id: nat)
    requires Counted(l, s) && id in s.active
    ensures Counted(l, Release(s, id))
  {
    var t := Release(s, id);
    assert t.active.Keys == s.active.Keys - {id};
    if s.active[id].Remote? {
      assert RemoteActive(t) == RemoteActive(s) - {id};
    } else {
      assert RemoteActive(t) == RemoteActive(s);
    }
  }

  lemma ReleasePlaces(s: State, id: nat)
    requires Placed(s) && id in s.active
    ensures Placed(Release(s, id))
  {
    var t := Release(s, id);
    assert Spots(s, id) == 1;
    forall i: nat ensures Spots(t, i) == Spots(s, i) {}
  }

  lemma SubmitPlaces(s: State, p: Priority)
    requires Placed(s)
    ensures Placed(WithQueue(s.(submitted := s.submitted + 1), p, Queue(s, p) + [s.submitted]))
  {
    var t := WithQueue(s.(submitted := s.submitted + 1), p, Queue(s, p) + [s.submitted]);
    forall i: nat ensures Spots(t, i) == Spots(s, i) + Once(i == s.submitted) {
      LastTimes(Queue(s, p), s.submitted, i);
    }
  }

  lemma RefusePlaces(s: State)
    requires Placed(s)
    ensures Placed(s.(submitted := s.submitted + 1, settled := s.settled[s.submitted := Refused]))
  {
    var t := s.(submitted := s.submitted + 1, settled := s.settled[s.submitted := Refused]);
    assert Spots(s, s.submitted) == 0;
    forall i: nat ensures Spots(t, i) == Spots(s, i) + Once(i == s.submitted) {}
  }

  lemma ClosePlaces(s: State)
    requires Placed(s)
    ensures Placed(Close(s)) && Queued(Close(s)) == []
  {
    var t := Close(s);
    forall i: nat ensures Spots(t, i) == Spots(s, i) {
      assert Spots(s, i) <= 1;
      assert i in Queued(s) <==> i in s.operational || i in s.remote || i in s.background;
      assert i in t.settled <==> i in s.settled || i in Queued(s);
    }
  }

  lemma PumpKeepsShort(l: Limits, s: State)
    requires Short(l, s)
    ensures Short(l, Pump(l, s))
  {
    PumpShortens(l, s, Operational);
    PumpShortens(l, s, Background);
    PumpShortens(l, s, Remote);
  }

  lemma QueueingKeeps(l: Limits, s: State, t: State, p: Priority)
    requires Counted(l, s) && Short(l, s) && |Queue(s, p)| < l.queued && !s.closed
    requires t == WithQueue(s.(submitted := s.submitted + 1), p, Queue(s, p) + [s.submitted])
    ensures Counted(l, t) && Short(l, t) && !t.closed
  {
    assert RemoteActive(t) == RemoteActive(s);
  }

  lemma SubmitKeeps(l: Limits, s: State, p: Priority)
    requires Inv(l, s)
    ensures Inv(l, Submit(l, s, p))
  {
    if s.closed || |Queue(s, p)| >= l.queued {
      RefusePlaces(s);
      assert RemoteActive(Submit(l, s, p)) == RemoteActive(s);
    } else {
      var t := WithQueue(s.(submitted := s.submitted + 1), p, Queue(s, p) + [s.submitted]);
      SubmitPlaces(s, p);
      QueueingKeeps(l, s, t, p);
      PumpKeeps(l, t);
      PumpKeepsShort(l, t);
    }
  }

  lemma CompleteKeeps(l: Limits, s: State, id: nat)
    requires Inv(l, s) && id in s.active
    ensures Inv(l, Complete(l, s, id))
  {
    ReleaseCounts(l, s, id);
    ReleasePlaces(s, id);
    PumpKeeps(l, Release(s, id));
    PumpKeepsShort(l, Release(s, id));
  }

  /** Counters, places, queue bounds and work conservation hold after every step. */
  lemma StepKeeps(l: Limits, s: State, e: Event)
    requires Inv(l, s) && Enabled(s, e)
    ensures Inv(l, Next(l, s, e))
  {
    match e
    case Submits(p) => SubmitKeeps(l, s, p);
    case Completes(id) => CompleteKeeps(l, s, id);
    case Closes => ClosePlaces(s);
  }

  // ---- every history ----

  ghost predicate Runs(l: Limits, s: State, events: seq<Event>)
    decreases |events|
  {
    events == [] || (Enabled(s, events[0]) && Runs(l, Next(l, s, events[0]), events[1..]))
  }

  function After(l: Limits, s: State, events: seq<Event>): State
    requires Runs(l, s, events)
    decreases |events|
  {
    if events == [] then s else After(l, Next(l, s, events[0]), events[1..])
  }

  lemma {:induction false} HistoriesKeep(l: Limits, s: State, events: seq<Event>)
    requires Inv(l, s) && Runs(l, s, events)
    ensures Inv(l, After(l, s, events))
    decreases |events|
  {
    if events != [] {
      StepKeeps(l, s, events[0]);
      HistoriesKeep(l, Next(l, s, events[0]), events[1..]);
    }
  }

  lemma InitialHolds(l: Limits)
    ensures Inv(l, INITIAL)
  {
    assert RemoteActive(INITIAL) == {};
  }

  /** From the start the limits hold, remote commands are among those running, and every command has one place. */
  lemma LimitsHold(l: Limits, events: seq<Event>)
    requires Runs(l, INITIAL, events)
    ensures var s := After(l, INITIAL, events);
            && Inv(l, s)
            && s.running == |s.active| <= l.running
            && s.remoteRunning <= l.remote && s.remoteRunning <= s.running
  {
    InitialHolds(l);
    HistoriesKeep(l, INITIAL, events);
    RemoteAtMostRunning(After(l, INITIAL, events));
  }

  /** From the start, a command waits only while the limit is reached, or as a remote one while theirs is. */
  lemma NothingWaitsInVain(l: Limits, events: seq<Event>)
    requires Runs(l, INITIAL, events)
    ensures var s := After(l, INITIAL, events);
            && (s.closed || s.running < l.running ==> s.operational == [] && s.background == [])
            && (s.closed || (s.running < l.running && s.remoteRunning < l.remote) ==> s.remote == [])
  {
    InitialHolds(l);
    HistoriesKeep(l, INITIAL, events);
    var s := After(l, INITIAL, events);
    assert |s.operational| + |s.remote| + |s.background| == |Queued(s)|;
  }

  // ---- precedence ----

  /** A command of this class is waiting in its queue. */
  predicate WaitsAs(s: State, p: Priority, id: nat) {
    match p
    case Operational => id in s.operational
    case Background => id in s.background
    case Remote => id in s.remote
  }

  predicate RunsAs(s: State, p: Priority, id: nat) { id in s.active && s.active[id] == p }

  /** What is running goes on running under its class, and what waited still waits or runs under it. */
  lemma {:induction false} PumpKeepsClass(l: Limits, s: State, p: Priority, id: nat)
    requires Placed(s)
    ensures RunsAs(s, p, id) ==> RunsAs(Pump(l, s), p, id)
    ensures WaitsAs(s, p, id) ==> WaitsAs(Pump(l, s), p, id) || RunsAs(Pump(l, s), p, id)
    decreases Waiting(s)
  {
    if !s.closed && s.running < l.running && !Idle(l, s) {
      var c := Choice(l, s);
      StartPlaces(s, c);
      StartKeepsClass(s, c, p, id);
      PumpKeepsClass(l, Start(s, c), p, id);
    }
  }

  lemma StartKeepsClass(s: State, c: Priority, p: Priority, id: nat)
    requires Placed(s) && Queue(s, c) != []
    ensures RunsAs(s, p, id) ==> RunsAs(Start(s, c), p, id)
    ensures WaitsAs(s, p, id) ==> WaitsAs(Start(s, c), p, id) || RunsAs(Start(s, c), p, id)
  {
    StartPlaces(s, c);
    var queue := Queue(s, c);
    assert queue == [queue[0]] + queue[1..];
  }

  /** No operational command waits, and no remote one that could run. */
  predicate Yielded(l: Limits, s: State) {
    s.operational == [] && (s.remote == [] || s.remoteRunning >= l.remote)
  }

  lemma {:induction false} PumpStaysYielded(l: Limits, s: State)
    requires Yielded(l, s)
    ensures Yielded(l, Pump(l, s))
    decreases Waiting(s)
  {
    if !s.closed && s.running < l.running && !Idle(l, s) {
      PumpStaysYielded(l, Start(s, Choice(l, s)));
    }
  }

  lemma {:induction false} PumpYields(l: Limits, s: State, id: nat)
    requires Placed(s) && id !in s.active && RunsAs(Pump(l, s), Background, id)
    ensures Yielded(l, Pump(l, s))
    decreases Waiting(s)
  {
    if !s.closed && s.running < l.running && !Idle(l, s) {
      var c := Choice(l, s);
      var t := Start(s, c);
      StartPlaces(s, c);
      if id !in t.active {
        PumpYields(l, t, id);
      } else {
        PumpKeepsClass(l, t, c, id);
        PumpStaysYielded(l, t);
      }
    }
  }

  lemma {:induction false} NoneWaitsOperational(l: Limits, s: State)
    requires s.operational == []
    ensures Pump(l, s).operational == []
    decreases Waiting(s)
  {
    if !s.closed && s.running < l.running && !Idle(l, s) {
      NoneWaitsOperational(l, Start(s, Choice(l, s)));
    }
  }

  lemma {:induction false} PumpServesOperationalFirst(l: Limits, s: State, id: nat)
    requires Placed(s) && id !in s.active && id in Pump(l, s).active && !Pump(l, s).active[id].Operational?
    ensures Pump(l, s).operational == []
    decreases Waiting(s)
  {
    if !s.closed && s.running < l.running && !Idle(l, s) {
      var c := Choice(l, s);
      var t := Start(s, c);
      StartPlaces(s, c);
      if id !in t.active {
        PumpServesOperationalFirst(l, t, id);
      } else {
        PumpKeepsClass(l, t, c, id);
        NoneWaitsOperational(l, t);
      }
    }
  }

  /** Any other command starts only when no operational one waits. */
  lemma OperationalComesFirst(l: Limits, s: State, e: Event, id: nat)
    requires Inv(l, s) && Enabled(s, e)
    requires id !in s.active && id in Next(l, s, e).active && !Next(l, s, e).active[id].Operational?
    ensures Next(l, s, e).operational == []
  {
    match e
    case Submits(p) =>
      SubmitPlaces(s, p);
      PumpServesOperationalFirst(l, WithQueue(s.(submitted := s.submitted + 1), p, Queue(s, p) + [s.submitted]), id);
    case Completes(done) =>
      ReleasePlaces(s, done);
      PumpServesOperationalFirst(l, Release(s, done), id);
    case Closes =>
  }

  /** A background command starts only when no operational one waits and no remote one could run instead. */
  lemma BackgroundYields(l: Limits, s: State, e: Event, id: nat)
    requires Inv(l, s) && Enabled(s, e)
    requires id !in s.active && RunsAs(Next(l, s, e), Background, id)
    ensures var t := Next(l, s, e); t.operational == [] && (t.remote == [] || t.remoteRunning >= l.remote)
  {
    match e
    case Submits(p) =>
      SubmitPlaces(s, p);
      PumpYields(l, WithQueue(s.(submitted := s.submitted + 1), p, Queue(s, p) + [s.submitted]), id);
    case Completes(done) =>
      ReleasePlaces(s, done);
      PumpYields(l, Release(s, done), id);
    case Closes =>
  }

  /** A submitted command waits or runs under its own class, or is refused, and those before it keep their place. */
  lemma SubmittedAs(l: Limits, s: State, p: Priority)
    requires Placed(s)
    ensures var t, id := Submit(l, s, p), s.submitted;
            if s.closed || |Queue(s, p)| >= l.queued then id in t.settled && t.settled[id] == Refused && id !in t.active
            else WaitsAs(t, p, id) || RunsAs(t, p, id)
  {
    assert Spots(s, s.submitted) == 0;
    var queued := WithQueue(s.(submitted := s.submitted + 1), p, Queue(s, p) + [s.submitted]);
    SubmitPlaces(s, p);
    PumpKeepsClass(l, queued, p, s.submitted);
  }

  // ---- how long an operational command waits ----

  ghost predicate Started(s: State, id: nat) { id in s.active || (id in s.settled && s.settled[id].Completed?) }

  ghost predicate WaitsAt(s: State, id: nat, k: nat) { k < |s.operational| && s.operational[k] == id }

  /** The command has started, or at most `k` operational commands are before it. */
  ghost predicate Within(s: State, id: nat, k: int) {
    Started(s, id) || exists i: nat :: i <= k && WaitsAt(s, id, i)
  }

  lemma {:induction false} PumpStartsOrWaits(l: Limits, s: State, id: nat, k: int)
    requires Within(s, id, k)
    ensures Within(Pump(l, s), id, k)
    decreases Waiting(s)
  {
    if !s.closed && s.running < l.running && !Idle(l, s) {
      StartWithin(s, Choice(l, s), id, k);
      PumpStartsOrWaits(l, Start(s, Choice(l, s)), id, k);
    }
  }

  lemma StartWithin(s: State, p: Priority, id: nat, k: int)
    requires Within(s, id, k) && Queue(s, p) != []
    ensures Within(Start(s, p), id, if p.Operational? then k - 1 else k)
  {
    var t := Start(s, p);
    if !Started(s, id) {
      var i: nat :| i <= k && WaitsAt(s, id, i);
      if !p.Operational? {
        assert WaitsAt(t, id, i);
      } else if i > 0 {
        assert WaitsAt(t, id, i - 1);
      }
    }
  }

  lemma SubmitWithin(l: Limits, s: State, p: Priority, id: nat, k: int)
    requires Inv(l, s) && Within(s, id, k)
    ensures Within(Submit(l, s, p), id, k)
  {
    if s.closed || |Queue(s, p)| >= l.queued {
      assert Spots(s, s.submitted) == 0;
      WithinTransfers(s, Submit(l, s, p), id, k);
    } else {
      var t := WithQueue(s.(submitted := s.submitted + 1), p, Queue(s, p) + [s.submitted]);
      WithinTransfers(s, t, id, k);
      PumpStartsOrWaits(l, t, id, k);
    }
  }

  lemma WithinTransfers(s: State, t: State, id: nat, k: int)
    requires Within(s, id, k)
    requires s.operational <= t.operational && (Started(s, id) ==> Started(t, id))
    ensures Within(t, id, k)
  {
    if !Started(s, id) {
      var i: nat :| i <= k && WaitsAt(s, id, i);
      assert WaitsAt(t, id, i);
    }
  }

  /** A completion of any command lets the first operational one start. */
  lemma CompleteWithin(l: Limits, s: State, done: nat, id: nat, k: int)
    requires Inv(l, s) && !s.closed && done in s.active && Within(s, id, k)
    ensures Within(Complete(l, s, done), id, k - 1)
  {
    var t := Release(s, done);
    WithinTransfers(s, t, id, k);
    if Started(t, id) {
      WithinStarted(t, id, k - 1);
      PumpStartsOrWaits(l, t, id, k - 1);
    } else {
      ReleaseCounts(l, s, done);
      assert t.running < l.running && Serves(l, t, Operational) && Choice(l, t) == Operational;
      StartWithin(t, Operational, id, k);
      PumpStartsOrWaits(l, Start(t, Operational), id, k - 1);
    }
  }

  lemma WithinStarted(s: State, id: nat, k: int)
    requires Started(s, id)
    ensures Within(s, id, k)
  {
  }

  function Completions(events: seq<Event>): nat
    decreases |events|
  {
    if events == [] then 0 else (if events[0].Completes? then 1 else 0) + Completions(events[1..])
  }

  ghost predicate StaysOpen(events: seq<Event>) {
    forall i :: 0 <= i < |events| ==> !events[i].Closes?
  }

  lemma {:induction false} PumpSettlesNothing(l: Limits, s: State)
    ensures Pump(l, s).closed == s.closed && Pump(l, s).settled == s.settled
    decreases Waiting(s)
  {
    if !s.closed && s.running < l.running && !Idle(l, s) {
      PumpSettlesNothing(l, Start(s, Choice(l, s)));
    }
  }

  lemma StepWithin(l: Limits, s: State, e: Event, id: nat, k: int)
    requires Inv(l, s) && !s.closed && Enabled(s, e) && !e.Closes? && Within(s, id, k)
    ensures !Next(l, s, e).closed && Within(Next(l, s, e), id, k - if e.Completes? then 1 else 0)
  {
    match e
    case Submits(p) =>
      SubmitWithin(l, s, p, id, k);
      PumpSettlesNothing(l, WithQueue(s.(submitted := s.submitted + 1), p, Queue(s, p) + [s.submitted]));
    case Completes(done) =>
      CompleteWithin(l, s, done, id, k);
      PumpSettlesNothing(l, Release(s, done));
  }

  lemma {:induction false} HistoryWithin(l: Limits, s: State, events: seq<Event>, id: nat, k: int)
    requires Inv(l, s) && !s.closed && Runs(l, s, events) && StaysOpen(events) && Within(s, id, k)
    ensures Within(After(l, s, events), id, k - Completions(events))
    decreases |events|
  {
    if events != [] {
      var e, rest := events[0], events[1..];
      StepKeeps(l, s, e);
      StepWithin(l, s, e, id, k);
      assert StaysOpen(rest) by {
        forall i | 0 <= i < |rest| ensures !rest[i].Closes? {
          assert rest[i] == events[i + 1];
        }
      }
      HistoryWithin(l, Next(l, s, e), rest, id, k - if e.Completes? then 1 else 0);
    }
  }

  /** An operational command at position k has started by the (k+1)-th completion, whatever else arrives. */
  lemma OperationalWaitIsBounded(l: Limits, s: State, events: seq<Event>, id: nat, k: nat)
    requires Inv(l, s) && !s.closed && Runs(l, s, events) && StaysOpen(events)
    requires WaitsAt(s, id, k) && Completions(events) > k
    ensures Started(After(l, s, events), id)
  {
    HistoryWithin(l, s, events, id, k);
  }

  // ---- closing ----

  /** A command that has run is settled as completed, and runs no more. */
  lemma CompletionSettles(l: Limits, s: State, id: nat)
    requires Inv(l, s) && id in s.active
    ensures var t := Complete(l, s, id); id in t.settled && t.settled[id] == Completed && id !in t.active
  {
    CompleteKeeps(l, s, id);
    PumpSettlesNothing(l, Release(s, id));
    assert Spots(Complete(l, s, id), id) <= 1;
  }

  /** Every command that waited is settled as abandoned. */
  ghost predicate AbandonsWaiting(s: State, t: State) {
    forall id :: id in s.operational || id in s.remote || id in s.background ==>
      id in t.settled && t.settled[id] == Abandoned
  }

  lemma CloseAbandons(s: State)
    ensures AbandonsWaiting(s, Close(s))
  {
    forall id | id in s.operational || id in s.remote || id in s.background
      ensures id in Close(s).settled && Close(s).settled[id] == Abandoned
    {
      assert id in Queued(s);
    }
  }

  lemma ClosedStep(l: Limits, s: State, e: Event)
    requires Inv(l, s) && s.closed && Enabled(s, e)
    ensures var t := Next(l, s, e); t.closed && Inv(l, t) && t.active.Keys <= s.active.Keys
  {
    StepKeeps(l, s, e);
  }

  lemma {:induction false} ClosedHistory(l: Limits, s: State, events: seq<Event>)
    requires Inv(l, s) && s.closed && Runs(l, s, events)
    ensures var t := After(l, s, events); t.closed && Inv(l, t) && t.active.Keys <= s.active.Keys
    decreases |events|
  {
    if events != [] {
      ClosedStep(l, s, events[0]);
      ClosedHistory(l, Next(l, s, events[0]), events[1..]);
    }
  }

  /**
   * Over every history after `close`: only what was already running runs on, nothing waits, and once that is
   * done every command ever submitted has its outcome.
   */
  lemma NothingStartsAfterClose(l: Limits, s: State, events: seq<Event>)
    requires Inv(l, s) && Runs(l, Close(s), events)
    ensures var t := After(l, Close(s), events);
            && t.closed && Queued(t) == [] && t.active.Keys <= s.active.Keys
            && forall id: nat :: id < t.submitted ==> id in t.settled || id in t.active
  {
    StepKeeps(l, s, Closes);
    ClosedHistory(l, Close(s), events);
    var t := After(l, Close(s), events);
    forall id: nat | id < t.submitted ensures id in t.settled || id in t.active {
      assert Spots(t, id) == 1;
      EmptyQueues(t, id);
    }
  }

  lemma EmptyQueues(s: State, id: nat)
    requires Queued(s) == []
    ensures Times(s.operational, id) == Times(s.remote, id) == Times(s.background, id) == 0
  {
    assert |s.operational| + |s.remote| + |s.background| == |Queued(s)|;
  }

  lemma SubmitSettles(l: Limits, s: State, p: Priority, id: nat)
    requires Placed(s) && id in s.settled
    ensures id in Submit(l, s, p).settled && Submit(l, s, p).settled[id] == s.settled[id]
  {
    assert Spots(s, s.submitted) == 0;
    PumpSettlesNothing(l, WithQueue(s.(submitted := s.submitted + 1), p, Queue(s, p) + [s.submitted]));
  }

  lemma StepKeepsOutcome(l: Limits, s: State, e: Event, id: nat)
    requires Inv(l, s) && Enabled(s, e) && id in s.settled
    ensures id in Next(l, s, e).settled && Next(l, s, e).settled[id] == s.settled[id]
  {
    assert Spots(s, id) <= 1;
    match e
    case Submits(p) => SubmitSettles(l, s, p, id);
    case Completes(done) => PumpSettlesNothing(l, Release(s, done));
    case Closes => assert id !in Queued(s);
  }

  /** A settled command keeps its outcome over every history and never runs again: every promise is settled once. */
  lemma {:induction false} OutcomesStay(l: Limits, s: State, events: seq<Event>, id: nat)
    requires Inv(l, s) && Runs(l, s, events) && id in s.settled
    ensures var t := After(l, s, events); id in t.settled && t.settled[id] == s.settled[id] && id !in t.active
    decreases |events|
  {
    if events == [] {
      assert Spots(s, id) <= 1;
    } else {
      StepKeepsOutcome(l, s, events[0], id);
      StepKeeps(l, s, events[0]);
      OutcomesStay(l, Next(l, s, events[0]), events[1..], id);
    }
  }
}
