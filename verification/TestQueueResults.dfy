/** The verification queue's promises, over every history of its steps. */
module TestQueueResults {
  import opened Results
  import opened SourceAttribution
  import opened TestQueue
  import opened TestQueueSafety
  import opened TestQueueHistories

  // ---- histories ----

  /** A manager just constructed: every stored run has ended, and an old verdict was earned. */
  ghost predicate Initial(s: State) {
    && s.active == map[] && s.preparing == {} && s.preparations == map[] && s.finalizations == map[] && s.timers == {}
    && !s.pumping && !s.closed
    && Earned(s.store, s.observing) && forall id :: id in s.store ==> Terminal(s.store[id].phase)
  }

  /** Every record is filed under its own id, and a stored `passed` carries its confirmation. */
  ghost predicate Earned(store: map<Id, Run>, observing: bool) {
    forall id :: id in store ==>
      store[id].id == id && (store[id].phase == Passed ==> Confirmed(store[id], observing))
  }

  /** `t` follows from `s` by these steps, none of them an answer that starts a cancelled run. */
  ghost predicate Reaches(s: State, events: seq<Event>, t: State)
    decreases |events|
  {
    if events == [] then s == t
    else Enabled(s, events[0]) && Allowed(s, events[0]) && Reaches(Next(s, events[0]), events[1..], t)
  }

  lemma {:induction false} HistoriesKeep(s: State, events: seq<Event>, t: State)
    requires Inv(s) && Awake(s) && Reaches(s, events, t)
    ensures Inv(t) && Awake(t)
    decreases |events|
  {
    if events != [] {
      StepKeepsExactlyWhenAllowed(s, events[0]);
      StepKeepsAwake(s, events[0]);
      HistoriesKeep(Next(s, events[0]), events[1..], t);
    }
  }

  lemma InitialHolds(s: State)
    requires Initial(s)
    ensures Inv(s) && Awake(s)
  {
  }

  /** In every reachable state no two runs that hold a slot share a worktree. */
  lemma SlotsAreExclusive(s: State, events: seq<Event>, t: State, i: Id, j: Id)
    requires Initial(s) && Reaches(s, events, t)
    requires i in t.active.Keys + t.preparing && j in t.active.Keys + t.preparing && i != j
    ensures i in t.store && j in t.store && t.store[i].worktree != t.store[j].worktree
  {
    InitialHolds(s);
    HistoriesKeep(s, events, t);
    assert Good(At(t, i), i, t.observing) && Good(At(t, j), j, t.observing);
    assert !SharesWorktree(At(t, i), At(t, j));
  }

  /**
   * No lost wakeup: unless the manager is closed, a pump is pending or a finalization is in flight,
   * every queued run finds the limit reached or another run in its worktree.
   */
  lemma NoLostWakeup(s: State, events: seq<Event>, t: State, id: Id)
    requires Initial(s) && Reaches(s, events, t)
    requires !t.closed && !t.pumping && t.finalizations == map[]
    requires id in t.store && t.store[id].phase == Queued
    ensures || Occupancy(t) >= t.limit
            || exists j :: j in t.active.Keys + t.preparing && j in t.store && t.store[j].worktree == t.store[id].worktree
  {
    InitialHolds(s);
    HistoriesKeep(s, events, t);
    if Occupancy(t) < t.limit {
      assert IsQueued(At(t, id));
      var j: Id :| At(t, j).Holds() && At(t, j).stored.Some? && At(t, j).stored.value.worktree == t.store[id].worktree;
      assert j in t.active.Keys + t.preparing;
    }
  }

  // ---- slots ----

  /** In every reachable state a step that raises occupancy leaves it within the limit in force. */
  lemma OccupancyWithinLimit(s: State, events: seq<Event>, t: State, e: Event)
    requires Initial(s) && Reaches(s, events, t) && Enabled(t, e) && Allowed(t, e)
    ensures Occupancy(Next(t, e)) <= Occupancy(t) || Occupancy(Next(t, e)) <= Next(t, e).limit
  {
    InitialHolds(s);
    HistoriesKeep(s, events, t);
    StepWithinLimit(t, e);
  }

  lemma StepWithinLimit(s: State, e: Event)
    requires Inv(s) && Enabled(s, e) && Allowed(s, e)
    ensures Occupancy(Next(s, e)) <= Occupancy(s) || Occupancy(Next(s, e)) <= Next(s, e).limit
  {
    if e.PumpRuns? {
      if !s.closed {
        PumpKeeps(s, e.pending, e.spawnThrows, e.observerThrows);
      }
    } else if Subject(e).Some? && !e.Enqueue? {
      NextWrites(s, e);
      WeightNeverGrows(s, e);
    }
  }

  /** The limit may be lowered below what runs, but nothing ever takes occupancy beyond its maximum. */
  lemma OccupancyIsBounded(s: State, events: seq<Event>, t: State)
    requires Initial(s) && s.limit <= MAX_LIMIT && Reaches(s, events, t)
    ensures Occupancy(t) <= MAX_LIMIT
  {
    InitialHolds(s);
    BoundStays(s, events, t);
  }

  lemma {:induction false} BoundStays(s: State, events: seq<Event>, t: State)
    requires Inv(s) && Awake(s) && Reaches(s, events, t) && s.limit <= MAX_LIMIT && Occupancy(s) <= MAX_LIMIT
    ensures Occupancy(t) <= MAX_LIMIT
    decreases |events|
  {
    if events != [] {
      StepKeepsExactlyWhenAllowed(s, events[0]);
      StepKeepsAwake(s, events[0]);
      StepWithinLimit(s, events[0]);
      LimitStaysInRange(s, events[0]);
      BoundStays(Next(s, events[0]), events[1..], t);
    }
  }

  lemma LimitStaysInRange(s: State, e: Event)
    requires Inv(s) && Enabled(s, e) && s.limit <= MAX_LIMIT
    ensures Next(s, e).limit <= MAX_LIMIT
  {
    if e.PumpRuns? {
      if !s.closed {
        PumpKeeps(s, e.pending, e.spawnThrows, e.observerThrows);
      }
    } else if Subject(e).Some? && !e.Enqueue? {
      NextWrites(s, e);
    }
  }

  lemma WeightNeverGrows(s: State, e: Event)
    requires Inv(s) && Enabled(s, e) && Allowed(s, e) && Subject(e).Some? && !e.Enqueue?
    ensures Weight(After(s, e)) <= Weight(At(s, e.id))
  {
    assert Good(At(s, e.id), e.id, s.observing);
    AfterGood(s, e);
    AfterHolds(s, e);
  }

  /** In every reachable state a slot with a process is given up only after its process group was stopped. */
  lemma SlotsOutliveProcesses(s: State, events: seq<Event>, t: State, e: Event, id: Id)
    requires Initial(s) && Reaches(s, events, t) && Enabled(t, e) && Allowed(t, e)
    requires id in t.active && id !in Next(t, e).active
    ensures t.active[id].groupStopped
  {
    InitialHolds(s);
    HistoriesKeep(s, events, t);
    FreedWasStopped(t, e, id);
  }

  lemma FreedWasStopped(s: State, e: Event, id: Id)
    requires Inv(s) && Enabled(s, e) && Allowed(s, e)
    requires id in s.active && id !in Next(s, e).active
    ensures s.active[id].groupStopped
  {
    if e.PumpRuns? {
      PumpKeepsActive(s, e, id);
    } else if Subject(e).Some? && !e.Enqueue? {
      NextWrites(s, e);
      assert At(Next(s, e), id) != At(s, id);
      OnlyStoringFrees(s, e);
    }
  }

  lemma PumpKeepsActive(s: State, e: Event, id: Id)
    requires Inv(s) && Enabled(s, e) && e.PumpRuns? && id in s.active
    ensures id in Next(s, e).active
  {
    assert Good(At(s, id), id, s.observing);
    if !s.closed {
      var queue := Waiting(s, e.pending);
      var t := AdmitAll(s, queue, OccupiedWorktrees(s), e.spawnThrows, e.observerThrows);
      WaitingInOrder(s, e.pending);
      PumpKeeps(s, e.pending, e.spawnThrows, e.observerThrows);
      assert id !in queue;
      assert At(t, id) == At(s, id);
    }
  }

  lemma OnlyStoringFrees(s: State, e: Event)
    requires Inv(s) && Enabled(s, e) && Allowed(s, e) && Subject(e).Some? && !e.Enqueue?
    requires At(s, e.id).active.Some? && After(s, e).active.None?
    ensures e.FinalizationStores? && At(s, e.id).active.value.groupStopped
  {
    assert Good(At(s, e.id), e.id, s.observing);
  }

  /**
   * What goes wrong in the histories left out: the answer that comes too late puts a process in a slot
   * that the finalization already in flight frees although nothing stopped the group.
   */
  lemma TooLateFreesALiveSlot(s: State, e: Event)
    requires Inv(s) && Enabled(s, e) && !Allowed(s, e)
    ensures var t := Next(s, e);
            && e.id in t.active && !t.active[e.id].groupStopped
            && Enabled(t, FinalizationStores(e.id, false))
            && e.id !in Next(t, FinalizationStores(e.id, false)).active
  {
    assert Good(At(s, e.id), e.id, s.observing);
    NextWrites(s, e);
    StoringFrees(Next(s, e), e.id, After(s, e));
  }

  lemma StoringFrees(t: State, id: Id, r: Records)
    requires At(t, id) == r && r.active.Some? && r.finalization.Some? && !r.finalization.value.stored
    ensures Enabled(t, FinalizationStores(id, false)) && id !in Next(t, FinalizationStores(id, false)).active
  {
    NextWrites(t, FinalizationStores(id, false));
    assert At(Next(t, FinalizationStores(id, false)), id).active.None?;
  }

  // ---- order of admission ----

  /** The run is in the queue, its worktree is free, and none before it wants the same worktree. */
  ghost predicate FirstOfItsWorktree(s: State, queue: seq<Id>, occupied: set<string>, id: Id) {
    && At(s, id).stored.Some? && At(s, id).stored.value.worktree !in occupied
    && exists k :: 0 <= k < |queue| && queue[k] == id
                   && forall i :: 0 <= i < k ==> !SharesWorktree(At(s, queue[i]), At(s, id))
  }

  lemma {:induction false} AdmittedIsFirst(s: State, queue: seq<Id>, occupied: set<string>,
                                           spawnThrows: set<Id>, observerThrows: set<Id>, id: Id)
    requires Queue(s, queue)
    requires At(AdmitAll(s, queue, occupied, spawnThrows, observerThrows), id) != At(s, id)
    ensures FirstOfItsWorktree(s, queue, occupied, id)
    decreases |queue|
  {
    var first, rest := queue[0], queue[1..];
    assert At(s, first).Waits();
    if s.store[first].worktree in occupied {
      AdmittedIsFirst(s, rest, occupied, spawnThrows, observerThrows, id);
      FirstBehind(s, s, queue, occupied, id);
    } else if id != first {
      var t := AdmitOne(s, first, spawnThrows, observerThrows);
      PutWrites(s, first, Admit(At(s, first), s.store[first], s.observing, first in spawnThrows, first in observerThrows));
      RestWaits(s, t, queue);
      AdmittedIsFirst(t, rest, occupied + {s.store[first].worktree}, spawnThrows, observerThrows, id);
      FirstBehind(s, t, queue, occupied + {s.store[first].worktree}, id);
    } else {
      assert queue[0] == id;
    }
  }

  lemma RestWaits(s: State, t: State, queue: seq<Id>)
    requires queue != [] && Queue(s, queue) && forall j: Id :: j != queue[0] ==> At(t, j) == At(s, j)
    ensures Queue(t, queue[1..])
  {
    var rest := queue[1..];
    forall id | id in rest
      ensures At(t, id).Waits()
    {
      var i :| 0 <= i < |rest| && rest[i] == id;
      assert queue[i + 1] == id;
    }
  }

  /** A head of the queue whose worktree counts as occupied does not stand in the way of the rest. */
  lemma FirstBehind(s: State, t: State, queue: seq<Id>, occupied: set<string>, id: Id)
    requires queue != [] && Queue(s, queue) && id != queue[0] && forall j: Id :: j != queue[0] ==> At(t, j) == At(s, j)
    requires FirstOfItsWorktree(t, queue[1..], occupied, id)
    requires At(s, queue[0]).stored.Some? && At(s, queue[0]).stored.value.worktree in occupied
    ensures forall all: set<string> :: all <= occupied ==> FirstOfItsWorktree(s, queue, all, id)
  {
    var rest := queue[1..];
    var k :| 0 <= k < |rest| && rest[k] == id && forall i :: 0 <= i < k ==> !SharesWorktree(At(t, rest[i]), At(t, id));
    assert queue[k + 1] == id;
    forall i | 0 <= i < k + 1
      ensures !SharesWorktree(At(s, queue[i]), At(s, id))
    {
      if i > 0 {
        assert rest[i - 1] == queue[i] != queue[0];
      }
    }
  }

  lemma FirstIsOldest(s: State, queue: seq<Id>, occupied: set<string>, id: Id, other: Id)
    requires InOrder(s, queue) && FirstOfItsWorktree(s, queue, occupied, id)
    requires other != id && other in queue && SharesWorktree(At(s, id), At(s, other))
    ensures Before(s.store[id], s.store[other])
  {
    var k :| 0 <= k < |queue| && queue[k] == id && forall i :: 0 <= i < k ==> !SharesWorktree(At(s, queue[i]), At(s, id));
    var i :| 0 <= i < |queue| && queue[i] == other;
  }

  /** Whenever the pump touches a run, that run is older than every other run waiting for its worktree. */
  lemma AdmittedOldestFirst(s: State, e: Event, id: Id, other: Id)
    requires Enabled(s, e) && e.PumpRuns?
    requires At(Next(s, e), id) != At(s, id)
    requires other != id && At(s, other).Waits() && SharesWorktree(At(s, id), At(s, other))
    ensures Before(s.store[id], s.store[other]) && s.store[id].queuedAt <= s.store[other].queuedAt
  {
    var queue, occupied := Waiting(s, e.pending), OccupiedWorktrees(s);
    WaitingInOrder(s, e.pending);
    WaitingIsQueue(s, queue);
    PumpTouches(s, e.pending, e.spawnThrows, e.observerThrows, id);
    AdmittedIsFirst(s, queue, occupied, e.spawnThrows, e.observerThrows, id);
    FirstIsOldest(s, queue, occupied, id, other);
  }

  lemma PumpTouches(s: State, pending: seq<Id>, spawnThrows: set<Id>, observerThrows: set<Id>, id: Id)
    requires At(DoPumpRuns(s, pending, spawnThrows, observerThrows), id) != At(s, id)
    ensures At(AdmitAll(s, Waiting(s, pending), OccupiedWorktrees(s), spawnThrows, observerThrows), id) != At(s, id)
  {
  }

  // ---- what happens to an admitted run ----

  /** A pass leaves a run alone or does to it what `prepare` does. */
  lemma {:induction false} AdmitsOrLeaves(s: State, queue: seq<Id>, occupied: set<string>,
                                          spawnThrows: set<Id>, observerThrows: set<Id>, id: Id)
    requires Queue(s, queue)
    ensures var r := At(AdmitAll(s, queue, occupied, spawnThrows, observerThrows), id);
            r == At(s, id)
            || (At(s, id).Waits() && r == Admit(At(s, id), s.store[id], s.observing, id in spawnThrows, id in observerThrows))
    decreases |queue|
  {
    if queue != [] && Occupancy(s) < s.limit {
      var first, rest := queue[0], queue[1..];
      assert At(s, first).Waits();
      if s.store[first].worktree in occupied {
        AdmitsOrLeaves(s, rest, occupied, spawnThrows, observerThrows, id);
      } else {
        var t := AdmitOne(s, first, spawnThrows, observerThrows);
        PutWrites(s, first, Admit(At(s, first), s.store[first], s.observing, first in spawnThrows, first in observerThrows));
        RestWaits(s, t, queue);
        AdmitRestLeaves(s, t, queue, occupied + {s.store[first].worktree}, spawnThrows, observerThrows, id);
      }
    }
  }

  lemma {:induction false} AdmitRestLeaves(s: State, t: State, queue: seq<Id>, occupied: set<string>,
                                           spawnThrows: set<Id>, observerThrows: set<Id>, id: Id)
    requires queue != [] && Queue(s, queue) && Queue(t, queue[1..]) && t.observing == s.observing
    requires forall j: Id :: j != queue[0] ==> At(t, j) == At(s, j)
    ensures var r := At(AdmitAll(t, queue[1..], occupied, spawnThrows, observerThrows), id);
            if id == queue[0] then r == At(t, id)
            else r == At(s, id)
                 || (At(s, id).Waits() && r == Admit(At(s, id), s.store[id], s.observing, id in spawnThrows, id in observerThrows))
    decreases |queue|, 0
  {
    AdmitsOrLeaves(t, queue[1..], occupied, spawnThrows, observerThrows, id);
    if id == queue[0] {
      NotInRest(t, queue, occupied, spawnThrows, observerThrows);
    }
  }

  lemma NotInRest(t: State, queue: seq<Id>, occupied: set<string>, spawnThrows: set<Id>, observerThrows: set<Id>)
    requires queue != [] && Queue(t, queue[1..]) && queue[0] !in queue[1..]
    ensures At(AdmitAll(t, queue[1..], occupied, spawnThrows, observerThrows), queue[0]) == At(t, queue[0])
  {
    if At(AdmitAll(t, queue[1..], occupied, spawnThrows, observerThrows), queue[0]) != At(t, queue[0]) {
      AdmittedIsFirst(t, queue[1..], occupied, spawnThrows, observerThrows, queue[0]);
    }
  }

  /** The run awaits its preflight in its slot, and has no process. */
  ghost predicate AwaitsPreflight(t: State, id: Id, run: Run) {
    && id in t.preparing && id !in t.active && id in t.store && t.store[id] == run
    && id in t.preparations && t.preparations[id] == AwaitingPreflight(run)
  }

  /** The run has a process that nothing has happened to yet. */
  ghost predicate HasStarted(t: State, id: Id, run: Run) {
    && id in t.active && id in t.store && id !in t.preparing
    && t.store[id] == run.(phase := Running)
    && t.active[id] == Active(run.(phase := Running), false, false, None, NotCompleting, false)
  }

  ghost predicate FailsWith(t: State, id: Id, failure: Failure) {
    && id in t.finalizations && !t.finalizations[id].stored && t.finalizations[id].of.OfCopy? && id !in t.active
    && t.finalizations[id].of.run.phase == Failed && t.finalizations[id].of.run.errors == [failure]
  }

  /** An observed run is started only behind a preflight; the others at once, unless starting them fails. */
  ghost predicate AdmittedAs(s: State, t: State, id: Id, spawnThrows: set<Id>, observerThrows: set<Id>)
    requires id in s.store
  {
    if s.observing && s.store[id].source.enqueue.Some? then
      if id in observerThrows then FailsWith(t, id, PreflightThrew) else AwaitsPreflight(t, id, s.store[id])
    else if id in spawnThrows then FailsWith(t, id, SpawnThrew)
    else HasStarted(t, id, s.store[id])
  }

  /** What the pump does to each run it touches. */
  lemma PumpAdmitsAs(s: State, e: Event, id: Id)
    requires Inv(s) && Enabled(s, e) && e.PumpRuns? && At(Next(s, e), id) != At(s, id)
    ensures id in s.store && AdmittedAs(s, Next(s, e), id, e.spawnThrows, e.observerThrows)
  {
    var queue, occupied := Waiting(s, e.pending), OccupiedWorktrees(s);
    WaitingInOrder(s, e.pending);
    WaitingIsQueue(s, queue);
    PumpTouches(s, e.pending, e.spawnThrows, e.observerThrows, id);
    AdmitsOrLeaves(s, queue, occupied, e.spawnThrows, e.observerThrows, id);
    assert Good(At(s, id), id, s.observing);
    AdmittedIsFirst(s, queue, occupied, e.spawnThrows, e.observerThrows, id);
    UnheldBefore(s, occupied, id);
    AdmitMeans(s, Next(s, e), id, e.spawnThrows, e.observerThrows);
  }

  /** A run whose worktree is not occupied holds no slot itself. */
  lemma UnheldBefore(s: State, occupied: set<string>, id: Id)
    requires occupied == OccupiedWorktrees(s) && id in s.store && s.store[id].worktree !in occupied
    ensures !At(s, id).Holds()
  {
  }

  lemma AdmitMeans(s: State, t: State, id: Id, spawnThrows: set<Id>, observerThrows: set<Id>)
    requires id in s.store && At(s, id).Waits() && !At(s, id).Holds()
    requires At(t, id) == Admit(At(s, id), s.store[id], s.observing, id in spawnThrows, id in observerThrows)
    ensures AdmittedAs(s, t, id, spawnThrows, observerThrows)
  {
  }

  // ---- verdicts ----

  /**
   * A run that ended as `passed` exited with 0 and without errors. An observed one was complete and clean
   * throughout, and where all three observations name a commit and a digest, it was one commit and one digest.
   */
  lemma PassedMeans(s: State, events: seq<Event>, t: State, id: Id)
    requires Initial(s) && Reaches(s, events, t)
    requires id in t.store && t.store[id].phase == Passed && id !in t.active
    ensures var run := t.store[id];
            && run.exitCode == Some(0) && run.errors == [] && run.source.processOutcome == Some(OutcomePassed)
            && (t.observing && run.source.enqueue.Some? ==> Unbroken(run.source) && OneSource(run.source))
  {
    InitialHolds(s);
    HistoriesKeep(s, events, t);
    assert Good(At(t, id), id, t.observing);
    var source := t.store[id].source;
    ObservedMatchExactly(source);
    if t.observing && source.enqueue.Some? && Identified(source.enqueue) && Identified(source.preflight) && Identified(source.finish) {
      ObservedMatchIsOneSource(source);
    }
  }

  ghost predicate OneSource(e: Evidence) {
    Identified(e.enqueue) && Identified(e.preflight) && Identified(e.finish) ==>
      && e.enqueue.value.head == e.preflight.value.head == e.finish.value.head
      && e.enqueue.value.statusDigest == e.preflight.value.statusDigest == e.finish.value.statusDigest
  }

  /**
   * In every reachable state the finalization stores `passed` exactly for a process that reported 0, was
   * neither cancelled nor timed out, whose log closed and whose source was confirmed if it is observed.
   */
  lemma PassIsEarned(s: State, events: seq<Event>, t: State, id: Id, logFailed: bool)
    requires Initial(s) && Reaches(s, events, t) && Enabled(t, FinalizationStores(id, logFailed))
    ensures Next(t, FinalizationStores(id, logFailed)).store[id].phase == Passed
       <==> !logFailed && id in t.active && Succeeded(t.active[id]) && SourceConfirmed(t.active[id].run, t.observing)
  {
    InitialHolds(s);
    HistoriesKeep(s, events, t);
    assert Good(At(t, id), id, t.observing);
    NextWrites(t, FinalizationStores(id, logFailed));
  }

  /**
   * In every reachable state the finalization of a run with a process stores `cancelled` exactly if its
   * cancellation was requested, and `timed_out` exactly if it ran out of time and was not cancelled, unless
   * its spawn error was judged before the timer fired; every other run that did not pass has `failed`.
   */
  lemma VerdictFollowsFlags(s: State, events: seq<Event>, t: State, id: Id, logFailed: bool)
    requires Initial(s) && Reaches(s, events, t) && Enabled(t, FinalizationStores(id, logFailed)) && id in t.active
    ensures var a, phase := t.active[id], Next(t, FinalizationStores(id, logFailed)).store[id].phase;
            && (phase == Cancelled <==> a.cancellationRequested)
            && (phase == TimedOut ==> a.timedOut && !a.cancellationRequested)
            && (a.timedOut && !a.cancellationRequested && a.report != Some(SpawnErrored) ==> phase == TimedOut)
            && (phase == Passed || phase == Failed || phase == Cancelled || phase == TimedOut)
  {
    InitialHolds(s);
    HistoriesKeep(s, events, t);
    assert Good(At(t, id), id, t.observing);
    NextWrites(t, FinalizationStores(id, logFailed));
  }

  /** What a judgement must be: by the flags, and then by what the process reported. */
  ghost predicate JudgedAs(a: Active, phase: Phase) {
    && (phase == Cancelled <==> a.cancellationRequested)
    && (phase == TimedOut <==> a.timedOut && !a.cancellationRequested)
    && (phase == Passed <==> Succeeded(a))
    && (phase == Failed <==> !a.cancellationRequested && !a.timedOut && !Succeeded(a))
  }

  lemma OutputClosesJudges(r: Records, observing: bool)
    requires r.active.Some? && GoodActive(r, observing)
    ensures var t := DoOutputCloses(r, r.active.value, observing);
            && t.active.Some? && JudgedAs(r.active.value, t.active.value.run.phase)
            && (t.active.value.completion.Finishing? && t.active.value.run.phase == Failed ==> t.active.value.run.errors != [])
  {
  }

  /** The judgement itself, at the step that makes it: when the output has closed. */
  lemma JudgementExactly(s: State, events: seq<Event>, t: State, id: Id)
    requires Initial(s) && Reaches(s, events, t) && Enabled(t, OutputCloses(id))
    ensures var u := Next(t, OutputCloses(id));
            id in u.active && JudgedAs(t.active[id], u.active[id].run.phase)
  {
    InitialHolds(s);
    HistoriesKeep(s, events, t);
    assert Good(At(t, id), id, t.observing);
    OutputClosesJudges(At(t, id), t.observing);
    NextWrites(t, OutputCloses(id));
    ActiveAt(Next(t, OutputCloses(id)), id, After(t, OutputCloses(id)));
  }

  lemma ActiveAt(t: State, id: Id, r: Records)
    requires At(t, id) == r && r.active.Some?
    ensures id in t.active && t.active[id] == r.active.value
  {
  }

  /**
   * The output timer can store a verdict before its source is confirmed: it stores `passed` exactly when
   * it fires while the finish observation of a run that succeeded is still awaited.
   */
  lemma TimerStoresEarlyVerdictExactly(s: State, id: Id)
    requires Inv(s) && Enabled(s, PersistenceTimer(id))
    ensures Next(s, PersistenceTimer(id)).store[id].phase == Passed
       <==> s.active[id].completion.ObservingFinish? && Succeeded(s.active[id])
  {
    assert Good(At(s, id), id, s.observing);
    NextWrites(s, PersistenceTimer(id));
  }

  /**
   * A controller that dies before the confirmation leaves that verdict behind: the next one finds a
   * `passed` run, does not count it as interrupted, and its evidence has no finish observation.
   */
  lemma EarlyVerdictSurvivesRestart(s: State, id: Id)
    requires Inv(s) && Enabled(s, PersistenceTimer(id))
    requires s.active[id].completion.ObservingFinish? && Succeeded(s.active[id])
    ensures var stored := Interrupt(Next(s, PersistenceTimer(id)).store);
            && id in stored && stored[id].phase == Passed
            && s.observing && stored[id].source.enqueue.Some? && stored[id].source.finish.None?
            && !Confirmed(stored[id], s.observing)
  {
    assert Good(At(s, id), id, s.observing);
    NextWrites(s, PersistenceTimer(id));
    assert At(Next(s, PersistenceTimer(id)), id).stored == Some(s.active[id].run);
    ObservedMatchExactly(s.active[id].run.source);
  }

  /** Otherwise a restart is a fresh start: nothing unfinished is left, and every kept verdict was earned. */
  lemma RestartIsInitial(s: State)
    requires Inv(s) && forall id :: id in s.active && id in s.store ==> s.store[id].phase != Passed
    ensures Initial(State(Interrupt(s.store), s.keys, s.limit, map[], {}, map[], map[], {}, false, false, s.observing))
  {
    forall id | id in s.store
      ensures s.store[id].id == id && (s.store[id].phase == Passed ==> Confirmed(s.store[id], s.observing))
    {
      assert Good(At(s, id), id, s.observing);
    }
  }
}
