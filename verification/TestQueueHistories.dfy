/** The main results about the verification queue: what holds in every history of allowed steps. */
module TestQueueHistories {
  import opened Results
  import opened SourceAttribution
  import opened TestQueue
  import opened TestQueueSafety

  // ---- the pump ----

  ghost predicate Held(s: State, worktree: string) {
    exists j: Id :: At(s, j).Holds() && At(s, j).stored.Some? && At(s, j).stored.value.worktree == worktree
  }

  /** The pump's own record of blocked worktrees: all that are held, and no others. */
  ghost predicate Tracks(s: State, occupied: set<string>) {
    && (forall j: Id :: At(s, j).Holds() && At(s, j).stored.Some? ==> At(s, j).stored.value.worktree in occupied)
    && (forall w :: w in occupied ==> s.finalizations != map[] || Held(s, w))
  }

  ghost predicate Queue(s: State, queue: seq<Id>) {
    && (forall id :: id in queue ==> At(s, id).Waits())
    && (forall i, j :: 0 <= i < j < |queue| ==> queue[i] != queue[j])
  }

  lemma WrittenTracks(s: State, t: State, id: Id, r: Records, worktree: string, occupied: set<string>)
    requires Written(s, t, id, r)
    requires Tracks(s, occupied) && !At(s, id).Holds() && At(s, id).finalization.None?
    requires r.stored.Some? && r.stored.value.worktree == worktree && (r.Holds() || r.finalization.Some?)
    ensures Tracks(t, occupied + {worktree})
  {
    forall w | w in occupied + {worktree}
      ensures t.finalizations != map[] || Held(t, w)
    {
      if r.finalization.Some? {
        assert id in t.finalizations;
      } else if w in occupied && s.finalizations == map[] {
        HeldStays(s, t, id, r, w);
      } else if w in occupied {
        FinalizationStays(s, t, id, r);
      } else {
        assert At(t, id).Holds();
      }
    }
  }

  lemma HeldStays(s: State, t: State, id: Id, r: Records, worktree: string)
    requires Written(s, t, id, r) && Held(s, worktree)
    requires At(s, id).Holds() ==> r.Holds() && SharesWorktree(r, At(s, id))
    ensures Held(t, worktree)
  {
    var k: Id :| At(s, k).Holds() && At(s, k).stored.Some? && At(s, k).stored.value.worktree == worktree;
    assert k == id || At(t, k) == At(s, k);
    assert At(t, k).Holds();
  }

  lemma FinalizationStays(s: State, t: State, id: Id, r: Records)
    requires Written(s, t, id, r) && s.finalizations != map[] && At(s, id).finalization.None?
    ensures t.finalizations != map[]
  {
    var k :| k in s.finalizations;
    assert At(t, k) == At(s, k);
    assert k in t.finalizations;
  }

  /** What `prepare` does to a waiting run before its first await. */
  lemma AdmitEffect(r: Records, id: Id, observing: bool, spawnThrows: bool, observerThrows: bool)
    requires Good(r, id, observing) && r.Waits() && !r.Holds()
    ensures var t := Admit(r, r.stored.value, observing, spawnThrows, observerThrows);
            && Good(t, id, observing) && SharesWorktree(t, r)
            && (t.Holds() || t.finalization.Some?)
            && Weight(t) <= 1
  {
    AdmitGood(r, id, observing, spawnThrows, observerThrows);
  }

  lemma AdmitOneKeeps(s: State, id: Id, occupied: set<string>, spawnThrows: set<Id>, observerThrows: set<Id>)
    requires Inv(s) && Tracks(s, occupied)
    requires At(s, id).Waits() && s.store[id].worktree !in occupied
    ensures var t := AdmitOne(s, id, spawnThrows, observerThrows);
            && Inv(t) && Tracks(t, occupied + {s.store[id].worktree})
            && Occupancy(t) <= Occupancy(s) + 1
            && (forall j: Id :: j != id ==> At(t, j) == At(s, j))
            && SharesWorktree(At(t, id), At(s, id))
  {
    var r := At(s, id);
    assert Good(r, id, s.observing);
    AdmitEffect(r, id, s.observing, id in spawnThrows, id in observerThrows);
    var after := Admit(r, s.store[id], s.observing, id in spawnThrows, id in observerThrows);
    var t := Put(s, id, after);
    PutWrites(s, id, after);
    WrittenKeeps(s, t, id, after);
    WrittenTracks(s, t, id, after, s.store[id].worktree, occupied);
  }

  /**
   * What one pump does: it keeps the invariant, takes the limit into account, and leaves a waiting run
   * behind only when the limit is reached or the run's worktree is held.
   */
  ghost predicate Pumped(s: State, t: State, queue: seq<Id>, occupied: set<string>) {
    && Inv(t)
    && t.limit == s.limit && t.closed == s.closed && t.observing == s.observing
    && (forall j: Id :: j !in queue ==> At(t, j) == At(s, j))
    && (forall j: Id :: At(t, j).stored.Some? ==> SharesWorktree(At(t, j), At(s, j)))
    && (Occupancy(t) == Occupancy(s) || Occupancy(t) <= s.limit)
    && (forall w :: w in occupied ==> t.finalizations != map[] || Held(t, w))
    && (Occupancy(t) >= s.limit || t.finalizations != map[]
        || forall id :: id in queue && id in s.store ==> Held(t, s.store[id].worktree))
  }

  lemma {:induction false} AdmitAllKeeps(s: State, queue: seq<Id>, occupied: set<string>,
                                         spawnThrows: set<Id>, observerThrows: set<Id>)
    requires Inv(s) && Tracks(s, occupied) && Queue(s, queue)
    ensures Pumped(s, AdmitAll(s, queue, occupied, spawnThrows, observerThrows), queue, occupied)
    decreases |queue|
  {
    if queue != [] && Occupancy(s) < s.limit {
      var id, rest := queue[0], queue[1..];
      assert At(s, id).Waits();
      assert forall j :: j in queue <==> j == id || j in rest;
      if s.store[id].worktree in occupied {
        AdmitAllKeeps(s, rest, occupied, spawnThrows, observerThrows);
      } else {
        AdmitOneKeeps(s, id, occupied, spawnThrows, observerThrows);
        AdmitRest(s, AdmitOne(s, id, spawnThrows, observerThrows), queue, occupied, spawnThrows, observerThrows);
      }
    }
  }

  lemma {:induction false} AdmitRest(s: State, t: State, queue: seq<Id>, occupied: set<string>,
                                     spawnThrows: set<Id>, observerThrows: set<Id>)
    requires Inv(s) && Queue(s, queue) && queue != [] && queue[0] in s.store && Occupancy(s) < s.limit
    requires Inv(t) && Tracks(t, occupied + {s.store[queue[0]].worktree}) && Occupancy(t) <= Occupancy(s) + 1
    requires t.limit == s.limit && t.closed == s.closed && t.observing == s.observing
    requires forall j: Id :: j != queue[0] ==> At(t, j) == At(s, j)
    requires SharesWorktree(At(t, queue[0]), At(s, queue[0]))
    ensures Pumped(s, AdmitAll(t, queue[1..], occupied + {s.store[queue[0]].worktree}, spawnThrows, observerThrows), queue, occupied)
    decreases |queue|, 0
  {
    var id, rest := queue[0], queue[1..];
    forall j | j in rest
      ensures At(t, j).Waits() && At(t, j) == At(s, j)
    {
      assert j != id;
      assert At(s, j).Waits();
    }
    var all := occupied + {s.store[id].worktree};
    AdmitAllKeeps(t, rest, all, spawnThrows, observerThrows);
    assert forall j :: j in queue <==> j == id || j in rest;
    assert s.store[id].worktree in all;
    forall j | j in rest
      ensures t.store[j] == s.store[j]
    {
      assert At(t, j) == At(s, j);
    }
  }

  lemma {:induction false} WaitingInOrder(s: State, pending: seq<Id>)
    requires InOrder(s, pending)
    ensures InOrder(s, Waiting(s, pending))
    ensures forall id :: id in Waiting(s, pending) <==> id in pending && At(s, id).Waits()
    decreases |pending|
  {
    if pending != [] {
      var rest := pending[1..];
      forall i, j | 0 <= i < j < |rest|
        ensures Before(s.store[rest[i]], s.store[rest[j]])
      {
        assert rest[i] == pending[i + 1] && rest[j] == pending[j + 1];
      }
      WaitingInOrder(s, rest);
      forall id | id in Waiting(s, rest)
        ensures Before(s.store[pending[0]], s.store[id])
      {
        var j :| 0 <= j < |rest| && rest[j] == id;
        assert pending[j + 1] == id;
      }
      assert forall id :: id in pending <==> id == pending[0] || id in rest;
    }
  }

  lemma WaitingIsQueue(s: State, queue: seq<Id>)
    requires InOrder(s, queue) && forall id :: id in queue ==> At(s, id).Waits()
    ensures Queue(s, queue)
  {
    forall i, j | 0 <= i < j < |queue|
      ensures queue[i] != queue[j]
    {
      assert Before(s.store[queue[i]], s.store[queue[j]]);
    }
  }

  lemma PumpKeeps(s: State, pending: seq<Id>, spawnThrows: set<Id>, observerThrows: set<Id>)
    requires Inv(s) && IsPendingList(s, pending) && !s.closed
    ensures var queue := Waiting(s, pending);
            Pumped(s, AdmitAll(s, queue, OccupiedWorktrees(s), spawnThrows, observerThrows), queue, OccupiedWorktrees(s))
  {
    WaitingInOrder(s, pending);
    WaitingIsQueue(s, Waiting(s, pending));
    forall w | w in OccupiedWorktrees(s)
      ensures Held(s, w)
    {
      var id :| id in s.store && At(s, id).Holds() && s.store[id].worktree == w;
      assert At(s, id).stored == Some(s.store[id]);
    }
    forall j: Id | At(s, j).Holds() && At(s, j).stored.Some?
      ensures At(s, j).stored.value.worktree in OccupiedWorktrees(s)
    {
      assert j in s.store;
    }
    AdmitAllKeeps(s, Waiting(s, pending), OccupiedWorktrees(s), spawnThrows, observerThrows);
  }

  // ---- no lost wakeup ----

  predicate IsQueued(r: Records) { r.stored.Some? && r.stored.value.phase == Queued }

  /** A finalization is in flight, or nothing in the queue could be admitted now. */
  ghost predicate Settled(s: State) {
    || s.finalizations != map[] || Occupancy(s) >= s.limit
    || forall id: Id :: IsQueued(At(s, id)) ==> Held(s, At(s, id).stored.value.worktree)
  }

  ghost predicate Awake(s: State) { s.closed || s.pumping || Settled(s) }

  /** A step that frees a slot or a worktree wakes the pump or leaves a finalization that will. */
  lemma AfterLively(s: State, e: Event)
    requires Inv(s) && Enabled(s, e) && Allowed(s, e) && Subject(e).Some? && !e.Enqueue?
    ensures var r, after := At(s, e.id), After(s, e);
            || Wakes(e, after) || after.finalization.Some?
            || (r.finalization.None? && (r.Holds() ==> after.Holds()) && Weight(after) == Weight(r)
                && (IsQueued(after) ==> IsQueued(r)))
  {
    assert Good(At(s, e.id), e.id, s.observing);
  }

  lemma WrittenSettled(s: State, t: State, id: Id, r: Records)
    requires Written(s, t, id, r) && Settled(s)
    requires At(s, id).finalization.None? && r.finalization.None?
    requires At(s, id).Holds() ==> r.Holds()
    requires Weight(r) == Weight(At(s, id)) && (IsQueued(r) ==> IsQueued(At(s, id)))
    requires r.stored.Some? ==> SharesWorktree(r, At(s, id))
    requires r.Holds() ==> r.stored.Some?
    ensures Settled(t)
  {
    if s.finalizations != map[] {
      FinalizationStays(s, t, id, r);
    } else if Occupancy(s) < s.limit {
      forall j: Id | IsQueued(At(t, j))
        ensures Held(t, At(t, j).stored.value.worktree)
      {
        assert j == id || At(t, j) == At(s, j);
        assert IsQueued(At(s, j));
        HeldStays(s, t, id, r, At(s, j).stored.value.worktree);
      }
    }
  }

  // ---- one step ----

  /** Every step an answer does not take too late keeps the invariant; every step that is too late breaks it. */
  lemma StepKeepsExactlyWhenAllowed(s: State, e: Event)
    requires Inv(s) && Enabled(s, e)
    ensures Inv(Next(s, e)) <==> Allowed(s, e)
  {
    match e
    case Enqueue(id, input) => EnqueueKeeps(s, id, input);
    case PumpRuns(pending, spawnThrows, observerThrows) => PumpStepKeeps(s, pending, spawnThrows, observerThrows);
    case SetLimit(_) => SameRecords(s, Next(s, e));
    case Shutdown => SameRecords(s, Next(s, e));
    case _ => SubjectStep(s, e);
  }

  lemma PumpStepKeeps(s: State, pending: seq<Id>, spawnThrows: set<Id>, observerThrows: set<Id>)
    requires Inv(s) && IsPendingList(s, pending)
    ensures Inv(DoPumpRuns(s, pending, spawnThrows, observerThrows))
  {
    var t := DoPumpRuns(s, pending, spawnThrows, observerThrows);
    if s.closed {
      SameRecords(s, t);
    } else {
      PumpKeeps(s, pending, spawnThrows, observerThrows);
      SameRecords(AdmitAll(s, Waiting(s, pending), OccupiedWorktrees(s), spawnThrows, observerThrows), t);
    }
  }

  /** The records of all runs are unchanged, so is everything said about them. */
  lemma SameRecords(s: State, t: State)
    requires Inv(s) && t.observing == s.observing && forall j: Id :: At(t, j) == At(s, j)
    ensures Inv(t)
  {
  }

  lemma EnqueueKeeps(s: State, id: Id, input: Input)
    requires Inv(s) && Enabled(s, Enqueue(id, input))
    ensures Inv(DoEnqueue(s, id, input))
  {
    var t := DoEnqueue(s, id, input);
    if EnqueueResult(s, id, input).Accepted? {
      assert At(t, id) == At(s, id).(stored := Some(NewRun(id, input)));
      assert forall j: Id :: j != id ==> At(t, j) == At(s, j);
    }
  }

  lemma NextIsPut(s: State, e: Event)
    requires Enabled(s, e) && Subject(e).Some? && !e.Enqueue?
    ensures var put := Put(s, e.id, After(s, e)); Next(s, e) == if Wakes(e, After(s, e)) then Pump(put) else put
  {
  }

  lemma PumpWrites(s: State, put: State, id: Id, r: Records)
    requires Written(s, put, id, r)
    ensures Written(s, Pump(put), id, r)
  {
    assert forall j: Id :: At(Pump(put), j) == At(put, j);
  }

  lemma NextWrites(s: State, e: Event)
    requires Enabled(s, e) && Subject(e).Some? && !e.Enqueue?
    ensures Written(s, Next(s, e), e.id, After(s, e))
    ensures Next(s, e).pumping == (s.pumping || (Wakes(e, After(s, e)) && !s.closed))
  {
    var after := After(s, e);
    NextIsPut(s, e);
    PutWrites(s, e.id, after);
    PumpWrites(s, Put(s, e.id, after), e.id, after);
  }

  lemma SubjectStep(s: State, e: Event)
    requires Inv(s) && Enabled(s, e) && Subject(e).Some? && !e.Enqueue?
    ensures Inv(Next(s, e)) <==> Allowed(s, e)
  {
    NextWrites(s, e);
    if Allowed(s, e) {
      AfterGood(s, e);
      AfterHolds(s, e);
      AllowedKeeps(s, Next(s, e), e.id, After(s, e));
    } else {
      PreflightAnsweredGood(At(s, e.id), e.id, s.observing, s.closed, e.observation, e.spawnFails);
      assert !Good(At(Next(s, e), e.id), e.id, s.observing);
    }
  }

  lemma AllowedKeeps(s: State, t: State, id: Id, r: Records)
    requires Inv(s) && Written(s, t, id, r) && Good(r, id, s.observing)
    requires r.Holds() ==> At(s, id).Holds()
    requires r.stored.Some? ==> SharesWorktree(r, At(s, id))
    ensures Inv(t)
  {
    WrittenKeeps(s, t, id, r);
  }

  /** A run still queued after a pump that left no finalization was waiting before it. */
  lemma StillQueued(s: State, t: State, pending: seq<Id>, j: Id)
    requires IsPendingList(s, pending) && t.finalizations == map[] && IsQueued(At(t, j))
    requires forall id: Id :: id !in Waiting(s, pending) ==> At(t, id) == At(s, id)
    ensures j in Waiting(s, pending)
  {
    WaitingInOrder(s, pending);
    assert At(t, j).finalization.None?;
  }

  lemma PumpSettles(s: State, t: State, pending: seq<Id>)
    requires IsPendingList(s, pending) && Pumped(s, t, Waiting(s, pending), OccupiedWorktrees(s))
    ensures Settled(t.(pumping := false))
  {
    var u := t.(pumping := false);
    if t.finalizations == map[] && Occupancy(t) < t.limit {
      forall j: Id | IsQueued(At(u, j))
        ensures Held(u, At(u, j).stored.value.worktree)
      {
        assert At(u, j) == At(t, j);
        StillQueued(s, t, pending, j);
        assert SharesWorktree(At(t, j), At(s, j));
        var k: Id :| At(t, k).Holds() && At(t, k).stored.Some?
                     && At(t, k).stored.value.worktree == At(t, j).stored.value.worktree;
        assert At(u, k) == At(t, k);
      }
    }
  }

  /** A step that neither wakes the pump nor leaves a finalization changes nothing the queue waits for. */
  lemma SubjectAwake(s: State, t: State, e: Event)
    requires Inv(s) && Awake(s) && Enabled(s, e) && Allowed(s, e) && Subject(e).Some? && !e.Enqueue?
    requires Written(s, t, e.id, After(s, e))
    requires t.pumping == (s.pumping || (Wakes(e, After(s, e)) && !s.closed))
    ensures Awake(t)
  {
    var after := After(s, e);
    AfterLively(s, e);
    if !t.closed && !t.pumping {
      if after.finalization.Some? {
        assert e.id in t.finalizations;
      } else {
        AfterGood(s, e);
        AfterHolds(s, e);
        WrittenSettled(s, t, e.id, after);
      }
    }
  }

  lemma PumpAwakes(s: State, pending: seq<Id>, spawnThrows: set<Id>, observerThrows: set<Id>)
    requires Inv(s) && Awake(s) && IsPendingList(s, pending)
    ensures Awake(DoPumpRuns(s, pending, spawnThrows, observerThrows))
  {
    if !s.closed {
      PumpKeeps(s, pending, spawnThrows, observerThrows);
      PumpSettles(s, AdmitAll(s, Waiting(s, pending), OccupiedWorktrees(s), spawnThrows, observerThrows), pending);
    }
  }

  /** No lost wakeup: every allowed step leaves the queue watched or nothing in it admissible. */
  lemma StepKeepsAwake(s: State, e: Event)
    requires Inv(s) && Awake(s) && Enabled(s, e) && Allowed(s, e)
    ensures Awake(Next(s, e))
  {
    match e
    case Enqueue(id, input) =>
    case PumpRuns(pending, spawnThrows, observerThrows) =>
      PumpAwakes(s, pending, spawnThrows, observerThrows);
    case SetLimit(limit) =>
    case Shutdown =>
    case _ => SubjectStepAwakes(s, e);
  }

  lemma SubjectStepAwakes(s: State, e: Event)
    requires Inv(s) && Awake(s) && Enabled(s, e) && Allowed(s, e) && Subject(e).Some? && !e.Enqueue?
    ensures Awake(Next(s, e))
  {
    NextWrites(s, e);
    SubjectAwake(s, Next(s, e), e);
  }

  /** What holds between the steps of a manager that no late answer has broken. */
  ghost predicate Sound(s: State) { Inv(s) && Awake(s) }

  lemma StepKeepsSoundExactly(s: State, e: Event)
    requires Sound(s) && Enabled(s, e)
    ensures Sound(Next(s, e)) <==> Allowed(s, e)
  {
    StepKeepsExactlyWhenAllowed(s, e);
    if Allowed(s, e) {
      StepKeepsAwake(s, e);
    }
  }
}
