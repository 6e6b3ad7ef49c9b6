/**
 * What every history of the verification queue keeps: one run per worktree, slots held until the
 * process group is gone, and verdicts that mean what they say.
 */
module TestQueueSafety {
  import opened Results
  import opened SourceAttribution
  import opened TestQueue

  // ---- what is always true of one run's records ----

  /** A positive verdict rests on a clean exit that nothing interrupted, after the group was stopped. */
  predicate CleanExit(a: Active) {
    && a.report == Some(Exited(Some(0))) && a.run.exitCode == Some(0)
    && !a.cancellationRequested && !a.timedOut && a.groupStopped
    && a.run.errors == [] && a.run.source.processOutcome == Some(OutcomePassed)
  }

  /** What a stored `passed` must carry; with an observer, also the qualified source evidence. */
  predicate Confirmed(run: Run, observing: bool) {
    && run.exitCode == Some(0) && run.errors == [] && run.source.processOutcome == Some(OutcomePassed)
    && SourceConfirmed(run, observing)
  }

  /** The process reported a zero exit, in time and without having been cancelled. */
  predicate Succeeded(a: Active) {
    a.report == Some(Exited(Some(0))) && !a.cancellationRequested && !a.timedOut
  }

  /**
   * The other verdicts are those of the flags: cancelled first, then timed out. A timer that fires after a
   * spawn error was judged sets its flag too late to matter.
   */
  predicate JudgedByFlags(a: Active) {
    && (a.run.phase == Cancelled <==> a.cancellationRequested)
    && (a.run.phase == TimedOut ==> a.timedOut && !a.cancellationRequested)
    && (a.timedOut && !a.cancellationRequested && a.report != Some(SpawnErrored) ==> a.run.phase == TimedOut)
    && a.run.phase != Interrupted
    && (Succeeded(a) <==> a.run.source.processOutcome == Some(OutcomePassed))
    && (a.run.phase == Cancelled <==> a.run.source.processOutcome == Some(OutcomeCancelled))
    && (a.run.phase == TimedOut <==> a.run.source.processOutcome == Some(OutcomeTimedOut))
    && a.run.source.processOutcome.Some?
  }

  /** Whoever needs no confirmation has it; an observed run needs a qualified match. */
  predicate SourceConfirmed(run: Run, observing: bool) {
    observing && run.source.enqueue.Some? ==> QualifySource(run.source).attribution == ObservedMatch
  }

  predicate SameRun(a: Run, b: Run) { a.id == b.id && a.worktree == b.worktree }

  function ReportedCode(a: Active): Option<int> {
    if a.HasExited() then a.report.value.code else None
  }

  predicate GoodActive(r: Records, observing: bool)
    requires r.active.Some?
  {
    var a := r.active.value;
    && r.stored.Some? && SameRun(a.run, r.stored.value) && r.stored.value.phase != Queued
    && !r.preparing && r.preparation.None?
    && a.run.exitCode == ReportedCode(a)
    && (!a.completion.Finishing? ==> a.run.source.finish.None?)
    && (if Undecided(a.completion)
        then a.run.phase == Running && r.stored.value.phase == Running && r.finalization.None?
        else Terminal(a.run.phase) && (a.run.phase == Passed ==> CleanExit(a)) && JudgedByFlags(a))
    && (!a.completion.NotCompleting? ==> a.report.Some? || a.cancellationRequested || a.timedOut)
    && (a.completion.ObservingFinish? ==>
          && observing && a.run.source.enqueue.Some? && r.finalization.None?
          && (a.run.phase == Passed <==> Succeeded(a)))
    && (a.completion.Finishing? ==>
          && !r.timer && r.finalization == Some(Finalization(OfActive, false))
          && (a.run.phase == Passed ==> Confirmed(a.run, observing))
          && (a.run.phase == Passed <==> Succeeded(a) && SourceConfirmed(a.run, observing)))
    && (a.completion.AwaitingOutput? || !Undecided(a.completion) ==> a.groupStopped)
  }

  predicate GoodPreparation(r: Records)
    requires r.preparation.Some?
  {
    && r.active.None? && r.stored.Some?
    && match r.preparation.value {
         case AwaitingPreflight(run) =>
           && SameRun(run, r.stored.value) && run.phase == Queued && run.exitCode.None?
           && run.source.enqueue.Some? && run.source.finish.None?
           && r.stored.value.phase != Running
           && (r.preparing ==> r.finalization.None?)
           && (r.stored.value.phase == Queued ==> r.preparing || r.finalization.Some?)
         case AwaitingFinish =>
           r.finalization.Some? || Terminal(r.stored.value.phase)
       }
  }

  predicate GoodFinalization(r: Records)
    requires r.finalization.Some?
  {
    && r.stored.Some?
    && match r.finalization.value {
         case Finalization(of, true) => r.active.None? && !r.preparing && Terminal(r.stored.value.phase)
         case Finalization(OfActive, false) => r.active.Some? && r.active.value.completion.Finishing?
         case Finalization(OfCopy(run), false) =>
           && r.active.None? && SameRun(run, r.stored.value)
           && Terminal(run.phase) && run.phase != Passed && !Terminal(r.stored.value.phase)
       }
  }

  predicate Good(r: Records, id: Id, observing: bool) {
    && (r.stored.Some? ==>
          && r.stored.value.id == id
          && (r.stored.value.phase == Queued ==> r.stored.value.exitCode.None? && r.stored.value.source.finish.None?)
          && (r.stored.value.phase == Running ==> r.active.Some? || r.finalization.Some?)
          && (r.stored.value.phase == Passed ==> r.active.Some? || Confirmed(r.stored.value, observing)))
    && (r.active.Some? ==> GoodActive(r, observing))
    && (r.preparing ==> r.stored.Some? && r.stored.value.phase == Queued && r.preparation.Some?)
    && (r.preparation.Some? ==> GoodPreparation(r))
    && (r.finalization.Some? ==> GoodFinalization(r))
    && (r.timer ==> r.active.Some?)
  }

  // ---- each step keeps it ----

  lemma CancelGood(r: Records, id: Id, observing: bool, actor: string)
    requires Good(r, id, observing)
    ensures Good(DoCancel(r, actor), id, observing)
  {
  }

  lemma PreflightThrowsGood(r: Records, id: Id, observing: bool)
    requires Good(r, id, observing) && Preflighting(r)
    ensures Good(PreflightThrows(r, r.preparation.value.run), id, observing)
  {
  }

  /**
   * A preflight answer that starts a run whose finalization is already in flight: `cancel` has taken
   * the run out of `preparing`, but its `cancelled` is not stored yet, so `prepare` still reads it as
   * queued.
   */
  predicate StartsTooLate(r: Records, closed: bool, observation: Observation, spawnFails: bool) {
    && Preflighting(r) && r.finalization.Some? && !closed && !spawnFails
    && r.stored.Some? && r.stored.value.phase == Queued
    && CompareSource(r.preparation.value.run.source.enqueue, Some(observation)) == Match
  }

  /** A preflight answer is harmless exactly when it does not start a run that is being finalized. */
  lemma PreflightAnsweredGood(r: Records, id: Id, observing: bool, closed: bool, observation: Observation, spawnFails: bool)
    requires Good(r, id, observing) && Preflighting(r)
    ensures Good(DoPreflightAnswered(r, r.preparation.value.run, closed, observation, spawnFails), id, observing)
       <==> !StartsTooLate(r, closed, observation, spawnFails)
  {
  }

  lemma AdmitGood(r: Records, id: Id, observing: bool, spawnThrows: bool, observerThrows: bool)
    requires Good(r, id, observing) && r.Waits() && !r.preparing
    ensures Good(Admit(r, r.stored.value, observing, spawnThrows, observerThrows), id, observing)
  {
  }

  lemma ChildReportsGood(r: Records, id: Id, observing: bool, report: Report)
    requires Good(r, id, observing) && r.active.Some? && r.active.value.report.None?
    ensures Good(DoChildReports(r, r.active.value, report), id, observing)
  {
  }

  lemma TimeoutGood(r: Records, id: Id, observing: bool)
    requires Good(r, id, observing)
    ensures Good(DoTimeout(r), id, observing)
  {
  }

  lemma OutputClosesGood(r: Records, id: Id, observing: bool)
    requires Good(r, id, observing) && r.active.Some? && r.active.value.completion == AwaitingOutput
    ensures Good(DoOutputCloses(r, r.active.value, observing), id, observing)
  {
    var a := r.active.value;
    if observing && a.run.source.enqueue.Some? {
      ObservedCloseGood(r, id, a);
    } else {
      UnobservedCloseGood(r, id, observing, a);
    }
  }

  lemma ObservedCloseGood(r: Records, id: Id, a: Active)
    requires Good(r, id, true) && r.active == Some(a) && a.completion == AwaitingOutput && a.run.source.enqueue.Some?
    ensures Good(r.(active := Some(a.(run := Judged(a), completion := ObservingFinish))), id, true)
  {
  }

  lemma UnobservedCloseGood(r: Records, id: Id, observing: bool, a: Active)
    requires Good(r, id, observing) && r.active == Some(a) && a.completion == AwaitingOutput
    requires !observing || a.run.source.enqueue.None?
    ensures Good(FinishActive(r, a, Judged(a)), id, observing)
  {
  }

  lemma FinishObservedGood(r: Records, id: Id, observing: bool, finish: Option<Observation>)
    requires Good(r, id, observing) && r.active.Some? && r.active.value.completion == ObservingFinish
    ensures Good(FinishActive(r, r.active.value, Qualified(r.active.value.run, finish)), id, observing)
  {
    QualifiedMeans(r.active.value.run, finish);
    FinishGood(r, id, observing, r.active.value, Qualified(r.active.value.run, finish));
  }

  /** All that qualification changes: the source's evidence, and a pass that it does not confirm. */
  ghost predicate QualifiedFrom(run: Run, q: Run) {
    && q == run.(source := q.source, phase := q.phase, errors := q.errors)
    && q.source.enqueue == run.source.enqueue && q.source.processOutcome == run.source.processOutcome
    && (if run.phase == Passed && QualifySource(q.source).attribution != ObservedMatch
        then q.phase == Failed && q.errors == [SourceUnconfirmed]
        else q.phase == run.phase && q.errors == run.errors)
  }

  lemma QualifiedMeans(run: Run, finish: Option<Observation>)
    ensures QualifiedFrom(run, Qualified(run, finish))
  {
    var source := run.source.(finish := Some(if finish.Some? then finish.value else FAILED_OBSERVATION));
    QualifyIdempotent(source);
  }

  lemma FinishGood(r: Records, id: Id, observing: bool, a: Active, q: Run)
    requires Good(r, id, observing) && r.active == Some(a) && a.completion == ObservingFinish
    requires QualifiedFrom(a.run, q)
    ensures Good(FinishActive(r, a, q), id, observing)
  {
  }

  lemma FinalizationStoresGood(r: Records, id: Id, observing: bool, logFailed: bool)
    requires Good(r, id, observing) && r.finalization.Some? && !r.finalization.value.stored
    ensures Good(DoFinalizationStores(r, logFailed), id, observing)
  {
  }

  // ---- all runs together ----

  ghost predicate AllGood(s: State) {
    forall id: Id :: Good(At(s, id), id, s.observing)
  }

  predicate SharesWorktree(a: Records, b: Records) {
    a.stored.Some? && b.stored.Some? && a.stored.value.worktree == b.stored.value.worktree
  }

  /** No two runs that hold a slot are in the same worktree. */
  ghost predicate Exclusive(s: State) {
    forall i: Id, j: Id :: i != j && At(s, i).Holds() && At(s, j).Holds() ==> !SharesWorktree(At(s, i), At(s, j))
  }

  ghost predicate Inv(s: State) { AllGood(s) && Exclusive(s) }

  // ---- counting slots ----

  function Weight(r: Records): nat {
    (if r.active.Some? then 1 else 0) + (if r.preparing then 1 else 0)
  }

  lemma SetSize<V>(m: map<Id, V>, id: Id, value: Option<V>)
    ensures |Set(m, id, value)| == |m| - (if id in m then 1 else 0) + (if value.Some? then 1 else 0)
  {
    var rest := m - {id};
    assert rest.Keys == m.Keys - {id};
    if value.Some? {
      assert Set(m, id, value).Keys == rest.Keys + {id};
    }
  }

  lemma PutOccupancy(s: State, id: Id, r: Records)
    ensures Occupancy(Put(s, id, r)) == Occupancy(s) - Weight(At(s, id)) + Weight(r)
  {
    SetSize(s.active, id, r.active);
    assert |Mark(s.preparing, id, r.preparing)|
        == |s.preparing| - (if id in s.preparing then 1 else 0) + (if r.preparing then 1 else 0);
  }

  /** `t` is `s` with the records of one run replaced, as far as the invariants can tell. */
  ghost predicate Written(s: State, t: State, id: Id, r: Records) {
    && At(t, id) == r
    && (forall j: Id :: j != id ==> At(t, j) == At(s, j))
    && t.limit == s.limit && t.closed == s.closed && t.observing == s.observing
    && Occupancy(t) == Occupancy(s) - Weight(At(s, id)) + Weight(r)
  }

  lemma PutWrites(s: State, id: Id, r: Records)
    ensures Written(s, Put(s, id, r), id, r)
  {
    PutOccupancy(s, id, r);
    PutLooksUp(s, id, r);
  }

  lemma PutLooksUp(s: State, id: Id, r: Records)
    ensures At(Put(s, id, r), id) == r
    ensures forall j: Id :: j != id ==> At(Put(s, id, r), j) == At(s, j)
  {
  }

  /** What an allowed write of one run's records must satisfy to keep the invariant. */
  lemma WrittenKeeps(s: State, t: State, id: Id, r: Records)
    requires Inv(s) && Written(s, t, id, r) && Good(r, id, s.observing)
    requires r.Holds() ==> forall j: Id :: j != id && At(s, j).Holds() ==> !SharesWorktree(r, At(s, j))
    ensures Inv(t)
  {
  }

  ghost predicate Allowed(s: State, e: Event) {
    e.PreflightAnswered? ==> !StartsTooLate(At(s, e.id), s.closed, e.observation, e.spawnFails)
  }

  lemma AfterGood(s: State, e: Event)
    requires Inv(s) && Enabled(s, e) && Allowed(s, e) && Subject(e).Some? && !e.Enqueue?
    ensures Good(After(s, e), e.id, s.observing)
  {
    var r := At(s, e.id);
    assert Good(r, e.id, s.observing);
    match e
    case Cancel(id, actor) => CancelGood(r, id, s.observing, actor);
    case PreflightAnswered(id, o, fails) => PreflightAnsweredGood(r, id, s.observing, s.closed, o, fails);
    case PreflightRejected(id) => PreflightThrowsGood(r, id, s.observing);
    case ChildReports(id, report) => ChildReportsGood(r, id, s.observing, report);
    case TimeoutTimer(id) => TimeoutGood(r, id, s.observing);
    case OutputCloses(id) => OutputClosesGood(r, id, s.observing);
    case FinishObserved(id, finish) => FinishObservedGood(r, id, s.observing, finish);
    case FinalizationStores(id, logFailed) => FinalizationStoresGood(r, id, s.observing, logFailed);
    case _ =>
  }

  /** Outside the pump a run never gains a slot, and none moves to another worktree. */
  lemma AfterHolds(s: State, e: Event)
    requires Inv(s) && Enabled(s, e) && Allowed(s, e) && Subject(e).Some? && !e.Enqueue?
    ensures After(s, e).Holds() ==> At(s, e.id).Holds()
    ensures After(s, e).stored.Some? ==> SharesWorktree(After(s, e), At(s, e.id))
  {
    assert Good(At(s, e.id), e.id, s.observing);
  }
}
