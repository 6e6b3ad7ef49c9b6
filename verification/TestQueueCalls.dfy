/** What the calls of the verification queue mean to their callers, in terms of runs and answers alone. */
module TestQueueCalls {
  import opened Results
  import opened SourceAttribution
  import opened TestQueue
  import opened TestQueueSafety

  /** The run a call sees: the one being executed, or the stored one. */
  function RunSeen(s: State, id: Id): Run
    requires id in s.store
  {
    if id in s.active then s.active[id].run else s.store[id]
  }

  /** Agents may cancel their own runs only; the local user may cancel any. */
  predicate Refuses(s: State, id: Id, actor: string) {
    id in s.store && actor != "local-user" && RunSeen(s, id).actor != actor
  }

  // ---- cancelling ----

  /** A queued run gives up its place and is on its way to being stored as cancelled. */
  ghost predicate CancelledInQueue(s: State, t: State, id: Id)
    requires id in s.store
  {
    && id !in t.preparing
    && (id !in s.finalizations ==>
          && id in t.finalizations && id !in t.timers
          && t.finalizations[id] == Finalization(OfCopy(RunSeen(s, id).(phase := Cancelled)), false))
    && (id in s.finalizations ==> id in t.finalizations && t.finalizations[id] == s.finalizations[id])
  }

  /** A running process is marked, unless it has exited already, and its cleanup begins if none is under way. */
  ghost predicate CancelledWhileRunning(s: State, t: State, id: Id)
    requires id in s.active
  {
    && id in t.active
    && (t.active[id].cancellationRequested
        <==> s.active[id].cancellationRequested || !(s.active[id].report.Some? && s.active[id].report.value.Exited?))
    && t.active[id].completion == (if s.active[id].completion == NotCompleting then Stopping else s.active[id].completion)
    && t.active[id].run == s.active[id].run
  }

  /** Finished runs, and calls that are refused, leave the records of the run as they are. */
  ghost predicate CancelsAs(s: State, t: State, id: Id, actor: string) {
    && (forall j: Id :: j != id ==> At(t, j) == At(s, j))
    && (id in s.store ==> id in t.store && t.store[id] == s.store[id])
    && (if id !in s.store || Refuses(s, id, actor) then At(t, id) == At(s, id)
        else if RunSeen(s, id).phase == Queued then CancelledInQueue(s, t, id)
        else if id in s.active && RunSeen(s, id).phase == Running then CancelledWhileRunning(s, t, id)
        else At(t, id) == At(s, id))
  }

  lemma CancelMeans(s: State, id: Id, actor: string)
    ensures CancelsAs(s, Next(s, Cancel(id, actor)), id, actor)
  {
    PutLooksUp(s, id, DoCancel(At(s, id), actor));
    CancelAt(s, Next(s, Cancel(id, actor)), id, actor);
  }

  lemma CancelAt(s: State, t: State, id: Id, actor: string)
    requires At(t, id) == DoCancel(At(s, id), actor) && forall j: Id :: j != id ==> At(t, j) == At(s, j)
    ensures CancelsAs(s, t, id, actor)
  {
  }

  // ---- adding a run ----

  /** The run stored under the caller's own key. */
  predicate Repeats(s: State, input: Input) {
    input.key.Some? && (input.actor, input.key.value) in s.keys && s.keys[(input.actor, input.key.value)] in s.store
  }

  function Repeated(s: State, input: Input): Run
    requires Repeats(s, input)
  {
    s.store[s.keys[(input.actor, input.key.value)]]
  }

  predicate SameTarget(run: Run, input: Input) {
    run.projectId == input.projectId && run.worktree == input.worktree && run.presetId == input.presetId
  }

  /** A queued run of this input that nothing has happened to yet. */
  predicate IsNew(run: Run, id: Id, input: Input) {
    && run.id == id && SameTarget(run, input) && run.actor == input.actor && run.queuedAt == input.queuedAt
    && run.phase == Queued && run.exitCode.None? && run.errors == []
    && run.source.enqueue == input.observation && run.source.preflight.None? && run.source.finish.None?
  }

  /** The answer: a closed queue refuses, a key is replayed for the same target only, and the queue holds a hundred. */
  ghost predicate AnswersAs(s: State, id: Id, input: Input, answer: Enqueued) {
    if s.closed then answer == Refused(QueueClosed)
    else if Repeats(s, input) then
      answer == if SameTarget(Repeated(s, input), input) then Replayed(Repeated(s, input)) else Refused(KeyInUse)
    else if |set i | i in s.store && s.store[i].phase == Queued| >= 100 then answer == Refused(QueueFull)
    else answer.Accepted? && IsNew(answer.run, id, input)
  }

  /** Only an accepted run changes anything: it is stored, under its key, and the pump is woken. */
  ghost predicate EnqueuesAs(s: State, t: State, id: Id, input: Input, answer: Enqueued) {
    if !answer.Accepted? then t == s
    else
      && t.store == s.store[id := answer.run] && t.pumping
      && t.keys == (if input.key.Some? then s.keys[(input.actor, input.key.value) := id] else s.keys)
      && t.active == s.active && t.preparing == s.preparing && t.finalizations == s.finalizations
  }

  lemma EnqueueMeans(s: State, id: Id, input: Input)
    requires Enabled(s, Enqueue(id, input))
    ensures var answer := EnqueueResult(s, id, input);
            AnswersAs(s, id, input, answer) && EnqueuesAs(s, Next(s, Enqueue(id, input)), id, input, answer)
  {
    assert QueuedIds(s) == set i | i in s.store && s.store[i].phase == Queued;
  }

  // ---- the preflight's answer ----

  /** The process is there, over the source that was observed. */
  ghost predicate StartedOver(t: State, id: Id, observation: Observation) {
    && id in t.active && id in t.store && id !in t.preparing && id !in t.preparations
    && t.active[id].run.phase == Running && t.store[id].phase == Running
    && t.active[id].run.source.preflight == Some(observation)
  }

  /** A run whose source is not the one that was queued fails for the right reason. */
  ghost predicate FailsFor(t: State, id: Id, reason: Failure) {
    && id !in t.preparing && id in t.finalizations && t.finalizations[id].of.OfCopy? && !t.finalizations[id].stored
    && t.finalizations[id].of.run.phase == Failed && t.finalizations[id].of.run.errors == [reason]
  }

  /** Nothing is started if the queue was closed or the run has left it; else the two observations decide. */
  ghost predicate AnsweredAs(s: State, t: State, id: Id, observation: Observation, spawnFails: bool)
    requires id in s.preparations && s.preparations[id].AwaitingPreflight?
  {
    var enqueued := s.preparations[id].run.source.enqueue;
    if s.closed || id !in s.store || s.store[id].phase != Queued then
      At(t, id) == At(s, id).(preparing := false, preparation := None)
    else if enqueued.None? then id in s.finalizations || FailsFor(t, id, SourceUnknown)
    else if Conflict(enqueued.value, observation) then id in s.finalizations || FailsFor(t, id, SourceMoved)
    else if !(enqueued.value.complete && observation.complete) then id in s.finalizations || FailsFor(t, id, SourceUnknown)
    else spawnFails || StartedOver(t, id, observation)
  }

  lemma AnswerMeans(s: State, id: Id, observation: Observation, spawnFails: bool)
    requires Enabled(s, PreflightAnswered(id, observation, spawnFails))
    ensures AnsweredAs(s, Next(s, PreflightAnswered(id, observation, spawnFails)), id, observation, spawnFails)
  {
    var e := PreflightAnswered(id, observation, spawnFails);
    var after := After(s, e);
    PutLooksUp(s, id, after);
    AnswerAt(s, Next(s, e), id, observation, spawnFails);
  }

  lemma AnswerAt(s: State, t: State, id: Id, observation: Observation, spawnFails: bool)
    requires id in s.preparations && s.preparations[id].AwaitingPreflight?
    requires At(t, id) == DoPreflightAnswered(At(s, id), s.preparations[id].run, s.closed, observation, spawnFails)
    ensures AnsweredAs(s, t, id, observation, spawnFails)
  {
  }

  /** An observer that throws fails the run, if it is still queued. */
  ghost predicate RejectedAs(s: State, t: State, id: Id) {
    if id in s.store && s.store[id].phase == Queued then
      id in s.finalizations
      || (id in t.finalizations && !t.finalizations[id].stored && t.finalizations[id].of.OfCopy?
          && t.finalizations[id].of.run.phase == Failed && t.finalizations[id].of.run.errors == [PreflightThrew])
    else At(t, id) == At(s, id).(preparing := false, preparation := None)
  }

  lemma RejectionMeans(s: State, id: Id)
    requires Enabled(s, PreflightRejected(id))
    ensures RejectedAs(s, Next(s, PreflightRejected(id)), id)
  {
    PutLooksUp(s, id, After(s, PreflightRejected(id)));
    RejectionAt(s, Next(s, PreflightRejected(id)), id, s.preparations[id].run);
  }

  lemma RejectionAt(s: State, t: State, id: Id, run: Run)
    requires At(t, id) == PreflightThrows(At(s, id), run)
    ensures RejectedAs(s, t, id)
  {
  }

  // ---- the end of a process ----

  /** The report is kept, its exit code or error is the run's, and the cleanup begins if none is under way. */
  ghost predicate ReportedAs(s: State, t: State, id: Id, report: Report)
    requires id in s.active
  {
    && id in t.active && t.active[id].report == Some(report)
    && (report.Exited? ==> t.active[id].run == s.active[id].run.(exitCode := report.code))
    && (report.SpawnErrored? ==> t.active[id].run == s.active[id].run.(errors := [ChildErrored]))
    && t.active[id].completion == (if s.active[id].completion == NotCompleting then Stopping else s.active[id].completion)
  }

  lemma ReportMeans(s: State, id: Id, report: Report)
    requires Enabled(s, ChildReports(id, report))
    ensures ReportedAs(s, Next(s, ChildReports(id, report)), id, report)
  {
    PutLooksUp(s, id, After(s, ChildReports(id, report)));
    ReportAt(s, Next(s, ChildReports(id, report)), id, report);
  }

  lemma ReportAt(s: State, t: State, id: Id, report: Report)
    requires id in s.active && At(t, id) == DoChildReports(At(s, id), s.active[id], report)
    ensures ReportedAs(s, t, id, report)
  {
    assert At(t, id).active.Some?;
  }

  /** A cleanup that failed keeps the slot, stores why, and can be tried again. */
  ghost predicate KeptAs(s: State, t: State, id: Id)
    requires id in s.active
  {
    && id in t.active && t.active[id].completion == NotCompleting
    && t.active[id].run == s.active[id].run.(errors := [CleanupUnconfirmed])
    && id in t.store && t.store[id] == t.active[id].run && id !in t.timers
  }

  lemma KeepingMeans(s: State, id: Id)
    requires Enabled(s, GroupStopFails(id))
    ensures KeptAs(s, Next(s, GroupStopFails(id)), id)
  {
    PutLooksUp(s, id, After(s, GroupStopFails(id)));
    KeepingAt(s, Next(s, GroupStopFails(id)), id);
  }

  lemma KeepingAt(s: State, t: State, id: Id)
    requires id in s.active && At(t, id) == DoGroupStopFails(At(s, id), s.active[id])
    ensures KeptAs(s, t, id)
  {
    assert At(t, id).active.Some? && At(t, id).stored.Some?;
  }

  // ---- the end of a run ----

  /** The run is stored as it was judged, with the failure of its log, and its slot is free. */
  ghost predicate StoredAs(s: State, t: State, id: Id, run: Run, logFailed: bool) {
    && id in t.store && id !in t.active && id !in t.preparing && id !in t.timers
    && t.store[id].phase == (if logFailed && run.phase == Passed then Failed else run.phase)
    && t.store[id].errors == (if logFailed then run.errors + [LogFailed] else run.errors)
    && t.store[id].source == run.source && t.store[id].exitCode == run.exitCode
  }

  lemma StoringMeans(s: State, id: Id, logFailed: bool)
    requires Enabled(s, FinalizationStores(id, logFailed))
    ensures var of := s.finalizations[id].of;
            StoredAs(s, Next(s, FinalizationStores(id, logFailed)), id,
                     if of.OfActive? then s.active[id].run else of.run, logFailed)
  {
    PutLooksUp(s, id, After(s, FinalizationStores(id, logFailed)));
    StoringAt(s, Next(s, FinalizationStores(id, logFailed)), id, logFailed);
  }

  lemma StoringAt(s: State, t: State, id: Id, logFailed: bool)
    requires Enabled(s, FinalizationStores(id, logFailed))
    requires At(t, id) == DoFinalizationStores(At(s, id), logFailed)
    ensures var of := s.finalizations[id].of;
            StoredAs(s, t, id, if of.OfActive? then s.active[id].run else of.run, logFailed)
  {
  }
}
