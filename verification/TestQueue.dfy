/**
 * The verification queue (src/server/test-job-manager.ts) as a step machine. A step is one
 * synchronous stretch of the manager: a call, a timer or child callback, the pump microtask, or the
 * part of an asynchronous function between two awaits. Apart from the pump, a step concerns one run,
 * so it is given as what it does to that run's records. `TestJobManager.dfy` holds the class whose
 * methods take these steps on the manager's own maps and sets.
 */
module TestQueue {
  import opened Results
  import opened SourceAttribution
  import OrderedSets

  type Id = nat

  const MAX_QUEUED_RUNS := 100
  const MIN_LIMIT := 1
  const MAX_LIMIT := 16

  datatype Phase = Queued | Running | Passed | Failed | Cancelled | TimedOut | Interrupted

  /** The parts an error text is put together from; the empty sequence is a null error. */
  datatype Failure =
    | SpawnThrew | ChildErrored | CleanupUnconfirmed | ExitStatus
    | SourceUnconfirmed | SourceMoved | SourceUnknown | PreflightThrew | LogFailed

  datatype Run = Run(
    id: Id, projectId: string, worktree: string, presetId: string, actor: string, phase: Phase,
    queuedAt: nat, exitCode: Option<int>, errors: seq<Failure>, source: Evidence)

  /** A child reports exactly once: the exit code (none when a signal ended it) or a spawn error. */
  datatype Report = Exited(code: Option<int>) | SpawnErrored

  /** Where the asynchronous `complete` of a run is waiting. */
  datatype Completion = NotCompleting | Stopping | AwaitingOutput | ObservingFinish | Finishing

  datatype Active = Active(
    run: Run, cancellationRequested: bool, timedOut: bool, report: Option<Report>,
    completion: Completion, groupStopped: bool)
  {
    predicate HasExited() { report.Some? && report.value.Exited? }
  }

  /** Where the asynchronous `prepare` of a run is waiting, with the run object it holds. */
  datatype Preparation = AwaitingPreflight(run: Run) | AwaitingFinish

  /** The run object a finalization stores: the active entry's own, or another copy. */
  datatype Finalized = OfActive | OfCopy(run: Run)
  datatype Finalization = Finalization(of: Finalized, stored: bool)

  datatype State = State(
    store: map<Id, Run>,
    keys: map<(string, string), Id>,
    limit: nat,
    active: map<Id, Active>,
    preparing: set<Id>,
    preparations: map<Id, Preparation>,
    finalizations: map<Id, Finalization>,
    timers: set<Id>,
    pumping: bool,
    closed: bool,
    observing: bool)

  predicate Terminal(phase: Phase) { !phase.Queued? && !phase.Running? }

  function Occupancy(s: State): nat { |s.active| + |s.preparing| }

  // ---- the records of one run ----

  datatype Records = Records(
    stored: Option<Run>, active: Option<Active>, preparing: bool,
    preparation: Option<Preparation>, finalization: Option<Finalization>, timer: bool)
  {
    /** The slot and worktree exclusion a run holds. */
    predicate Holds() { active.Some? || preparing }

    predicate Waits() { stored.Some? && stored.value.phase == Queued && finalization.None? }
  }

  function Get<V>(m: map<Id, V>, id: Id): Option<V> {
    if id in m then Some(m[id]) else None
  }

  function Set<V>(m: map<Id, V>, id: Id, value: Option<V>): map<Id, V> {
    if value.Some? then m[id := value.value] else m - {id}
  }

  function Mark(s: set<Id>, id: Id, present: bool): set<Id> {
    if present then s + {id} else s - {id}
  }

  function At(s: State, id: Id): Records {
    Records(Get(s.store, id), Get(s.active, id), id in s.preparing,
            Get(s.preparations, id), Get(s.finalizations, id), id in s.timers)
  }

  function Put(s: State, id: Id, r: Records): State {
    s.(store := Set(s.store, id, r.stored),
       active := Set(s.active, id, r.active),
       preparing := Mark(s.preparing, id, r.preparing),
       preparations := Set(s.preparations, id, r.preparation),
       finalizations := Set(s.finalizations, id, r.finalization),
       timers := Mark(s.timers, id, r.timer))
  }

  function Pump(s: State): State {
    if s.pumping || s.closed then s else s.(pumping := true)
  }

  // ---- the pieces steps are made of ----

  /** `finish`: an existing finalization is shared; a new one takes over the run's timer. */
  function Finish(r: Records, of: Finalized): Records {
    if r.finalization.Some? then r else r.(finalization := Some(Finalization(of, false)), timer := false)
  }

  function Complete(r: Records, a: Active): Records {
    r.(active := Some(if a.completion == NotCompleting then a.(completion := Stopping) else a))
  }

  function Start(r: Records, run: Run, spawnThrows: bool): Records {
    var started := run.(phase := Running);
    var saved := r.(stored := Some(started));
    if spawnThrows then Finish(saved, OfCopy(started.(phase := Failed, errors := [SpawnThrew])))
    else saved.(active := Some(Active(started, false, false, None, NotCompleting, false)))
  }

  function PreflightFailure(run: Run): Run {
    var codes := OrderedSets.Add(OrderedSets.AddAll([], run.source.reasonCodes), PreflightFailed);
    run.(phase := Failed, errors := [PreflightThrew], source := QualifySource(run.source.(reasonCodes := codes)))
  }

  /** The `finally` of `prepare`. */
  function PreparationDone(r: Records): Records {
    r.(preparation := None, preparing := false)
  }

  /** The `catch` of `prepare`: its run fails unless another copy has already left the queue. */
  function PreflightThrows(r: Records, run: Run): Records {
    if r.stored.Some? && r.stored.value.phase == Queued
    then Finish(r, OfCopy(PreflightFailure(run))).(preparation := Some(AwaitingFinish))
    else PreparationDone(r)
  }

  /**
   * `prepare` up to its first await. Without an observer or an enqueue observation the run starts
   * before `prepare` returns, so the reservation in `preparing` is gone again.
   */
  function Admit(r: Records, run: Run, observing: bool, spawnThrows: bool, observerThrows: bool): Records {
    if !observing || run.source.enqueue.None? then PreparationDone(Start(r, run, spawnThrows))
    else if observerThrows then PreflightThrows(r.(preparing := true), run)
    else r.(preparing := true, preparation := Some(AwaitingPreflight(run)))
  }

  // ---- verdicts ----

  function Verdict(a: Active): Phase {
    if a.cancellationRequested then Cancelled
    else if a.timedOut then TimedOut
    else if a.run.exitCode == Some(0) && a.report != Some(SpawnErrored) then Passed
    else Failed
  }

  function OutcomeOf(phase: Phase): ProcessOutcome {
    match phase
    case Passed => OutcomePassed
    case Cancelled => OutcomeCancelled
    case TimedOut => OutcomeTimedOut
    case _ => OutcomeFailed
  }

  function Judged(a: Active): Run {
    var phase := Verdict(a);
    a.run.(errors := if a.report == Some(SpawnErrored) then [ChildErrored] else [], phase := phase,
           source := a.run.source.(processOutcome := Some(OutcomeOf(phase))))
  }

  function WithExitStatus(run: Run): Run {
    if run.phase == Failed && run.errors == [] then run.(errors := [ExitStatus]) else run
  }

  const FAILED_OBSERVATION := Observation(None, None, None, None, false, Some(FinishFailed))

  function Qualified(run: Run, finish: Option<Observation>): Run {
    var observation := if finish.Some? then finish.value else FAILED_OBSERVATION;
    var source := QualifySource(run.source.(finish := Some(observation)));
    if run.phase == Passed && source.attribution != ObservedMatch
    then run.(source := source, phase := Failed, errors := [SourceUnconfirmed])
    else run.(source := source)
  }

  function FinishActive(r: Records, a: Active, run: Run): Records {
    Finish(r.(active := Some(a.(run := WithExitStatus(run), completion := Finishing))), OfActive)
  }

  function FinalRun(run: Run, logFailed: bool): Run {
    if !logFailed then run
    else run.(errors := run.errors + [LogFailed], phase := if run.phase == Passed then Failed else run.phase)
  }

  // ---- what each step does to its run ----

  predicate MayCancel(run: Run, actor: string) { actor == "local-user" || run.actor == actor }

  function DoCancel(r: Records, actor: string): Records {
    if r.stored.None? then r
    else
      var run := if r.active.Some? then r.active.value.run else r.stored.value;
      if !MayCancel(run, actor) then r
      else if run.phase == Queued then Finish(r.(preparing := false), OfCopy(run.(phase := Cancelled)))
      else if r.active.None? || run.phase != Running then r
      else
        var a := r.active.value;
        Complete(r, if a.HasExited() then a else a.(cancellationRequested := true))
  }

  function WithPreflight(run: Run, observation: Observation): Run {
    run.(source := run.source.(preflight := Some(observation),
                               queueComparison := CompareSource(run.source.enqueue, Some(observation))))
  }

  /** The run of a preflight that did not match, as it is finished. */
  function SourceRefused(run: Run): Run {
    run.(source := QualifySource(run.source), phase := Failed,
         errors := [if run.source.queueComparison == Changed then SourceMoved else SourceUnknown])
  }

  function DoPreflightAnswered(r: Records, held: Run, closed: bool, observation: Observation, spawnFails: bool): Records {
    var run := WithPreflight(held, observation);
    if closed || r.stored.None? || r.stored.value.phase != Queued then PreparationDone(r)
    else
      var saved := r.(stored := Some(run), timer := false, preparing := false);
      if run.source.queueComparison != Match
      then Finish(saved, OfCopy(SourceRefused(run))).(preparation := Some(AwaitingFinish))
      else PreparationDone(Start(saved, run, spawnFails))
  }

  function DoChildReports(r: Records, a: Active, report: Report): Records {
    var run := match report
      case Exited(code) => a.run.(exitCode := code)
      case SpawnErrored => a.run.(errors := [ChildErrored]);
    Complete(r, a.(report := Some(report), run := run))
  }

  function DoTimeout(r: Records): Records {
    if r.active.None? || r.active.value.HasExited() then r
    else Complete(r, r.active.value.(timedOut := true))
  }

  function DoGroupStops(r: Records, a: Active): Records {
    r.(active := Some(a.(completion := AwaitingOutput, groupStopped := true)))
  }

  function DoGroupStopFails(r: Records, a: Active): Records {
    var run := a.run.(errors := [CleanupUnconfirmed]);
    r.(active := Some(a.(run := run, completion := NotCompleting)), stored := Some(run), timer := false)
  }

  function DoOutputCloses(r: Records, a: Active, observing: bool): Records {
    if observing && a.run.source.enqueue.Some?
    then r.(active := Some(a.(run := Judged(a), completion := ObservingFinish)))
    else FinishActive(r, a, Judged(a))
  }

  function DoFinalizationStores(r: Records, logFailed: bool): Records
    requires r.finalization.Some? && (r.finalization.value.of.OfActive? ==> r.active.Some?)
  {
    var of := r.finalization.value.of;
    var run := FinalRun(if of.OfActive? then r.active.value.run else of.run, logFailed);
    r.(stored := Some(run), timer := false, active := None, preparing := false,
       finalization := Some(Finalization(of, true)))
  }

  // ---- admission of queued runs ----

  function AdmitOne(s: State, id: Id, spawnThrows: set<Id>, observerThrows: set<Id>): State
    requires id in s.store
  {
    Put(s, id, Admit(At(s, id), s.store[id], s.observing, id in spawnThrows, id in observerThrows))
  }

  /** One pass over the queue in order, taking every run whose worktree is free until the limit. */
  function AdmitAll(s: State, queue: seq<Id>, occupied: set<string>,
                    spawnThrows: set<Id>, observerThrows: set<Id>): State
    decreases |queue|
  {
    if queue == [] || Occupancy(s) >= s.limit then s
    else
      var id := queue[0];
      if id !in s.store || s.store[id].worktree in occupied
      then AdmitAll(s, queue[1..], occupied, spawnThrows, observerThrows)
      else
        AdmitAll(AdmitOne(s, id, spawnThrows, observerThrows), queue[1..], occupied + {s.store[id].worktree},
                 spawnThrows, observerThrows)
  }

  function Waiting(s: State, pending: seq<Id>): seq<Id>
    decreases |pending|
  {
    if pending == [] then []
    else (if At(s, pending[0]).Waits() then [pending[0]] else []) + Waiting(s, pending[1..])
  }

  function OccupiedWorktrees(s: State): set<string> {
    set id | id in s.store && At(s, id).Holds() :: s.store[id].worktree
  }

  predicate Before(a: Run, b: Run) {
    a.queuedAt < b.queuedAt || (a.queuedAt == b.queuedAt && a.id < b.id)
  }

  ghost predicate InOrder(s: State, ids: seq<Id>) {
    && (forall id :: id in ids ==> id in s.store)
    && (forall i, j :: 0 <= i < j < |ids| ==> Before(s.store[ids[i]], s.store[ids[j]]))
  }

  /** The store's answer to the pending query: every unfinished run, oldest first. */
  ghost predicate IsPendingList(s: State, pending: seq<Id>) {
    && (forall id :: id in pending <==> id in s.store && !Terminal(s.store[id].phase))
    && InOrder(s, pending)
  }

  function DoPumpRuns(s: State, pending: seq<Id>, spawnThrows: set<Id>, observerThrows: set<Id>): State {
    if s.closed then s.(pumping := false)
    else AdmitAll(s, Waiting(s, pending), OccupiedWorktrees(s), spawnThrows, observerThrows).(pumping := false)
  }

  /** `markInterruptedTestRuns`: what a new manager finds unfinished has been interrupted. */
  function Interrupt(store: map<Id, Run>): map<Id, Run> {
    map id | id in store ::
      if Terminal(store[id].phase) then store[id] else store[id].(phase := Interrupted)
  }

  // ---- admission of new runs ----

  datatype Input = Input(
    projectId: string, worktree: string, presetId: string, actor: string, key: Option<string>,
    queuedAt: nat, observation: Option<Observation>)

  datatype Refusal = QueueClosed | KeyInUse | QueueFull
  datatype Enqueued = Refused(refusal: Refusal) | Replayed(run: Run) | Accepted(run: Run)

  function QueuedIds(s: State): set<Id> {
    set id | id in s.store && s.store[id].phase == Queued
  }

  /** `replay`: the run stored under the actor's idempotency key. */
  function Replay(s: State, input: Input): Option<Run> {
    if input.key.Some? && (input.actor, input.key.value) in s.keys
    then Get(s.store, s.keys[(input.actor, input.key.value)])
    else None
  }

  function NewRun(id: Id, input: Input): Run {
    Run(id, input.projectId, input.worktree, input.presetId, input.actor, Queued, input.queuedAt, None, [],
        if input.observation.Some? then PendingEvidence(input.observation.value) else LegacyEvidence())
  }

  function EnqueueResult(s: State, id: Id, input: Input): Enqueued {
    var repeated := Replay(s, input);
    if s.closed then Refused(QueueClosed)
    else if repeated.Some? then
      if repeated.value.projectId != input.projectId || repeated.value.worktree != input.worktree
         || repeated.value.presetId != input.presetId
      then Refused(KeyInUse) else Replayed(repeated.value)
    else if |QueuedIds(s)| >= MAX_QUEUED_RUNS then Refused(QueueFull)
    else Accepted(NewRun(id, input))
  }

  function DoEnqueue(s: State, id: Id, input: Input): State {
    if !EnqueueResult(s, id, input).Accepted? then s
    else
      Pump(s.(store := s.store[id := NewRun(id, input)],
              keys := if input.key.Some? then s.keys[(input.actor, input.key.value) := id] else s.keys))
  }

  // ---- steps ----

  datatype Event =
    | Enqueue(id: Id, input: Input)
    | Cancel(id: Id, actor: string)
    | SetLimit(limit: int)
    | Shutdown
    | PumpRuns(pending: seq<Id>, spawnThrows: set<Id>, observerThrows: set<Id>)
    | PreflightAnswered(id: Id, observation: Observation, spawnFails: bool)
    | PreflightRejected(id: Id)
    | PreparationReturns(id: Id)
    | ChildReports(id: Id, report: Report)
    | Output(id: Id)
    | PersistenceTimer(id: Id)
    | TimeoutTimer(id: Id)
    | GroupStops(id: Id)
    | GroupStopFails(id: Id)
    | OutputCloses(id: Id)
    | FinishObserved(id: Id, finish: Option<Observation>)
    | FinalizationStores(id: Id, logFailed: bool)
    | FinalizationReleases(id: Id)

  predicate Undecided(completion: Completion) {
    completion.NotCompleting? || completion.Stopping? || completion.AwaitingOutput?
  }

  predicate Preflighting(r: Records) { r.preparation.Some? && r.preparation.value.AwaitingPreflight? }

  ghost predicate Enabled(s: State, e: Event) {
    match e
    case Enqueue(id, input) => At(s, id) == Records(None, None, false, None, None, false)
    case PumpRuns(pending, _, _) => s.pumping && IsPendingList(s, pending)
    case PreflightAnswered(id, _, _) => Preflighting(At(s, id))
    case PreflightRejected(id) => Preflighting(At(s, id))
    case PreparationReturns(id) => At(s, id).preparation == Some(AwaitingFinish) && id !in s.finalizations
    case ChildReports(id, _) => id in s.active && s.active[id].report.None?
    case Output(id) => id in s.active && Undecided(s.active[id].completion)
    case PersistenceTimer(id) => id in s.timers && id in s.active
    case GroupStops(id) => id in s.active && s.active[id].completion == Stopping
    case GroupStopFails(id) => id in s.active && s.active[id].completion == Stopping
    case OutputCloses(id) => id in s.active && s.active[id].completion == AwaitingOutput
    case FinishObserved(id, _) => id in s.active && s.active[id].completion == ObservingFinish
    case FinalizationStores(id, _) =>
      id in s.finalizations && !s.finalizations[id].stored && (s.finalizations[id].of.OfActive? ==> id in s.active)
    case FinalizationReleases(id) => id in s.finalizations && s.finalizations[id].stored
    case _ => true
  }

  /** The run a step concerns. */
  function Subject(e: Event): Option<Id> {
    match e
    case SetLimit(_) => None
    case Shutdown => None
    case PumpRuns(_, _, _) => None
    case _ => Some(e.id)
  }

  /** The records a step leaves for its run. */
  function After(s: State, e: Event): Records
    requires Enabled(s, e) && Subject(e).Some? && !e.Enqueue?
  {
    var r := At(s, e.id);
    match e
    case Cancel(id, actor) => DoCancel(r, actor)
    case PreflightAnswered(id, observation, spawnFails) =>
      DoPreflightAnswered(r, r.preparation.value.run, s.closed, observation, spawnFails)
    case PreflightRejected(id) => PreflightThrows(r, r.preparation.value.run)
    case PreparationReturns(id) => PreparationDone(r)
    case ChildReports(id, report) => DoChildReports(r, r.active.value, report)
    case Output(id) => r.(timer := true)
    case PersistenceTimer(id) => r.(timer := false, stored := Some(r.active.value.run))
    case TimeoutTimer(id) => DoTimeout(r)
    case GroupStops(id) => DoGroupStops(r, r.active.value)
    case GroupStopFails(id) => DoGroupStopFails(r, r.active.value)
    case OutputCloses(id) => DoOutputCloses(r, r.active.value, s.observing)
    case FinishObserved(id, finish) => FinishActive(r, r.active.value, Qualified(r.active.value.run, finish))
    case FinalizationStores(id, logFailed) => DoFinalizationStores(r, logFailed)
    case FinalizationReleases(id) => r.(finalization := None)
  }

  /** Steps that end in a call of `pump`: a returning `prepare` and a released finalization. */
  predicate Wakes(e: Event, after: Records) {
    match e
    case PreflightAnswered(_, _, _) => after.preparation.None?
    case PreflightRejected(_) => after.preparation.None?
    case PreparationReturns(_) => true
    case FinalizationReleases(_) => true
    case _ => false
  }

  function Next(s: State, e: Event): State
    requires Enabled(s, e)
  {
    match e
    case Enqueue(id, input) => DoEnqueue(s, id, input)
    case SetLimit(limit) => if MIN_LIMIT <= limit <= MAX_LIMIT then Pump(s.(limit := limit)) else s
    case Shutdown => s.(closed := true)
    case PumpRuns(pending, spawnThrows, observerThrows) => DoPumpRuns(s, pending, spawnThrows, observerThrows)
    case _ =>
      var after := After(s, e);
      var put := Put(s, e.id, after);
      if Wakes(e, after) then Pump(put) else put
  }
}
