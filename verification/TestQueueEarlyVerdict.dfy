/**
 * A history without any late answer in which `passed` is stored before the finish observation: the
 * output timer fires while that observation is awaited.
 */
module TestQueueEarlyVerdict {
  import opened Results
  import opened SourceAttribution
  import opened TestQueue
  import opened TestQueueSafety
  import opened TestQueueResults
  import opened TestQueueCounterexample

  /** The only run has a process; the pump it woke has not run yet. */
  function Executing(a: Active, stored: Run, timers: set<Id>): State {
    Empty().(store := map[0 := stored], active := map[0 := a], timers := timers, pumping := true)
  }

  function Started(first: Run, o: Observation): Run {
    WithPreflight(first, o).(phase := Running)
  }

  function ActiveOf(run: Run): Active {
    Active(run, false, false, None, NotCompleting, false)
  }

  function Exited0(run: Run): Active {
    Active(run.(exitCode := Some(0)), false, false, Some(Exited(Some(0))), Stopping, false)
  }

  function Stopped0(run: Run): Active {
    Exited0(run).(completion := AwaitingOutput, groupStopped := true)
  }

  function Judged0(run: Run): Active {
    Stopped0(run).(run := Judged(Stopped0(run)), completion := ObservingFinish)
  }

  lemma PreflightMatches(first: Run, o: Observation)
    requires first.phase == Queued && CompareSource(first.source.enqueue, Some(o)) == Match
    ensures var s, e, run := Preparing1(first), PreflightAnswered(0, o, false), Started(first, o);
            Enabled(s, e) && Allowed(s, e) && Next(s, e) == Executing(ActiveOf(run), run, {})
  {
    var s, e, run := Preparing1(first), PreflightAnswered(0, o, false), Started(first, o);
    var after := After(s, e);
    assert after == Records(Some(run), Some(ActiveOf(run)), false, None, None, false);
    var put := Put(s, 0, after);
    assert put.store == map[0 := run] && put.active == map[0 := ActiveOf(run)];
    assert put.preparations == map[] && put.preparing == {} && put.finalizations == map[];
  }

  /** A step that leaves the run a process replaces its records and nothing else. */
  lemma PutExecuting(a: Active, stored: Run, timers: set<Id>, a': Active, stored': Run, timer: bool)
    requires timers <= {0}
    ensures At(Executing(a, stored, timers), 0) == Records(Some(stored), Some(a), false, None, None, 0 in timers)
    ensures Put(Executing(a, stored, timers), 0, Records(Some(stored'), Some(a'), false, None, None, timer))
         == Executing(a', stored', if timer then {0} else {})
  {
    var put := Put(Executing(a, stored, timers), 0, Records(Some(stored'), Some(a'), false, None, None, timer));
    assert put.store == map[0 := stored'] && put.active == map[0 := a'];
    assert put.timers == if timer then {0} else {};
  }

  lemma OutputComes(run: Run)
    ensures var s, e := Executing(ActiveOf(run), run, {}), Output(0);
            Enabled(s, e) && Next(s, e) == Executing(ActiveOf(run), run, {0})
  {
    PutExecuting(ActiveOf(run), run, {}, ActiveOf(run), run, true);
  }

  lemma ChildExits(run: Run)
    ensures var s, e := Executing(ActiveOf(run), run, {0}), ChildReports(0, Exited(Some(0)));
            Enabled(s, e) && Next(s, e) == Executing(Exited0(run), run, {0})
  {
    PutExecuting(ActiveOf(run), run, {0}, Exited0(run), run, true);
  }

  lemma GroupIsStopped(run: Run)
    ensures var s, e := Executing(Exited0(run), run, {0}), GroupStops(0);
            Enabled(s, e) && Next(s, e) == Executing(Stopped0(run), run, {0})
  {
    PutExecuting(Exited0(run), run, {0}, Stopped0(run), run, true);
  }

  lemma OutputEnds(run: Run)
    requires run.source.enqueue.Some?
    ensures var s, e := Executing(Stopped0(run), run, {0}), OutputCloses(0);
            Enabled(s, e) && Next(s, e) == Executing(Judged0(run), run, {0})
  {
    PutExecuting(Stopped0(run), run, {0}, Judged0(run), run, true);
  }

  lemma TimerFires(run: Run)
    ensures var s, e := Executing(Judged0(run), run, {0}), PersistenceTimer(0);
            Enabled(s, e) && Next(s, e) == Executing(Judged0(run), Judged0(run).run, {})
  {
    PutExecuting(Judged0(run), run, {0}, Judged0(run), Judged0(run).run, false);
  }

  lemma Prepend(s: State, e: Event, u: State, rest: seq<Event>, t: State)
    requires Enabled(s, e) && Allowed(s, e) && Next(s, e) == u && Reaches(u, rest, t)
    ensures Reaches(s, [e] + rest, t)
  {
    assert ([e] + rest)[1..] == rest;
  }

  function Ending(): seq<Event> {
    [ChildReports(0, Exited(Some(0)))] + ([GroupStops(0)] + ([OutputCloses(0)] + ([PersistenceTimer(0)] + [])))
  }

  lemma EndsEarly(run: Run)
    requires run.source.enqueue.Some?
    ensures Reaches(Executing(ActiveOf(run), run, {0}), Ending(), Executing(Judged0(run), Judged0(run).run, {}))
  {
    var t := Executing(Judged0(run), Judged0(run).run, {});
    TimerFires(run);
    Prepend(Executing(Judged0(run), run, {0}), PersistenceTimer(0), t, [], t);
    OutputEnds(run);
    var rest := [PersistenceTimer(0)] + [];
    Prepend(Executing(Stopped0(run), run, {0}), OutputCloses(0), Executing(Judged0(run), run, {0}), rest, t);
    GroupIsStopped(run);
    rest := [OutputCloses(0)] + rest;
    Prepend(Executing(Exited0(run), run, {0}), GroupStops(0), Executing(Stopped0(run), run, {0}), rest, t);
    ChildExits(run);
    rest := [GroupStops(0)] + rest;
    Prepend(Executing(ActiveOf(run), run, {0}), ChildReports(0, Exited(Some(0))), Executing(Exited0(run), run, {0}), rest, t);
  }

  function Answering(o: Observation): seq<Event> {
    [PreflightAnswered(0, o, false)] + ([Output(0)] + Ending())
  }

  function WholeRun(worktree: string, o: Observation): seq<Event> {
    [Enqueue(0, InputFor(worktree, o, 0))] + ([PumpRuns([0], {}, {})] + Answering(o))
  }

  /** `passed` is stored, and the finish observation is still awaited. */
  function StoredEarly(run: Run): State {
    Executing(Judged0(run), Judged0(run).run, {})
  }

  lemma AnsweredEndsEarly(first: Run, o: Observation)
    requires first.phase == Queued && CompareSource(first.source.enqueue, Some(o)) == Match
    ensures Reaches(Preparing1(first), Answering(o), StoredEarly(Started(first, o)))
  {
    var run := Started(first, o);
    var t := StoredEarly(run);
    EndsEarly(run);
    OutputComes(run);
    Prepend(Executing(ActiveOf(run), run, {}), Output(0), Executing(ActiveOf(run), run, {0}), Ending(), t);
    PreflightMatches(first, o);
    Prepend(Preparing1(first), PreflightAnswered(0, o, false), Executing(ActiveOf(run), run, {}), [Output(0)] + Ending(), t);
  }

  lemma WholeRunReaches(worktree: string, o: Observation, first: Run, t: State)
    requires first == RunOf(0, worktree, o) && Reaches(Preparing1(first), Answering(o), t)
    ensures Reaches(Empty(), WholeRun(worktree, o), t)
  {
    PumpFirst(first);
    Prepend(Queued1(first), PumpRuns([0], {}, {}), Preparing1(first), Answering(o), t);
    EnqueueFirst(worktree, o);
    Prepend(Empty(), Enqueue(0, InputFor(worktree, o, 0)), Queued1(first), [PumpRuns([0], {}, {})] + Answering(o), t);
  }

  /** The early verdict is there without its observation, and a controller that starts over keeps it. */
  ghost predicate EarlyVerdict(t: State) {
    && 0 in t.store && t.store[0].phase == Passed && t.store[0].source.finish.None?
    && Interrupt(t.store) == t.store
  }

  lemma StoredEarlyIsEarly(run: Run)
    requires run.source.finish.None?
    ensures EarlyVerdict(StoredEarly(run))
  {
    assert Interrupt(StoredEarly(run).store) == StoredEarly(run).store;
  }

  lemma EmptyIsInitial()
    ensures Initial(Empty())
  {
  }

  /** From an empty manager to a stored `passed` whose finish observation does not exist. */
  lemma EarlyVerdictIsReachable(worktree: string, o: Observation)
    requires o.complete
    ensures exists t :: Initial(Empty()) && Reaches(Empty(), WholeRun(worktree, o), t) && EarlyVerdict(t)
  {
    var first := RunOf(0, worktree, o);
    AnsweredEndsEarly(first, o);
    WholeRunReaches(worktree, o, first, StoredEarly(Started(first, o)));
    StoredEarlyIsEarly(Started(first, o));
    EmptyIsInitial();
  }
}
