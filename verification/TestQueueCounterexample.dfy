/** A short history that ends in an answer taken too late: two runs then hold one worktree. */
module TestQueueCounterexample {
  import opened Results
  import opened SourceAttribution
  import opened TestQueue
  import opened TestQueueSafety

  function InputFor(worktree: string, o: Observation, queuedAt: nat): Input {
    Input("", worktree, "", "", None, queuedAt, Some(o))
  }

  function RunOf(id: Id, worktree: string, o: Observation): Run {
    NewRun(id, InputFor(worktree, o, id))
  }

  function Empty(): State {
    State(map[], map[], 2, map[], {}, map[], map[], {}, false, false, true)
  }

  function Queued1(first: Run): State {
    Empty().(store := map[0 := first], pumping := true)
  }

  /** The first run awaits its preflight. */
  function Preparing1(first: Run): State {
    Empty().(store := map[0 := first], preparing := {0}, preparations := map[0 := AwaitingPreflight(first)])
  }

  /** It was cancelled, but `cancelled` is not stored yet. */
  function Cancelled1(first: Run): State {
    Preparing1(first).(preparing := {},
                       finalizations := map[0 := Finalization(OfCopy(first.(phase := Cancelled)), false)])
  }

  function Queued2(first: Run, second: Run): State {
    Cancelled1(first).(store := map[0 := first, 1 := second], pumping := true)
  }

  /** The second run has taken the worktree. */
  function Preparing2(first: Run, second: Run): State {
    Queued2(first, second).(preparing := {1}, pumping := false,
                            preparations := map[0 := AwaitingPreflight(first), 1 := AwaitingPreflight(second)])
  }

  lemma EnqueueFirst(worktree: string, o: Observation)
    ensures Enabled(Empty(), Enqueue(0, InputFor(worktree, o, 0)))
    ensures Next(Empty(), Enqueue(0, InputFor(worktree, o, 0))) == Queued1(RunOf(0, worktree, o))
  {
    assert QueuedIds(Empty()) == {};
  }

  /** A pump over one waiting run, with nothing occupied. */
  lemma PumpOne(s: State, pending: seq<Id>, id: Id)
    requires s.active == map[] && s.preparing == {} && !s.closed && s.observing && s.limit > 0
    requires Waiting(s, pending) == [id] && id in s.store && s.store[id].source.enqueue.Some?
    ensures DoPumpRuns(s, pending, {}, {}) == Put(s, id, Awaiting(s, id)).(pumping := false)
  {
    assert OccupiedWorktrees(s) == {};
    assert [id][1..] == [];
    AdmitsOne(s, id);
  }

  function Awaiting(s: State, id: Id): Records
    requires id in s.store
  {
    At(s, id).(preparing := true, preparation := Some(AwaitingPreflight(s.store[id])))
  }

  lemma AdmitsOne(s: State, id: Id)
    requires Occupancy(s) == 0 && s.observing && s.limit > 0 && id in s.store && s.store[id].source.enqueue.Some?
    ensures AdmitAll(s, [id], {}, {}, {}) == Put(s, id, Awaiting(s, id))
  {
    var queue := [id];
    assert queue[1..] == [];
    var t := Put(s, id, Admit(At(s, id), s.store[id], true, false, false));
    assert AdmitAll(s, queue, {}, {}, {}) == AdmitAll(t, [], {s.store[id].worktree}, {}, {});
  }

  lemma PumpFirst(first: Run)
    requires first.phase == Queued && first.source.enqueue.Some?
    ensures Enabled(Queued1(first), PumpRuns([0], {}, {}))
    ensures Next(Queued1(first), PumpRuns([0], {}, {})) == Preparing1(first)
  {
    assert Waiting(Queued1(first), [0]) == [0];
    PumpOne(Queued1(first), [0], 0);
  }

  lemma CancelFirst(first: Run)
    requires first.phase == Queued
    ensures Next(Preparing1(first), Cancel(0, "local-user")) == Cancelled1(first)
  {
  }

  lemma EnqueueSecond(first: Run, worktree: string, o: Observation)
    requires first.phase == Queued
    ensures Enabled(Cancelled1(first), Enqueue(1, InputFor(worktree, o, 1)))
    ensures Next(Cancelled1(first), Enqueue(1, InputFor(worktree, o, 1))) == Queued2(first, RunOf(1, worktree, o))
  {
    assert QueuedIds(Cancelled1(first)) == {0};
  }

  lemma PumpSecond(first: Run, second: Run)
    requires first.phase == second.phase == Queued && second.source.enqueue.Some?
    requires Before(first, second)
    ensures Enabled(Queued2(first, second), PumpRuns([0, 1], {}, {}))
    ensures Next(Queued2(first, second), PumpRuns([0, 1], {}, {})) == Preparing2(first, second)
  {
    var s := Queued2(first, second);
    PumpOneAfterAnother(s);
    PumpOne(s, [0, 1], 1);
    SecondAwaits(first, second);
  }

  lemma SecondAwaits(first: Run, second: Run)
    ensures var s := Queued2(first, second);
            Put(s, 1, Awaiting(s, 1)).(pumping := false) == Preparing2(first, second)
  {
    var s := Queued2(first, second);
    var t := Put(s, 1, Awaiting(s, 1));
    assert t.store == s.store && t.finalizations == s.finalizations && t.active == s.active;
    assert t.preparations == Preparing2(first, second).preparations;
  }

  lemma PumpOneAfterAnother(s: State)
    requires !At(s, 0).Waits() && At(s, 1).Waits()
    ensures Waiting(s, [0, 1]) == [1]
  {
    assert [0, 1][1..] == [1];
    assert [1][1..] == [];
  }

  ghost predicate Steps(s: State, events: seq<Event>, t: State)
    decreases |events|
  {
    if events == [] then s == t
    else Enabled(s, events[0]) && Steps(Next(s, events[0]), events[1..], t)
  }

  function Opening(worktree: string, o: Observation): seq<Event> {
    [Enqueue(0, InputFor(worktree, o, 0))] + ([PumpRuns([0], {}, {})] + ([Cancel(0, "local-user")] + Overtaking(worktree, o)))
  }

  function Overtaking(worktree: string, o: Observation): seq<Event> {
    [Enqueue(1, InputFor(worktree, o, 1))] + ([PumpRuns([0, 1], {}, {})] + [])
  }

  lemma Then(s: State, e: Event, u: State, rest: seq<Event>, t: State)
    requires Enabled(s, e) && Next(s, e) == u && Steps(u, rest, t)
    ensures Steps(s, [e] + rest, t)
  {
    assert ([e] + rest)[1..] == rest;
  }

  lemma SecondOvertakes(worktree: string, o: Observation)
    ensures var first, second := RunOf(0, worktree, o), RunOf(1, worktree, o);
            Steps(Cancelled1(first), Overtaking(worktree, o), Preparing2(first, second))
  {
    var first, second := RunOf(0, worktree, o), RunOf(1, worktree, o);
    var s := Preparing2(first, second);
    EnqueueSecond(first, worktree, o);
    PumpSecond(first, second);
    Then(Queued2(first, second), PumpRuns([0, 1], {}, {}), s, [], s);
    Then(Cancelled1(first), Enqueue(1, InputFor(worktree, o, 1)), Queued2(first, second), [PumpRuns([0, 1], {}, {})] + [], s);
  }

  /**
   * The state before the late answer is reachable, the answer is possible there, and after it the
   * cancelled run is active while the second run holds the same worktree.
   */
  lemma CancelledRunStartsBesideAnother(worktree: string, o: Observation)
    requires o.complete
    ensures var s, e := Preparing2(RunOf(0, worktree, o), RunOf(1, worktree, o)), PreflightAnswered(0, o, false);
            && Steps(Empty(), Opening(worktree, o), s)
            && Enabled(s, e) && !Allowed(s, e) && !Exclusive(Next(s, e))
  {
    var first, second := RunOf(0, worktree, o), RunOf(1, worktree, o);
    var s := Preparing2(first, second);
    LateAnswer(first, second, o);
    SecondOvertakes(worktree, o);
    CancelFirst(first);
    Then(Preparing1(first), Cancel(0, "local-user"), Cancelled1(first), Overtaking(worktree, o), s);
    PumpFirst(first);
    Then(Queued1(first), PumpRuns([0], {}, {}), Preparing1(first), [Cancel(0, "local-user")] + Overtaking(worktree, o), s);
    EnqueueFirst(worktree, o);
    Then(Empty(), Enqueue(0, InputFor(worktree, o, 0)), Queued1(first),
         [PumpRuns([0], {}, {})] + ([Cancel(0, "local-user")] + Overtaking(worktree, o)), s);
  }

  lemma LateAnswer(first: Run, second: Run, o: Observation)
    requires first.phase == Queued && first.worktree == second.worktree
    requires CompareSource(first.source.enqueue, Some(o)) == Match
    ensures var s, e := Preparing2(first, second), PreflightAnswered(0, o, false);
            Enabled(s, e) && !Allowed(s, e) && !Exclusive(Next(s, e))
  {
    var s, e := Preparing2(first, second), PreflightAnswered(0, o, false);
    var t := Next(s, e);
    assert At(t, 0).Holds() && At(t, 1).Holds() && SharesWorktree(At(t, 0), At(t, 1));
  }
}
