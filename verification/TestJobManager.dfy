/** The manager itself (src/server/test-job-manager.ts): its fields, and methods that take the steps. */
module TestJobManagers {
  import opened Results
  import opened SourceAttribution
  import Q = TestQueue
  import Safety = TestQueueSafety
  import Histories = TestQueueHistories
  import R = TestQueueResults
  import Calls = TestQueueCalls

  datatype CancelAnswer = NoSuchRun | NotTheAuthor | Answered

  lemma SetIs<V>(m: map<Q.Id, V>, m': map<Q.Id, V>, id: Q.Id)
    requires forall j: Q.Id :: j != id ==> Q.Get(m', j) == Q.Get(m, j)
    ensures Q.Set(m, id, Q.Get(m', id)) == m'
  {
    var n := Q.Set(m, id, Q.Get(m', id));
    forall j: Q.Id
      ensures Q.Get(n, j) == Q.Get(m', j)
    {
    }
    assert forall j: Q.Id :: (j in n <==> Q.Get(n, j).Some?) && (j in m' <==> Q.Get(m', j).Some?);
    assert forall j: Q.Id :: j in n ==> Q.Get(n, j) == Some(n[j]) && Q.Get(m', j) == Some(m'[j]);
  }

  /** A state that differs from another in one run's records is that state with the records written. */
  lemma PutIs(s: Q.State, t: Q.State, id: Q.Id)
    requires forall j: Q.Id :: j != id ==> Q.At(t, j) == Q.At(s, j)
    requires t.keys == s.keys && t.limit == s.limit && t.pumping == s.pumping && t.closed == s.closed && t.observing == s.observing
    ensures t == Q.Put(s, id, Q.At(t, id))
  {
    forall j: Q.Id | j != id
      ensures Q.Get(t.store, j) == Q.Get(s.store, j) && Q.Get(t.active, j) == Q.Get(s.active, j)
      ensures Q.Get(t.preparations, j) == Q.Get(s.preparations, j) && Q.Get(t.finalizations, j) == Q.Get(s.finalizations, j)
      ensures (j in t.preparing <==> j in s.preparing) && (j in t.timers <==> j in s.timers)
    {
      assert Q.At(t, j) == Q.At(s, j);
    }
    SetIs(s.store, t.store, id);
    SetIs(s.active, t.active, id);
    SetIs(s.preparations, t.preparations, id);
    SetIs(s.finalizations, t.finalizations, id);
    assert Q.Mark(s.preparing, id, id in t.preparing) == t.preparing;
    assert Q.Mark(s.timers, id, id in t.timers) == t.timers;
  }

  lemma PutAgain(s: Q.State, id: Q.Id, r1: Q.Records, r2: Q.Records)
    ensures Q.At(Q.Put(s, id, r1), id) == r1
    ensures Q.Put(Q.Put(s, id, r1), id, r2) == Q.Put(s, id, r2)
  {
    PutIs(s, Q.Put(Q.Put(s, id, r1), id, r2), id);
  }

  class TestJobManager {
    var store: map<Q.Id, Q.Run>
    var keys: map<(string, string), Q.Id>
    var limit: nat
    var active: map<Q.Id, Q.Active>
    var preparing: set<Q.Id>
    var preparations: map<Q.Id, Q.Preparation>
    var finalizations: map<Q.Id, Q.Finalization>
    var timers: set<Q.Id>
    var pumping: bool
    var closed: bool
    const observing: bool

    ghost function State(): Q.State
      reads this
    {
      Q.State(store, keys, limit, active, preparing, preparations, finalizations, timers, pumping, closed, observing)
    }

    /** Every run is sound, worktrees are exclusive, and no wakeup is lost. */
    ghost predicate Valid()
      reads this
    {
      Histories.Sound(State())
    }

    /** The store's unfinished runs of an earlier controller become `interrupted`. */
    constructor (stored: map<Q.Id, Q.Run>, keys: map<(string, string), Q.Id>, limit: nat, observing: bool)
      ensures State() == Q.State(Q.Interrupt(stored), keys, limit, map[], {}, map[], map[], {}, false, false, observing)
      ensures store.Keys == stored.Keys
      ensures forall id :: id in stored ==>
        store[id] == if stored[id].phase == Q.Queued || stored[id].phase == Q.Running
                     then stored[id].(phase := Q.Interrupted) else stored[id]
      ensures R.Earned(stored, observing) ==> Valid()
    {
      this.store := Q.Interrupt(stored);
      this.keys, this.limit, this.observing := keys, limit, observing;
      active, preparing, preparations, finalizations, timers := map[], {}, map[], map[], {};
      pumping, closed := false, false;
      new;
      if R.Earned(stored, observing) {
        R.InitialHolds(State());
      }
    }

    // ---- private parts ----

    method Pump()
      modifies this`pumping
      ensures State() == Q.Pump(old(State()))
    {
      if pumping || closed {
        return;
      }
      pumping := true;
    }

    method FinishRun(id: Q.Id, of: Q.Finalized)
      modifies this`finalizations, this`timers
      ensures State() == Q.Put(old(State()), id, Q.Finish(old(Q.At(State(), id)), of))
    {
      if id !in finalizations {
        timers := timers - {id};
        finalizations := finalizations[id := Q.Finalization(of, false)];
      }
      PutIs(old(State()), State(), id);
    }

    method CompleteRun(id: Q.Id)
      requires id in active
      modifies this`active
      ensures State() == Q.Put(old(State()), id, Q.Complete(old(Q.At(State(), id)), old(active[id])))
    {
      if active[id].completion == Q.NotCompleting {
        active := active[id := active[id].(completion := Q.Stopping)];
      }
      PutIs(old(State()), State(), id);
    }

    /** `persistNow`. */
    method PersistNow(id: Q.Id, run: Q.Run)
      modifies this`store, this`timers
      ensures State() == Q.Put(old(State()), id, old(Q.At(State(), id)).(stored := Some(run), timer := false))
    {
      timers := timers - {id};
      store := store[id := run];
      PutIs(old(State()), State(), id);
    }

    method SaveRun(id: Q.Id, run: Q.Run)
      modifies this`store
      ensures State() == Q.Put(old(State()), id, old(Q.At(State(), id)).(stored := Some(run)))
    {
      store := store[id := run];
      PutIs(old(State()), State(), id);
    }

    method SetActive(id: Q.Id, a: Q.Active)
      modifies this`active
      ensures State() == Q.Put(old(State()), id, old(Q.At(State(), id)).(active := Some(a)))
    {
      active := active[id := a];
      PutIs(old(State()), State(), id);
    }

    method Unreserve(id: Q.Id)
      modifies this`preparing
      ensures State() == Q.Put(old(State()), id, old(Q.At(State(), id)).(preparing := false))
    {
      preparing := preparing - {id};
      PutIs(old(State()), State(), id);
    }

    method Await(id: Q.Id, preparation: Q.Preparation)
      modifies this`preparations
      ensures State() == Q.Put(old(State()), id, old(Q.At(State(), id)).(preparation := Some(preparation)))
    {
      preparations := preparations[id := preparation];
      PutIs(old(State()), State(), id);
    }

    method StartRun(id: Q.Id, run: Q.Run, spawnThrows: bool)
      modifies this`store, this`active, this`finalizations, this`timers
      ensures State() == Q.Put(old(State()), id, Q.Start(old(Q.At(State(), id)), run, spawnThrows))
    {
      var started := run.(phase := Q.Running);
      ghost var saved := Q.At(State(), id).(stored := Some(started));
      PutAgain(State(), id, saved, Q.Start(Q.At(State(), id), run, spawnThrows));
      SaveRun(id, started);
      if spawnThrows {
        FinishRun(id, Q.OfCopy(started.(phase := Q.Failed, errors := [Q.SpawnThrew])));
      } else {
        SetActive(id, Q.Active(started, false, false, None, Q.NotCompleting, false));
      }
    }

    /** The `finally` of `prepare`, without the call of `pump`. */
    method LeavePreparation(id: Q.Id)
      modifies this`preparing, this`preparations
      ensures State() == Q.Put(old(State()), id, Q.PreparationDone(old(Q.At(State(), id))))
    {
      preparing := preparing - {id};
      preparations := preparations - {id};
      PutIs(old(State()), State(), id);
    }

    method FailPreflight(id: Q.Id, run: Q.Run)
      modifies this`preparing, this`preparations, this`finalizations, this`timers
      ensures State() == Q.Put(old(State()), id, Q.PreflightThrows(old(Q.At(State(), id)), run))
    {
      if id in store && store[id].phase == Q.Queued {
        FinishAwaited(id, Q.PreflightFailure(run));
      } else {
        LeavePreparation(id);
      }
    }

    /** `prepare` finishes its run as failed and awaits the finalization. */
    method FinishAwaited(id: Q.Id, failed: Q.Run)
      modifies this`preparations, this`finalizations, this`timers
      ensures State() == Q.Put(old(State()), id,
                               Q.Finish(old(Q.At(State(), id)), Q.OfCopy(failed)).(preparation := Some(Q.AwaitingFinish)))
    {
      ghost var finished := Q.Finish(Q.At(State(), id), Q.OfCopy(failed));
      PutAgain(State(), id, finished, finished.(preparation := Some(Q.AwaitingFinish)));
      FinishRun(id, Q.OfCopy(failed));
      Await(id, Q.AwaitingFinish);
    }

    // ---- calls ----

    method Enqueue(id: Q.Id, input: Q.Input) returns (answer: Q.Enqueued)
      requires Valid()
      requires Q.Enabled(State(), Q.Enqueue(id, input))
      modifies this
      ensures State() == Q.Next(old(State()), Q.Enqueue(id, input))
      ensures Valid()
      ensures Calls.AnswersAs(old(State()), id, input, answer)
      ensures Calls.EnqueuesAs(old(State()), State(), id, input, answer)
    {
      Histories.StepKeepsSoundExactly(State(), Q.Enqueue(id, input));
      Calls.EnqueueMeans(State(), id, input);
      answer := Admit(id, input);
    }

    method Admit(id: Q.Id, input: Q.Input) returns (answer: Q.Enqueued)
      requires Q.Enabled(State(), Q.Enqueue(id, input))
      modifies this
      ensures answer == Q.EnqueueResult(old(State()), id, input)
      ensures State() == Q.Next(old(State()), Q.Enqueue(id, input))
    {
      if closed {
        return Q.Refused(Q.QueueClosed);
      }
      if input.key.Some? && (input.actor, input.key.value) in keys && keys[(input.actor, input.key.value)] in store {
        var repeated := store[keys[(input.actor, input.key.value)]];
        if repeated.projectId != input.projectId || repeated.worktree != input.worktree || repeated.presetId != input.presetId {
          return Q.Refused(Q.KeyInUse);
        }
        return Q.Replayed(repeated);
      }
      var queued := set i | i in store && store[i].phase == Q.Queued;
      assert queued == Q.QueuedIds(State());
      if |queued| >= Q.MAX_QUEUED_RUNS {
        return Q.Refused(Q.QueueFull);
      }
      answer := Q.Accepted(Q.NewRun(id, input));
      AddRun(id, input);
    }

    /** The run is saved under its key, and the pump woken. */
    method AddRun(id: Q.Id, input: Q.Input)
      requires Q.EnqueueResult(State(), id, input).Accepted?
      modifies this`store, this`keys, this`pumping
      ensures State() == Q.DoEnqueue(old(State()), id, input)
    {
      store := store[id := Q.NewRun(id, input)];
      if input.key.Some? {
        keys := keys[(input.actor, input.key.value) := id];
      }
      Pump();
    }

    method Cancel(id: Q.Id, actor: string) returns (answer: CancelAnswer)
      requires Valid()
      modifies this
      ensures State() == Q.Next(old(State()), Q.Cancel(id, actor))
      ensures Valid()
      ensures answer == NoSuchRun <==> id !in old(store)
      ensures answer == NotTheAuthor
         <==> id in old(store) && actor != "local-user"
              && (if id in old(active) then old(active)[id].run else old(store)[id]).actor != actor
      ensures Calls.CancelsAs(old(State()), State(), id, actor)
      ensures answer != Answered ==> State() == old(State())
    {
      Histories.StepKeepsSoundExactly(State(), Q.Cancel(id, actor));
      Calls.CancelMeans(State(), id, actor);
      answer := RequestCancel(id, actor);
    }

    method RequestCancel(id: Q.Id, actor: string) returns (answer: CancelAnswer)
      modifies this`active, this`preparing, this`finalizations, this`timers
      ensures State() == Q.Next(old(State()), Q.Cancel(id, actor))
      ensures answer == NoSuchRun <==> id !in old(store)
      ensures answer == NotTheAuthor <==> Calls.Refuses(old(State()), id, actor)
      ensures answer != Answered ==> State() == old(State())
    {
      answer := Answered;
      if id !in store {
        PutIs(State(), State(), id);
        return NoSuchRun;
      }
      var run := if id in active then active[id].run else store[id];
      if !Q.MayCancel(run, actor) {
        PutIs(State(), State(), id);
        return NotTheAuthor;
      }
      CancelRun(id, actor, run);
    }

    method CancelRun(id: Q.Id, actor: string, run: Q.Run)
      requires id in store && run == (if id in active then active[id].run else store[id]) && Q.MayCancel(run, actor)
      modifies this`active, this`preparing, this`finalizations, this`timers
      ensures State() == Q.Put(old(State()), id, Q.DoCancel(old(Q.At(State(), id)), actor))
    {
      if run.phase == Q.Queued {
        DequeueCancelled(id, run);
      } else if id in active && run.phase == Q.Running {
        StopCancelled(id);
      } else {
        PutIs(State(), State(), id);
      }
    }

    method DequeueCancelled(id: Q.Id, run: Q.Run)
      modifies this`preparing, this`finalizations, this`timers
      ensures var r := old(Q.At(State(), id)).(preparing := false);
              State() == Q.Put(old(State()), id, Q.Finish(r, Q.OfCopy(run.(phase := Q.Cancelled))))
    {
      ghost var r := Q.At(State(), id).(preparing := false);
      PutAgain(State(), id, r, Q.Finish(r, Q.OfCopy(run.(phase := Q.Cancelled))));
      Unreserve(id);
      FinishRun(id, Q.OfCopy(run.(phase := Q.Cancelled)));
    }

    method StopCancelled(id: Q.Id)
      requires id in active
      modifies this`active
      ensures var a := old(active[id]);
              State() == Q.Put(old(State()), id, Q.Complete(old(Q.At(State(), id)),
                                                            if a.HasExited() then a else a.(cancellationRequested := true)))
    {
      if active[id].HasExited() {
        CompleteRun(id);
      } else {
        CompleteWith(id, active[id].(cancellationRequested := true));
      }
    }

    method CompleteWith(id: Q.Id, a: Q.Active)
      modifies this`active
      ensures State() == Q.Put(old(State()), id, Q.Complete(old(Q.At(State(), id)), a))
    {
      ghost var r := Q.At(State(), id).(active := Some(a));
      PutAgain(State(), id, r, Q.Complete(r, a));
      SetActive(id, a);
      CompleteRun(id);
    }

    method SetLimit(limit: int) returns (accepted: bool)
      requires Valid()
      modifies this
      ensures accepted <==> 1 <= limit <= 16
      ensures accepted ==> this.limit == limit && (pumping || closed)
      ensures !accepted ==> State() == old(State())
      ensures State() == Q.Next(old(State()), Q.SetLimit(limit))
      ensures Valid()
    {
      Histories.StepKeepsSoundExactly(State(), Q.SetLimit(limit));
      if limit < Q.MIN_LIMIT || limit > Q.MAX_LIMIT {
        return false;
      }
      this.limit := limit;
      Pump();
      accepted := true;
    }

    /** The first statement of `shutdown`; the cancellations it then asks for are calls of `Cancel`. */
    method Shutdown()
      requires Valid()
      modifies this`closed
      ensures closed && State() == Q.Next(old(State()), Q.Shutdown)
      ensures Valid()
    {
      Histories.StepKeepsSoundExactly(State(), Q.Shutdown);
      closed := true;
    }

    // ---- the pump ----

    /** `prepare` up to its first await, for a run the pump has just reserved. */
    method Prepare(id: Q.Id, spawnThrows: set<Q.Id>, observerThrows: set<Q.Id>)
      requires id in store
      modifies this`store, this`active, this`preparing, this`preparations, this`finalizations, this`timers
      ensures State() == Q.AdmitOne(old(State()), id, spawnThrows, observerThrows)
      ensures old(store.Keys) <= store.Keys
    {
      var run := store[id];
      ghost var r := Q.At(State(), id);
      if !observing || run.source.enqueue.None? {
        StartUnobserved(id, run, id in spawnThrows);
      } else {
        PutAgain(State(), id, r.(preparing := true), Q.Admit(r, run, observing, id in spawnThrows, id in observerThrows));
        Reserve(id);
        if id in observerThrows {
          FailPreflight(id, run);
        } else {
          Await(id, Q.AwaitingPreflight(run));
        }
      }
    }

    method Reserve(id: Q.Id)
      modifies this`preparing
      ensures State() == Q.Put(old(State()), id, old(Q.At(State(), id)).(preparing := true))
    {
      preparing := preparing + {id};
      PutIs(old(State()), State(), id);
    }

    /** Nothing is awaited: the reservation is taken back and the run started at once. */
    method StartUnobserved(id: Q.Id, run: Q.Run, spawnThrows: bool)
      modifies this`store, this`active, this`preparing, this`preparations, this`finalizations, this`timers
      ensures State() == Q.Put(old(State()), id, Q.PreparationDone(Q.Start(old(Q.At(State(), id)), run, spawnThrows)))
    {
      ghost var started := Q.Start(Q.At(State(), id), run, spawnThrows);
      PutAgain(State(), id, started, Q.PreparationDone(started));
      StartRun(id, run, spawnThrows);
      LeavePreparation(id);
    }

    /** The pump microtask. */
    method RunPump(pending: seq<Q.Id>, spawnThrows: set<Q.Id>, observerThrows: set<Q.Id>)
      requires Valid()
      requires Q.Enabled(State(), Q.PumpRuns(pending, spawnThrows, observerThrows))
      modifies this
      ensures State() == Q.Next(old(State()), Q.PumpRuns(pending, spawnThrows, observerThrows))
      ensures Valid()
    {
      Histories.StepKeepsSoundExactly(State(), Q.PumpRuns(pending, spawnThrows, observerThrows));
      if !closed {
        AdmitWaiting(pending, spawnThrows, observerThrows);
      }
      pumping := false;
    }

    /** Repeatedly the first queued run whose worktree is free, up to the limit. */
    method AdmitWaiting(pending: seq<Q.Id>, spawnThrows: set<Q.Id>, observerThrows: set<Q.Id>)
      requires forall id :: id in pending ==> id in store
      modifies this`store, this`active, this`preparing, this`preparations, this`finalizations, this`timers
      ensures var s := old(State());
              State() == Q.AdmitAll(s, Q.Waiting(s, pending), Q.OccupiedWorktrees(s), spawnThrows, observerThrows)
    {
      var queued := WaitingIds(pending);
      var occupied := set id | id in store && (id in active || id in preparing) :: store[id].worktree;
      assert occupied == Q.OccupiedWorktrees(State());
      AdmitQueued(queued, occupied, spawnThrows, observerThrows);
    }

    method WaitingIds(pending: seq<Q.Id>) returns (queued: seq<Q.Id>)
      requires forall id :: id in pending ==> id in store
      ensures queued == Q.Waiting(State(), pending)
      ensures forall id :: id in queued ==> id in pending
    {
      queued := [];
      assert pending[0..] == pending;
      for i := 0 to |pending|
        invariant queued + Q.Waiting(State(), pending[i..]) == Q.Waiting(State(), pending)
        invariant forall id :: id in queued ==> id in pending
      {
        WaitingStep(State(), pending, i, queued);
        if store[pending[i]].phase == Q.Queued && pending[i] !in finalizations {
          queued := queued + [pending[i]];
        }
      }
      assert pending[|pending|..] == [];
    }

    method AdmitQueued(candidates: seq<Q.Id>, taken: set<string>, spawnThrows: set<Q.Id>, observerThrows: set<Q.Id>)
      requires forall id :: id in candidates ==> id in store
      modifies this`store, this`active, this`preparing, this`preparations, this`finalizations, this`timers
      ensures State() == Q.AdmitAll(old(State()), candidates, taken, spawnThrows, observerThrows)
    {
      var queued, occupied := candidates, taken;
      while |active| + |preparing| < limit
        invariant forall id :: id in queued ==> id in store
        invariant Q.AdmitAll(State(), queued, occupied, spawnThrows, observerThrows)
               == Q.AdmitAll(old(State()), candidates, taken, spawnThrows, observerThrows)
        decreases |queued|
      {
        var i := FindFree(queued, occupied);
        if i == |queued| {
          NoneIsFree(State(), queued, occupied, spawnThrows, observerThrows);
          return;
        }
        queued, occupied := AdmitAt(queued, i, occupied, spawnThrows, observerThrows);
      }
    }

    /** Takes the first free run out of the queue and prepares it. */
    method AdmitAt(queued: seq<Q.Id>, i: nat, occupied: set<string>, spawnThrows: set<Q.Id>, observerThrows: set<Q.Id>)
      returns (rest: seq<Q.Id>, blocked: set<string>)
      requires i < |queued| && |active| + |preparing| < limit
      requires forall id :: id in queued ==> id in store
      requires forall k :: 0 <= k < i ==> store[queued[k]].worktree in occupied
      requires store[queued[i]].worktree !in occupied
      modifies this`store, this`active, this`preparing, this`preparations, this`finalizations, this`timers
      ensures |rest| < |queued| && limit == old(limit)
      ensures forall id :: id in rest ==> id in store
      ensures Q.AdmitAll(State(), rest, blocked, spawnThrows, observerThrows)
           == Q.AdmitAll(old(State()), queued, occupied, spawnThrows, observerThrows)
    {
      var next := queued[i];
      rest := queued[..i] + queued[i + 1..];
      blocked := occupied + {store[next].worktree};
      assert forall id :: id in rest ==> id in queued;
      TakeFirstFree(State(), queued, i, occupied, spawnThrows, observerThrows);
      Prepare(next, spawnThrows, observerThrows);
    }

    method FindFree(queued: seq<Q.Id>, occupied: set<string>) returns (i: nat)
      requires forall id :: id in queued ==> id in store
      ensures i <= |queued|
      ensures forall k :: 0 <= k < i ==> store[queued[k]].worktree in occupied
      ensures i < |queued| ==> store[queued[i]].worktree !in occupied
    {
      i := 0;
      while i < |queued| && store[queued[i]].worktree in occupied
        invariant i <= |queued|
        invariant forall k :: 0 <= k < i ==> store[queued[k]].worktree in occupied
      {
        i := i + 1;
      }
    }

    // ---- continuations and callbacks ----

    method PreflightAnswered(id: Q.Id, observation: Observation, spawnFails: bool)
      requires Valid()
      requires Q.Enabled(State(), Q.PreflightAnswered(id, observation, spawnFails))
      modifies this
      ensures State() == Q.Next(old(State()), Q.PreflightAnswered(id, observation, spawnFails))
      ensures Valid() <==> old(Safety.Allowed(State(), Q.PreflightAnswered(id, observation, spawnFails)))
      ensures Calls.AnsweredAs(old(State()), State(), id, observation, spawnFails)
    {
      Histories.StepKeepsSoundExactly(State(), Q.PreflightAnswered(id, observation, spawnFails));
      Calls.AnswerMeans(State(), id, observation, spawnFails);
      var run := Q.WithPreflight(preparations[id].run, observation);
      if closed || id !in store || store[id].phase != Q.Queued {
        LeavePreparation(id);
      } else if run.source.queueComparison != Match {
        RefuseSource(id, run);
        return;
      } else {
        StartAnswered(id, run, spawnFails);
      }
      Pump();
    }

    method RefuseSource(id: Q.Id, run: Q.Run)
      modifies this`store, this`preparing, this`preparations, this`finalizations, this`timers
      ensures var saved := old(Q.At(State(), id)).(stored := Some(run), timer := false, preparing := false);
              State() == Q.Put(old(State()), id,
                               Q.Finish(saved, Q.OfCopy(Q.SourceRefused(run))).(preparation := Some(Q.AwaitingFinish)))
    {
      ghost var saved := Q.At(State(), id).(stored := Some(run), timer := false, preparing := false);
      PutAgain(State(), id, saved, Q.Finish(saved, Q.OfCopy(Q.SourceRefused(run))).(preparation := Some(Q.AwaitingFinish)));
      PersistUnreserved(id, run);
      FinishAwaited(id, Q.SourceRefused(run));
    }

    method PersistUnreserved(id: Q.Id, run: Q.Run)
      modifies this`store, this`timers, this`preparing
      ensures State() == Q.Put(old(State()), id,
                               old(Q.At(State(), id)).(stored := Some(run), timer := false, preparing := false))
    {
      ghost var saved := Q.At(State(), id).(stored := Some(run), timer := false);
      PutAgain(State(), id, saved, saved.(preparing := false));
      PersistNow(id, run);
      Unreserve(id);
    }

    method StartAnswered(id: Q.Id, run: Q.Run, spawnFails: bool)
      modifies this`store, this`active, this`preparing, this`preparations, this`finalizations, this`timers
      ensures var saved := old(Q.At(State(), id)).(stored := Some(run), timer := false, preparing := false);
              State() == Q.Put(old(State()), id, Q.PreparationDone(Q.Start(saved, run, spawnFails)))
    {
      ghost var saved := Q.At(State(), id).(stored := Some(run), timer := false, preparing := false);
      PutAgain(State(), id, saved, Q.PreparationDone(Q.Start(saved, run, spawnFails)));
      PersistUnreserved(id, run);
      StartUnobserved(id, run, spawnFails);
    }

    method PreflightRejected(id: Q.Id)
      requires Valid()
      requires Q.Enabled(State(), Q.PreflightRejected(id))
      modifies this
      ensures State() == Q.Next(old(State()), Q.PreflightRejected(id))
      ensures Valid()
      ensures Calls.RejectedAs(old(State()), State(), id)
    {
      Histories.StepKeepsSoundExactly(State(), Q.PreflightRejected(id));
      Calls.RejectionMeans(State(), id);
      FailPreflight(id, preparations[id].run);
      if id !in preparations {
        Pump();
      }
    }

    method PreparationReturns(id: Q.Id)
      requires Valid()
      requires Q.Enabled(State(), Q.PreparationReturns(id))
      modifies this
      ensures State() == Q.Next(old(State()), Q.PreparationReturns(id))
      ensures Valid()
    {
      Histories.StepKeepsSoundExactly(State(), Q.PreparationReturns(id));
      LeavePreparation(id);
      Pump();
    }

    /** The `exit` and `error` listeners of the child. */
    method ChildReports(id: Q.Id, report: Q.Report)
      requires Valid()
      requires Q.Enabled(State(), Q.ChildReports(id, report))
      modifies this
      ensures State() == Q.Next(old(State()), Q.ChildReports(id, report))
      ensures Valid()
      ensures Calls.ReportedAs(old(State()), State(), id, report)
    {
      Histories.StepKeepsSoundExactly(State(), Q.ChildReports(id, report));
      Calls.ReportMeans(State(), id, report);
      var a := active[id].(report := Some(report));
      match report {
        case Exited(code) => a := a.(run := a.run.(exitCode := code));
        case SpawnErrored => a := a.(run := a.run.(errors := [Q.ChildErrored]));
      }
      CompleteWith(id, a);
    }

    method Output(id: Q.Id)
      requires Valid()
      requires Q.Enabled(State(), Q.Output(id))
      modifies this`timers
      ensures State() == Q.Next(old(State()), Q.Output(id))
      ensures Valid()
    {
      Histories.StepKeepsSoundExactly(State(), Q.Output(id));
      timers := timers + {id};
      PutIs(old(State()), State(), id);
    }

    method PersistenceTimer(id: Q.Id)
      requires Valid()
      requires Q.Enabled(State(), Q.PersistenceTimer(id))
      modifies this`timers, this`store
      ensures State() == Q.Next(old(State()), Q.PersistenceTimer(id))
      ensures Valid()
    {
      Histories.StepKeepsSoundExactly(State(), Q.PersistenceTimer(id));
      timers := timers - {id};
      store := store[id := active[id].run];
      PutIs(old(State()), State(), id);
    }

    method TimeoutTimer(id: Q.Id)
      requires Valid()
      modifies this`active
      ensures State() == Q.Next(old(State()), Q.TimeoutTimer(id))
      ensures Valid()
    {
      Histories.StepKeepsSoundExactly(State(), Q.TimeoutTimer(id));
      if id in active && !active[id].HasExited() {
        CompleteWith(id, active[id].(timedOut := true));
      } else {
        PutIs(State(), State(), id);
      }
    }

    method GroupStops(id: Q.Id)
      requires Valid()
      requires Q.Enabled(State(), Q.GroupStops(id))
      modifies this`active
      ensures State() == Q.Next(old(State()), Q.GroupStops(id))
      ensures Valid()
    {
      Histories.StepKeepsSoundExactly(State(), Q.GroupStops(id));
      active := active[id := active[id].(completion := Q.AwaitingOutput, groupStopped := true)];
      PutIs(old(State()), State(), id);
    }

    /** All cleanup attempts failed: the run stays active, and a later call of `complete` tries again. */
    method GroupStopFails(id: Q.Id)
      requires Valid()
      requires Q.Enabled(State(), Q.GroupStopFails(id))
      modifies this`active, this`store, this`timers
      ensures State() == Q.Next(old(State()), Q.GroupStopFails(id))
      ensures Valid()
      ensures Calls.KeptAs(old(State()), State(), id)
    {
      Histories.StepKeepsSoundExactly(State(), Q.GroupStopFails(id));
      Calls.KeepingMeans(State(), id);
      var run := active[id].run.(errors := [Q.CleanupUnconfirmed]);
      var kept := active[id].(run := run, completion := Q.NotCompleting);
      ghost var r := Q.At(State(), id).(active := Some(kept));
      PutAgain(State(), id, r, r.(stored := Some(run), timer := false));
      SetActive(id, kept);
      PersistNow(id, run);
    }

    method FinishActive(id: Q.Id, run: Q.Run)
      requires id in active
      modifies this`active, this`finalizations, this`timers
      ensures State() == Q.Put(old(State()), id, Q.FinishActive(old(Q.At(State(), id)), old(active[id]), run))
    {
      var done := active[id].(run := Q.WithExitStatus(run), completion := Q.Finishing);
      ghost var r := Q.At(State(), id).(active := Some(done));
      PutAgain(State(), id, r, Q.Finish(r, Q.OfActive));
      SetActive(id, done);
      FinishRun(id, Q.OfActive);
    }

    method OutputCloses(id: Q.Id)
      requires Valid()
      requires Q.Enabled(State(), Q.OutputCloses(id))
      modifies this`active, this`finalizations, this`timers
      ensures State() == Q.Next(old(State()), Q.OutputCloses(id))
      ensures Valid()
      ensures id in active && R.JudgedAs(old(active[id]), active[id].run.phase)
      ensures active[id].completion == Q.Finishing && active[id].run.phase == Q.Failed ==> active[id].run.errors != []
    {
      Histories.StepKeepsSoundExactly(State(), Q.OutputCloses(id));
      ActiveIsGood(State(), id);
      R.OutputClosesJudges(Q.At(State(), id), observing);
      Histories.NextWrites(State(), Q.OutputCloses(id));
      R.ActiveAt(Q.Next(State(), Q.OutputCloses(id)), id, Q.After(State(), Q.OutputCloses(id)));
      Judge(id);
    }

    method Judge(id: Q.Id)
      requires Q.Enabled(State(), Q.OutputCloses(id))
      modifies this`active, this`finalizations, this`timers
      ensures State() == Q.Next(old(State()), Q.OutputCloses(id))
    {
      var a := active[id];
      if observing && a.run.source.enqueue.Some? {
        active := active[id := a.(run := Q.Judged(a), completion := Q.ObservingFinish)];
        PutIs(old(State()), State(), id);
      } else {
        FinishActive(id, Q.Judged(a));
      }
    }

    /**
     * The second half of `complete`: the finish observation is set and the evidence qualified. A run that
     * succeeded stays `passed` exactly when its source is unbroken, and every other one names an error.
     */
    method FinishObserved(id: Q.Id, finish: Option<Observation>)
      requires Valid()
      requires Q.Enabled(State(), Q.FinishObserved(id, finish))
      modifies this`active, this`finalizations, this`timers
      ensures Valid()
      ensures State() == Q.Next(old(State()), Q.FinishObserved(id, finish))
      ensures id in active && active[id].completion == Q.Finishing
      ensures active[id].run.phase == Q.Passed
         <==> Safety.Succeeded(old(active[id])) && Unbroken(old(active[id].run.source).(finish := finish))
      ensures active[id].run.phase == Q.Failed ==> active[id].run.errors != []
    {
      Histories.StepKeepsSoundExactly(State(), Q.FinishObserved(id, finish));
      ActiveIsGood(State(), id);
      var run := active[id].run;
      var source := run.source.(finish := Some(if finish.Some? then finish.value else Q.FAILED_OBSERVATION));
      ObservedMatchExactly(source);
      source := QualifySource(source);
      if run.phase == Q.Passed && source.attribution != ObservedMatch {
        run := run.(phase := Q.Failed, errors := [Q.SourceUnconfirmed]);
      }
      run := run.(source := source);
      FinishActive(id, run);
    }

    /** `finish` after its await: the run is stored and gives up its slot. */
    method FinalizationStores(id: Q.Id, logFailed: bool)
      requires Valid()
      requires Q.Enabled(State(), Q.FinalizationStores(id, logFailed))
      modifies this
      ensures State() == Q.Next(old(State()), Q.FinalizationStores(id, logFailed))
      ensures Valid()
      ensures var of := old(finalizations[id]).of;
              Calls.StoredAs(old(State()), State(), id, if of.OfActive? then old(active[id].run) else of.run, logFailed)
    {
      Histories.StepKeepsSoundExactly(State(), Q.FinalizationStores(id, logFailed));
      Calls.StoringMeans(State(), id, logFailed);
      var of := finalizations[id].of;
      var run := Q.FinalRun(if of.OfActive? then active[id].run else of.run, logFailed);
      ghost var saved := Q.At(State(), id).(stored := Some(run), timer := false);
      PutAgain(State(), id, saved, saved.(active := None, preparing := false, finalization := Some(Q.Finalization(of, true))));
      PersistNow(id, run);
      GiveUpSlot(id, of);
    }

    method GiveUpSlot(id: Q.Id, of: Q.Finalized)
      modifies this`active, this`preparing, this`finalizations
      ensures State() == Q.Put(old(State()), id,
                               old(Q.At(State(), id)).(active := None, preparing := false,
                                                       finalization := Some(Q.Finalization(of, true))))
    {
      active := active - {id};
      preparing := preparing - {id};
      finalizations := finalizations[id := Q.Finalization(of, true)];
      PutIs(old(State()), State(), id);
    }

    method FinalizationReleases(id: Q.Id)
      requires Valid()
      requires Q.Enabled(State(), Q.FinalizationReleases(id))
      modifies this
      ensures State() == Q.Next(old(State()), Q.FinalizationReleases(id))
      ensures Valid()
    {
      Histories.StepKeepsSoundExactly(State(), Q.FinalizationReleases(id));
      finalizations := finalizations - {id};
      PutIs(old(State()), State(), id);
      Pump();
    }
  }

  lemma ActiveIsGood(s: Q.State, id: Q.Id)
    requires Histories.Sound(s) && id in s.active
    ensures Safety.GoodActive(Q.At(s, id), s.observing)
  {
    assert Safety.Good(Q.At(s, id), id, s.observing);
  }

  // ---- the loops of the pump ----

  /** One round of the filter: the run at the front is kept if it waits. */
  lemma WaitingStep(s: Q.State, pending: seq<Q.Id>, i: nat, kept: seq<Q.Id>)
    requires i < |pending| && pending[i] in s.store
    ensures var waits := s.store[pending[i]].phase == Q.Queued && pending[i] !in s.finalizations;
            kept + Q.Waiting(s, pending[i..])
            == (if waits then kept + [pending[i]] else kept) + Q.Waiting(s, pending[i + 1..])
  {
    var rest := pending[i..];
    assert rest[1..] == pending[i + 1..] && rest[0] == pending[i];
    WaitingFront(s, rest);
  }

  lemma WaitingFront(s: Q.State, pending: seq<Q.Id>)
    requires pending != [] && pending[0] in s.store
    ensures var waits := s.store[pending[0]].phase == Q.Queued && pending[0] !in s.finalizations;
            Q.Waiting(s, pending) == (if waits then [pending[0]] else []) + Q.Waiting(s, pending[1..])
  {
    assert Q.At(s, pending[0]).Waits()
      <==> s.store[pending[0]].phase == Q.Queued && pending[0] !in s.finalizations;
  }

  /** Runs in occupied worktrees at the front of the queue make no difference to a pass. */
  lemma {:induction false} SkipOccupied(s: Q.State, front: seq<Q.Id>, rest: seq<Q.Id>, occupied: set<string>,
                                        spawnThrows: set<Q.Id>, observerThrows: set<Q.Id>)
    requires forall id :: id in front ==> id in s.store && s.store[id].worktree in occupied
    ensures Q.AdmitAll(s, front + rest, occupied, spawnThrows, observerThrows)
         == Q.AdmitAll(s, rest, occupied, spawnThrows, observerThrows)
    decreases |front|
  {
    if front == [] {
      assert front + rest == rest;
    } else {
      assert (front + rest)[1..] == front[1..] + rest;
      assert (front + rest)[0] == front[0];
      SkipOccupied(s, front[1..], rest, occupied, spawnThrows, observerThrows);
    }
  }

  lemma NoneIsFree(s: Q.State, queue: seq<Q.Id>, occupied: set<string>, spawnThrows: set<Q.Id>, observerThrows: set<Q.Id>)
    requires forall k :: 0 <= k < |queue| ==> queue[k] in s.store && s.store[queue[k]].worktree in occupied
    ensures Q.AdmitAll(s, queue, occupied, spawnThrows, observerThrows) == s
  {
    SkipOccupied(s, queue, [], occupied, spawnThrows, observerThrows);
    assert queue + [] == queue;
  }

  lemma TakeFirstFree(s: Q.State, queue: seq<Q.Id>, i: nat, occupied: set<string>,
                      spawnThrows: set<Q.Id>, observerThrows: set<Q.Id>)
    requires i < |queue| && queue[i] in s.store && s.store[queue[i]].worktree !in occupied
    requires forall k :: 0 <= k < i ==> queue[k] in s.store && s.store[queue[k]].worktree in occupied
    requires Q.Occupancy(s) < s.limit
    ensures var id := queue[i];
            var t := Q.AdmitOne(s, id, spawnThrows, observerThrows);
            Q.AdmitAll(s, queue, occupied, spawnThrows, observerThrows)
            == Q.AdmitAll(t, queue[..i] + queue[i + 1..], occupied + {s.store[id].worktree}, spawnThrows, observerThrows)
  {
    var id := queue[i];
    var t := Q.AdmitOne(s, id, spawnThrows, observerThrows);
    var all := occupied + {s.store[id].worktree};
    assert queue == queue[..i] + queue[i..];
    SkipOccupied(s, queue[..i], queue[i..], occupied, spawnThrows, observerThrows);
    assert queue[i..][1..] == queue[i + 1..];
    assert queue[i..][0] == id;
    forall x | x in queue[..i]
      ensures x in t.store && t.store[x].worktree in all
    {
      var k :| 0 <= k < i && queue[k] == x;
    }
    SkipOccupied(t, queue[..i], queue[i + 1..], all, spawnThrows, observerThrows);
  }
}
