/** What every part of an installation adds to the log: real answers, in the order and at the times of the clock. */
module ServiceInstallTraces {
  import opened Results
  import opened ServiceInstall

  /** `t` comes after `s`: commands were added with the world's answers, and no time ran backwards. */
  ghost predicate Extends(w: World, s: Machine, t: Machine) {
    && s.log <= t.log && s.now <= t.now && s.files <= t.files && s.writes <= t.writes
    && (forall i :: |s.log| <= i < |t.log| ==> t.log[i].answer == w.answers(i) && s.now <= t.log[i].at <= t.now)
    && (forall i, j :: |s.log| <= i <= j < |t.log| ==> t.log[i].at <= t.log[j].at)
  }

  /** In between, only commands were run: each saw the disk that is there before and after. */
  ghost predicate OnlyAsks(w: World, s: Machine, t: Machine) {
    && Extends(w, s, t)
    && t.disk == s.disk && t.files == s.files && t.writes == s.writes
    && forall i :: |s.log| <= i < |t.log| ==> t.log[i].disk == s.disk
  }

  function Added(s: Machine, t: Machine): seq<Step> { if |s.log| <= |t.log| then t.log[|s.log|..] else [] }

  lemma ExtendsTwice(w: World, s: Machine, t: Machine, u: Machine)
    requires Extends(w, s, t) && Extends(w, t, u)
    ensures Extends(w, s, u) && Added(s, u) == Added(s, t) + Added(t, u)
  {
    forall i, j | |s.log| <= i <= j < |u.log| ensures u.log[i].at <= u.log[j].at {
      if j < |t.log| {
        assert u.log[i] == t.log[i] && u.log[j] == t.log[j];
      } else if i < |t.log| {
        assert u.log[i] == t.log[i];
      }
    }
    forall i | |s.log| <= i < |u.log| ensures u.log[i].answer == w.answers(i) && s.now <= u.log[i].at <= u.now {
      if i < |t.log| {
        assert u.log[i] == t.log[i];
      }
    }
  }

  lemma AsksTwice(w: World, s: Machine, t: Machine, u: Machine)
    requires OnlyAsks(w, s, t) && OnlyAsks(w, t, u)
    ensures OnlyAsks(w, s, u) && Added(s, u) == Added(s, t) + Added(t, u)
  {
    ExtendsTwice(w, s, t, u);
    forall i | |s.log| <= i < |u.log| ensures u.log[i].disk == s.disk {
      if i < |t.log| {
        assert u.log[i] == t.log[i];
      }
    }
  }

  lemma AskAsks(w: World, m: Machine, command: Command)
    ensures var t := Ask(w, m, command);
            && OnlyAsks(w, m, t)
            && Added(m, t) == [Last(t)] && Last(t).command == command
            && Last(t).answer == w.answers(|m.log|) && Last(t).disk == m.disk && Last(t).at == t.now
  {
  }

  lemma AskAgain(w: World, s: Machine, m: Machine, command: Command, t: Machine)
    requires OnlyAsks(w, s, m) && t == Ask(w, m, command)
    ensures OnlyAsks(w, s, t) && t.log != [] && Added(s, t) == Added(s, m) + [Last(t)] && Last(t).command == command
  {
    AskAsks(w, m, command);
    AsksTwice(w, s, m, t);
  }

  lemma AsksNothing(w: World, m: Machine)
    ensures OnlyAsks(w, m, m) && Added(m, m) == []
  {
  }

  // ---- commands in order ----

  ghost predicate Follows(steps: seq<Step>, commands: seq<Command>) {
    |steps| == |commands| && forall i :: 0 <= i < |steps| ==> steps[i].command == commands[i]
  }

  lemma FollowsAppend(a: seq<Step>, c: seq<Command>, b: seq<Step>, d: seq<Command>)
    requires Follows(a, c) && Follows(b, d)
    ensures Follows(a + b, c + d)
  {
  }

  function If(condition: bool, command: Command): seq<Command> { if condition then [command] else [] }

  lemma AskIfAsks(condition: bool, w: World, m: Machine, command: Command)
    ensures var t := AskIf(condition, w, m, command);
            OnlyAsks(w, m, t) && Follows(Added(m, t), If(condition, command))
  {
    if condition {
      AskAsks(w, m, command);
    }
  }

  // ---- the health check ----

  /** The first reading that shows a main process. */
  function Baseline(readings: seq<Step>): (b: nat)
    ensures b <= |readings|
  {
    if readings == [] || readings[0].answer.sample.pid.Some? then 0 else 1 + Baseline(readings[1..])
  }

  ghost predicate AllRun(readings: seq<Step>) {
    forall i :: 0 <= i < |readings| ==> readings[i].answer.sample.running && !readings[i].answer.sample.failed
  }

  /** From reading `b` on one main process, and no restart counted that was not counted there. */
  ghost predicate SameFrom(readings: seq<Step>, b: nat) {
    forall i :: b <= i < |readings| ==>
      var first, now := readings[b].answer.sample, readings[i].answer.sample;
      && now.running && !now.failed && now.pid.Some? && now.pid == first.pid
      && (now.restarts.Some? ==> now.restarts.value == if first.restarts.Some? then first.restarts.value else 0)
  }

  /** Every reading ran; from the first main process on it was the same one, for the whole stable time. */
  ghost predicate Stable(readings: seq<Step>, health: Health) {
    var b, n := Baseline(readings), |readings|;
    && AllRun(readings)
    && b < n
    && SameFrom(readings, b)
    && readings[n - 1].at - readings[b].at >= health.stableMs
  }

  lemma {:induction false} BaselineAppends(readings: seq<Step>, r: Step)
    ensures Baseline(readings + [r])
            == if Baseline(readings) < |readings| then Baseline(readings)
               else if r.answer.sample.pid.Some? then |readings| else |readings| + 1
  {
    if readings == [] {
      assert [] + [r] == [r] && [r][1..] == [];
    } else if readings[0].answer.sample.pid.None? {
      assert (readings + [r])[1..] == readings[1..] + [r];
      BaselineAppends(readings[1..], r);
    }
  }

  /** The check goes on: everything ran, one process since the baseline, but not for long enough yet. */
  ghost predicate Watching(readings: seq<Step>, baseline: Option<Step>, health: Health) {
    var b, n := Baseline(readings), |readings|;
    && AllRun(readings)
    && (baseline.Some? <==> b < n)
    && (baseline.Some? ==> baseline.value == readings[b])
    && SameFrom(readings, b)
    && (n > 0 ==> baseline.Some? ==> readings[n - 1].at - baseline.value.at < health.stableMs)
  }

  /** One more reading breaks the check, completes it, or leaves it watching. */
  lemma WatchOn(readings: seq<Step>, baseline: Option<Step>, r: Step, health: Health)
    requires Watching(readings, baseline, health)
    ensures var all, next := readings + [r], NextBaseline(baseline, r);
            if Breaks(baseline, r) then !Stable(all, health)
            else if Completes(health, next, r) then Stable(all, health)
            else !Stable(all, health) && Watching(all, next, health)
  {
    var all, n := readings + [r], |readings|;
    BaselineAppends(readings, r);
    assert all[n] == r;
    if baseline.Some? {
      assert all[Baseline(all)] == baseline.value;
    }
  }

  ghost predicate Reads(steps: seq<Step>) {
    forall i :: 0 <= i < |steps| ==> steps[i].command == ShowHealth
  }

  lemma Looks(w: World, start: Machine, m: Machine, baseline: Option<Step>, t: Machine, next: Option<Step>)
    requires OnlyAsks(w, start, m) && Reads(Added(start, m)) && Watching(Added(start, m), baseline, w.health)
    requires t == Ask(w, m, ShowHealth) && next == NextBaseline(baseline, Last(t))
    ensures OnlyAsks(w, start, t) && Reads(Added(start, t)) && Added(start, t) != []
    ensures if Breaks(baseline, Last(t)) then !Stable(Added(start, t), w.health)
            else if Completes(w.health, next, Last(t)) then Stable(Added(start, t), w.health)
            else !Stable(Added(start, t), w.health) && Watching(Added(start, t), next, w.health)
  {
    AskAsks(w, m, ShowHealth);
    AsksTwice(w, start, m, t);
    WatchOn(Added(start, m), baseline, Last(t), w.health);
  }

  ghost predicate Watched(w: World, start: Machine, o: Outcome) {
    && OnlyAsks(w, start, o.m) && Reads(Added(start, o.m)) && Added(start, o.m) != []
    && (o.ok <==> Stable(Added(start, o.m), w.health))
  }

  /** The check asks for health only, and passes exactly on a stable sequence of readings. */
  lemma {:induction false} WatchIsStable(
      w: World, start: Machine, m: Machine, baseline: Option<Step>, deadline: int)
    requires OnlyAsks(w, start, m) && Reads(Added(start, m)) && Watching(Added(start, m), baseline, w.health)
    ensures Watched(w, start, Watch(w, m, baseline, deadline))
    decreases if m.now < deadline then deadline - m.now else 0
  {
    var t := Ask(w, m, ShowHealth);
    var next, r := NextBaseline(baseline, Last(t)), Last(t);
    Looks(w, start, m, baseline, t, next);
    if Breaks(baseline, r) {
      assert Watched(w, start, Outcome(false, t));
    } else if Completes(w.health, next, r) {
      assert Watched(w, start, Outcome(true, t));
    } else if r.at >= deadline {
      assert Watched(w, start, Outcome(false, t));
    } else {
      Sleeps(w, start, t);
      WatchIsStable(w, start, Sleep(w, t), next, deadline);
    }
  }

  /** A reading failed or stopped, or named another process than the first one did. */
  ghost predicate Broken(readings: seq<Step>) {
    !AllRun(readings) || !SameFrom(readings, Baseline(readings))
  }

  lemma BreaksIsBroken(readings: seq<Step>, baseline: Option<Step>, r: Step, health: Health)
    requires Watching(readings, baseline, health) && Breaks(baseline, r)
    ensures Broken(readings + [r])
  {
    var all, n := readings + [r], |readings|;
    BaselineAppends(readings, r);
    assert all[n] == r;
    if baseline.Some? {
      assert all[Baseline(all)] == baseline.value;
    }
  }

  /** It gives up only over a broken sequence, or at a reading past the deadline. */
  lemma {:induction false} WatchGivesUpForCause(
      w: World, start: Machine, m: Machine, baseline: Option<Step>, deadline: int)
    requires OnlyAsks(w, start, m) && Reads(Added(start, m)) && Watching(Added(start, m), baseline, w.health)
    ensures var o := Watch(w, m, baseline, deadline);
            !o.ok ==> o.m.log != [] && (Broken(Added(start, o.m)) || Last(o.m).at >= deadline)
    decreases if m.now < deadline then deadline - m.now else 0
  {
    var t := Ask(w, m, ShowHealth);
    var next, r := NextBaseline(baseline, Last(t)), Last(t);
    Looks(w, start, m, baseline, t, next);
    if Breaks(baseline, r) {
      AskAgain(w, start, m, ShowHealth, t);
      BreaksIsBroken(Added(start, m), baseline, r, w.health);
    } else if !Completes(w.health, next, r) && r.at < deadline {
      Sleeps(w, start, t);
      WatchGivesUpForCause(w, start, Sleep(w, t), next, deadline);
    }
  }

  lemma Sleeps(w: World, s: Machine, t: Machine)
    requires OnlyAsks(w, s, t)
    ensures OnlyAsks(w, s, Sleep(w, t)) && Added(s, Sleep(w, t)) == Added(s, t)
  {
  }
}
