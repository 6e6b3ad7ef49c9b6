/** The start sequence and the rollback, from their commands' answers and their file operations' outcomes. */
module ServiceInstallSequences {
  import opened Results
  import opened ServiceInstall
  import opened ServiceInstallTraces
  import opened ServiceInstallDropIns

  // ---- the start sequence ----

  function LoadCommands(legacy: bool): seq<Command> {
    [DaemonReload, ShowConfiguration] + if legacy then [IsActive(Legacy), Stop(Legacy)] else []
  }

  ghost predicate Loaded(steps: seq<Step>, legacy: bool) {
    && Follows(steps, LoadCommands(legacy))
    && steps[0].answer.ok && steps[1].answer.ok && steps[1].answer.matches && (legacy ==> steps[3].answer.ok)
  }

  /** Told to start, stable for long enough, and enabled. */
  ghost predicate Started(steps: seq<Step>, command: Command, health: Health) {
    var n := |steps|;
    && n >= 3 && steps[0].command == command && steps[0].answer.ok
    && Reads(steps[1..n - 1]) && Stable(steps[1..n - 1], health)
    && steps[n - 1].command == Enable(Current) && steps[n - 1].answer.ok
  }

  /** The last readings, since something else was asked, are broken, or were not stable when time was up. */
  ghost predicate Unhealthy(steps: seq<Step>, k: nat, health: Health) {
    && 0 < k < |steps| && Reads(steps[k..]) && steps[k - 1].command != ShowHealth && !Stable(steps[k..], health)
    && (Broken(steps[k..]) || steps[|steps| - 1].at >= steps[k - 1].at + health.timeoutMs)
  }

  /** Why the last command ended the sequence. */
  ghost predicate Refused(steps: seq<Step>, health: Health) {
    && steps != []
    && var last := steps[|steps| - 1];
       if last.command.ShowHealth? then exists k: nat :: Unhealthy(steps, k, health)
       else !last.answer.ok || (last.command.ShowConfiguration? && !last.answer.matches)
  }

  ghost predicate Begins(steps: seq<Step>, commands: seq<Command>) {
    forall i :: 0 <= i < |steps| && i < |commands| ==> steps[i].command == commands[i]
  }

  ghost predicate FoundActive(steps: seq<Step>, unit: Unit) {
    exists i :: 0 <= i < |steps| && steps[i].command == IsActive(unit) && steps[i].answer.ok
  }

  /** Steps of a load that ended well or not, and that found the legacy unit active or not. */
  ghost predicate Loads(steps: seq<Step>, legacy: bool, ok: bool, active: bool, health: Health) {
    && Begins(steps, LoadCommands(legacy)) && |steps| <= |LoadCommands(legacy)|
    && (ok <==> Loaded(steps, legacy))
    && (active <==> FoundActive(steps, Legacy)) && !FoundActive(steps, Current)
    && (!ok ==> Refused(steps, health))
  }

  lemma LoadsOne(a: Step, legacy: bool, health: Health)
    requires a.command == DaemonReload && !a.answer.ok
    ensures Loads([a], legacy, false, false, health)
  {
  }

  lemma LoadsTwo(a: Step, b: Step, legacy: bool, ok: bool, health: Health)
    requires a.command == DaemonReload && a.answer.ok && b.command == ShowConfiguration
    requires ok <==> b.answer.ok && b.answer.matches
    requires ok ==> !legacy
    ensures Loads([a, b], legacy, ok, false, health)
  {
  }

  lemma LoadsFour(a: Step, b: Step, c: Step, d: Step, health: Health)
    requires a.command == DaemonReload && a.answer.ok
    requires b.command == ShowConfiguration && b.answer.ok && b.answer.matches
    requires c.command == IsActive(Legacy) && d.command == Stop(Legacy)
    ensures Loads([a, b, c, d], true, d.answer.ok, c.answer.ok, health)
  {
    var steps := [a, b, c, d];
    assert steps[2] == c;
  }

  function FirstTwo(w: World, m: Machine): Machine { Ask(w, Ask(w, m, DaemonReload), ShowConfiguration) }

  function AllFour(w: World, m: Machine): Machine { Ask(w, Ask(w, FirstTwo(w, m), IsActive(Legacy)), Stop(Legacy)) }

  lemma OneAsked(w: World, m: Machine, legacy: bool)
    ensures var t := Ask(w, m, DaemonReload);
            && OnlyAsks(w, m, t) && Added(m, t) == [Last(t)] && Last(t).command == DaemonReload
            && (!Succeeded(t) ==> Loads(Added(m, t), legacy, false, false, w.health))
  {
    var t := Ask(w, m, DaemonReload);
    AskAsks(w, m, DaemonReload);
    if !Succeeded(t) {
      LoadsOne(Last(t), legacy, w.health);
    }
  }

  lemma TwoAsked(w: World, m: Machine, legacy: bool)
    ensures var s, t := Ask(w, m, DaemonReload), FirstTwo(w, m);
            && OnlyAsks(w, m, t) && t.log != [] && Added(m, t) == [Last(s), Last(t)]
            && Last(t).command == ShowConfiguration
            && (var ok := Succeeded(t) && Last(t).answer.matches;
                Succeeded(s) && (ok ==> !legacy) ==> Loads(Added(m, t), legacy, ok, false, w.health))
  {
    var s, t := Ask(w, m, DaemonReload), FirstTwo(w, m);
    OneAsked(w, m, legacy);
    AskAgain(w, m, s, ShowConfiguration, t);
    var ok := Succeeded(t) && Last(t).answer.matches;
    if Succeeded(s) && (ok ==> !legacy) {
      LoadsTwo(Last(s), Last(t), legacy, ok, w.health);
    }
  }

  lemma FourAsked(w: World, m: Machine)
    ensures var s, t, u, v :=
              Ask(w, m, DaemonReload), FirstTwo(w, m), Ask(w, FirstTwo(w, m), IsActive(Legacy)), AllFour(w, m);
            && OnlyAsks(w, m, v)
            && t.log != [] && v.log != []
            && (Succeeded(s) && Succeeded(t) && Last(t).answer.matches ==>
                  Loads(Added(m, v), true, Succeeded(v), Succeeded(u), w.health))
  {
    var s, t, u, v :=
      Ask(w, m, DaemonReload), FirstTwo(w, m), Ask(w, FirstTwo(w, m), IsActive(Legacy)), AllFour(w, m);
    OneAsked(w, m, true);
    TwoAsked(w, m, true);
    AskAgain(w, m, t, IsActive(Legacy), u);
    AskAgain(w, m, u, Stop(Legacy), v);
    if Succeeded(s) && Succeeded(t) && Last(t).answer.matches {
      LoadsFour(Last(s), Last(t), Last(u), Last(v), w.health);
      assert Added(m, v) == [Last(s), Last(t), Last(u), Last(v)];
    }
  }

  lemma LoadAsks(w: World, m: Machine, rec: Record, legacy: bool)
    requires !rec.legacyWasActive
    ensures var p := Load(w, m, rec, legacy);
            && OnlyAsks(w, m, p.m)
            && Loads(Added(m, p.m), legacy, p.ok, p.rec.legacyWasActive, w.health)
            && p.rec == rec.(legacyWasActive := p.rec.legacyWasActive)
  {
    OneAsked(w, m, legacy);
    TwoAsked(w, m, legacy);
    FourAsked(w, m);
  }

  /** Steps of a start that ended well or not. */
  ghost predicate Starts(steps: seq<Step>, command: Command, ok: bool, health: Health) {
    && steps != [] && steps[0].command == command
    && !FoundActive(steps, Legacy) && !FoundActive(steps, Current)
    && (ok <==> Started(steps, command, health))
    && (!ok ==> Refused(steps, health))
  }

  lemma StartsOne(a: Step, command: Command, health: Health)
    requires a.command == command && !a.answer.ok && (command == Start(Current) || command == Restart(Current))
    ensures Starts([a], command, false, health)
  {
  }

  lemma StartsUnhealthy(a: Step, readings: seq<Step>, command: Command, health: Health)
    requires a.command == command && (command == Start(Current) || command == Restart(Current))
    requires Reads(readings) && readings != [] && !Stable(readings, health)
    requires Broken(readings) || readings[|readings| - 1].at >= a.at + health.timeoutMs
    ensures Starts([a] + readings, command, false, health)
  {
    var steps := [a] + readings;
    assert steps[1..] == readings && steps[|steps| - 1] == readings[|readings| - 1];
    assert Unhealthy(steps, 1, health);
  }

  lemma StartsEnabled(a: Step, readings: seq<Step>, c: Step, command: Command, health: Health)
    requires a.command == command && a.answer.ok && (command == Start(Current) || command == Restart(Current))
    requires Reads(readings) && readings != [] && Stable(readings, health) && c.command == Enable(Current)
    ensures Starts([a] + readings + [c], command, c.answer.ok, health)
  {
    var steps := [a] + readings + [c];
    assert steps[1..|steps| - 1] == readings && steps[|steps| - 1] == c;
  }

  lemma StartAsks(w: World, m: Machine, command: Command, o: Outcome)
    requires (command == Start(Current) || command == Restart(Current)) && o == StartCurrent(w, m, command)
    ensures OnlyAsks(w, m, o.m)
  {
    var started := Ask(w, m, command);
    StartAsked(w, m, command, started);
    if Succeeded(started) {
      var watched := Watch(w, started, None, started.now + w.health.timeoutMs);
      WatchedFromStart(w, started, started.now + w.health.timeoutMs);
      AsksTwice(w, m, started, watched.m);
      if watched.ok {
        AskAgain(w, m, watched.m, Enable(Current), o.m);
      }
    }
  }

  lemma StartStarts(w: World, m: Machine, command: Command, o: Outcome)
    requires (command == Start(Current) || command == Restart(Current)) && o == StartCurrent(w, m, command)
    ensures Starts(Added(m, o.m), command, o.ok, w.health)
  {
    var started := Ask(w, m, command);
    StartAsked(w, m, command, started);
    if Succeeded(started) {
      var watched := Watch(w, started, None, started.now + w.health.timeoutMs);
      StartWatched(w, m, command, started, watched, o);
    }
  }

  lemma StartWatched(w: World, m: Machine, command: Command, started: Machine, watched: Outcome, o: Outcome)
    requires command == Start(Current) || command == Restart(Current)
    requires OnlyAsks(w, m, started) && started.log != [] && Added(m, started) == [Last(started)]
    requires Last(started).command == command && Succeeded(started) && Last(started).at == started.now
    requires watched == Watch(w, started, None, started.now + w.health.timeoutMs) && o == EnableCurrent(w, watched)
    ensures Starts(Added(m, o.m), command, o.ok, w.health)
  {
    WatchedFromStart(w, started, started.now + w.health.timeoutMs);
    GivesUpForCause(w, started, started.now + w.health.timeoutMs);
    WatchedStarts(w, m, started, watched, o, command);
  }

  lemma StartAsked(w: World, m: Machine, command: Command, t: Machine)
    requires (command == Start(Current) || command == Restart(Current)) && t == Ask(w, m, command)
    ensures OnlyAsks(w, m, t) && t.log != [] && Added(m, t) == [Last(t)] && Last(t).command == command && Last(t).at == t.now
    ensures !Succeeded(t) ==> Starts(Added(m, t), command, false, w.health)
  {
    AskAsks(w, m, command);
    if !Succeeded(t) {
      StartsOne(Last(t), command, w.health);
    }
  }

  lemma WatchedFromStart(w: World, m: Machine, deadline: int)
    ensures Watched(w, m, Watch(w, m, None, deadline))
  {
    AsksNothing(w, m);
    WatchIsStable(w, m, m, None, deadline);
  }

  ghost predicate GaveUp(start: Machine, t: Machine, deadline: int) {
    t.log != [] && (Broken(Added(start, t)) || Last(t).at >= deadline)
  }

  lemma GivesUpForCause(w: World, m: Machine, deadline: int)
    ensures var o := Watch(w, m, None, deadline); !o.ok ==> GaveUp(m, o.m, deadline)
  {
    AsksNothing(w, m);
    WatchGivesUpForCause(w, m, m, None, deadline);
  }

  lemma WatchedStarts(w: World, m: Machine, started: Machine, watched: Outcome, o: Outcome, command: Command)
    requires command == Start(Current) || command == Restart(Current)
    requires OnlyAsks(w, m, started) && Watched(w, started, watched) && o == EnableCurrent(w, watched)
    requires started.log != [] && Added(m, started) == [Last(started)]
    requires Last(started).command == command && Succeeded(started)
    requires !watched.ok ==> GaveUp(started, watched.m, Last(started).at + w.health.timeoutMs)
    ensures Starts(Added(m, o.m), command, o.ok, w.health)
  {
    AsksTwice(w, m, started, watched.m);
    var readings := Added(started, watched.m);
    if !watched.ok {
      assert readings[|readings| - 1] == Last(watched.m);
      StartsUnhealthy(Last(started), readings, command, w.health);
    } else {
      AskAgain(w, m, watched.m, Enable(Current), o.m);
      StartsEnabled(Last(started), readings, Last(o.m), command, w.health);
    }
  }

  lemma RefusedLater(steps: seq<Step>, more: seq<Step>, health: Health)
    requires Refused(more, health) && more[0].command != ShowHealth
    ensures Refused(steps + more, health)
  {
    var all, n := steps + more, |steps|;
    assert all[|all| - 1] == more[|more| - 1];
    if more[|more| - 1].command.ShowHealth? {
      var k: nat :| Unhealthy(more, k, health);
      assert all[n + k..] == more[k..];
      assert more[k..][0] == more[k];
      assert Unhealthy(all, n + k, health);
    }
  }

  lemma FoundActiveAppends(a: seq<Step>, b: seq<Step>, unit: Unit)
    ensures FoundActive(a + b, unit) <==> FoundActive(a, unit) || FoundActive(b, unit)
  {
    if FoundActive(a, unit) {
      var i :| 0 <= i < |a| && a[i].command == IsActive(unit) && a[i].answer.ok;
      assert (a + b)[i] == a[i];
    }
    if FoundActive(b, unit) {
      var i :| 0 <= i < |b| && b[i].command == IsActive(unit) && b[i].answer.ok;
      assert (a + b)[|a| + i] == b[i];
    }
  }

  lemma CopiesExtend(w: World, m: Machine, rec: Record, p: Progress)
    requires OnlyCopies(m, rec, p)
    ensures Extends(w, m, p.m) && Added(m, p.m) == []
  {
  }

  /** Commands after the copies: what was added is theirs alone. */
  lemma AsksAfterCopies(w: World, m: Machine, rec: Record, p: Progress, t: Machine)
    requires OnlyCopies(m, rec, p) && OnlyAsks(w, p.m, t)
    ensures Extends(w, m, t) && Added(m, t) == Added(p.m, t)
    ensures forall i :: |m.log| <= i < |t.log| ==> t.log[i].disk == t.disk
  {
    CopiesExtend(w, m, rec, p);
    ExtendsTwice(w, m, p.m, t);
  }

  function Source(m: Machine, legacy: bool): seq<SourceEntry> {
    if legacy && m.disk.source.Some? then m.disk.source.value else []
  }

  lemma MigrationMoves(w: World, m: Machine, rec: Record, legacy: bool)
    requires rec.copied == [] && !rec.created && !rec.retained
    ensures Moved(w, m.disk.dropIns, m.writes, m, rec, Source(m, legacy), false, MigrateDropIns(w, m, rec, legacy))
  {
    assert Files(m.disk.dropIns) - Names([]) == Files(m.disk.dropIns);
    MigrateMoves(w, m, rec, Source(m, legacy), false, m.disk.dropIns, m.writes);
  }

  /** Everything asked for was answered: the script, a stable service, and its being enabled. */
  ghost predicate Answered(steps: seq<Step>, legacy: bool, command: Command, health: Health) {
    var n := |LoadCommands(legacy)|;
    |steps| > n && Loaded(steps[..n], legacy) && Started(steps[n..], command, health)
  }

  /** The commands of a start sequence, ended well or not. */
  ghost predicate Scripted(steps: seq<Step>, legacy: bool, command: Command, rec: Record, health: Health, ok: bool) {
    && Begins(steps, LoadCommands(legacy) + [command])
    && (rec.attempted <==> |steps| > |LoadCommands(legacy)|)
    && (rec.legacyWasActive <==> FoundActive(steps, Legacy)) && !FoundActive(steps, Current)
    && (ok ==> Answered(steps, legacy, command, health))
  }

  lemma LoadScripted(steps: seq<Step>, legacy: bool, active: bool, command: Command, rec: Record, health: Health)
    requires Loads(steps, legacy, false, active, health)
    requires rec.legacyWasActive == active && !rec.attempted
    ensures Scripted(steps, legacy, command, rec, health, false)
  {
  }

  lemma StartScripted(
      a: seq<Step>, b: seq<Step>, legacy: bool, active: bool, command: Command, rec: Record, health: Health, ok: bool)
    requires Loads(a, legacy, true, active, health) && Starts(b, command, ok, health)
    requires rec.legacyWasActive == active && rec.attempted
    ensures Scripted(a + b, legacy, command, rec, health, ok)
  {
    var steps, n := a + b, |LoadCommands(legacy)|;
    assert steps[..n] == a && steps[n..] == b;
    FoundActiveAppends(a, b, Legacy);
    FoundActiveAppends(a, b, Current);
  }

  /** What is known when the start sequence ends, however it ends. */
  ghost predicate Sequenced(w: World, m: Machine, rec: Record, legacy: bool, command: Command, p: Progress) {
    && Extends(w, m, p.m)
    && p.m.disk == m.disk.(dropIns := p.m.disk.dropIns)
    && Recorded(w, m.disk.dropIns, m.writes, p.m, p.rec)
    && (forall i :: |m.log| <= i < |p.m.log| ==> p.m.log[i].disk == p.m.disk)
    && Scripted(Added(m, p.m), legacy, command, p.rec, w.health, p.ok)
    && p.rec == rec.(copied := p.rec.copied, created := p.rec.created, retained := p.rec.retained,
                     attempted := p.rec.attempted, legacyWasActive := p.rec.legacyWasActive)
  }

  /** The start sequence fails exactly if its last command was refused or a drop-in could not be copied. */
  ghost predicate Decided(w: World, m: Machine, legacy: bool, p: Progress) {
    && (p.ok <==> !Refused(Added(m, p.m), w.health) && !CannotCopy(w, Files(m.disk.dropIns), Source(m, legacy), m, p.m))
    && (p.ok ==> (p.rec.retained <==> !AllMigrated(Source(m, legacy), Files(p.m.disk.dropIns))))
  }

  lemma MigrationFailed(w: World, m: Machine, rec: Record, legacy: bool, command: Command, p: Progress)
    requires !rec.attempted && !rec.legacyWasActive
    requires Moved(w, m.disk.dropIns, m.writes, m, rec, Source(m, legacy), false, p) && !p.ok
    ensures Sequenced(w, m, rec, legacy, command, p) && Decided(w, m, legacy, p)
  {
    CopiesExtend(w, m, rec, p);
  }

  lemma LoadFailed(w: World, m: Machine, rec: Record, legacy: bool, command: Command, p: Progress, q: Progress)
    requires !rec.attempted && !rec.legacyWasActive
    requires Moved(w, m.disk.dropIns, m.writes, m, rec, Source(m, legacy), false, p) && p.ok
    requires OnlyAsks(w, p.m, q.m) && q.rec == p.rec.(legacyWasActive := q.rec.legacyWasActive) && !q.ok
    requires Loads(Added(p.m, q.m), legacy, false, q.rec.legacyWasActive, w.health)
    ensures Sequenced(w, m, rec, legacy, command, q) && Decided(w, m, legacy, q)
  {
    AsksAfterCopies(w, m, rec, p, q.m);
    LoadScripted(Added(m, q.m), legacy, q.rec.legacyWasActive, command, q.rec, w.health);
    SameRecord(w, m, p, q);
  }

  /** The record of copies is still right after commands that changed nothing on disk. */
  lemma SameRecord(w: World, m: Machine, p: Progress, q: Progress)
    requires Recorded(w, m.disk.dropIns, m.writes, p.m, p.rec)
    requires q.m.disk == p.m.disk && q.m.writes == p.m.writes
    requires q.rec.copied == p.rec.copied && q.rec.created == p.rec.created
    ensures Recorded(w, m.disk.dropIns, m.writes, q.m, q.rec)
  {
    if m.writes < p.m.writes && w.writes(p.m.writes - 1).Partial? {
      var name, part :| LeavesPart(m.disk.dropIns, p.m.disk.dropIns, p.rec, name, part)
                        && w.writes(p.m.writes - 1) == Partial(part);
      assert LeavesPart(m.disk.dropIns, q.m.disk.dropIns, q.rec, name, part);
    }
  }

  lemma StartEnded(
      w: World, m: Machine, rec: Record, legacy: bool, command: Command, p: Progress, q: Progress, o: Outcome)
    requires !rec.attempted && !rec.legacyWasActive
    requires Moved(w, m.disk.dropIns, m.writes, m, rec, Source(m, legacy), false, p) && p.ok
    requires OnlyAsks(w, p.m, q.m) && q.rec == p.rec.(legacyWasActive := q.rec.legacyWasActive)
    requires Loads(Added(p.m, q.m), legacy, true, q.rec.legacyWasActive, w.health)
    requires OnlyAsks(w, q.m, o.m) && Starts(Added(q.m, o.m), command, o.ok, w.health)
    requires command != ShowHealth
    ensures var r := Progress(o.ok, o.m, q.rec.(attempted := true));
            Sequenced(w, m, rec, legacy, command, r) && Decided(w, m, legacy, r)
  {
    var r := Progress(o.ok, o.m, q.rec.(attempted := true));
    AsksTwice(w, p.m, q.m, o.m);
    AsksAfterCopies(w, m, rec, p, o.m);
    StartScripted(Added(p.m, q.m), Added(q.m, o.m), legacy, q.rec.legacyWasActive, command, r.rec, w.health, o.ok);
    SameRecord(w, m, p, r);
    if !o.ok {
      RefusedLater(Added(p.m, q.m), Added(q.m, o.m), w.health);
    } else {
      AnsweredIsNotRefused(Added(m, o.m), legacy, command, w.health);
    }
  }

  lemma AnsweredIsNotRefused(steps: seq<Step>, legacy: bool, command: Command, health: Health)
    requires Answered(steps, legacy, command, health)
    ensures !Refused(steps, health)
  {
    var last := steps[|LoadCommands(legacy)|..];
    assert steps[|steps| - 1] == last[|last| - 1];
  }

  lemma SequenceEffect(w: World, m: Machine, rec: Record, legacy: bool, refresh: bool)
    requires rec.copied == [] && !rec.created && !rec.retained && !rec.attempted && !rec.legacyWasActive
    ensures var p := StartSequence(w, m, rec, legacy, refresh);
            && Sequenced(w, m, rec, legacy, StartCommand(rec.previous.None?, refresh), p)
            && Decided(w, m, legacy, p)
  {
    var command, p := StartCommand(rec.previous.None?, refresh), MigrateDropIns(w, m, rec, legacy);
    MigrationMoves(w, m, rec, legacy);
    if !p.ok {
      MigrationFailed(w, m, rec, legacy, command, p);
    } else {
      var q := Load(w, p.m, p.rec, legacy);
      LoadAsks(w, p.m, p.rec, legacy);
      if !q.ok {
        LoadFailed(w, m, rec, legacy, command, p, q);
      } else {
        var o := StartCurrent(w, q.m, command);
        StartAsks(w, q.m, command, o);
        StartStarts(w, q.m, command, o);
        StartEnded(w, m, rec, legacy, command, p, q, o);
      }
    }
  }
}
