/** The promises of `install`, for every answer of the service manager and every outcome on disk. */
module ServiceInstallGuarantees {
  import opened Results
  import opened ServiceInstall
  import opened ServiceInstallTraces
  import opened ServiceInstallDropIns
  import opened ServiceInstallSequences
  import opened ServiceInstallResults

  predicate Failed(r: Installation) { r.result.RolledBack? || r.result.RollbackFailed? }

  predicate IsNew(m: Machine) { m.disk.definition.None? }

  /** Nothing is changed by a refusal, nor when the definition cannot be written. */
  lemma RefusalExactly(w: World, m: Machine, definition: Text, refresh: bool)
    ensures var r := Install(w, m, definition, refresh);
            && (r.result.Outdated? <==> m.disk.definition.Some? && m.disk.definition.value != definition && !refresh)
            && (r.result.Unwritten? <==>
                  !r.result.Outdated? && m.disk.definition != Some(definition) && !w.files(m.files))
            && (!Ran(r) ==> r.m.disk == m.disk)
  {
    RunsExactly(w, m, definition, refresh);
    if !Ran(Install(w, m, definition, refresh)) {
      UnrunChangesNothing(w, m, definition, refresh);
    }
  }

  /** The log only grows, by the service manager's own answers, in the order of the clock. */
  lemma LogIsTrue(w: World, m: Machine, definition: Text, refresh: bool)
    ensures var r := Install(w, m, definition, refresh); Extends(w, m, r.m) && r.turn.log <= r.m.log
  {
    if Ran(Install(w, m, definition, refresh)) {
      InstallSwitches(w, m, definition, refresh);
      ReadyExtends(w, m, definition);
      SwitchedLog(w, m, Ready(w, m, definition), Begun(w, m, definition), refresh, Install(w, m, definition, refresh));
    } else {
      UnrunChangesNothing(w, m, definition, refresh);
    }
  }

  /** It is rolled back exactly if a command was refused, the service was not stable, or a drop-in was not copied. */
  lemma FailsExactly(w: World, m: Machine, definition: Text, refresh: bool)
    requires Ran(Install(w, m, definition, refresh))
    ensures var r, s := Install(w, m, definition, refresh), Ready(w, m, definition);
            Failed(r) <==> || Refused(Added(s, r.turn), w.health)
                           || CannotCopy(w, Files(m.disk.dropIns), Source(m, m.disk.legacy.Some?), s, r.turn)
  {
    InstallSwitches(w, m, definition, refresh);
    ReadyExtends(w, m, definition);
  }

  /** Otherwise every command of the script succeeded, and the readings between start and enabling were stable. */
  lemma SuccessMeansHealthy(w: World, m: Machine, definition: Text, refresh: bool)
    requires Ran(Install(w, m, definition, refresh)) && !Failed(Install(w, m, definition, refresh))
    ensures var r := Install(w, m, definition, refresh);
            && r.m.disk.definition == Some(definition) && r.m.disk.dropIns == r.turn.disk.dropIns
            && Answered(Added(Ready(w, m, definition), r.turn), m.disk.legacy.Some?,
                        if refresh && !IsNew(m) then Restart(Current) else Start(Current), w.health)
            && (r.result.Installed? ==>
                  r.m.disk.legacy.None? && (r.result.changed <==> m.disk.definition != Some(definition)))
  {
    InstallSwitches(w, m, definition, refresh);
    ReadyExtends(w, m, definition);
  }

  /** The script up to the command that makes the unit run. */
  function Script(legacy: bool, start: Command): seq<Command> {
    if legacy then [DaemonReload, ShowConfiguration, IsActive(Legacy), Stop(Legacy), start]
    else [DaemonReload, ShowConfiguration, start]
  }

  lemma ScriptIs(steps: seq<Step>, legacy: bool, start: Command)
    requires Begins(steps, LoadCommands(legacy) + [start])
    ensures Begins(steps, Script(legacy, start))
  {
    assert LoadCommands(legacy) + [start] == Script(legacy, start);
  }

  /**
   * Whether it ends well or not, the script is this one, as far as it gets: a refresh of an installed unit
   * restarts it, so that it runs the new definition, and every other installation starts it.
   */
  lemma ScriptIsFollowed(w: World, m: Machine, definition: Text, refresh: bool)
    requires Ran(Install(w, m, definition, refresh))
    ensures var r := Install(w, m, definition, refresh);
            var start := if refresh && m.disk.definition.Some? then Restart(Current) else Start(Current);
            Begins(Added(Ready(w, m, definition), r.turn), Script(m.disk.legacy.Some?, start))
  {
    var r, s, rec := Install(w, m, definition, refresh), Ready(w, m, definition), Begun(w, m, definition);
    var start := if refresh && m.disk.definition.Some? then Restart(Current) else Start(Current);
    InstallSwitches(w, m, definition, refresh);
    SwitchedScript(w, s, rec, refresh, r);
    ScriptIs(Added(s, r.turn), m.disk.legacy.Some?, start);
  }

  /** The command that makes the unit run is a restart exactly on a refresh of one that was installed. */
  lemma StartsOrRestarts(w: World, m: Machine, definition: Text, refresh: bool)
    requires Ran(Install(w, m, definition, refresh))
    ensures var r := Install(w, m, definition, refresh);
            var steps, n := Added(Ready(w, m, definition), r.turn), if m.disk.legacy.Some? then 4 else 2;
            |steps| > n ==>
              && (steps[n].command == Restart(Current) <==> refresh && m.disk.definition.Some?)
              && (steps[n].command == Start(Current) <==> !(refresh && m.disk.definition.Some?))
  {
    ScriptIsFollowed(w, m, definition, refresh);
  }

  /**
   * After a rollback the definition is as before, and so are the drop-ins exactly if no write left a part of
   * a file and no file operation of the rollback failed; a part that was left is all that differs.
   */
  lemma RollbackRestoresExactly(w: World, m: Machine, definition: Text, refresh: bool)
    requires Install(w, m, definition, refresh).result.RolledBack?
    ensures var r := Install(w, m, definition, refresh);
            && r.m.disk == m.disk.(dropIns := r.m.disk.dropIns)
            && (r.m.disk.dropIns == m.disk.dropIns <==>
                  NoPartial(w, m.writes, r.m.writes) && AllFiles(w, r.turn.files, r.m.files))
            && (NoPartial(w, m.writes, r.m.writes) ==> Files(r.m.disk.dropIns) == Files(m.disk.dropIns))
            && (!NoPartial(w, m.writes, r.m.writes) ==>
                  exists name, part ::
                    && PartLeft(w, r.m.writes, m.disk.dropIns, name, part)
                    && r.m.disk.dropIns == Some(Files(m.disk.dropIns)[name := File(part)]))
  {
    var r, s := Install(w, m, definition, refresh), Ready(w, m, definition);
    InstallSwitches(w, m, definition, refresh);
    ReadyExtends(w, m, definition);
    RestoredExactly(w, s.disk.dropIns, s.writes, r.turn, r.rec, Outcome(true, r.m));
  }

  /** The last write failed half-way, and left this much of a new file. */
  ghost predicate PartLeft(w: World, writes: nat, before: Option<map<string, Entry>>, name: string, part: Text) {
    writes > 0 && w.writes(writes - 1) == Partial(part) && name !in Files(before)
  }

  lemma RestoredExactly(
      w: World, before: Option<map<string, Entry>>, from: nat, m: Machine, rec: Record, o: Outcome)
    requires Recorded(w, before, from, m, rec) && RolledBackTo(w, m, rec, o) && o.ok
    ensures o.m.disk.dropIns == before <==> NoPartial(w, from, o.m.writes) && AllFiles(w, m.files, o.m.files)
    ensures NoPartial(w, from, o.m.writes) ==> Files(o.m.disk.dropIns) == Files(before)
    ensures !NoPartial(w, from, o.m.writes) ==>
      exists name, part :: PartLeft(w, o.m.writes, before, name, part)
                           && o.m.disk.dropIns == Some(Files(before)[name := File(part)])
  {
    if from < m.writes && w.writes(m.writes - 1).Partial? {
      var name, part :| LeavesPart(before, m.disk.dropIns, rec, name, part) && w.writes(m.writes - 1) == Partial(part);
      RestoredKeepsPart(w, m, rec, before, name, part);
      assert PartLeft(w, o.m.writes, before, name, part);
    } else {
      RestoredIsBefore(w, m, rec, before);
      LastOperation(w, m, rec, o);
      assert NoPartial(w, from, o.m.writes);
    }
  }

  /** The removal of a created directory is the only operation of a completed rollback that may have failed. */
  lemma LastOperation(w: World, m: Machine, rec: Record, o: Outcome)
    requires RolledBackTo(w, m, rec, o) && o.ok
    ensures AllFiles(w, m.files, o.m.files) <==> !rec.created || w.files(m.files + RestoreOperations(rec))
  {
  }

  /** A failed start is rolled back completely exactly if each removal and write of the rollback succeeds. */
  lemma RollbackCompletesExactly(w: World, m: Machine, definition: Text, refresh: bool)
    requires Failed(Install(w, m, definition, refresh))
    ensures var r := Install(w, m, definition, refresh);
            r.result.RolledBack? <==> AllFiles(w, r.turn.files, r.turn.files + RestoreOperations(r.rec))
  {
    InstallSwitches(w, m, definition, refresh);
  }

  // ---- what is started again ----

  /** The new service was told to start, and the unit was found active before. */
  predicate Told(w: World, m: Machine, definition: Text, r: Installation) {
    |Added(Ready(w, m, definition), r.turn)| > |LoadCommands(m.disk.legacy.Some?)|
  }

  /**
   * A rollback stops what was told to start, and then, over the restored files, reloads and starts again what
   * was found active, the legacy service last. One that fails at a file does the stopping only.
   */
  lemma RollbackStartsWhatWasActive(w: World, m: Machine, definition: Text, refresh: bool)
    requires Failed(Install(w, m, definition, refresh))
    ensures var r := Install(w, m, definition, refresh);
            var told, steps := Told(w, m, definition, r), Added(m, r.turn);
            var stops := StopCommands(told, IsNew(m));
            var starts := RestartCommands(told && FoundActive(steps, Current), FoundActive(steps, Legacy));
            && (r.result.RolledBack? ==>
                  Follows(Added(r.turn, r.m), stops + starts) && Turns(r.turn, r.m, |stops|))
            && (r.result.RollbackFailed? ==> Follows(Added(r.turn, r.m), stops))
  {
    var r, s := Install(w, m, definition, refresh), Ready(w, m, definition);
    InstallSwitches(w, m, definition, refresh);
    FoundInTurn(w, m, definition, refresh);
    assert StopsOf(r.rec) == StopCommands(Told(w, m, definition, r), IsNew(m));
  }

  lemma FoundInTurn(w: World, m: Machine, definition: Text, refresh: bool)
    requires Ran(Install(w, m, definition, refresh))
    ensures var r := Install(w, m, definition, refresh);
            && (r.rec.legacyWasActive <==> FoundActive(Added(m, r.turn), Legacy))
            && (r.rec.currentWasActive <==> FoundActive(Added(m, r.turn), Current))
            && (r.rec.attempted <==> Told(w, m, definition, r))
            && r.rec.previous == m.disk.definition && (r.rec.currentWasActive ==> r.rec.previous.Some?)
  {
    var r, s := Install(w, m, definition, refresh), Ready(w, m, definition);
    InstallSwitches(w, m, definition, refresh);
    ReadyExtends(w, m, definition);
    ExtendsTwice(w, m, s, r.turn);
    FoundActiveAppends(Added(m, s), Added(s, r.turn), Legacy);
    FoundActiveAppends(Added(m, s), Added(s, r.turn), Current);
  }

  /** A legacy service found active is started again, last of all, over the restored files. */
  lemma ActiveLegacyIsRestarted(w: World, m: Machine, definition: Text, refresh: bool)
    requires Install(w, m, definition, refresh).result.RolledBack?
    requires FoundActive(Added(m, Install(w, m, definition, refresh).turn), Legacy)
    ensures var r := Install(w, m, definition, refresh);
            r.m.log != [] && Last(r.m).command == Start(Legacy) && Last(r.m).disk == r.m.disk
            && |r.m.log| > |r.turn.log|
  {
    var r := Install(w, m, definition, refresh);
    RollbackStartsWhatWasActive(w, m, definition, refresh);
    var told, steps := Told(w, m, definition, r), Added(m, r.turn);
    LastIsRestart(r.turn, r.m, StopCommands(told, IsNew(m)), told && FoundActive(steps, Current));
  }

  lemma LastIsRestart(turn: Machine, t: Machine, stops: seq<Command>, current: bool)
    requires Follows(Added(turn, t), stops + RestartCommands(current, true)) && Turns(turn, t, |stops|)
    ensures t.log != [] && Last(t).command == Start(Legacy) && Last(t).disk == t.disk && |t.log| > |turn.log|
  {
    var added := Added(turn, t);
    assert added[|added| - 1] == Last(t);
  }

  // ---- the legacy service ----

  /**
   * Every command up to the end of the start sequence, and the disabling of the legacy unit, saw the legacy
   * definition; if it is gone at last, the installation had succeeded and that disabling too.
   */
  lemma LegacyStaysUntilHealthy(w: World, m: Machine, definition: Text, refresh: bool)
    ensures var r := Install(w, m, definition, refresh);
            && SawLegacy(m, r.turn, r.m)
            && (r.m.disk.legacy != m.disk.legacy ==>
                  && Ran(r) && !Failed(r) && m.disk.legacy.Some? && r.m.disk.legacy.None?
                  && |r.m.log| > |r.turn.log|
                  && var next := r.m.log[|r.turn.log|];
                     next.command == Disable(Legacy) && next.answer.ok && next.disk.legacy == m.disk.legacy)
  {
    CommandsSawLegacy(w, m, definition, refresh);
    LegacyGoesLast(w, m, definition, refresh);
  }

  lemma CommandsSawLegacy(w: World, m: Machine, definition: Text, refresh: bool)
    ensures var r := Install(w, m, definition, refresh); SawLegacy(m, r.turn, r.m)
  {
    var r, s := Install(w, m, definition, refresh), Ready(w, m, definition);
    if Ran(r) {
      InstallSwitches(w, m, definition, refresh);
      ReadyExtends(w, m, definition);
      SwitchedLegacies(w, m, s, Begun(w, m, definition), refresh, r);
    } else {
      UnrunChangesNothing(w, m, definition, refresh);
    }
  }

  lemma LegacyGoesLast(w: World, m: Machine, definition: Text, refresh: bool)
    ensures var r := Install(w, m, definition, refresh);
            r.m.disk.legacy != m.disk.legacy ==>
              && Ran(r) && !Failed(r) && m.disk.legacy.Some? && r.m.disk.legacy.None?
              && |r.m.log| > |r.turn.log|
              && var next := r.m.log[|r.turn.log|];
                 next.command == Disable(Legacy) && next.answer.ok && next.disk.legacy == m.disk.legacy
  {
    var r := Install(w, m, definition, refresh);
    if Ran(r) {
      InstallSwitches(w, m, definition, refresh);
      SwitchedRemoval(w, Ready(w, m, definition), Begun(w, m, definition), refresh, r);
    } else {
      UnrunChangesNothing(w, m, definition, refresh);
    }
  }

  /**
   * An installation over a legacy unit that ends well has disabled it, deleted its definition and reloaded;
   * the legacy drop-in directory is gone too exactly if each of its entries has an equal copy.
   */
  lemma LegacyIsRemovedAtLast(w: World, m: Machine, definition: Text, refresh: bool)
    requires m.disk.legacy.Some? && Install(w, m, definition, refresh).result.Installed?
    ensures var r := Install(w, m, definition, refresh);
            var steps := Added(r.turn, r.m);
            && Follows(steps, [Disable(Legacy), DaemonReload])
            && steps[0].answer.ok && steps[1].answer.ok && steps[1].disk == r.m.disk
            && r.m.disk.legacy.None?
            && (if AllMigrated(Source(m, true), Files(r.m.disk.dropIns)) then r.m.disk.source.None?
                else r.m.disk.source == m.disk.source)
  {
    var r, s := Install(w, m, definition, refresh), Ready(w, m, definition);
    InstallSwitches(w, m, definition, refresh);
    SwitchedInstalled(w, s, Begun(w, m, definition), refresh, r);
    SwitchedRemoval(w, s, Begun(w, m, definition), refresh, r);
    TurnKeepsSource(w, s, Begun(w, m, definition), refresh, r);
    assert Source(s, true) == Source(m, true);
  }

  /** The legacy drop-ins are deleted only when each of them has an equal copy for the new unit. */
  lemma LegacyDropInsAreKept(w: World, m: Machine, definition: Text, refresh: bool)
    ensures var r := Install(w, m, definition, refresh);
            r.m.disk.source != m.disk.source ==>
              && r.m.disk.legacy.None? && r.m.disk.source.None?
              && AllMigrated(Source(m, true), Files(r.m.disk.dropIns))
  {
    var r, s := Install(w, m, definition, refresh), Ready(w, m, definition);
    if Ran(r) {
      InstallSwitches(w, m, definition, refresh);
      SwitchedSource(w, s, Begun(w, m, definition), refresh, r);
      assert Source(s, true) == Source(m, true);
    } else {
      UnrunChangesNothing(w, m, definition, refresh);
    }
  }

  // ---- where the files are not as before ----

  function Well(n: nat): Answer { Answer(true, true, Sample(true, false, Some(1), Some(0))) }

  /** A world in which everything succeeds at once, except what the arguments say. */
  function Mostly(files: nat -> bool, writes: nat -> Written, answers: nat -> Answer): World {
    World(answers, _ => 0, files, writes, _ => 0, Health(0, 0))
  }

  function Fresh(name: string, contents: Text): Machine {
    Machine(Disk(None, Some(""), None, Some([SourceEntry(name, File(contents))])), [], 0, 0, 0)
  }

  /** A drop-in whose write stops half-way is still there after the rollback, and so is its directory. */
  lemma PartialDropInStays(name: string, contents: Text, part: Text, definition: Text)
    requires IsConf(SourceEntry(name, File(contents)))
    ensures var r := Install(Mostly(_ => true, _ => Partial(part), Well), Fresh(name, contents), definition, false);
            r.result.RolledBack? && r.m.disk.dropIns == Some(map[name := File(part)])
  {
    var w, m := Mostly(_ => true, _ => Partial(part), Well), Fresh(name, contents);
    var s, rec := Ready(w, m, definition), Begun(w, m, definition);
    var p := StartSequence(w, s, rec, true, false);
    assert !p.ok && p.m.disk.dropIns == Some(map[name := File(part)]) && p.rec.copied == [] && p.rec.created;
    var r := Install(w, m, definition, false);
    assert r.result.RolledBack?;
  }

  function StopRefused(n: nat): Answer { if n == 3 then Answer(false, true, Well(n).sample) else Well(n) }

  /**
   * The service manager stopped the legacy service but reported a failure, and the new definition cannot be
   * removed: the rollback ends there, and the legacy service stays stopped although it was active.
   */
  lemma FailedRemovalStrandsLegacy(definition: Text)
    ensures var w := Mostly(n => n == 0, _ => Done, StopRefused);
            var r := Install(w, Machine(Disk(None, Some(""), None, None), [], 0, 0, 0), definition, false);
            && r.result.RollbackFailed? && r.m.disk.definition == Some(definition)
            && FoundActive(r.turn.log, Legacy) && r.m.log != [] && Last(r.m).command == Stop(Legacy)
  {
    var w := Mostly(n => n == 0, _ => Done, StopRefused);
    var m := Machine(Disk(None, Some(""), None, None), [], 0, 0, 0);
    var s, rec := Ready(w, m, definition), Begun(w, m, definition);
    assert s.log == [] && s.files == 1;
    var p := StartSequence(w, s, rec, true, false);
    assert p == Load(w, s, rec, true);
    assert !p.ok && |p.m.log| == 4 && p.m.log[3].command == Stop(Legacy);
    assert p.m.log[2].command == IsActive(Legacy) && p.m.log[2].answer.ok;
    var o := Rollback(w, p.m, p.rec);
    assert !o.ok && o.m.log == p.m.log;
  }
}
