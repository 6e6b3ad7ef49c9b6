/** What an installation leaves, for every environment. */
module ServiceInstallResults {
  import opened Results
  import opened ServiceInstall
  import opened ServiceInstallTraces
  import opened ServiceInstallDropIns
  import opened ServiceInstallSequences

  // ---- the rollback ----

  function StopCommands(attempted: bool, isNew: bool): seq<Command> {
    If(attempted, Stop(Current)) + If(attempted && isNew, Disable(Current))
  }

  function RestartCommands(startCurrent: bool, startLegacy: bool): seq<Command> {
    [DaemonReload] + If(startCurrent, Start(Current)) + If(startLegacy, Start(Legacy))
  }

  function StopsOf(rec: Record): seq<Command> { StopCommands(rec.attempted, rec.previous.None?) }

  function RestartsOf(rec: Record): seq<Command> {
    RestartCommands(StartsCurrent(rec), rec.legacyWasActive)
  }

  lemma StopsAsk(w: World, m: Machine, rec: Record)
    ensures var t := StopAttempt(w, m, rec); OnlyAsks(w, m, t) && Follows(Added(m, t), StopsOf(rec))
  {
    var stopped := AskIf(rec.attempted, w, m, Stop(Current));
    AskIfAsks(rec.attempted, w, m, Stop(Current));
    ThenAsks(w, m, stopped, If(rec.attempted, Stop(Current)), rec.attempted && rec.previous.None?, Disable(Current));
  }

  lemma ThenAsks(w: World, m: Machine, s: Machine, commands: seq<Command>, condition: bool, command: Command)
    requires OnlyAsks(w, m, s) && Follows(Added(m, s), commands)
    ensures var t := AskIf(condition, w, s, command);
            OnlyAsks(w, m, t) && Follows(Added(m, t), commands + If(condition, command))
  {
    var t := AskIf(condition, w, s, command);
    AskIfAsks(condition, w, s, command);
    AsksTwice(w, m, s, t);
    FollowsAppend(Added(m, s), commands, Added(s, t), If(condition, command));
  }

  lemma RestartsAsk(w: World, m: Machine, rec: Record)
    ensures var t := StartAgain(w, m, rec); OnlyAsks(w, m, t) && Follows(Added(m, t), RestartsOf(rec))
  {
    var reloaded := Ask(w, m, DaemonReload);
    AskAsks(w, m, DaemonReload);
    ThenAsks(w, m, reloaded, [DaemonReload], StartsCurrent(rec), Start(Current));
    ThenAsks(w, m, AskIf(StartsCurrent(rec), w, reloaded, Start(Current)),
             [DaemonReload] + If(StartsCurrent(rec), Start(Current)), rec.legacyWasActive, Start(Legacy));
  }

  /** Up to step `k` the commands saw the disk as it was, and from there on as it is. */
  ghost predicate Turns(m: Machine, t: Machine, k: nat) {
    forall i :: |m.log| <= i < |t.log| ==> t.log[i].disk == if i < |m.log| + k then m.disk else t.disk
  }

  ghost predicate RolledBackTo(w: World, m: Machine, rec: Record, o: Outcome) {
    && Extends(w, m, o.m) && o.m.writes == m.writes
    && (o.ok <==> AllFiles(w, m.files, m.files + RestoreOperations(rec)))
    && o.m.disk.legacy == m.disk.legacy && o.m.disk.source == m.disk.source
    && (o.ok ==>
          && o.m.files == m.files + RestoreOperations(rec) + (if rec.created then 1 else 0)
          && o.m.disk == m.disk.(definition := rec.previous, dropIns := Restored(w, m, rec))
          && Follows(Added(m, o.m), StopsOf(rec) + RestartsOf(rec))
          && Turns(m, o.m, |StopsOf(rec)|))
    && (!o.ok ==> Follows(Added(m, o.m), StopsOf(rec)))
  }

  lemma StopsThenFiles(w: World, m: Machine, stopped: Machine, t: Machine, rec: Record)
    requires OnlyAsks(w, m, stopped) && Follows(Added(m, stopped), StopsOf(rec))
    requires stopped.files <= t.files && t.log == stopped.log && t.now == stopped.now && t.writes == stopped.writes
    ensures Extends(w, m, t) && Added(m, t) == Added(m, stopped)
  {
  }

  lemma FilesThenRestarts(w: World, m: Machine, stopped: Machine, restored: Machine, t: Machine, rec: Record)
    requires OnlyAsks(w, m, stopped) && Follows(Added(m, stopped), StopsOf(rec))
    requires Extends(w, m, restored) && restored.log == stopped.log
    requires OnlyAsks(w, restored, t) && Follows(Added(restored, t), RestartsOf(rec))
    ensures Extends(w, m, t) && Follows(Added(m, t), StopsOf(rec) + RestartsOf(rec)) && Turns(m, t, |StopsOf(rec)|)
  {
    ExtendsTwice(w, m, restored, t);
    FollowsAppend(Added(m, restored), StopsOf(rec), Added(restored, t), RestartsOf(rec));
    forall i | |m.log| <= i < |restored.log| ensures t.log[i].disk == m.disk {
      assert t.log[i] == stopped.log[i];
    }
  }

  lemma RollbackStops(w: World, m: Machine, rec: Record, stopped: Machine, restored: Outcome)
    requires OnlyAsks(w, m, stopped) && Follows(Added(m, stopped), StopsOf(rec))
    requires RestoredTo(w, stopped, rec, restored) && !restored.ok
    ensures RolledBackTo(w, m, rec, restored)
  {
    StopsThenFiles(w, m, stopped, restored.m, rec);
  }

  lemma RollbackRestarts(w: World, m: Machine, rec: Record, stopped: Machine, restored: Outcome, t: Machine)
    requires OnlyAsks(w, m, stopped) && Follows(Added(m, stopped), StopsOf(rec))
    requires RestoredTo(w, stopped, rec, restored) && restored.ok
    requires OnlyAsks(w, restored.m, t) && Follows(Added(restored.m, t), RestartsOf(rec))
    ensures RolledBackTo(w, m, rec, Outcome(true, t))
  {
    StopsThenFiles(w, m, stopped, restored.m, rec);
    FilesThenRestarts(w, m, stopped, restored.m, t, rec);
    assert Restored(w, m, rec) == Restored(w, stopped, rec);
  }

  lemma RollbackEffect(w: World, m: Machine, rec: Record)
    requires !rec.changed ==> rec.previous == m.disk.definition
    ensures RolledBackTo(w, m, rec, Rollback(w, m, rec))
  {
    var stopped := StopAttempt(w, m, rec);
    var restored := RestoreFiles(w, stopped, rec);
    StopsAsk(w, m, rec);
    RestoreExactly(w, stopped, rec);
    if restored.ok {
      RestartsAsk(w, restored.m, rec);
      RollbackRestarts(w, m, rec, stopped, restored, StartAgain(w, restored.m, rec));
    } else {
      RollbackStops(w, m, rec, stopped, restored);
    }
  }

  // ---- removing the legacy service ----

  ghost predicate LegacyRemoved(w: World, m: Machine, rec: Record, o: Outcome) {
    && Extends(w, m, o.m)
    && o.m.disk == m.disk.(legacy := o.m.disk.legacy, source := o.m.disk.source)
    && (o.ok ==> RemovedWell(m, rec, o.m))
    && |Added(m, o.m)| > 0 && Added(m, o.m)[0].command == Disable(Legacy) && Added(m, o.m)[0].disk == m.disk
    && (o.m.disk.legacy != m.disk.legacy ==> o.m.disk.legacy.None? && Added(m, o.m)[0].answer.ok)
    && (o.m.disk.source != m.disk.source ==> o.m.disk.legacy.None? && o.m.disk.source.None? && !rec.retained)
  }

  /** Disabled, deleted and reloaded, with the drop-in directory gone too unless it is retained. */
  ghost predicate RemovedWell(m: Machine, rec: Record, t: Machine) {
    && Follows(Added(m, t), [Disable(Legacy), DaemonReload])
    && Added(m, t)[0].answer.ok && Added(m, t)[1].answer.ok && Added(m, t)[1].disk == t.disk
    && t.disk == m.disk.(legacy := None, source := if rec.retained then m.disk.source else None)
  }

  lemma RemovalEffect(w: World, m: Machine, rec: Record)
    ensures LegacyRemoved(w, m, rec, RemoveLegacy(w, m, rec))
  {
    var disabled := Ask(w, m, Disable(Legacy));
    AskAsks(w, m, Disable(Legacy));
    if Succeeded(disabled) && w.files(disabled.files) {
      var removed := Tried(disabled).(disk := m.disk.(legacy := None));
      if rec.retained {
        ReloadRemoves(w, m, rec, disabled, removed);
      } else if w.files(removed.files) {
        ReloadRemoves(w, m, rec, disabled, Tried(removed).(disk := removed.disk.(source := None)));
      }
    }
  }

  lemma ReloadRemoves(w: World, m: Machine, rec: Record, disabled: Machine, s: Machine)
    requires OnlyAsks(w, m, disabled) && disabled.log != [] && Added(m, disabled) == [Last(disabled)]
    requires Last(disabled).command == Disable(Legacy) && Succeeded(disabled)
    requires disabled.log == s.log && disabled.now == s.now && disabled.writes == s.writes && disabled.files <= s.files
    requires s.disk == m.disk.(legacy := None, source := if rec.retained then m.disk.source else None)
    ensures LegacyRemoved(w, m, rec, Reloaded(w, s))
  {
    ReloadEffect(w, m, disabled, s);
  }

  lemma ReloadEffect(w: World, m: Machine, disabled: Machine, s: Machine)
    requires OnlyAsks(w, m, disabled) && Added(m, disabled) != []
    requires disabled.log == s.log && disabled.now == s.now && disabled.writes == s.writes && disabled.files <= s.files
    ensures var t := Reloaded(w, s).m;
            && Extends(w, m, t) && t.disk == s.disk && |Added(m, t)| > 0 && Added(m, t)[0] == Added(m, disabled)[0]
            && (|Added(m, disabled)| == 1 ==>
                  |Added(m, t)| == 2 && Added(m, t)[1] == Last(t) && Last(t).command == DaemonReload
                  && Last(t).disk == t.disk && (Reloaded(w, s).ok <==> Last(t).answer.ok))
  {
    var t := Ask(w, s, DaemonReload);
    AskAsks(w, s, DaemonReload);
    assert Extends(w, m, s) && Added(m, s) == Added(m, disabled);
    ExtendsTwice(w, m, s, t);
  }

  // ---- the installation as a whole ----

  lemma ReadyExtends(w: World, m: Machine, definition: Text)
    ensures var t := Ready(w, m, definition);
            && Extends(w, m, t) && t.writes == m.writes && t.disk == m.disk.(definition := Some(definition))
            && Follows(Added(m, t), If(m.disk.definition.Some?, IsActive(Current)))
            && (forall i :: |m.log| <= i < |t.log| ==> t.log[i].disk == m.disk)
            && (Begun(w, m, definition).currentWasActive <==> FoundActive(Added(m, t), Current))
            && !FoundActive(Added(m, t), Legacy)
  {
    var probed := Probe(w, m);
    AskIfAsks(m.disk.definition.Some?, w, m, IsActive(Current));
    if m.disk.definition.Some? {
      AskAsks(w, m, IsActive(Current));
    }
    assert Added(m, Ready(w, m, definition)) == Added(m, probed);
  }

  function Sequence(r: Installation): Progress {
    Progress(!r.result.RolledBack? && !r.result.RollbackFailed?, r.turn, r.rec)
  }

  /** What followed the start sequence. */
  ghost predicate Followed(w: World, legacy: bool, r: Installation) {
    var ok := Sequence(r).ok;
    && (!ok ==> RolledBackTo(w, r.turn, r.rec, Outcome(r.result.RolledBack?, r.m)))
    && (ok && legacy ==> LegacyRemoved(w, r.turn, r.rec, Outcome(r.result.Installed?, r.m)))
    && (ok && !legacy ==> r.result.Installed? && r.m == r.turn)
  }

  /** From the machine `s` on, the start sequence ran, and then what had to follow. */
  ghost predicate Switched(w: World, s: Machine, rec: Record, refresh: bool, r: Installation) {
    var legacy := s.disk.legacy.Some?;
    && Sequenced(w, s, rec, legacy, StartCommand(rec.previous.None?, refresh), Sequence(r))
    && Decided(w, s, legacy, Sequence(r))
    && Followed(w, legacy, r)
    && (r.result.Installed? ==> r.result.changed == rec.changed)
  }

  lemma SwitchFollows(w: World, legacy: bool, changed: bool, p: Progress, r: Installation)
    requires !p.rec.changed ==> p.rec.previous == p.m.disk.definition
    requires r == if !p.ok then
                    var undone := Rollback(w, p.m, p.rec);
                    Installation(if undone.ok then RolledBack else RollbackFailed, undone.m, p.m, p.rec)
                  else if legacy then
                    var removed := RemoveLegacy(w, p.m, p.rec);
                    Installation(if removed.ok then Installed(changed) else Unfinished, removed.m, p.m, p.rec)
                  else Installation(Installed(changed), p.m, p.m, p.rec)
    ensures Sequence(r) == p && Followed(w, legacy, r)
  {
    if !p.ok {
      RollbackEffect(w, p.m, p.rec);
    } else if legacy {
      RemovalEffect(w, p.m, p.rec);
    }
  }

  lemma SwitchEffect(w: World, s: Machine, rec: Record, refresh: bool)
    requires rec.copied == [] && !rec.created && !rec.retained && !rec.attempted && !rec.legacyWasActive
    requires !rec.changed ==> rec.previous == s.disk.definition
    ensures Switched(w, s, rec, refresh, SwitchOver(w, s, rec, refresh))
  {
    var legacy := s.disk.legacy.Some?;
    var p := StartSequence(w, s, rec, legacy, refresh);
    SequenceEffect(w, s, rec, legacy, refresh);
    SwitchFollows(w, legacy, rec.changed, p, SwitchOver(w, s, rec, refresh));
  }

  predicate Ran(r: Installation) { !r.result.Outdated? && !r.result.Unwritten? }

  lemma InstallSwitches(w: World, m: Machine, definition: Text, refresh: bool)
    requires Ran(Install(w, m, definition, refresh))
    ensures Switched(w, Ready(w, m, definition), Begun(w, m, definition), refresh, Install(w, m, definition, refresh))
  {
    ReadyExtends(w, m, definition);
    SwitchEffect(w, Ready(w, m, definition), Begun(w, m, definition), refresh);
  }

  /** An installation refused, or without a definition written, asked at most whether the unit was active. */
  lemma UnrunChangesNothing(w: World, m: Machine, definition: Text, refresh: bool)
    requires !Ran(Install(w, m, definition, refresh))
    ensures var r := Install(w, m, definition, refresh);
            && OnlyAsks(w, m, r.turn) && r.m.log == r.turn.log && Extends(w, m, r.m)
            && r.m.disk == m.disk
  {
    RunsExactly(w, m, definition, refresh);
    AsksNothing(w, m);
    AskIfAsks(m.disk.definition.Some?, w, m, IsActive(Current));
    TriedExtends(w, m, Probe(w, m));
  }

  lemma TriedExtends(w: World, m: Machine, t: Machine)
    requires OnlyAsks(w, m, t)
    ensures Extends(w, m, Tried(t))
  {
  }

  lemma SwitchOverRuns(w: World, s: Machine, rec: Record, refresh: bool)
    ensures Ran(SwitchOver(w, s, rec, refresh))
  {
  }

  lemma RunsExactly(w: World, m: Machine, definition: Text, refresh: bool)
    ensures Ran(Install(w, m, definition, refresh)) <==>
      !IsOutdated(m, definition, refresh) && (m.disk.definition == Some(definition) || w.files(m.files))
  {
    SwitchOverRuns(w, Ready(w, m, definition), Begun(w, m, definition), refresh);
  }

  /** The parts of a run follow each other in the log. */
  lemma SwitchedLog(w: World, m: Machine, s: Machine, rec: Record, refresh: bool, r: Installation)
    requires Extends(w, m, s) && Switched(w, s, rec, refresh, r)
    ensures Extends(w, m, r.turn) && Extends(w, r.turn, r.m) && Extends(w, m, r.m)
    ensures Added(m, r.turn) == Added(m, s) + Added(s, r.turn)
  {
    ExtendsTwice(w, m, s, r.turn);
    TurnExtends(w, s.disk.legacy.Some?, r);
    ExtendsTwice(w, m, r.turn, r.m);
  }

  lemma TurnExtends(w: World, legacy: bool, r: Installation)
    requires Followed(w, legacy, r)
    ensures Extends(w, r.turn, r.m)
  {
  }

  /** Until the start sequence ends, every command sees the legacy definition as it was. */
  lemma SwitchedLegacy(w: World, m: Machine, s: Machine, rec: Record, refresh: bool, r: Installation, i: nat)
    requires Extends(w, m, s) && Switched(w, s, rec, refresh, r) && s.disk.legacy == m.disk.legacy
    requires forall i :: |m.log| <= i < |s.log| ==> s.log[i].disk.legacy == m.disk.legacy
    requires |m.log| <= i < |r.turn.log|
    ensures i < |r.m.log| && r.m.log[i].disk.legacy == m.disk.legacy
  {
    SwitchedLog(w, m, s, rec, refresh, r);
    assert r.m.log[i] == r.turn.log[i];
    if i < |s.log| {
      assert r.turn.log[i] == s.log[i];
    }
  }

  lemma SwitchedLegacies(w: World, m: Machine, s: Machine, rec: Record, refresh: bool, r: Installation)
    requires Extends(w, m, s) && Switched(w, s, rec, refresh, r) && s.disk.legacy == m.disk.legacy
    requires forall i :: |m.log| <= i < |s.log| ==> s.log[i].disk == m.disk
    ensures SawLegacy(m, r.turn, r.m)
  {
    forall i | |m.log| <= i < |r.turn.log| ensures i < |r.m.log| && r.m.log[i].disk.legacy == m.disk.legacy {
      SwitchedLegacy(w, m, s, rec, refresh, r, i);
    }
  }

  /** Every command since `m`, up to `turn`, saw the legacy definition that was there. */
  ghost predicate SawLegacy(m: Machine, turn: Machine, t: Machine) {
    forall i :: |m.log| <= i < |turn.log| ==> i < |t.log| && t.log[i].disk.legacy == m.disk.legacy
  }

  lemma SwitchedRemoval(w: World, s: Machine, rec: Record, refresh: bool, r: Installation)
    requires Switched(w, s, rec, refresh, r)
    ensures r.turn.disk.legacy == s.disk.legacy
    ensures r.m.disk.legacy != s.disk.legacy ==>
      && Sequence(r).ok && s.disk.legacy.Some? && r.m.disk.legacy.None?
      && |r.m.log| > |r.turn.log|
      && var next := r.m.log[|r.turn.log|];
         next.command == Disable(Legacy) && next.answer.ok && next.disk.legacy == s.disk.legacy
  {
  }

  lemma SwitchedSource(w: World, s: Machine, rec: Record, refresh: bool, r: Installation)
    requires Switched(w, s, rec, refresh, r)
    ensures r.m.disk.source != s.disk.source ==>
      && r.m.disk.legacy.None? && r.m.disk.source.None?
      && AllMigrated(Source(s, true), Files(r.m.disk.dropIns))
  {
    SwitchedRemoval(w, s, rec, refresh, r);
  }

  lemma SwitchedInstalled(w: World, s: Machine, rec: Record, refresh: bool, r: Installation)
    requires Switched(w, s, rec, refresh, r) && s.disk.legacy.Some? && r.result.Installed?
    ensures RemovedWell(r.turn, r.rec, r.m)
    ensures r.rec.retained <==> !AllMigrated(Source(s, true), Files(r.turn.disk.dropIns))
  {
  }

  lemma TurnKeepsSource(w: World, s: Machine, rec: Record, refresh: bool, r: Installation)
    requires Switched(w, s, rec, refresh, r)
    ensures r.turn.disk == s.disk.(dropIns := r.turn.disk.dropIns)
  {
  }

  lemma SwitchedScript(w: World, s: Machine, rec: Record, refresh: bool, r: Installation)
    requires Switched(w, s, rec, refresh, r)
    ensures Begins(Added(s, r.turn), LoadCommands(s.disk.legacy.Some?) + [StartCommand(rec.previous.None?, refresh)])
  {
  }
}
