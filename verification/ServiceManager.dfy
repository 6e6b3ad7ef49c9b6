/**
 * UserServiceManager.install (src/cli/service-manager.ts) for systemd as an object: the loops and the record
 * that the start sequence fills in are those of the original. What `install` promises is proved about the
 * function it computes, in ServiceInstallGuarantees.
 */
module ServiceManagers {
  import opened Results
  import S = ServiceInstall

  /** The record the start sequence fills in and the rollback consults. */
  class InstallState {
    const previous: Option<S.Text>
    const changed: bool
    var currentWasActive: bool
    var currentStartAttempted: bool
    var legacyWasActive: bool
    var copiedDropIns: seq<string>
    var createdDropInDirectory: bool
    var retainedDropInDirectory: bool

    ghost function Value(): S.Record
      reads this
    {
      S.Record(previous, changed, currentWasActive, currentStartAttempted, legacyWasActive, copiedDropIns,
               createdDropInDirectory, retainedDropInDirectory)
    }

    constructor (previous: Option<S.Text>, changed: bool)
      ensures Value() == S.Record(previous, changed, false, false, false, [], false, false)
    {
      this.previous, this.changed := previous, changed;
      currentWasActive, currentStartAttempted, legacyWasActive := false, false, false;
      copiedDropIns, createdDropInDirectory, retainedDropInDirectory := [], false, false;
    }
  }

  class ServiceManager {
    const world: S.World
    var disk: S.Disk
    var log: seq<S.Step>
    var files: nat
    var writes: nat
    var now: int

    ghost function State(): S.Machine
      reads this
    {
      S.Machine(disk, log, files, writes, now)
    }

    constructor (world: S.World, disk: S.Disk)
      ensures this.world == world && State() == S.Machine(disk, [], 0, 0, 0)
    {
      this.world := world;
      this.disk, log, files, writes, now := disk, [], 0, 0, 0;
    }

    method Run(command: S.Command) returns (answer: S.Answer)
      modifies this`log, this`now
      ensures State() == S.Ask(world, old(State()), command) && answer == S.Last(State()).answer
    {
      answer := world.answers(|log|);
      now := now + world.delays(|log|);
      log := log + [S.Step(command, answer, disk, now)];
    }

    method RequireSuccess(command: S.Command) returns (ok: bool)
      modifies this`log, this`now
      ensures State() == S.Ask(world, old(State()), command) && ok == S.Succeeded(State())
    {
      var answer := Run(command);
      return answer.ok;
    }

    /** Any file operation may fail. */
    method Attempt() returns (ok: bool)
      modifies this`files
      ensures files == old(files) + 1 && ok == world.files(old(files))
    {
      ok := world.files(files);
      files := files + 1;
    }

    // ---- the start sequence ----

    method WaitUntilHealthy() returns (ok: bool)
      modifies this`log, this`now
      ensures S.Outcome(ok, State()) == S.Watch(world, old(State()), None, old(now) + world.health.timeoutMs)
    {
      var deadline := now + world.health.timeoutMs;
      var baseline: Option<S.Step> := None;
      ghost var start := State();
      while true
        invariant S.Watch(world, start, None, deadline) == S.Watch(world, State(), baseline, deadline)
        decreases if now < deadline then deadline - now else 0
      {
        var answer := Run(S.ShowHealth);
        var reading := log[|log| - 1];
        var sample := answer.sample;
        if sample.failed || !sample.running { return false; }
        if sample.pid.Some? {
          if baseline.Some? {
            var first := baseline.value.answer.sample;
            if first.pid != sample.pid || (sample.restarts.Some? && sample.restarts.value != S.Known(first.restarts)) {
              return false;
            }
          } else {
            baseline := Some(reading);
          }
          if now - baseline.value.at >= world.health.stableMs { return true; }
        } else if baseline.Some? {
          return false;
        }
        if now >= deadline { return false; }
        now := now + 1 + world.sleeps(|log|);
      }
    }

    /** Writes one new drop-in, creating the directory first if there is none. */
    method CopyDropIn(state: InstallState, name: string, contents: S.Text) returns (ok: bool)
      modifies this`disk, this`files, this`writes, state`copiedDropIns, state`createdDropInDirectory
      ensures S.Progress(ok, State(), state.Value())
              == S.CopyDropIn(world, old(State()), old(state.Value()), name, contents)
    {
      if disk.dropIns.None? {
        var made := Attempt();
        if !made { return false; }
        disk := disk.(dropIns := Some(map[]));
        state.createdDropInDirectory := true;
      }
      var written := world.writes(writes);
      writes := writes + 1;
      match written
      case Failed => return false;
      case Partial(part) =>
        disk := disk.(dropIns := Some(disk.dropIns.value[name := S.File(part)]));
        return false;
      case Done =>
        disk := disk.(dropIns := Some(disk.dropIns.value[name := S.File(contents)]));
        state.copiedDropIns := state.copiedDropIns + [name];
        return true;
    }

    /** One entry; `kept` says that it could not be migrated. */
    method MigrateEntry(state: InstallState, e: S.SourceEntry) returns (ok: bool, kept: bool)
      modifies this`disk, this`files, this`writes, state`copiedDropIns, state`createdDropInDirectory
      ensures S.Progress(ok, State(), state.Value()) == S.MigrateEntry(world, old(State()), old(state.Value()), e)
      ensures ok ==> kept == S.Retains(S.Files(old(disk).dropIns), e)
    {
      kept := false;
      if !S.IsConf(e) { return true, true; }
      var opening := Attempt();
      if !opening { return false, kept; }
      var existing := S.Files(disk.dropIns);
      if e.name in existing {
        ok := Attempt();
        if !ok || existing[e.name].Odd? { return false, kept; }
        return true, existing[e.name] != e.entry;
      }
      ok := CopyDropIn(state, e.name, e.entry.contents);
    }

    /** Copies the legacy unit's drop-ins; the legacy directory is kept if any entry could not be migrated. */
    method MigrateDropIns(state: InstallState) returns (ok: bool)
      modifies this`disk, this`files, this`writes
      modifies state`copiedDropIns, state`createdDropInDirectory, state`retainedDropInDirectory
      ensures S.Progress(ok, State(), state.Value())
              == S.MigrateDropIns(world, old(State()), old(state.Value()), true)
    {
      if disk.source.None? { return true; }
      var entries, retained, i := disk.source.value, false, 0;
      ghost var m, rec := State(), state.Value();
      assert entries[0..] == entries;
      while i < |entries|
        invariant 0 <= i <= |entries| && unchanged(state`retainedDropInDirectory)
        invariant S.Migrate(world, m, rec, entries, false)
                  == S.Migrate(world, State(), state.Value(), entries[i..], retained)
      {
        var kept;
        assert entries[i..][1..] == entries[i + 1..];
        ok, kept := MigrateEntry(state, entries[i]);
        if !ok { return; }
        retained := retained || kept;
        i := i + 1;
      }
      state.retainedDropInDirectory := retained;
      ok := true;
    }

    method LoadDefinition(state: InstallState, legacyInstalled: bool) returns (ok: bool)
      modifies this`log, this`now, state`legacyWasActive
      ensures S.Progress(ok, State(), state.Value())
              == S.Load(world, old(State()), old(state.Value()), legacyInstalled)
    {
      ok := RequireSuccess(S.DaemonReload);
      if !ok { return; }
      var configuration := Run(S.ShowConfiguration);
      ok := configuration.ok && configuration.matches;
      if !ok || !legacyInstalled { return; }
      var active := Run(S.IsActive(S.Legacy));
      state.legacyWasActive := active.ok;
      ok := RequireSuccess(S.Stop(S.Legacy));
    }

    method StartCurrent(command: S.Command) returns (ok: bool)
      modifies this`log, this`now
      ensures S.Outcome(ok, State()) == S.StartCurrent(world, old(State()), command)
    {
      ok := RequireSuccess(command);
      if !ok { return; }
      ok := WaitUntilHealthy();
      if !ok { return; }
      ok := RequireSuccess(S.Enable(S.Current));
    }

    method StartSequence(state: InstallState, legacyInstalled: bool, refresh: bool) returns (ok: bool)
      requires !state.currentStartAttempted
      modifies this, state
      ensures S.Progress(ok, State(), state.Value())
              == S.StartSequence(world, old(State()), old(state.Value()), legacyInstalled, refresh)
    {
      if legacyInstalled {
        ok := MigrateDropIns(state);
        if !ok { return; }
      }
      ok := LoadDefinition(state, legacyInstalled);
      if !ok { return; }
      state.currentStartAttempted := true;
      ok := StartCurrent(if refresh && state.previous.Some? then S.Restart(S.Current) else S.Start(S.Current));
    }

    // ---- the rollback ----

    method RemoveCopies(copied: seq<string>) returns (ok: bool)
      modifies this`disk, this`files
      ensures S.Outcome(ok, State()) == S.RemoveCopies(world, old(State()), copied)
    {
      var i := 0;
      ghost var m := State();
      assert copied[0..] == copied;
      while i < |copied|
        invariant 0 <= i <= |copied|
        invariant S.RemoveCopies(world, m, copied) == S.RemoveCopies(world, State(), copied[i..])
      {
        assert copied[i..][1..] == copied[i + 1..];
        ok := Attempt();
        if !ok { return; }
        if disk.dropIns.Some? { disk := disk.(dropIns := Some(disk.dropIns.value - {copied[i]})); }
        i := i + 1;
      }
      ok := true;
    }

    method RestoreFiles(state: InstallState) returns (ok: bool)
      modifies this`disk, this`files
      ensures S.Outcome(ok, State()) == S.RestoreFiles(world, old(State()), state.Value())
    {
      if state.previous.None? || state.changed {
        ok := Attempt();
        if !ok { return; }
        disk := disk.(definition := state.previous);
      }
      ok := RemoveCopies(state.copiedDropIns);
      if !ok { return; }
      if state.createdDropInDirectory {
        var removed := Attempt();
        if removed && disk.dropIns == Some(map[]) { disk := disk.(dropIns := None); }
      }
    }

    /** Best-effort restoration after a failed start sequence; a file operation that fails ends it. */
    method Rollback(state: InstallState) returns (ok: bool)
      modifies this
      ensures S.Outcome(ok, State()) == S.Rollback(world, old(State()), state.Value())
    {
      if state.currentStartAttempted {
        var _ := Run(S.Stop(S.Current));
        if state.previous.None? { var _ := Run(S.Disable(S.Current)); }
      }
      ok := RestoreFiles(state);
      if !ok { return; }
      var _ := Run(S.DaemonReload);
      if state.currentStartAttempted && state.previous.Some? && state.currentWasActive {
        var _ := Run(S.Start(S.Current));
      }
      if state.legacyWasActive { var _ := Run(S.Start(S.Legacy)); }
    }

    // ---- the installation ----

    method RemoveLegacy(state: InstallState) returns (ok: bool)
      modifies this
      ensures S.Outcome(ok, State()) == S.RemoveLegacy(world, old(State()), state.Value())
    {
      ok := RequireSuccess(S.Disable(S.Legacy));
      if !ok { return; }
      ok := Attempt();
      if !ok { return; }
      disk := disk.(legacy := None);
      if !state.retainedDropInDirectory {
        ok := Attempt();
        if !ok { return; }
        disk := disk.(source := None);
      }
      ok := RequireSuccess(S.DaemonReload);
    }

    /** From the written definition on. */
    method SwitchOver(state: InstallState, refresh: bool) returns (r: S.Result)
      requires !state.currentStartAttempted
      modifies this, state
      ensures var i := S.SwitchOver(world, old(State()), old(state.Value()), refresh); r == i.result && State() == i.m
    {
      var legacyInstalled := disk.legacy.Some?;
      var started := StartSequence(state, legacyInstalled, refresh);
      if !started {
        var undone := Rollback(state);
        return if undone then S.RolledBack else S.RollbackFailed;
      }
      if legacyInstalled {
        var removed := RemoveLegacy(state);
        if !removed { return S.Unfinished; }
      }
      return S.Installed(state.changed);
    }

    method Install(definition: S.Text, refresh: bool) returns (r: S.Result)
      modifies this
      ensures var i := S.Install(world, old(State()), definition, refresh); r == i.result && State() == i.m
    {
      var previous := disk.definition;
      if previous.Some? && previous.value != definition && !refresh { return S.Outdated; }
      var state := new InstallState(previous, previous != Some(definition));
      ProbeCurrent(state);
      ghost var m := old(State());
      assert State() == S.Probe(world, m) && state.Value() == S.Begun(world, m, definition);
      if state.changed {
        var written := Attempt();
        if !written { return S.Unwritten; }
        disk := disk.(definition := Some(definition));
      }
      assert State() == S.Ready(world, m, definition);
      r := SwitchOver(state, refresh);
    }

    method ProbeCurrent(state: InstallState)
      requires !state.currentWasActive && state.previous == disk.definition
      modifies this`log, this`now, state`currentWasActive
      ensures State() == S.Probe(world, old(State()))
      ensures state.Value() == old(state.Value()).(
                currentWasActive := state.previous.Some? && S.Succeeded(S.Probe(world, old(State()))))
    {
      if state.previous.Some? {
        var active := Run(S.IsActive(S.Current));
        state.currentWasActive := active.ok;
      }
    }
  }
}
