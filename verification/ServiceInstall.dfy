/**
 * Installing the systemd user service (src/cli/service-manager.ts): a transaction over the unit files and an
 * arbitrary service manager, rolled back when the start sequence fails at any point.
 */
module ServiceInstall {
  import opened Results

  type Text = string

  // ---- the outside world ----

  datatype Entry = File(contents: Text) | Odd

  datatype SourceEntry = SourceEntry(name: string, entry: Entry)

  /**
   * `dropIns` is the new unit's drop-in directory, if there is one, and `source` the legacy unit's, in the
   * order in which its entries are taken.
   */
  datatype Disk = Disk(
    definition: Option<Text>, legacy: Option<Text>,
    dropIns: Option<map<string, Entry>>, source: Option<seq<SourceEntry>>)

  datatype Unit = Current | Legacy

  datatype Command =
    | DaemonReload
    | ShowConfiguration
    | ShowHealth
    | IsActive(of: Unit)
    | Start(of: Unit)
    | Restart(of: Unit)
    | Stop(of: Unit)
    | Enable(of: Unit)
    | Disable(of: Unit)

  datatype Sample = Sample(running: bool, failed: bool, pid: Option<nat>, restarts: Option<nat>)

  /** What a command answers: whether it succeeded, and what was read from its output. */
  datatype Answer = Answer(ok: bool, matches: bool, sample: Sample)

  /** A failed write of a drop-in may leave a file with part of the contents behind. */
  datatype Written = Done | Failed | Partial(contents: Text)

  datatype Health = Health(timeoutMs: nat, stableMs: nat)

  /**
   * Everything the environment decides: the answer to the n-th command and how long it took, whether the n-th
   * file operation succeeds, how the n-th write of a drop-in ends, and how much longer than asked a sleep is.
   */
  datatype World = World(
    answers: nat -> Answer, delays: nat -> nat, files: nat -> bool, writes: nat -> Written, sleeps: nat -> nat,
    health: Health)

  /** A command with its answer, the disk it was run on, and the time when it returned. */
  datatype Step = Step(command: Command, answer: Answer, disk: Disk, at: int)

  /** The disk, all commands so far, and how many file operations and writes of drop-ins were tried. */
  datatype Machine = Machine(disk: Disk, log: seq<Step>, files: nat, writes: nat, now: int)

  /** What the start sequence notes for the rollback. */
  datatype Record = Record(
    previous: Option<Text>, changed: bool, currentWasActive: bool, attempted: bool, legacyWasActive: bool,
    copied: seq<string>, created: bool, retained: bool)

  datatype Progress = Progress(ok: bool, m: Machine, rec: Record)

  datatype Outcome = Outcome(ok: bool, m: Machine)

  function Ask(w: World, m: Machine, command: Command): (t: Machine)
    ensures |t.log| == |m.log| + 1
  {
    var n := |m.log|;
    var at := m.now + w.delays(n);
    m.(log := m.log + [Step(command, w.answers(n), m.disk, at)], now := at)
  }

  function Last(m: Machine): Step
    requires m.log != []
  {
    m.log[|m.log| - 1]
  }

  predicate Succeeded(m: Machine)
    requires m.log != []
  {
    Last(m).answer.ok
  }

  function AskIf(condition: bool, w: World, m: Machine, command: Command): Machine {
    if condition then Ask(w, m, command) else m
  }

  // ---- migrating drop-ins ----

  function Files(directory: Option<map<string, Entry>>): map<string, Entry> {
    if directory.Some? then directory.value else map[]
  }

  const CONF: string := ".conf"

  predicate IsConf(e: SourceEntry) {
    e.entry.File? && |e.name| >= 5 && e.name[|e.name| - 5..] == CONF
  }

  /** The new unit has a drop-in with the entry's name and contents. */
  predicate Migrated(files: map<string, Entry>, e: SourceEntry) {
    IsConf(e) && e.name in files && files[e.name] == e.entry
  }

  /** An entry that cannot be migrated: no drop-in file, or the new unit has another file of its name. */
  predicate Retains(files: map<string, Entry>, e: SourceEntry) {
    !IsConf(e) || (e.name in files && files[e.name] != e.entry)
  }

  function Tried(m: Machine): Machine { m.(files := m.files + 1) }

  /** One write, into a directory that exists. */
  function WriteDropIn(w: World, m: Machine, rec: Record, name: string, contents: Text): Progress {
    var files, t := Files(m.disk.dropIns), m.(writes := m.writes + 1);
    match w.writes(m.writes)
    case Done =>
      Progress(true, t.(disk := m.disk.(dropIns := Some(files[name := File(contents)]))),
               rec.(copied := rec.copied + [name]))
    case Failed => Progress(false, t, rec)
    case Partial(part) => Progress(false, t.(disk := m.disk.(dropIns := Some(files[name := File(part)]))), rec)
  }

  function CopyDropIn(w: World, m: Machine, rec: Record, name: string, contents: Text): Progress {
    if m.disk.dropIns.Some? then WriteDropIn(w, m, rec, name, contents)
    else if !w.files(m.files) then Progress(false, Tried(m), rec)
    else
      WriteDropIn(w, Tried(m).(disk := m.disk.(dropIns := Some(map[]))), rec.(created := true), name, contents)
  }

  /** The legacy file is read; an existing file of its name is read too, and else the file is copied. */
  function MigrateEntry(w: World, m: Machine, rec: Record, e: SourceEntry): Progress {
    if !IsConf(e) then Progress(true, m, rec)
    else if !w.files(m.files) then Progress(false, Tried(m), rec)
    else if e.name in Files(m.disk.dropIns) then
      Progress(w.files(m.files + 1) && Files(m.disk.dropIns)[e.name].File?, Tried(Tried(m)), rec)
    else CopyDropIn(w, Tried(m), rec, e.name, e.entry.contents)
  }

  function Migrate(w: World, m: Machine, rec: Record, entries: seq<SourceEntry>, retained: bool): Progress
    decreases |entries|
  {
    if entries == [] then Progress(true, m, rec.(retained := retained))
    else
      var p := MigrateEntry(w, m, rec, entries[0]);
      if !p.ok then p
      else Migrate(w, p.m, p.rec, entries[1..], retained || Retains(Files(m.disk.dropIns), entries[0]))
  }

  // ---- the health check ----

  function Known(restarts: Option<nat>): nat { if restarts.Some? then restarts.value else 0 }

  /** The same main process, with no restart counted since. */
  predicate SameProcess(first: Sample, now: Sample) {
    && now.running && !now.failed
    && now.pid.Some? && now.pid == first.pid
    && (now.restarts.Some? ==> now.restarts.value == Known(first.restarts))
  }

  function NextBaseline(baseline: Option<Step>, r: Step): Option<Step> {
    if baseline.Some? then baseline else if r.answer.sample.pid.Some? then Some(r) else None
  }

  predicate Breaks(baseline: Option<Step>, r: Step) {
    || r.answer.sample.failed || !r.answer.sample.running
    || (baseline.Some? && !SameProcess(baseline.value.answer.sample, r.answer.sample))
  }

  predicate Completes(health: Health, baseline: Option<Step>, r: Step) {
    baseline.Some? && r.at - baseline.value.at >= health.stableMs
  }

  function Sleep(w: World, m: Machine): Machine { m.(now := m.now + 1 + w.sleeps(|m.log|)) }

  function Watch(w: World, m: Machine, baseline: Option<Step>, deadline: int): Outcome
    decreases if m.now < deadline then deadline - m.now else 0
  {
    var t := Ask(w, m, ShowHealth);
    var next := NextBaseline(baseline, Last(t));
    if Breaks(baseline, Last(t)) then Outcome(false, t)
    else if Completes(w.health, next, Last(t)) then Outcome(true, t)
    else if Last(t).at >= deadline then Outcome(false, t)
    else Watch(w, Sleep(w, t), next, deadline)
  }

  // ---- the start sequence ----

  /** Loads the new definition, checks what was loaded, and stops the legacy service. */
  function Load(w: World, m: Machine, rec: Record, legacy: bool): Progress {
    var reloaded := Ask(w, m, DaemonReload);
    if !Succeeded(reloaded) then Progress(false, reloaded, rec)
    else
      var shown := Ask(w, reloaded, ShowConfiguration);
      if !Succeeded(shown) || !Last(shown).answer.matches then Progress(false, shown, rec)
      else if !legacy then Progress(true, shown, rec)
      else
        var probed := Ask(w, shown, IsActive(Legacy));
        var stopped := Ask(w, probed, Stop(Legacy));
        Progress(Succeeded(stopped), stopped, rec.(legacyWasActive := Succeeded(probed)))
  }

  function StartCommand(isNew: bool, refresh: bool): Command {
    if refresh && !isNew then Restart(Current) else Start(Current)
  }

  function EnableCurrent(w: World, watched: Outcome): Outcome {
    if !watched.ok then watched
    else
      var enabled := Ask(w, watched.m, Enable(Current));
      Outcome(Succeeded(enabled), enabled)
  }

  /** Starts the new service, waits until it is healthy, and enables it. */
  function StartCurrent(w: World, m: Machine, command: Command): Outcome {
    var started := Ask(w, m, command);
    if !Succeeded(started) then Outcome(false, started)
    else EnableCurrent(w, Watch(w, started, None, started.now + w.health.timeoutMs))
  }

  function MigrateDropIns(w: World, m: Machine, rec: Record, legacy: bool): Progress {
    if legacy && m.disk.source.Some? then Migrate(w, m, rec, m.disk.source.value, false) else Progress(true, m, rec)
  }

  function StartSequence(w: World, m: Machine, rec: Record, legacy: bool, refresh: bool): Progress {
    var migrated := MigrateDropIns(w, m, rec, legacy);
    if !migrated.ok then migrated
    else
      var loaded := Load(w, migrated.m, migrated.rec, legacy);
      if !loaded.ok then loaded
      else
        var started := StartCurrent(w, loaded.m, StartCommand(rec.previous.None?, refresh));
        Progress(started.ok, started.m, loaded.rec.(attempted := true))
  }

  // ---- the rollback ----

  function RemoveCopies(w: World, m: Machine, names: seq<string>): Outcome
    decreases |names|
  {
    if names == [] then Outcome(true, m)
    else if !w.files(m.files) then Outcome(false, Tried(m))
    else
      var left := if m.disk.dropIns.Some? then Some(m.disk.dropIns.value - {names[0]}) else None;
      RemoveCopies(w, Tried(m).(disk := m.disk.(dropIns := left)), names[1..])
  }

  function RestoreDefinition(w: World, m: Machine, rec: Record): Outcome {
    if rec.previous.Some? && !rec.changed then Outcome(true, m)
    else if !w.files(m.files) then Outcome(false, Tried(m))
    else Outcome(true, Tried(m).(disk := m.disk.(definition := rec.previous)))
  }

  /** Failing to remove the created directory, or finding it not empty, is no error. */
  function RemoveDirectory(w: World, m: Machine, rec: Record): Machine {
    if !rec.created then m
    else if w.files(m.files) && m.disk.dropIns == Some(map[]) then Tried(m).(disk := m.disk.(dropIns := None))
    else Tried(m)
  }

  function RestoreFiles(w: World, m: Machine, rec: Record): Outcome {
    var defined := RestoreDefinition(w, m, rec);
    if !defined.ok then defined
    else
      var removed := RemoveCopies(w, defined.m, rec.copied);
      if !removed.ok then removed else Outcome(true, RemoveDirectory(w, removed.m, rec))
  }

  function StopAttempt(w: World, m: Machine, rec: Record): Machine {
    AskIf(rec.attempted && rec.previous.None?, w, AskIf(rec.attempted, w, m, Stop(Current)), Disable(Current))
  }

  predicate StartsCurrent(rec: Record) { rec.attempted && rec.previous.Some? && rec.currentWasActive }

  function StartAgain(w: World, m: Machine, rec: Record): Machine {
    var current := AskIf(StartsCurrent(rec), w, Ask(w, m, DaemonReload), Start(Current));
    AskIf(rec.legacyWasActive, w, current, Start(Legacy))
  }

  /** A file operation that fails ends the rollback: neither the reload nor any start follows. */
  function Rollback(w: World, m: Machine, rec: Record): Outcome {
    var restored := RestoreFiles(w, StopAttempt(w, m, rec), rec);
    if restored.ok then Outcome(true, StartAgain(w, restored.m, rec)) else restored
  }

  // ---- the installation ----

  /** Only a healthy and enabled service gets this far. */
  function RemoveLegacy(w: World, m: Machine, rec: Record): Outcome {
    var disabled := Ask(w, m, Disable(Legacy));
    if !Succeeded(disabled) then Outcome(false, disabled)
    else if !w.files(disabled.files) then Outcome(false, Tried(disabled))
    else
      var removed := Tried(disabled).(disk := m.disk.(legacy := None));
      if rec.retained then Reloaded(w, removed)
      else if !w.files(removed.files) then Outcome(false, Tried(removed))
      else Reloaded(w, Tried(removed).(disk := removed.disk.(source := None)))
  }

  function Reloaded(w: World, m: Machine): Outcome {
    var t := Ask(w, m, DaemonReload);
    Outcome(Succeeded(t), t)
  }

  datatype Result = Outdated | Unwritten | RolledBack | RollbackFailed | Unfinished | Installed(changed: bool)

  /** `turn` is the machine, and `rec` the record, when the start sequence ended. */
  datatype Installation = Installation(result: Result, m: Machine, turn: Machine, rec: Record)

  function Probe(w: World, m: Machine): Machine { AskIf(m.disk.definition.Some?, w, m, IsActive(Current)) }

  function Begun(w: World, m: Machine, definition: Text): Record {
    var previous, probed := m.disk.definition, Probe(w, m);
    Record(previous, previous != Some(definition), previous.Some? && Succeeded(probed), false, false, [], false, false)
  }

  /** The machine after the definition was written, if it had to be. */
  function Ready(w: World, m: Machine, definition: Text): Machine {
    var probed := Probe(w, m);
    if m.disk.definition == Some(definition) then probed
    else Tried(probed).(disk := m.disk.(definition := Some(definition)))
  }

  predicate IsOutdated(m: Machine, definition: Text, refresh: bool) {
    m.disk.definition.Some? && m.disk.definition != Some(definition) && !refresh
  }

  function Install(w: World, m: Machine, definition: Text, refresh: bool): Installation {
    var rec := Begun(w, m, definition);
    if IsOutdated(m, definition, refresh) then Installation(Outdated, m, m, rec)
    else if rec.changed && !w.files(m.files) then Installation(Unwritten, Tried(Probe(w, m)), Probe(w, m), rec)
    else SwitchOver(w, Ready(w, m, definition), rec, refresh)
  }

  /** From the written definition on. */
  function SwitchOver(w: World, m: Machine, rec: Record, refresh: bool): Installation {
    var legacy := m.disk.legacy.Some?;
    var p := StartSequence(w, m, rec, legacy, refresh);
    if !p.ok then
      var undone := Rollback(w, p.m, p.rec);
      Installation(if undone.ok then RolledBack else RollbackFailed, undone.m, p.m, p.rec)
    else if legacy then
      var removed := RemoveLegacy(w, p.m, p.rec);
      Installation(if removed.ok then Installed(rec.changed) else Unfinished, removed.m, p.m, p.rec)
    else Installation(Installed(rec.changed), p.m, p.m, p.rec)
  }
}
