/**
 * The controller's lock file (src/server/controller-lock.ts) as a protocol between processes that can
 * each stop dead between any two file-system calls. A guard directory serializes acquisitions; the
 * lock file itself carries the holder's process id and a token of its own. A process id is free for
 * reuse as soon as its process is gone, and tokens are arbitrary.
 */
module ControllerLock {

  type Pid = nat
  type Token = nat

  const MAX_ATTEMPTS := 3

  /** Unreadable is a file just created, cut short by a crash, or not ours. */
  datatype LockFile = Absent | Unreadable | Record(pid: Pid, token: Token)

  /** Where a live process stands; each constructor names the file-system call that comes next. */
  datatype Stage =
    | Outside
    | Opening(attempt: nat, token: Token)
    | Writing(token: Token)
    | Withdrawing
    | Reading(attempt: nat, token: Token)
    | Probing(attempt: nat, token: Token, owner: Pid)
    | Replacing(attempt: nat, token: Token, owner: Pid)
    | LeavingWithLock(token: Token)
    | LeavingWithError
    | Holding(token: Token)
    | Releasing(token: Token, mine: bool)

  /** `processes` are all live processes of the machine, most of them never interested in the lock. */
  datatype System = System(guard: bool, lock: LockFile, processes: map<Pid, Stage>)

  datatype Event =
    | Starts(pid: Pid)
    | Dies(pid: Pid)
    | Acquires(pid: Pid, token: Token)
    | Releases(pid: Pid)
    | Proceeds(pid: Pid, writeSucceeds: bool)
    | OperatorClears

  /** Between creating and removing the guard directory. */
  predicate Inside(stage: Stage) {
    match stage
    case Outside => false
    case Holding(_) => false
    case Releasing(_, _) => false
    case _ => true
  }

  /** From the written record until its removal: the process owns the lock. */
  predicate Owns(stage: Stage) {
    stage.LeavingWithLock? || stage.Holding? || stage.Releasing?
  }

  predicate InStage(s: System, pid: Pid, stage: Stage) {
    pid in s.processes && s.processes[pid] == stage
  }

  ghost predicate Enabled(s: System, e: Event) {
    match e
    case Starts(pid) => pid !in s.processes
    case Dies(pid) => pid in s.processes
    case Acquires(pid, token) => InStage(s, pid, Outside)
    case Releases(pid) => pid in s.processes && s.processes[pid].Holding?
    case Proceeds(pid, _) => pid in s.processes && !s.processes[pid].Outside? && !s.processes[pid].Holding?
    case OperatorClears =>
      && (forall p :: p in s.processes ==> !Inside(s.processes[p]))
      && (s.lock.Record? ==> s.lock.pid !in s.processes)
  }

  function Moves(s: System, pid: Pid, stage: Stage): System {
    s.(processes := s.processes[pid := stage])
  }

  /** `mkdir` of the guard; when it exists, the call fails and nothing has happened. */
  function Acquire(s: System, pid: Pid, token: Token): System {
    if s.guard then s
    else Moves(s, pid, Opening(0, token)).(guard := true)
  }

  /** The next file-system call of a process that is on its way in or out. */
  function Proceed(s: System, pid: Pid, stage: Stage, writeSucceeds: bool): System {
    match stage
    case Opening(attempt, token) =>
      if s.lock.Absent? then Moves(s, pid, Writing(token)).(lock := Unreadable)
      else Moves(s, pid, Reading(attempt, token))
    case Writing(token) =>
      if writeSucceeds then Moves(s, pid, LeavingWithLock(token)).(lock := Record(pid, token))
      else Moves(s, pid, Withdrawing)
    case Withdrawing => Moves(s, pid, LeavingWithError).(lock := Absent)
    case Reading(attempt, token) =>
      if s.lock.Record? then Moves(s, pid, Probing(attempt, token, s.lock.pid))
      else Moves(s, pid, LeavingWithError)
    case Probing(attempt, token, owner) =>
      if owner in s.processes then Moves(s, pid, LeavingWithError)
      else Moves(s, pid, Replacing(attempt, token, owner))
    case Replacing(attempt, token, owner) =>
      Moves(s, pid, if attempt + 1 < MAX_ATTEMPTS then Opening(attempt + 1, token) else LeavingWithError).(lock := Absent)
    case LeavingWithLock(token) => Moves(s, pid, Holding(token)).(guard := false)
    case LeavingWithError => Moves(s, pid, Outside).(guard := false)
    case Releasing(token, mine) => Moves(s, pid, Outside).(lock := if mine then Absent else s.lock)
    case _ => s
  }

  /** `release` first reads the file and compares the token. */
  function BeginRelease(s: System, pid: Pid, token: Token): System {
    Moves(s, pid, Releasing(token, s.lock.Record? && s.lock.token == token))
  }

  function Next(s: System, e: Event): System
    requires Enabled(s, e)
  {
    match e
    case Starts(pid) => Moves(s, pid, Outside)
    case Dies(pid) => s.(processes := s.processes - {pid})
    case Acquires(pid, token) => Acquire(s, pid, token)
    case Releases(pid) => BeginRelease(s, pid, s.processes[pid].token)
    case Proceeds(pid, succeeds) => Proceed(s, pid, s.processes[pid], succeeds)
    case OperatorClears => s.(guard := false, lock := Absent)
  }

  // ---- what every step keeps ----

  /** What the shared files look like to a live process at each point of its way. */
  ghost predicate Sees(s: System, pid: Pid, stage: Stage) {
    && (Inside(stage) ==> s.guard)
    && (Owns(stage) ==> s.lock == Record(pid, stage.token))
    && (stage.Releasing? ==> stage.mine)
    && match stage
       case Writing(_) => s.lock == Unreadable
       case Withdrawing => s.lock == Unreadable
       case Opening(attempt, _) => attempt <= 1 && (attempt == 1 ==> s.lock == Absent)
       case Reading(attempt, _) => attempt == 0
       case Probing(attempt, _, owner) => attempt == 0 && (s.lock.Absent? || (s.lock.Record? && s.lock.pid == owner))
       case Replacing(attempt, _, _) =>
         && attempt == 0 && !s.lock.Unreadable?
         && (forall q :: q in s.processes ==> !Owns(s.processes[q]))
       case _ => true
  }

  ghost predicate Inv(s: System) {
    && (forall p :: p in s.processes ==> Sees(s, p, s.processes[p]))
    && (forall p, q :: p in s.processes && q in s.processes && Inside(s.processes[p]) && Inside(s.processes[q]) ==> p == q)
  }

  lemma OpeningKeeps(s: System, pid: Pid, succeeds: bool)
    requires Inv(s) && pid in s.processes && s.processes[pid].Opening?
    ensures Inv(Proceed(s, pid, s.processes[pid], succeeds))
  {
    assert Sees(s, pid, s.processes[pid]);
  }

  lemma WritingKeeps(s: System, pid: Pid, succeeds: bool)
    requires Inv(s) && pid in s.processes && (s.processes[pid].Writing? || s.processes[pid].Withdrawing?)
    ensures Inv(Proceed(s, pid, s.processes[pid], succeeds))
  {
    assert Sees(s, pid, s.processes[pid]);
  }

  /** What makes stale replacement safe: the owner found dead is the only one that could own the lock. */
  lemma ProbingKeeps(s: System, pid: Pid, succeeds: bool)
    requires Inv(s) && pid in s.processes && (s.processes[pid].Reading? || s.processes[pid].Probing?)
    ensures Inv(Proceed(s, pid, s.processes[pid], succeeds))
  {
    assert Sees(s, pid, s.processes[pid]);
    forall q | q in s.processes && Owns(s.processes[q])
      ensures s.lock == Record(q, s.processes[q].token)
    {
      assert Sees(s, q, s.processes[q]);
    }
  }

  lemma ReplacingKeeps(s: System, pid: Pid, succeeds: bool)
    requires Inv(s) && pid in s.processes && s.processes[pid].Replacing?
    ensures Inv(Proceed(s, pid, s.processes[pid], succeeds))
  {
    assert Sees(s, pid, s.processes[pid]);
  }

  lemma LeavingKeeps(s: System, pid: Pid, succeeds: bool)
    requires Inv(s) && pid in s.processes
    requires s.processes[pid].LeavingWithLock? || s.processes[pid].LeavingWithError? || s.processes[pid].Releasing?
    ensures Inv(Proceed(s, pid, s.processes[pid], succeeds))
  {
    assert Sees(s, pid, s.processes[pid]);
  }

  lemma StepKeeps(s: System, e: Event)
    requires Inv(s) && Enabled(s, e)
    ensures Inv(Next(s, e))
  {
    match e
    case Proceeds(pid, succeeds) =>
      match s.processes[pid] {
        case Opening(_, _) => OpeningKeeps(s, pid, succeeds);
        case Writing(_) => WritingKeeps(s, pid, succeeds);
        case Withdrawing => WritingKeeps(s, pid, succeeds);
        case Reading(_, _) => ProbingKeeps(s, pid, succeeds);
        case Probing(_, _, _) => ProbingKeeps(s, pid, succeeds);
        case Replacing(_, _, _) => ReplacingKeeps(s, pid, succeeds);
        case _ => LeavingKeeps(s, pid, succeeds);
      }
    case Acquires(pid, token) => AcquireKeeps(s, pid, token);
    case Releases(pid) => ReleaseKeeps(s, pid);
    case _ => OthersKeep(s, e);
  }

  lemma AcquireKeeps(s: System, pid: Pid, token: Token)
    requires Inv(s) && InStage(s, pid, Outside)
    ensures Inv(Acquire(s, pid, token))
  {
  }

  lemma ReleaseKeeps(s: System, pid: Pid)
    requires Inv(s) && pid in s.processes && s.processes[pid].Holding?
    ensures Inv(BeginRelease(s, pid, s.processes[pid].token))
  {
    assert Sees(s, pid, s.processes[pid]);
  }

  lemma OthersKeep(s: System, e: Event)
    requires Inv(s) && Enabled(s, e) && (e.Starts? || e.Dies? || e.OperatorClears?)
    ensures Inv(Next(s, e))
  {
    if e.OperatorClears? {
      forall p | p in s.processes
        ensures !Owns(s.processes[p])
      {
        assert Sees(s, p, s.processes[p]);
      }
    }
  }

  // ---- every history ----

  /** Any leftover files, and processes that have not touched them yet. */
  ghost predicate Initial(s: System) {
    forall p :: p in s.processes ==> s.processes[p].Outside?
  }

  ghost predicate Reaches(s: System, events: seq<Event>, t: System)
    decreases |events|
  {
    if events == [] then s == t
    else Enabled(s, events[0]) && Reaches(Next(s, events[0]), events[1..], t)
  }

  lemma {:induction false} HistoriesKeep(s: System, events: seq<Event>, t: System)
    requires Inv(s) && Reaches(s, events, t)
    ensures Inv(t)
    decreases |events|
  {
    if events != [] {
      StepKeeps(s, events[0]);
      HistoriesKeep(Next(s, events[0]), events[1..], t);
    }
  }

  /** At most one live process owns the lock, and the file carries exactly its record. */
  lemma MutualExclusion(s: System, events: seq<Event>, t: System, p: Pid)
    requires Initial(s) && Reaches(s, events, t)
    requires p in t.processes && Owns(t.processes[p])
    ensures t.lock == Record(p, t.processes[p].token)
    ensures forall q :: q in t.processes && Owns(t.processes[q]) ==> q == p
  {
    HistoriesKeep(s, events, t);
    assert Sees(t, p, t.processes[p]);
    forall q | q in t.processes && Owns(t.processes[q])
      ensures q == p
    {
      assert Sees(t, q, t.processes[q]);
    }
  }

  /**
   * The owner's record can be removed or overwritten by nobody but the owner's own release: not by a
   * stale replacement, not by another's release, not by a failing writer or the operator.
   */
  lemma RecordStaysUntilOwnRelease(s: System, events: seq<Event>, t: System, p: Pid, e: Event)
    requires Initial(s) && Reaches(s, events, t)
    requires p in t.processes && Owns(t.processes[p])
    requires Enabled(t, e) && Next(t, e).lock != t.lock
    ensures e.Proceeds? && e.pid == p && t.processes[p].Releasing? && Next(t, e).lock == Absent
  {
    HistoriesKeep(s, events, t);
    assert Sees(t, p, t.processes[p]);
    if e.Proceeds? {
      assert Sees(t, e.pid, t.processes[e.pid]);
    }
  }

  /** One replacement is enough: the second attempt finds no file, and the third is never made. */
  lemma SecondAttemptCreates(s: System, events: seq<Event>, t: System, p: Pid)
    requires Initial(s) && Reaches(s, events, t)
    requires p in t.processes && t.processes[p].Opening? && t.processes[p].attempt > 0
    ensures t.processes[p].attempt == 1
    ensures Next(t, Proceeds(p, true)).processes[p] == Writing(t.processes[p].token)
  {
    HistoriesKeep(s, events, t);
    assert Sees(t, p, t.processes[p]);
  }

  // ---- who gets the lock ----

  /** A process that runs alone, with no guard left behind, over no lock file or a dead owner's. */
  ghost predicate Uncontended(s: System, p: Pid) {
    && InStage(s, p, Outside) && !s.guard
    && (s.lock.Absent? || (s.lock.Record? && s.lock.pid !in s.processes))
  }

  function Calls(p: Pid, n: nat): seq<Event> {
    seq(n, _ => Proceeds(p, true))
  }

  lemma Then(s: System, p: Pid, u: System, n: nat, t: System)
    requires Enabled(s, Proceeds(p, true)) && Next(s, Proceeds(p, true)) == u && Reaches(u, Calls(p, n), t)
    ensures Reaches(s, Calls(p, n + 1), t)
  {
    assert Calls(p, n + 1)[1..] == Calls(p, n);
  }

  function InGuard(s: System, p: Pid, stage: Stage, lock: LockFile): System {
    Moves(s, p, stage).(guard := true, lock := lock)
  }

  function Locked(s: System, p: Pid, token: Token): System {
    Moves(s, p, Holding(token)).(guard := false, lock := Record(p, token))
  }

  lemma CreatesFile(s: System, p: Pid, token: Token, attempt: nat)
    ensures Reaches(InGuard(s, p, Opening(attempt, token), Absent), Calls(p, 3), Locked(s, p, token))
  {
    var t := Locked(s, p, token);
    var written := InGuard(s, p, LeavingWithLock(token), Record(p, token));
    var created := InGuard(s, p, Writing(token), Unreadable);
    assert Reaches(t, Calls(p, 0), t);
    Then(written, p, t, 0, t);
    Then(created, p, written, 1, t);
    Then(InGuard(s, p, Opening(attempt, token), Absent), p, created, 2, t);
  }

  lemma ReplacesStale(s: System, p: Pid, token: Token, owner: Pid, previous: Token)
    requires owner !in s.processes && owner != p
    ensures Reaches(InGuard(s, p, Opening(0, token), Record(owner, previous)), Calls(p, 7), Locked(s, p, token))
  {
    var t, stale := Locked(s, p, token), Record(owner, previous);
    CreatesFile(s, p, token, 1);
    var again := InGuard(s, p, Opening(1, token), Absent);
    var replacing := InGuard(s, p, Replacing(0, token, owner), stale);
    var probing := InGuard(s, p, Probing(0, token, owner), stale);
    var reading := InGuard(s, p, Reading(0, token), stale);
    Then(replacing, p, again, 3, t);
    Then(probing, p, replacing, 4, t);
    Then(reading, p, probing, 5, t);
    Then(InGuard(s, p, Opening(0, token), stale), p, reading, 6, t);
  }

  /** Such a process ends up holding the lock by its own calls alone, three of them or, over a stale file, seven. */
  lemma UncontendedAcquires(s: System, p: Pid, token: Token)
    requires Uncontended(s, p)
    ensures Reaches(s, [Acquires(p, token)] + Calls(p, if s.lock.Absent? then 3 else 7), Locked(s, p, token))
  {
    var calls := Calls(p, if s.lock.Absent? then 3 else 7);
    assert ([Acquires(p, token)] + calls)[1..] == calls;
    assert Next(s, Acquires(p, token)) == InGuard(s, p, Opening(0, token), s.lock);
    if s.lock.Absent? {
      CreatesFile(s, p, token, 0);
    } else {
      ReplacesStale(s, p, token, s.lock.pid, s.lock.token);
    }
  }

  ghost predicate Abandoned(s: System) {
    s.guard && forall p :: p in s.processes ==> !Inside(s.processes[p])
  }

  /** The price of the guard: once its maker died inside, nobody acquires until an operator has looked. */
  lemma {:induction false} AbandonedGuardBlocks(s: System, events: seq<Event>, t: System, p: Pid)
    requires Abandoned(s) && Reaches(s, events, t) && forall e :: e in events ==> !e.OperatorClears?
    requires p in t.processes && Owns(t.processes[p])
    ensures Abandoned(t) && p in s.processes && Owns(s.processes[p])
    decreases |events|
  {
    if events != [] {
      var e := events[0];
      assert Abandoned(Next(s, e));
      AbandonedGuardBlocks(Next(s, e), events[1..], t, p);
    }
  }
}
