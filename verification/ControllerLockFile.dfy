/**
 * acquireControllerLock and its handle (src/server/controller-lock.ts) as one process executes them when no
 * other one interferes. The interleavings are those of module ControllerLock.
 */
module ControllerLockFiles {
  import opened Results
  import opened ControllerLock

  datatype Refusal = InProgress | WriteFailed | Unrecognized | AlreadyRunning(pid: Pid) | Exhausted

  /** The guard directory and the lock file. */
  class Files {
    var guard: bool
    var lock: LockFile

    constructor ()
      ensures !guard && lock.Absent?
    {
      guard, lock := false, Absent;
    }
  }

  /** A lock file that may be created at once or after removing a dead owner's record. */
  predicate Free(lock: LockFile, live: set<Pid>) {
    lock.Absent? || (lock.Record? && lock.pid !in live)
  }

  class LockHandle {
    const files: Files
    const token: Token
    var released: bool

    constructor (files: Files, token: Token)
      ensures this.files == files && this.token == token && !released
    {
      this.files, this.token, released := files, token, false;
    }

    /** Removes the file at most once, and only while it carries this handle's token. */
    method Release()
      modifies this, files
      ensures released && files.guard == old(files.guard)
      ensures files.lock == if !old(released) && old(files.lock).Record? && old(files.lock).token == token
                            then Absent else old(files.lock)
    {
      if released { return; }
      released := true;
      if files.lock.Record? && files.lock.token == token { files.lock := Absent; }
    }
  }

  /** The guard is taken for the attempt and removed however it ends. */
  method AcquireControllerLock(files: Files, live: set<Pid>, pid: Pid, token: Token, writeSucceeds: bool)
    returns (r: Result<LockHandle, Refusal>)
    modifies files
    ensures files.guard == old(files.guard)
    ensures r.Ok? <==> !old(files.guard) && Free(old(files.lock), live) && writeSucceeds
    ensures r.Ok? ==> files.lock == Record(pid, token) && fresh(r.value) && !r.value.released
                      && r.value.files == files && r.value.token == token
    ensures r == Err(InProgress) <==> old(files.guard)
    ensures !old(files.guard) && old(files.lock).Record? && old(files.lock).pid in live ==>
      r == Err(AlreadyRunning(old(files.lock).pid))
    ensures r.Err? && r.error.AlreadyRunning? ==>
      !old(files.guard) && old(files.lock).Record? && old(files.lock).pid == r.error.pid && r.error.pid in live
    ensures r == Err(Unrecognized) <==> !old(files.guard) && old(files.lock).Unreadable?
    ensures r == Err(WriteFailed) <==> !old(files.guard) && Free(old(files.lock), live) && !writeSucceeds
    ensures r != Err(Exhausted)
    ensures r.Err? ==> files.lock == if r.error.WriteFailed? then Absent else old(files.lock)
  {
    if files.guard { return Err(InProgress); }
    files.guard := true;
    r := AcquireLock(files, live, pid, token, writeSucceeds);
    files.guard := false;
  }

  /** Up to three attempts; the second one finds no file, so a third is never made. */
  method AcquireLock(files: Files, live: set<Pid>, pid: Pid, token: Token, writeSucceeds: bool)
    returns (r: Result<LockHandle, Refusal>)
    requires files.guard
    modifies files`lock
    ensures r.Ok? <==> Free(old(files.lock), live) && writeSucceeds
    ensures r.Ok? ==> files.lock == Record(pid, token) && fresh(r.value) && !r.value.released
                      && r.value.files == files && r.value.token == token
    ensures old(files.lock).Record? && old(files.lock).pid in live ==> r == Err(AlreadyRunning(old(files.lock).pid))
    ensures r.Err? && r.error.AlreadyRunning? ==>
      old(files.lock).Record? && old(files.lock).pid == r.error.pid && r.error.pid in live
    ensures r == Err(Unrecognized) <==> old(files.lock).Unreadable?
    ensures r == Err(WriteFailed) <==> Free(old(files.lock), live) && !writeSucceeds
    ensures r != Err(InProgress) && r != Err(Exhausted)
    ensures r.Err? ==> files.lock == if r.error.WriteFailed? then Absent else old(files.lock)
  {
    var attempt := 0;
    while attempt < MAX_ATTEMPTS
      invariant attempt <= 1
      invariant files.lock == if attempt == 0 then old(files.lock) else Absent
      invariant attempt == 1 ==> Free(old(files.lock), live)
      decreases MAX_ATTEMPTS - attempt
    {
      if files.lock.Absent? {
        files.lock := Unreadable;
        if !writeSucceeds {
          files.lock := Absent;
          return Err(WriteFailed);
        }
        files.lock := Record(pid, token);
        var handle := new LockHandle(files, token);
        return Ok(handle);
      }
      if files.lock.Unreadable? { return Err(Unrecognized); }
      if files.lock.pid in live { return Err(AlreadyRunning(files.lock.pid)); }
      files.lock := Absent;
      attempt := attempt + 1;
    }
    return Err(Exhausted);
  }
}
