/**
 * RotatingLogFile (src/server/log-writer.ts) as an object. Each method is one synchronous stretch of the
 * original: a call of `write` or `close`, or what the drain does between two awaits.
 */
module RotatingLogFiles {
  import opened Results
  import L = RotatingLog

  class RotatingLogFile {
    var disk: L.Files
    var size: nat
    var isOpen: bool
    var queued: seq<L.Bytes>
    var stage: L.Stage
    var failed: bool
    var closing: bool
    var closed: bool

    ghost function State(): L.State
      reads this
    {
      L.State(disk, size, isOpen, queued, stage, failed, closing, closed)
    }

    /** What the drain knows at the await it has reached: lines are pending exactly while it owns the queue. */
    ghost predicate Valid()
      reads this
    {
      L.Good(State())
    }

    constructor (onDisk: L.Files)
      ensures Valid()
      ensures State() == L.Initial(onDisk)
    {
      disk, size, isOpen, queued := onDisk, 0, false, [];
      stage, failed, closing, closed := L.NotFlushing, false, false, false;
    }

    method Write(line: L.Bytes)
      requires Valid() && line != []
      modifies this
      ensures State() == L.Next(old(State()), L.Writes(line))
      ensures Valid()
    {
      L.StepStaysValid(State(), L.Writes(line));
      if closing || failed { return; }
      queued := queued + [line];
      if !stage.NotFlushing? { return; }
      stage := L.Scheduled;
    }

    /** The inner loop: following lines join the batch while it and the file have room. */
    method FillBatch(first: L.Bytes) returns (batch: seq<L.Bytes>, bytes: nat)
      modifies this`queued
      ensures var n := L.Joining(size, |first|, old(queued));
              && n <= |old(queued)|
              && batch == [first] + old(queued)[..n]
              && queued == old(queued)[n..]
      ensures bytes == |L.Concat(batch)|
    {
      batch, bytes := [first], |first|;
      ghost var before, taken := queued, 0;
      L.JoiningBound(size, bytes, queued);
      assert before[0..] == before && before[..0] == [];
      assert first + [] == first;
      while |queued| > 0 && bytes + |queued[0]| <= L.MAX_BATCH_BYTES && size + bytes + |queued[0]| <= L.MAX_FILE_BYTES
        invariant taken <= |before| && queued == before[taken..]
        invariant batch == [first] + before[..taken]
        invariant bytes == |L.Concat(batch)|
        invariant L.Joining(size, |first|, before) == taken + L.Joining(size, bytes, queued)
        decreases |queued|
      {
        var next := queued[0];
        queued := queued[1..];
        L.ConcatAppend(batch, [next]);
        assert next + [] == next;
        batch := batch + [next];
        bytes := bytes + |next|;
        taken := taken + 1;
      }
    }

    /** Shift the first line; rotate before it, or form its batch. */
    method TakeFirst()
      requires queued != []
      modifies this
      ensures State() == L.TakeFirst(old(State()))
    {
      var first := queued[0];
      queued := queued[1..];
      if size > 0 && size + |first| > L.MAX_FILE_BYTES {
        stage := L.ClosingFull(first);
      } else {
        var batch, _ := FillBatch(first);
        stage := L.Writing(batch);
      }
    }

    method LoopTop()
      modifies this
      ensures State() == L.LoopTop(old(State()))
    {
      if queued == [] {
        stage := L.NotFlushing;
      } else if !isOpen {
        stage := L.Opening;
      } else {
        TakeFirst();
      }
    }

    /** The drain goes on after the await it has reached. */
    method Resume()
      requires Valid() && !stage.NotFlushing?
      modifies this
      ensures State() == L.Next(old(State()), L.Resumes)
      ensures Valid()
    {
      L.StepStaysValid(State(), L.Resumes);
      match stage
      case NotFlushing =>
      case Scheduled => LoopTop();
      case Opening => isOpen, stage := true, L.Statting;
      case Statting =>
        size := |disk.current|;
        TakeFirst();
      case ClosingFull(first) => isOpen, stage := false, L.Renaming(first);
      case Renaming(first) => disk, stage := L.Files([], Some(disk.current)), L.Reopening(first);
      case Reopening(first) =>
        isOpen, size := true, 0;
        var batch, _ := FillBatch(first);
        stage := L.Writing(batch);
      case Writing(batch) =>
        disk := disk.(current := disk.current + L.Concat(batch));
        size := size + |L.Concat(batch)|;
        LoopTop();
    }

    /** An await of the drain throws, and the part of the batch that was written stays. */
    method Fail(partial: L.Bytes)
      requires Valid() && L.Enabled(State(), L.Fails(partial))
      modifies this
      ensures State() == L.Next(old(State()), L.Fails(partial))
      ensures Valid()
    {
      L.StepStaysValid(State(), L.Fails(partial));
      Discard(partial);
    }

    method Discard(partial: L.Bytes)
      modifies this
      ensures State() == L.Fail(old(State()), partial)
    {
      if stage.Writing? { disk := disk.(current := disk.current + partial); }
      failed, queued, stage := true, [], L.NotFlushing;
    }

    method Close()
      requires Valid()
      modifies this
      ensures State() == L.Next(old(State()), L.Closes)
      ensures Valid()
    {
      L.StepStaysValid(State(), L.Closes);
      closing := true;
    }

    method FinishClose()
      requires Valid() && L.Enabled(State(), L.CloseFinishes)
      modifies this
      ensures State() == L.Next(old(State()), L.CloseFinishes)
      ensures Valid()
    {
      L.StepStaysValid(State(), L.CloseFinishes);
      closed, isOpen := true, false;
    }
  }
}
