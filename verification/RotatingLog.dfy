/**
 * One rotating log file (src/server/log-writer.ts): lines are queued, and a single drain owns the queue
 * and writes it in batches. A step of the drain is what it does between two awaits; lines arrive at any
 * of them.
 */
module RotatingLog {
  import opened Results

  type Bytes = seq<bv8>

  const MAX_FILE_BYTES: nat := 5 * 1024 * 1024
  const MAX_BATCH_BYTES: nat := 64 * 1024

  // ---- the reference: each line written alone ----

  /** The log file and its rotated predecessor; a file that is absent has no bytes. */
  datatype Files = Files(current: Bytes, previous: Option<Bytes>)

  function WriteOne(f: Files, line: Bytes): Files {
    if |f.current| > 0 && |f.current| + |line| > MAX_FILE_BYTES then Files(line, Some(f.current))
    else f.(current := f.current + line)
  }

  function WriteEach(f: Files, lines: seq<Bytes>): Files
    decreases |lines|
  {
    if lines == [] then f else WriteEach(WriteOne(f, lines[0]), lines[1..])
  }

  function Concat(lines: seq<Bytes>): Bytes
    decreases |lines|
  {
    if lines == [] then [] else lines[0] + Concat(lines[1..])
  }

  // ---- the drain ----

  /** The await the drain has reached, with what it holds there. */
  datatype Stage =
    | NotFlushing
    | Scheduled
    | Opening
    | Statting
    | ClosingFull(first: Bytes)
    | Renaming(first: Bytes)
    | Reopening(first: Bytes)
    | Writing(batch: seq<Bytes>)

  datatype State = State(
    disk: Files, size: nat, isOpen: bool, queued: seq<Bytes>, stage: Stage,
    failed: bool, closing: bool, closed: bool)

  /** How many queued lines join a batch of `bytes` bytes in a file of `size` bytes. */
  function Joining(size: nat, bytes: nat, queued: seq<Bytes>): nat
    decreases |queued|
  {
    if queued != [] && bytes + |queued[0]| <= MAX_BATCH_BYTES && size + bytes + |queued[0]| <= MAX_FILE_BYTES
    then 1 + Joining(size, bytes + |queued[0]|, queued[1..])
    else 0
  }

  lemma {:induction false} JoiningBound(size: nat, bytes: nat, queued: seq<Bytes>)
    ensures Joining(size, bytes, queued) <= |queued|
    decreases |queued|
  {
    if queued != [] {
      JoiningBound(size, bytes + |queued[0]|, queued[1..]);
    }
  }

  function FormBatch(s: State, first: Bytes): State {
    JoiningBound(s.size, |first|, s.queued);
    var n := Joining(s.size, |first|, s.queued);
    s.(stage := Writing([first] + s.queued[..n]), queued := s.queued[n..])
  }

  function TakeFirst(s: State): State
    requires s.queued != []
  {
    var first, rest := s.queued[0], s.(queued := s.queued[1..]);
    if s.size > 0 && s.size + |first| > MAX_FILE_BYTES then rest.(stage := ClosingFull(first))
    else FormBatch(rest, first)
  }

  function LoopTop(s: State): State {
    if s.queued == [] then s.(stage := NotFlushing)
    else if !s.isOpen then s.(stage := Opening)
    else TakeFirst(s)
  }

  /** The drain's `catch`: a failed write may have left part of the batch. */
  function Fail(s: State, partial: Bytes): State {
    s.(failed := true, queued := [], stage := NotFlushing,
       disk := if s.stage.Writing? then s.disk.(current := s.disk.current + partial) else s.disk)
  }

  /** The drain goes on after a successful await. */
  function Resume(s: State): State
  {
    match s.stage
    case NotFlushing => s
    case Scheduled => LoopTop(s)
    case Opening => s.(isOpen := true, stage := Statting)
    case Statting =>
      var sized := s.(size := |s.disk.current|);
      // Taking a line from an empty queue would throw inside the drain.
      if s.queued == [] then Fail(sized, []) else TakeFirst(sized)
    case ClosingFull(first) => s.(isOpen := false, stage := Renaming(first))
    case Renaming(first) => s.(disk := Files([], Some(s.disk.current)), stage := Reopening(first))
    case Reopening(first) => FormBatch(s.(isOpen := true, size := 0), first)
    case Writing(batch) =>
      LoopTop(s.(disk := s.disk.(current := s.disk.current + Concat(batch)), size := s.size + |Concat(batch)|))
  }

  predicate Accepts(s: State) { !s.closing && !s.failed }

  function Write(s: State, line: Bytes): State {
    if !Accepts(s) then s
    else s.(queued := s.queued + [line], stage := if s.stage.NotFlushing? then Scheduled else s.stage)
  }

  datatype Event =
    | Writes(line: Bytes)
    | Resumes
    | Fails(partial: Bytes)
    | Closes
    | CloseFinishes

  /** A line is a time stamp, its text and a line feed: never empty. */
  ghost predicate Enabled(s: State, e: Event) {
    match e
    case Writes(line) => line != []
    case Resumes => !s.stage.NotFlushing?
    case Fails(partial) => !s.stage.NotFlushing? && !s.stage.Scheduled?
                           && (s.stage.Writing? ==> partial <= Concat(s.stage.batch))
    case Closes => true
    case CloseFinishes => s.closing && !s.closed && s.stage.NotFlushing?
  }

  function Next(s: State, e: Event): State
  {
    match e
    case Writes(line) => Write(s, line)
    case Resumes => Resume(s)
    case Fails(partial) => Fail(s, partial)
    case Closes => s.(closing := true)
    case CloseFinishes => s.(closed := true, isOpen := false)
  }

  // ---- what the drain knows at each await ----

  function InFlight(stage: Stage): seq<Bytes> {
    match stage
    case ClosingFull(first) => [first]
    case Renaming(first) => [first]
    case Reopening(first) => [first]
    case Writing(batch) => batch
    case _ => []
  }

  /** The accepted lines that are not on disk yet, oldest first. */
  function Pending(s: State): seq<Bytes> { InFlight(s.stage) + s.queued }

  /** A batch that one write may append: only its first line may need a fresh file, and gets one. */
  predicate Fits(size: nat, lines: seq<Bytes>)
    decreases |lines|
  {
    lines == [] || ((size == 0 || size + |lines[0]| <= MAX_FILE_BYTES) && Fits(size + |lines[0]|, lines[1..]))
  }

  ghost predicate NonEmpty(lines: seq<Bytes>) {
    forall i :: 0 <= i < |lines| ==> lines[i] != []
  }

  predicate Overflows(size: nat, line: Bytes) { size > 0 && size + |line| > MAX_FILE_BYTES }

  predicate Batch(size: nat, batch: seq<Bytes>) {
    batch != [] && Fits(size, batch) && (|batch| > 1 ==> |Concat(batch)| <= 65536)
  }

  ghost predicate Steady(s: State) {
    && NonEmpty(Pending(s))
    && (s.isOpen && !s.stage.Statting? ==> s.size == |s.disk.current|)
    && match s.stage
       case NotFlushing => s.queued == []
       case Scheduled => s.queued != []
       case Opening => s.queued != [] && !s.isOpen
       case Statting => s.queued != [] && s.isOpen
       case ClosingFull(first) => s.isOpen && Overflows(s.size, first)
       case Renaming(first) => !s.isOpen && Overflows(|s.disk.current|, first)
       case Reopening(first) => !s.isOpen && s.disk.current == []
       case Writing(batch) => s.isOpen && Batch(s.size, batch)
  }

  ghost predicate Good(s: State) {
    && (s.failed ==> s.stage.NotFlushing? && s.queued == [])
    && (!s.failed ==> Steady(s))
    && (s.closed ==> s.closing && s.stage.NotFlushing?)
  }

  lemma {:induction false} JoiningFits(size: nat, bytes: nat, queued: seq<Bytes>)
    ensures var n := Joining(size, bytes, queued);
            && n <= |queued|
            && Fits(size + bytes, queued[..n])
            && (n > 0 ==> bytes + |Concat(queued[..n])| <= MAX_BATCH_BYTES)
    decreases |queued|
  {
    var n := Joining(size, bytes, queued);
    if n > 0 {
      JoiningFits(size, bytes + |queued[0]|, queued[1..]);
      assert queued[..n][1..] == queued[1..][..n - 1];
    }
  }

  lemma PrependFits(size: nat, first: Bytes, rest: seq<Bytes>)
    requires !Overflows(size, first) && Fits(size + |first|, rest)
    requires rest != [] ==> |first| + |Concat(rest)| <= MAX_BATCH_BYTES
    ensures Batch(size, [first] + rest)
  {
    var batch := [first] + rest;
    assert batch[0] == first && batch[1..] == rest;
  }

  lemma FormBatchSteady(s: State, first: Bytes)
    requires s.isOpen && s.size == |s.disk.current| && !Overflows(s.size, first)
    requires NonEmpty([first] + s.queued)
    ensures Steady(FormBatch(s, first))
    ensures FormBatch(s, first).disk == s.disk && Pending(FormBatch(s, first)) == [first] + s.queued
  {
    var n := Joining(s.size, |first|, s.queued);
    JoiningFits(s.size, |first|, s.queued);
    PrependFits(s.size, first, s.queued[..n]);
    assert ([first] + s.queued[..n]) + s.queued[n..] == [first] + s.queued;
  }

  lemma TakeFirstSteady(s: State)
    requires s.isOpen && s.size == |s.disk.current| && s.queued != []
    requires NonEmpty(s.queued)
    ensures Steady(TakeFirst(s))
    ensures TakeFirst(s).disk == s.disk && Pending(TakeFirst(s)) == s.queued
  {
    var first, rest := s.queued[0], s.(queued := s.queued[1..]);
    assert [first] + rest.queued == s.queued;
    if !Overflows(s.size, first) {
      FormBatchSteady(rest, first);
    }
  }

  lemma LoopTopSteady(s: State)
    requires s.isOpen ==> s.size == |s.disk.current|
    requires NonEmpty(s.queued)
    ensures Steady(LoopTop(s))
    ensures LoopTop(s).disk == s.disk && Pending(LoopTop(s)) == s.queued
  {
    if s.queued != [] && s.isOpen {
      TakeFirstSteady(s);
    } else {
      assert [] + s.queued == s.queued;
    }
  }

  // ---- every step of a drain ----

  lemma {:induction false} WriteEachAppend(f: Files, a: seq<Bytes>, b: seq<Bytes>)
    ensures WriteEach(f, a + b) == WriteEach(WriteEach(f, a), b)
    decreases |a|
  {
    if a == [] {
      assert a + b == b;
    } else {
      assert (a + b)[1..] == a[1..] + b;
      WriteEachAppend(WriteOne(f, a[0]), a[1..], b);
    }
  }

  /** One write of a fitting batch is the same as writing its lines one by one. */
  lemma {:induction false} BatchIsLines(f: Files, lines: seq<Bytes>)
    requires Fits(|f.current|, lines)
    ensures WriteEach(f, lines) == f.(current := f.current + Concat(lines))
    decreases |lines|
  {
    if lines == [] {
      assert f.current + [] == f.current;
    } else {
      var g := WriteOne(f, lines[0]);
      BatchIsLines(g, lines[1..]);
      assert g.current + Concat(lines[1..]) == f.current + Concat(lines);
    }
  }

  /** The files are where writing line by line would have them, or already rotated for the next line. */
  ghost predicate Stands(disk: Files, lineByLine: Files, pending: seq<Bytes>) {
    || disk == lineByLine
    || (pending != [] && Overflows(|lineByLine.current|, pending[0]) && disk == Files([], Some(lineByLine.current)))
  }

  lemma StandsAgrees(disk: Files, lineByLine: Files, pending: seq<Bytes>, batch: seq<Bytes>)
    requires Stands(disk, lineByLine, pending) && batch != [] && batch <= pending
    ensures WriteEach(disk, batch) == WriteEach(lineByLine, batch)
  {
    if disk != lineByLine {
      assert [] + batch[0] == batch[0];
    }
  }

  /** After an await the drain has written a prefix of the pending lines, which may be empty. */
  ghost predicate Advances(s: State, t: State, k: nat) {
    && k <= |Pending(s)|
    && Pending(t) == Pending(s)[k..]
    && forall f :: Stands(s.disk, f, Pending(s)) ==> Stands(t.disk, WriteEach(f, Pending(s)[..k]), Pending(t))
  }

  lemma SameDiskAdvances(s: State, t: State)
    requires t.disk == s.disk && Pending(t) == Pending(s)
    ensures Advances(s, t, 0)
  {
    assert Pending(s)[..0] == [] && Pending(s)[0..] == Pending(s);
  }

  lemma RenamingAdvances(s: State, t: State)
    requires Steady(s) && s.stage.Renaming? && t == Resume(s)
    ensures Advances(s, t, 0)
  {
    assert Pending(s)[..0] == [] && Pending(s)[0..] == Pending(s);
    assert Pending(s)[0] == s.stage.first;
  }

  lemma WritingAdvances(s: State, t: State)
    requires Steady(s) && s.stage.Writing? && t == Resume(s)
    ensures Steady(t) && Advances(s, t, |s.stage.batch|)
  {
    var batch := s.stage.batch;
    var k := |batch|;
    assert Pending(s)[..k] == batch && Pending(s)[k..] == s.queued;
    assert NonEmpty(s.queued) by {
      forall i | 0 <= i < |s.queued| ensures s.queued[i] != [] {
        assert s.queued[i] == Pending(s)[k + i];
      }
    }
    BatchIsLines(s.disk, batch);
    LoopTopSteady(s.(disk := s.disk.(current := s.disk.current + Concat(batch)), size := s.size + |Concat(batch)|));
    assert t.disk == WriteEach(s.disk, batch);
    LandedAdvances(s, t, batch);
  }

  lemma LandedAdvances(s: State, t: State, batch: seq<Bytes>)
    requires batch != [] && batch <= Pending(s) && Pending(t) == Pending(s)[|batch|..]
    requires t.disk == WriteEach(s.disk, batch)
    ensures Advances(s, t, |batch|)
  {
    assert Pending(s)[..|batch|] == batch;
    forall f | Stands(s.disk, f, Pending(s)) ensures Stands(t.disk, WriteEach(f, batch), Pending(t)) {
      StandsAgrees(s.disk, f, Pending(s), batch);
    }
  }

  function Landing(stage: Stage): nat { if stage.Writing? then |stage.batch| else 0 }

  lemma ResumeAdvances(s: State, t: State)
    requires Steady(s) && !s.stage.NotFlushing? && t == Resume(s)
    ensures Steady(t) && Advances(s, t, Landing(s.stage))
  {
    match s.stage
    case Writing(batch) => WritingAdvances(s, t);
    case Renaming(first) => RenamingAdvances(s, t);
    case Reopening(first) =>
      FormBatchSteady(s.(isOpen := true, size := 0), first);
      SameDiskAdvances(s, t);
    case Scheduled =>
      assert [] + s.queued == s.queued;
      LoopTopSteady(s);
      SameDiskAdvances(s, t);
    case Statting =>
      assert [] + s.queued == s.queued;
      TakeFirstSteady(s.(size := |s.disk.current|));
      SameDiskAdvances(s, t);
    case ClosingFull(first) => SameDiskAdvances(s, t);
    case Opening => SameDiskAdvances(s, t);
  }

  // ---- every history ----

  function Initial(f: Files): State { State(f, 0, false, [], NotFlushing, false, false, false) }

  ghost predicate Runs(s: State, events: seq<Event>)
    decreases |events|
  {
    events == [] || (Enabled(s, events[0]) && Runs(Next(s, events[0]), events[1..]))
  }

  function After(s: State, events: seq<Event>): State
    decreases |events|
  {
    if events == [] then s else After(Next(s, events[0]), events[1..])
  }

  function AcceptedBy(s: State, e: Event): seq<Bytes> {
    if e.Writes? && Accepts(s) then [e.line] else []
  }

  function Accepted(s: State, events: seq<Event>): seq<Bytes>
    decreases |events|
  {
    if events == [] then [] else AcceptedBy(s, events[0]) + Accepted(Next(s, events[0]), events[1..])
  }

  predicate AtMostOneBatch(size: nat, batch: seq<Bytes>) { batch == [] || Batch(size, batch) }

  /**
   * What a failed drain leaves: the first k accepted lines as if written alone, then a part of the one batch
   * whose write failed, if it was a write.
   */
  ghost predicate Survives(disk: Files, f: Files, accepted: seq<Bytes>, k: nat, m: nat, landed: Files, partial: Bytes) {
    && k + m <= |accepted|
    && Stands(landed, WriteEach(f, accepted[..k]), accepted[k..])
    && AtMostOneBatch(|landed.current|, accepted[k..k + m])
    && partial <= Concat(accepted[k..k + m])
    && disk == landed.(current := landed.current + partial)
  }

  ghost predicate Recorded(s: State, f: Files, accepted: seq<Bytes>) {
    if s.failed then exists k, m, landed, partial :: Survives(s.disk, f, accepted, k, m, landed, partial)
    else
      var k := |accepted| - |Pending(s)|;
      && 0 <= k
      && Pending(s) == accepted[k..]
      && Stands(s.disk, WriteEach(f, accepted[..k]), Pending(s))
  }

  lemma {:induction false} ConcatAppend(a: seq<Bytes>, b: seq<Bytes>)
    ensures Concat(a + b) == Concat(a) + Concat(b)
    decreases |a|
  {
    if a == [] {
      assert a + b == b;
    } else {
      assert (a + b)[1..] == a[1..] + b;
      ConcatAppend(a[1..], b);
      assert a[0] + (Concat(a[1..]) + Concat(b)) == (a[0] + Concat(a[1..])) + Concat(b);
    }
  }

  lemma AdvanceRecords(s: State, t: State, f: Files, accepted: seq<Bytes>, n: nat)
    requires Recorded(s, f, accepted) && !s.failed && !t.failed && Advances(s, t, n)
    ensures Recorded(t, f, accepted)
  {
    var k := |accepted| - |Pending(s)|;
    var done, next := accepted[..k], accepted[k..][..n];
    assert done + next == accepted[..k + n];
    assert accepted[k..][n..] == accepted[k + n..];
    WriteEachAppend(f, done, next);
  }

  lemma ResumeRecords(s: State, f: Files, accepted: seq<Bytes>)
    requires Good(s) && Recorded(s, f, accepted) && !s.stage.NotFlushing?
    ensures Good(Resume(s)) && Recorded(Resume(s), f, accepted)
  {
    var t := Resume(s);
    ResumeAdvances(s, t);
    ResumeKeepsFlags(s);
    AdvanceRecords(s, t, f, accepted, Landing(s.stage));
  }

  lemma ResumeKeepsFlags(s: State)
    requires Steady(s)
    ensures var t := Resume(s); t.failed == s.failed && t.closed == s.closed && t.closing == s.closing
  {
  }

  lemma FailRecords(s: State, f: Files, accepted: seq<Bytes>, partial: Bytes)
    requires Good(s) && Recorded(s, f, accepted) && Enabled(s, Fails(partial))
    ensures Good(Fail(s, partial)) && Recorded(Fail(s, partial), f, accepted)
  {
    var k := |accepted| - |Pending(s)|;
    if s.stage.Writing? {
      var batch := s.stage.batch;
      assert accepted[k..][..|batch|] == batch;
      assert accepted[k..k + |batch|] == batch;
      assert Survives(Fail(s, partial).disk, f, accepted, k, |batch|, s.disk, partial);
    } else {
      assert s.disk.current + [] == s.disk.current;
      assert Survives(Fail(s, partial).disk, f, accepted, k, 0, s.disk, []);
    }
  }

  lemma WriteRecords(s: State, f: Files, accepted: seq<Bytes>, line: Bytes)
    requires Good(s) && Recorded(s, f, accepted) && line != []
    ensures Good(Write(s, line)) && Recorded(Write(s, line), f, accepted + AcceptedBy(s, Writes(line)))
  {
    if Accepts(s) {
      var t, k := Write(s, line), |accepted| - |Pending(s)|;
      assert Pending(t) == Pending(s) + [line];
      assert (accepted + [line])[..k] == accepted[..k];
      assert (accepted + [line])[k..] == accepted[k..] + [line];
    } else {
      assert accepted + [] == accepted;
    }
  }

  lemma StepRecords(s: State, f: Files, accepted: seq<Bytes>, e: Event)
    requires Good(s) && Recorded(s, f, accepted) && Enabled(s, e)
    ensures Good(Next(s, e)) && Recorded(Next(s, e), f, accepted + AcceptedBy(s, e))
  {
    assert accepted + [] == accepted;
    match e
    case Writes(line) => WriteRecords(s, f, accepted, line);
    case Resumes => ResumeRecords(s, f, accepted);
    case Fails(partial) => FailRecords(s, f, accepted, partial);
    case Closes => assert Pending(Next(s, e)) == Pending(s);
    case CloseFinishes => assert Pending(Next(s, e)) == Pending(s);
  }

  /** Whatever was accepted before, a step keeps what the drain knows. */
  lemma StepStaysValid(s: State, e: Event)
    requires Good(s) && Enabled(s, e)
    ensures Good(Next(s, e))
  {
    if s.failed {
      assert Pending(s) == [];
    } else {
      PendingIsRecorded(s);
      StepRecords(s, s.disk, Pending(s), e);
    }
  }

  lemma Associate(a: seq<Bytes>, b: seq<Bytes>, c: seq<Bytes>)
    ensures (a + b) + c == a + (b + c)
  {
  }

  /** Whatever the interleaving, the files hold the accepted lines as if each had been written alone. */
  lemma {:induction false} HistoryRecords(s: State, f: Files, accepted: seq<Bytes>, events: seq<Event>)
    requires Good(s) && Recorded(s, f, accepted) && Runs(s, events)
    ensures Good(After(s, events)) && Recorded(After(s, events), f, accepted + Accepted(s, events))
    decreases |events|
  {
    if events == [] {
      assert accepted + [] == accepted;
    } else {
      var e, rest := events[0], events[1..];
      StepRecords(s, f, accepted, e);
      HistoryRecords(Next(s, e), f, accepted + AcceptedBy(s, e), rest);
      Associate(accepted, AcceptedBy(s, e), Accepted(Next(s, e), rest));
    }
  }

  ghost predicate NoFailure(events: seq<Event>) {
    forall i :: 0 <= i < |events| ==> !events[i].Fails?
  }

  function LinesBeforeClose(events: seq<Event>): seq<Bytes>
    decreases |events|
  {
    if events == [] || events[0].Closes? then []
    else (if events[0].Writes? then [events[0].line] else []) + LinesBeforeClose(events[1..])
  }

  lemma StepStaysGood(s: State, e: Event)
    requires Good(s) && !s.failed && Enabled(s, e) && !e.Fails?
    ensures Good(Next(s, e)) && !Next(s, e).failed
  {
    PendingIsRecorded(s);
    StepRecords(s, s.disk, Pending(s), e);
    if e.Resumes? {
      ResumeKeepsFlags(s);
    }
  }

  lemma PendingIsRecorded(s: State)
    requires !s.failed
    ensures Recorded(s, s.disk, Pending(s))
  {
    var pending := Pending(s);
    assert pending[..0] == [] && pending[0..] == pending;
  }

  lemma {:induction false} EveryLineIsAccepted(s: State, events: seq<Event>)
    requires Good(s) && !s.failed && Runs(s, events) && NoFailure(events)
    ensures !After(s, events).failed
    ensures Accepted(s, events) == if s.closing then [] else LinesBeforeClose(events)
    decreases |events|
  {
    if events != [] {
      var rest := events[1..];
      StepStaysGood(s, events[0]);
      assert NoFailure(rest) by {
        forall i | 0 <= i < |rest| ensures !rest[i].Fails? {
          assert rest[i] == events[i + 1];
        }
      }
      EveryLineIsAccepted(Next(s, events[0]), rest);
    }
  }

  lemma DrainedIsWritten(t: State, f: Files, lines: seq<Bytes>)
    requires Good(t) && Recorded(t, f, lines) && !t.failed && t.stage.NotFlushing?
    ensures t.disk == WriteEach(f, lines)
  {
    assert Pending(t) == [] && lines[..|lines|] == lines;
  }

  /** Without an I/O failure every line written before close is on disk, in order, when close resolves. */
  lemma CloseLosesNothing(f: Files, events: seq<Event>)
    requires Runs(Initial(f), events) && NoFailure(events)
    ensures var t := After(Initial(f), events);
            t.stage.NotFlushing? || t.closed ==> t.disk == WriteEach(f, LinesBeforeClose(events))
  {
    var s := Initial(f);
    var t, lines := After(s, events), Accepted(s, events);
    InitialRecords(f);
    HistoryRecords(s, f, [], events);
    EveryLineIsAccepted(s, events);
    assert [] + lines == lines;
    if t.stage.NotFlushing? || t.closed {
      DrainedIsWritten(t, f, lines);
    }
  }

  lemma InitialRecords(f: Files)
    ensures Good(Initial(f)) && Recorded(Initial(f), f, [])
  {
  }

  // ---- what writing line by line leaves ----

  /** `r` holds all of `lines` after the old content, or a run of whole lines after a rotation before line `j`. */
  ghost predicate CutAt(f: Files, lines: seq<Bytes>, r: Files, i: int, j: int) {
    if i < 0 then r == Files(f.current + Concat(lines), f.previous)
    else
      && i <= j <= |lines|
      && r.current == Concat(lines[j..])
      && (r.previous == Some(Concat(lines[i..j])) || (i == 0 && r.previous == Some(f.current + Concat(lines[..j]))))
  }

  lemma CutShifts(f: Files, lines: seq<Bytes>, r: Files, i: int, j: int)
    requires lines != [] && CutAt(WriteOne(f, lines[0]), lines[1..], r, i, j)
    ensures exists i', j' :: CutAt(f, lines, r, i', j')
  {
    var first, rest, g := lines[0], lines[1..], WriteOne(f, lines[0]);
    if i < 0 && g.previous == f.previous && g.current == f.current + first {
      assert (f.current + first) + Concat(rest) == f.current + Concat(lines);
      assert CutAt(f, lines, r, -1, 0);
    } else if i < 0 {
      assert lines[0..] == lines && lines[..0] == [] && f.current + [] == f.current;
      assert CutAt(f, lines, r, 0, 0);
    } else {
      assert rest[j..] == lines[j + 1..];
      assert lines[..j + 1][1..] == rest[..j];
      if r.previous == Some(Concat(rest[i..j])) {
        assert rest[i..j] == lines[i + 1..j + 1];
        assert CutAt(f, lines, r, i + 1, j + 1);
      } else {
        CutAfterFirst(f, lines, r, j);
      }
    }
  }

  lemma CutAfterFirst(f: Files, lines: seq<Bytes>, r: Files, j: nat)
    requires lines != [] && j <= |lines| - 1 && r.current == Concat(lines[j + 1..])
    requires r.previous == Some(WriteOne(f, lines[0]).current + Concat(lines[1..][..j]))
    ensures exists i', j' :: CutAt(f, lines, r, i', j')
  {
    var upTo := lines[..j + 1];
    assert upTo[1..] == lines[1..][..j] && upTo[0] == lines[0];
    assert Concat(upTo) == lines[0] + Concat(lines[1..][..j]);
    assert (f.current + lines[0]) + Concat(lines[1..][..j]) == f.current + Concat(upTo);
    assert lines[0..j + 1] == upTo;
    assert CutAt(f, lines, r, 0, j + 1);
  }

  /** Written alone, no line is split, lost between the two files, or moved: they hold consecutive whole lines. */
  lemma {:induction false} WriteEachKeepsLines(f: Files, lines: seq<Bytes>)
    ensures exists i, j :: CutAt(f, lines, WriteEach(f, lines), i, j)
    decreases |lines|
  {
    if lines == [] {
      assert f.current + [] == f.current && Files(f.current, f.previous) == f;
      assert CutAt(f, lines, WriteEach(f, lines), -1, 0);
    } else {
      var g := WriteOne(f, lines[0]);
      WriteEachKeepsLines(g, lines[1..]);
      var i, j :| CutAt(g, lines[1..], WriteEach(g, lines[1..]), i, j);
      CutShifts(f, lines, WriteEach(f, lines), i, j);
    }
  }

  /** A file that has been rotated for a line not yet written holds whole lines too. */
  lemma RotatedHoldsLines(f: Files, lines: seq<Bytes>, r: Files, i: int, j: int)
    requires CutAt(f, lines, r, i, j)
    ensures exists i', j' :: CutAt(f, lines, Files([], Some(r.current)), i', j')
  {
    var n := |lines|;
    assert lines[n..] == [] && lines[..n] == lines;
    if i < 0 {
      assert CutAt(f, lines, Files([], Some(r.current)), 0, n);
    } else {
      assert lines[j..n] == lines[j..];
      assert CutAt(f, lines, Files([], Some(r.current)), j, n);
    }
  }

  lemma StandingHoldsLines(f: Files, lines: seq<Bytes>, landed: Files, pending: seq<Bytes>)
    requires Stands(landed, WriteEach(f, lines), pending)
    ensures exists i, j :: CutAt(f, lines, landed, i, j)
  {
    WriteEachKeepsLines(f, lines);
    if landed != WriteEach(f, lines) {
      var i, j :| CutAt(f, lines, WriteEach(f, lines), i, j);
      RotatedHoldsLines(f, lines, WriteEach(f, lines), i, j);
    }
  }

  /**
   * The first k accepted lines, whole and consecutive, with at most a part of one failed batch behind them;
   * without a failure the other lines are pending.
   */
  ghost predicate HoldsLines(s: State, f: Files, accepted: seq<Bytes>, k: nat, m: nat, landed: Files, partial: Bytes) {
    && Survives(s.disk, f, accepted, k, m, landed, partial)
    && Consecutive(f, accepted[..k], landed)
    && (!s.failed ==> partial == [] && Pending(s) == accepted[k..])
  }

  ghost predicate HoldsWholeLines(s: State, f: Files, accepted: seq<Bytes>) {
    exists k, m, landed, partial :: HoldsLines(s, f, accepted, k, m, landed, partial)
  }

  lemma HoldingIsEnough(s: State, f: Files, accepted: seq<Bytes>, k: nat, m: nat, landed: Files, partial: Bytes)
    requires HoldsLines(s, f, accepted, k, m, landed, partial)
    ensures HoldsWholeLines(s, f, accepted)
  {
  }

  ghost predicate Consecutive(f: Files, lines: seq<Bytes>, r: Files) {
    exists i, j :: CutAt(f, lines, r, i, j)
  }

  /** Every moment of every history comes to some number of lines written; only a failure leaves a part of a batch. */
  lemma RecordedSurvives(s: State, f: Files, accepted: seq<Bytes>) returns (k: nat, m: nat, landed: Files, partial: Bytes)
    requires Recorded(s, f, accepted)
    ensures Survives(s.disk, f, accepted, k, m, landed, partial)
    ensures !s.failed ==> partial == [] && Pending(s) == accepted[k..]
  {
    if s.failed {
      k, m, landed, partial :| Survives(s.disk, f, accepted, k, m, landed, partial);
    } else {
      k, m, landed, partial := |accepted| - |Pending(s)|, 0, s.disk, [];
      assert s.disk.current + [] == s.disk.current;
    }
  }

  /**
   * At every moment of every history, in flight or failed, the files hold consecutive whole lines: none is
   * split, moved or lost between them, except the part of the one batch whose write failed.
   */
  lemma LinesStayWhole(f: Files, events: seq<Event>)
    requires Runs(Initial(f), events)
    ensures var t, accepted := After(Initial(f), events), Accepted(Initial(f), events);
            HoldsWholeLines(t, f, accepted)
  {
    var t, accepted := After(Initial(f), events), Accepted(Initial(f), events);
    InitialRecords(f);
    HistoryRecords(Initial(f), f, [], events);
    assert [] + accepted == accepted;
    var k, m, landed, partial := RecordedSurvives(t, f, accepted);
    StandingHoldsLines(f, accepted[..k], landed, accepted[k..]);
    HoldingIsEnough(t, f, accepted, k, m, landed, partial);
  }

  /** Only old content, or a single line or its beginning, may exceed the limit. */
  ghost predicate Bounded(content: Bytes, initial: Bytes, lines: seq<Bytes>) {
    |content| <= 5242880 || content == initial || exists line :: line in lines && content <= line
  }

  lemma {:induction false} WriteEachStaysBounded(f: Files, lines: seq<Bytes>)
    ensures var r := WriteEach(f, lines);
            && Bounded(r.current, f.current, lines)
            && (r.previous == f.previous || (r.previous.Some? && Bounded(r.previous.value, f.current, lines)))
    decreases |lines|
  {
    if lines != [] {
      var first := lines[0];
      WriteEachStaysBounded(WriteOne(f, first), lines[1..]);
      assert forall line :: line in lines[1..] ==> line in lines;
      assert first in lines && first <= first;
      if |f.current| == 0 {
        assert f.current + first == first;
      }
    }
  }

  lemma MoreLinesBound(content: Bytes, initial: Bytes, lines: seq<Bytes>, n: nat)
    requires n <= |lines| && Bounded(content, initial, lines[..n])
    ensures Bounded(content, initial, lines)
  {
    assert forall line :: line in lines[..n] ==> line in lines;
  }

  /** Within one batch only its first line can be over the limit, and then it is the whole batch. */
  lemma {:induction false} FitsWithin(size: nat, lines: seq<Bytes>)
    requires size > 0 && Fits(size, lines) && NonEmpty(lines) && lines != []
    ensures size + |Concat(lines)| <= MAX_FILE_BYTES
    decreases |lines|
  {
    if |lines| > 1 {
      FitsWithin(size + |lines[0]|, lines[1..]);
    } else {
      assert lines[0] + [] == lines[0];
    }
  }

  lemma PartStaysBounded(current: Bytes, batch: seq<Bytes>, partial: Bytes, initial: Bytes, lines: seq<Bytes>)
    requires Bounded(current, initial, lines) && AtMostOneBatch(|current|, batch) && NonEmpty(batch)
    requires partial <= Concat(batch) && forall line :: line in batch ==> line in lines
    ensures Bounded(current + partial, initial, lines)
  {
    if batch == [] {
      assert current + partial == current;
    } else if |current| > 0 {
      FitsWithin(|current|, batch);
    } else if |batch| == 1 {
      assert current + partial == partial && batch[0] + [] == batch[0];
      assert batch[0] in lines;
    }
  }

  lemma SurvivorIsBounded(disk: Files, f: Files, accepted: seq<Bytes>, k: nat, m: nat, landed: Files, partial: Bytes)
    requires Survives(disk, f, accepted, k, m, landed, partial) && NonEmpty(accepted)
    ensures Bounded(disk.current, f.current, accepted)
    ensures disk.previous == f.previous
            || (disk.previous.Some? && Bounded(disk.previous.value, f.current, accepted))
  {
    var r := WriteEach(f, accepted[..k]);
    WriteEachStaysBounded(f, accepted[..k]);
    MoreLinesBound(r.current, f.current, accepted, k);
    if r.previous != f.previous {
      MoreLinesBound(r.previous.value, f.current, accepted, k);
    }
    PartStaysBounded(landed.current, accepted[k..k + m], partial, f.current, accepted);
  }

  lemma {:induction false} AcceptedAreLines(s: State, events: seq<Event>)
    requires Runs(s, events)
    ensures NonEmpty(Accepted(s, events))
    decreases |events|
  {
    if events != [] {
      AcceptedAreLines(Next(s, events[0]), events[1..]);
    }
  }

  /** At every moment of every history only old content or a single line makes a file exceed the limit. */
  lemma FilesStayBounded(f: Files, events: seq<Event>)
    requires Runs(Initial(f), events)
    ensures var disk, accepted := After(Initial(f), events).disk, Accepted(Initial(f), events);
            && Bounded(disk.current, f.current, accepted)
            && (disk.previous == f.previous
                || (disk.previous.Some? && Bounded(disk.previous.value, f.current, accepted)))
  {
    var t, accepted := After(Initial(f), events), Accepted(Initial(f), events);
    InitialRecords(f);
    HistoryRecords(Initial(f), f, [], events);
    assert [] + accepted == accepted;
    var k, m, landed, partial := RecordedSurvives(t, f, accepted);
    AcceptedAreLines(Initial(f), events);
    SurvivorIsBounded(t.disk, f, accepted, k, m, landed, partial);
  }

  // ---- the drain ends ----

  function Rank(stage: Stage): nat {
    match stage
    case NotFlushing => 0
    case Scheduled => 7
    case Opening => 6
    case Statting => 5
    case ClosingFull(_) => 4
    case Renaming(_) => 3
    case Reopening(_) => 2
    case Writing(_) => 1
  }

  function Work(s: State): nat { 8 * |Pending(s)| + Rank(s.stage) }

  lemma RankFalls(s: State)
    requires Steady(s) && !s.stage.NotFlushing? && !s.stage.Writing?
    ensures Rank(Resume(s).stage) < Rank(s.stage)
  {
  }

  lemma StepWorks(s: State, t: State)
    requires Steady(s) && !s.stage.NotFlushing? && t == Resume(s)
    ensures Work(t) < Work(s)
  {
    ResumeAdvances(s, t);
    if !s.stage.Writing? {
      RankFalls(s);
    }
  }

  function Resumed(s: State, n: nat): State
    decreases n
  {
    if n == 0 then s else Resumed(Resume(s), n - 1)
  }

  /** Left alone, and with no failure, a drain writes everything it has and stops. */
  lemma {:induction false} DrainEnds(s: State, n: nat)
    requires Steady(s) && Work(s) <= n
    ensures var t := Resumed(s, n); t.stage.NotFlushing? && t.disk == WriteEach(s.disk, Pending(s))
    decreases n
  {
    var t := Resume(s);
    if s.stage.NotFlushing? {
      assert Pending(s) == [];
      if n > 0 {
        DrainEnds(t, n - 1);
      }
    } else {
      StepWorks(s, t);
      ResumeAdvances(s, t);
      DrainEnds(t, n - 1);
      var pending, k := Pending(s), Landing(s.stage);
      assert pending[..k] + pending[k..] == pending;
      WriteEachAppend(s.disk, pending[..k], pending[k..]);
      assert Stands(t.disk, WriteEach(s.disk, pending[..k]), Pending(t));
      if Pending(t) != [] {
        StandsAgrees(t.disk, WriteEach(s.disk, pending[..k]), Pending(t), Pending(t));
      }
    }
  }
}
