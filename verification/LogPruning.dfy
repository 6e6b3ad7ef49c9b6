/**
 * Pruning of test logs (src/server/log-writer.ts): one scan at a time, and a call during a scan asks for
 * another one. A step is what happens between two awaits.
 */
module LogPruning {
  type Id = nat

  /** A directory entry: a test log, its rotated predecessor, or anything else. */
  datatype Entry = Log(id: Id, rotated: bool) | Other(name: nat)

  datatype Phase =
    | Idle
    | Scheduled
    | Listing
    | Scanning(rest: seq<Entry>)
    | Unlinking(entry: Entry, rest: seq<Entry>)

  datatype Outcome = Resolved | Rejected

  /**
   * Calls are numbered in order. While a pruning is under way it owns the calls from `first` on, and asks
   * the predicate of call `first`; `kept` holds the pairs of a call and an id its predicate would retain.
   * `begun` is the number of calls made when the latest scan began. The last three fields describe that
   * scan: what the directory held, and which of it was spared or unlinked.
   */
  datatype State = State(
    open: set<Id>, finishing: set<Id>, kept: set<(nat, Id)>, files: set<Entry>,
    phase: Phase, pruneAgain: bool, closing: bool,
    first: nat, calls: nat, outcomes: seq<Outcome>,
    begun: nat, present: set<Entry>, spared: set<Entry>, unlinked: set<Entry>)

  predicate Live(s: State, id: Id) { id in s.open || id in s.finishing || (s.first, id) in s.kept }

  predicate Spares(s: State, e: Entry) { e.Other? || Live(s, e.id) }

  function Call(s: State): State {
    if s.closing then s
    else if s.phase.Idle? then s.(pruneAgain := true, calls := s.calls + 1, first := s.calls, phase := Scheduled)
    else s.(pruneAgain := true, calls := s.calls + 1)
  }

  function Begin(s: State): State {
    s.(pruneAgain := false, phase := Listing, begun := s.calls)
  }

  function List(s: State, entries: seq<Entry>): State {
    s.(phase := Scanning(entries), present := s.files, spared := {}, unlinked := {})
  }

  function Settle(s: State, outcome: Outcome): State {
    s.(phase := Idle, first := s.calls,
       outcomes := s.outcomes + if s.first <= s.calls then seq(s.calls - s.first, _ => outcome) else [])
  }

  function Scan(s: State): State
    requires s.phase.Scanning?
  {
    if s.phase.rest == [] then
      if s.pruneAgain then Begin(s) else Settle(s, Resolved)
    else
      var e, rest := s.phase.rest[0], s.phase.rest[1..];
      if Spares(s, e) then s.(phase := Scanning(rest), spared := s.spared + {e})
      else s.(phase := Unlinking(e, rest))
  }

  function Unlinked(s: State): State
    requires s.phase.Unlinking?
  {
    s.(files := s.files - {s.phase.entry}, unlinked := s.unlinked + {s.phase.entry},
       phase := Scanning(s.phase.rest))
  }

  function OpenTest(s: State, id: Id): State {
    if s.closing || id in s.open || id in s.finishing then s else s.(open := s.open + {id})
  }

  function FinishTest(s: State, id: Id): State {
    if id !in s.open then s else s.(open := s.open - {id}, finishing := s.finishing + {id})
  }

  function Close(s: State): State {
    if s.closing then s else s.(closing := true, open := {}, finishing := s.finishing + s.open)
  }

  datatype Event =
    | Calls
    | Begins
    | Lists(entries: seq<Entry>)
    | Scans
    | Unlinks
    | Fails
    | Opens(id: Id)
    | Writes(entry: Entry)
    | Finishes(id: Id)
    | Finished(id: Id)
    | Keeps(kept: set<(nat, Id)>)
    | Closes

  /** The listing names every file there is; only a log that is open or being closed is written. */
  ghost predicate Enabled(s: State, e: Event) {
    match e
    case Begins => s.phase.Scheduled?
    case Lists(entries) => s.phase.Listing? && (forall f :: f in s.files ==> f in entries)
    case Scans => s.phase.Scanning?
    case Unlinks => s.phase.Unlinking?
    case Fails => !s.phase.Idle?
    case Writes(entry) => entry.Log? && (entry.id in s.open || entry.id in s.finishing)
    case Finished(id) => id in s.finishing
    case _ => true
  }

  function Next(s: State, e: Event): State
    requires e.Scans? ==> s.phase.Scanning?
    requires e.Unlinks? ==> s.phase.Unlinking?
  {
    match e
    case Calls => Call(s)
    case Begins => Begin(s)
    case Lists(entries) => List(s, entries)
    case Scans => Scan(s)
    case Unlinks => Unlinked(s)
    case Fails => Settle(s, Rejected)
    case Opens(id) => OpenTest(s, id)
    case Writes(entry) => s.(files := s.files + {entry})
    case Finishes(id) => FinishTest(s, id)
    case Finished(id) => s.(finishing := s.finishing - {id})
    case Keeps(kept) => s.(kept := kept)
    case Closes => Close(s)
  }

  function Initial(files: set<Entry>): State {
    State({}, {}, {}, files, Idle, false, false, 0, 0, [], 0, {}, {}, {})
  }

  // ---- what every step keeps ----

  function Remaining(phase: Phase): seq<Entry> {
    match phase
    case Scanning(rest) => rest
    case Unlinking(entry, rest) => [entry] + rest
    case _ => []
  }

  /** The flag says exactly whether some call of this pruning came after the latest scan began. */
  ghost predicate Coalesced(s: State) {
    && |s.outcomes| == s.first <= s.calls
    && (s.phase.Idle? <==> s.first == s.calls)
    && (s.phase.Scheduled? ==> s.pruneAgain)
    && (!s.phase.Idle? && !s.phase.Scheduled? ==>
          s.first < s.begun <= s.calls && (s.pruneAgain <==> s.begun < s.calls))
  }

  /** Every file the scan found is still to be looked at, was spared, or was unlinked. */
  ghost predicate Covered(s: State) {
    s.phase.Scanning? || s.phase.Unlinking? ==>
      forall e :: e in s.present ==> e in Remaining(s.phase) || e in s.spared || e in s.unlinked
  }

  ghost predicate Inv(s: State) { Coalesced(s) && Covered(s) }

  lemma RestCovers(s: State, t: State, e: Entry, rest: seq<Entry>)
    requires Covered(s) && Remaining(s.phase) == [e] + rest && (s.phase.Scanning? || s.phase.Unlinking?)
    requires t.present == s.present && Remaining(t.phase) == rest
    requires e in t.spared || e in t.unlinked
    requires s.spared <= t.spared && s.unlinked <= t.unlinked
    ensures Covered(t)
  {
  }

  lemma ScanKeepsCovered(s: State)
    requires Covered(s) && s.phase.Scanning?
    ensures Covered(Scan(s))
  {
    if s.phase.rest != [] {
      var e, rest := s.phase.rest[0], s.phase.rest[1..];
      assert s.phase.rest == [e] + rest;
      if Spares(s, e) {
        RestCovers(s, Scan(s), e, rest);
      }
    }
  }

  lemma StepKeeps(s: State, e: Event)
    requires Inv(s) && Enabled(s, e)
    ensures Inv(Next(s, e))
  {
    match e
    case Scans => ScanKeepsCovered(s);
    case Unlinks => RestCovers(s, Unlinked(s), s.phase.entry, s.phase.rest);
    case _ =>
  }

  ghost predicate Reaches(files: set<Entry>, events: seq<Event>, s: State)
    decreases |events|
  {
    if events == [] then s == Initial(files)
    else
      var n := |events| - 1;
      exists p :: Reaches(files, events[..n], p) && Enabled(p, events[n]) && s == Next(p, events[n])
  }

  lemma {:induction false} HistoriesKeep(files: set<Entry>, events: seq<Event>, s: State)
    requires Reaches(files, events, s)
    ensures Inv(s)
    decreases |events|
  {
    if events != [] {
      var n := |events| - 1;
      var p :| Reaches(files, events[..n], p) && Enabled(p, events[n]) && s == Next(p, events[n]);
      HistoriesKeep(files, events[..n], p);
      StepKeeps(p, events[n]);
    }
  }

  /** The entry is no test log, or that of a run that is open, being closed or retained. */
  predicate HasCause(s: State, e: Entry) {
    e.Other? || e.id in s.open || e.id in s.finishing || (s.first, e.id) in s.kept
  }

  /** At some moment of the latest scan there was a cause to spare the entry. */
  ghost predicate SparedForCause(files: set<Entry>, events: seq<Event>, begun: nat, e: Entry) {
    exists k, p :: 0 <= k <= |events| && LookedAt(files, events[..k], p, begun, e)
  }

  ghost predicate LookedAt(files: set<Entry>, events: seq<Event>, p: State, begun: nat, e: Entry) {
    Reaches(files, events, p) && p.begun == begun && p.phase.Scanning? && HasCause(p, e)
  }

  predicate WasSpared(p: State, s: State, e: Entry) {
    e in p.spared && p.begun == s.begun && (p.phase.Scanning? || p.phase.Unlinking?)
  }

  lemma SparedStep(p: State, event: Event, s: State, e: Entry)
    requires Enabled(p, event) && s == Next(p, event)
    requires (s.phase.Scanning? || s.phase.Unlinking?) && e in s.spared
    ensures WasSpared(p, s, e) || (p.begun == s.begun && p.phase.Scanning? && HasCause(p, e))
  {
  }

  lemma {:induction false} SparedHadCause(files: set<Entry>, events: seq<Event>, s: State, e: Entry)
    requires Reaches(files, events, s) && (s.phase.Scanning? || s.phase.Unlinking?) && e in s.spared
    ensures SparedForCause(files, events, s.begun, e)
    decreases |events|
  {
    var n := |events| - 1;
    var p :| Reaches(files, events[..n], p) && Enabled(p, events[n]) && s == Next(p, events[n]);
    SparedStep(p, events[n], s, e);
    if WasSpared(p, s, e) {
      SparedHadCause(files, events[..n], p, e);
      CauseIsEarlier(files, events, n, s.begun, e);
    } else {
      assert LookedAt(files, events[..n], p, s.begun, e);
    }
  }

  lemma CauseIsEarlier(files: set<Entry>, events: seq<Event>, n: nat, begun: nat, e: Entry)
    requires n <= |events| && SparedForCause(files, events[..n], begun, e)
    ensures SparedForCause(files, events, begun, e)
  {
    var k, p :| 0 <= k <= n && LookedAt(files, events[..n][..k], p, begun, e);
    assert events[..n][..k] == events[..k];
  }

  /**
   * When a call's promise resolves, a whole scan has passed that began after the call: each file it found
   * was unlinked, or at some moment of that scan was no log to unlink.
   */
  lemma CallsAreServed(files: set<Entry>, events: seq<Event>, s: State, e: Event, call: nat)
    requires Reaches(files, events, s) && Enabled(s, e)
    requires |s.outcomes| <= call < |Next(s, e).outcomes| && Next(s, e).outcomes[call] == Resolved
    ensures s.first <= call < s.calls == s.begun
    ensures forall f :: f in s.present ==> f in s.unlinked || SparedForCause(files, events, s.begun, f)
  {
    HistoriesKeep(files, events, s);
    forall f | f in s.present ensures f in s.unlinked || SparedForCause(files, events, s.begun, f) {
      if f in s.spared {
        SparedHadCause(files, events, s, f);
      }
    }
  }

  /** Every call made before closing is settled exactly once, in order, and none is left behind. */
  lemma CallsAreSettled(files: set<Entry>, events: seq<Event>, s: State)
    requires Reaches(files, events, s)
    ensures |s.outcomes| <= s.calls
    ensures s.phase.Idle? ==> |s.outcomes| == s.calls
    ensures forall e :: Enabled(s, e) ==> s.outcomes <= Next(s, e).outcomes
  {
    HistoriesKeep(files, events, s);
  }

  // ---- no live log is unlinked ----

  ghost predicate UnlinksDead(s: State) {
    s.phase.Unlinking? ==>
      var e := s.phase.entry;
      e.Log? && e.id !in s.open && e.id !in s.finishing && (s.first, e.id) !in s.kept
  }

  /** The event brings the log that is being unlinked back to life. */
  ghost predicate Revives(s: State, e: Event) {
    && s.phase.Unlinking? && s.phase.entry.Log?
    && match e
       case Opens(id) => id == s.phase.entry.id && !s.closing
       case Keeps(kept) => (s.first, s.phase.entry.id) in kept
       case _ => false
  }

  /** The log of an open, finishing or retained run is never being unlinked, until an event revives it. */
  lemma UnlinksDeadExactly(s: State, e: Event)
    requires Inv(s) && UnlinksDead(s) && Enabled(s, e)
    ensures UnlinksDead(Next(s, e)) <==> !Revives(s, e)
  {
  }

  ghost predicate NeverRevived(files: set<Entry>, events: seq<Event>)
    decreases |events|
  {
    events == []
    || (var n := |events| - 1;
        && NeverRevived(files, events[..n])
        && forall p :: Reaches(files, events[..n], p) ==> !Revives(p, events[n]))
  }

  lemma {:induction false} LiveLogsAreSpared(files: set<Entry>, events: seq<Event>, s: State)
    requires Reaches(files, events, s) && NeverRevived(files, events)
    ensures UnlinksDead(s)
    decreases |events|
  {
    if events != [] {
      var n := |events| - 1;
      var p :| Reaches(files, events[..n], p) && Enabled(p, events[n]) && s == Next(p, events[n]);
      HistoriesKeep(files, events[..n], p);
      LiveLogsAreSpared(files, events[..n], p);
      UnlinksDeadExactly(p, events[n]);
    }
  }

  lemma Extend(files: set<Entry>, events: seq<Event>, p: State, e: Event)
    requires Reaches(files, events, p) && Enabled(p, e)
    ensures Reaches(files, events + [e], Next(p, e))
  {
    assert (events + [e])[..|events|] == events;
  }

  ghost predicate Reached(files: set<Entry>, s: State) {
    exists events :: Reaches(files, events, s)
  }

  lemma ReachedStep(files: set<Entry>, p: State, e: Event, s: State)
    requires Reached(files, p) && Enabled(p, e) && s == Next(p, e)
    ensures Reached(files, s)
  {
    var events :| Reaches(files, events, p);
    Extend(files, events, p, e);
  }

  lemma UnlinkingIsReached(log: Entry)
    requires log.Log?
    ensures Reached({log}, Initial({log}).(
              phase := Unlinking(log, []), calls := 1, begun := 1, present := {log}))
  {
    var s := Initial({log});
    assert Reaches({log}, [], s);
    var called, begun := Call(s), Begin(Call(s));
    ReachedStep({log}, s, Calls, called);
    ReachedStep({log}, called, Begins, begun);
    ReachedStep({log}, begun, Lists([log]), List(begun, [log]));
    ReachedStep({log}, List(begun, [log]), Scans, Scan(List(begun, [log])));
    assert [log][1..] == [];
  }

  /** The log is being unlinked while its run is open, and the unlink takes it away. */
  ghost predicate LosesOpenLog(s: State, log: Entry) {
    && log.Log? && s.phase == Unlinking(log, [])
    && log.id in s.open && log in s.files
    && Enabled(s, Unlinks) && log.id in Next(s, Unlinks).open && log !in Next(s, Unlinks).files
  }

  /**
   * The guard looks before it unlinks, so a log whose run is opened between the two is lost: the scan that
   * saw no open run unlinks the file of one that is open now. The history is one of this interface, which
   * lets any id be opened again.
   */
  lemma ReopenedLogIsLost(id: Id)
    ensures exists s :: Reached({Log(id, false)}, s) && LosesOpenLog(s, Log(id, false))
  {
    var log := Log(id, false);
    var s := Initial({log}).(phase := Unlinking(log, []), calls := 1, begun := 1, present := {log});
    UnlinkingIsReached(log);
    ReachedStep({log}, s, Opens(id), OpenTest(s, id));
    assert LosesOpenLog(OpenTest(s, id), log);
  }
}
