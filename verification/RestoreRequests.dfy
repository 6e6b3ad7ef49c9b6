/**
 * Durable restore receipts (src/server/restore-requests.ts): admission, retry, publication by an atomic link,
 * and terminal outcomes, by any number of processes that may crash between two file-system steps. Every
 * rewrite of a receipt is a read and, later, a write.
 */
module RestoreRequests {
  import opened Results

  type Pid = nat
  type OperationId = nat

  /** A receipt is filed under an actor and an idempotency key. */
  datatype Key = Key(actor: nat, idempotencyKey: nat)

  datatype Progress = Requested | Verified | Failed | Interrupted

  datatype Record = Record(id: OperationId, backup: nat, state: Progress)

  const CAPACITY: nat := 1024

  /** What a process has read or prepared and not yet written. */
  datatype Phase =
    | Validating(key: Key, backup: nat)
    | Retrying(key: Key, read: Record)
    | Linking(key: Key, record: Record)
    | Unlinking(key: Key, record: Record)
    | Accepting(key: Key, backup: nat)
    | Finishing(key: Key, read: Record, outcome: Progress)
    | Restoring(key: Key, read: Record)

  datatype Reply = Admitted(key: Key, id: OperationId) | Conflict | Full | Absent

  /** `aliases` are the temporary files: each is named after its operation. */
  datatype State = State(
    receipts: map<Key, Record>, aliases: set<OperationId>, processes: map<Pid, Phase>,
    nextId: OperationId, replies: seq<Reply>)

  predicate Retryable(r: Record) { r.state.Failed? || r.state.Interrupted? }

  /** Reading a receipt completes an interrupted publication of that receipt. */
  function Repair(s: State, key: Key): State {
    if key in s.receipts then s.(aliases := s.aliases - {s.receipts[key].id}) else s
  }

  function Replying(s: State, reply: Reply): State { s.(replies := s.replies + [reply]) }

  function Enter(s: State, p: Pid, phase: Phase): State { s.(processes := s.processes[p := phase]) }

  function Leave(s: State, p: Pid): State { s.(processes := s.processes - {p}) }

  predicate IsFull(s: State) { |s.receipts| + |s.aliases| >= CAPACITY }

  /** The reading half of `prepareRequest`. */
  function Prepare(s: State, p: Pid, key: Key, backup: nat): State {
    var t := Repair(s, key);
    if key !in s.receipts then if IsFull(s) then Replying(s, Full) else Enter(s, p, Validating(key, backup))
    else
      var r := s.receipts[key];
      if r.backup != backup then Replying(t, Conflict)
      else if Retryable(r) then Enter(t, p, Retrying(key, r))
      else Replying(t, Admitted(key, r.id))
  }

  /** Its writing half: a retry is a new operation under the same key. */
  function WriteRetry(s: State, p: Pid, key: Key, read: Record): State {
    var record := read.(id := s.nextId, state := Requested);
    Replying(Leave(s, p), Admitted(key, record.id))
      .(receipts := s.receipts[key := record], nextId := s.nextId + 1)
  }

  /** After validation: someone else's receipt is returned as it is, or a temporary file is written. */
  function Publish(s: State, p: Pid, key: Key, backup: nat): State {
    if key in s.receipts then Accept(s, p, key, backup)
    else if IsFull(s) then Replying(Leave(s, p), Full)
    else
      Enter(s, p, Linking(key, Record(s.nextId, backup, Requested)))
        .(aliases := s.aliases + {s.nextId}, nextId := s.nextId + 1)
  }

  function Link(s: State, p: Pid, key: Key, record: Record): State {
    Enter(s, p, Unlinking(key, record))
      .(receipts := if key in s.receipts then s.receipts else s.receipts[key := record])
  }

  function Unlink(s: State, p: Pid, key: Key, record: Record): State {
    Enter(s, p, Accepting(key, record.backup)).(aliases := s.aliases - {record.id})
  }

  function Accept(s: State, p: Pid, key: Key, backup: nat): State {
    var t := Leave(Repair(s, key), p);
    if key !in s.receipts then Replying(t, Absent)
    else if s.receipts[key].backup != backup then Replying(t, Conflict)
    else Replying(t, Admitted(key, s.receipts[key].id))
  }

  /** The reading half of `finishControllerRestoreRequest`. */
  function Finish(s: State, p: Pid, key: Key, backup: nat, id: OperationId, outcome: Progress): State {
    if key !in s.receipts then s
    else
      var r, t := s.receipts[key], Repair(s, key);
      if r.backup != backup || r.id != id || r.state.Verified? || r.state == outcome then t
      else Enter(t, p, Finishing(key, r, outcome))
  }

  /** The reading half of `executeControllerRestoreRequest`; a restore that throws writes nothing. */
  function Execute(s: State, p: Pid, key: Key, backup: nat): State {
    if key !in s.receipts then s
    else
      var r, t := s.receipts[key], Repair(s, key);
      if r.backup != backup || r.state.Verified? then t else Enter(t, p, Restoring(key, r))
  }

  function Write(s: State, p: Pid, key: Key, record: Record): State {
    Leave(s, p).(receipts := s.receipts[key := record])
  }

  datatype Event =
    | Prepares(p: Pid, key: Key, backup: nat)
    | Publishes(p: Pid)
    | Finishes(p: Pid, key: Key, backup: nat, id: OperationId, outcome: Progress)
    | Executes(p: Pid, key: Key, backup: nat)
    | Continues(p: Pid)
    | Crashes(p: Pid)

  ghost predicate Enabled(s: State, e: Event) {
    match e
    case Prepares(p, _, _) => p !in s.processes
    case Publishes(p) => p in s.processes && s.processes[p].Validating?
    case Finishes(p, _, _, _, outcome) => p !in s.processes && (outcome.Failed? || outcome.Interrupted?)
    case Executes(p, _, _) => p !in s.processes
    case Continues(p) => p in s.processes && !s.processes[p].Validating?
    case Crashes(p) => p in s.processes
  }

  /** The next step of a process that has something to write, or to look up. */
  function Continue(s: State, p: Pid): State
    requires p in s.processes
  {
    match s.processes[p]
    case Validating(_, _) => s
    case Retrying(key, read) => WriteRetry(s, p, key, read)
    case Linking(key, record) => Link(s, p, key, record)
    case Unlinking(key, record) => Unlink(s, p, key, record)
    case Accepting(key, backup) => Accept(s, p, key, backup)
    case Finishing(key, read, outcome) => Write(s, p, key, read.(state := outcome))
    case Restoring(key, read) => Write(s, p, key, read.(state := Verified))
  }

  function Next(s: State, e: Event): State {
    match e
    case Prepares(p, key, backup) => Prepare(s, p, key, backup)
    case Publishes(p) =>
      if p in s.processes && s.processes[p].Validating?
      then Publish(s, p, s.processes[p].key, s.processes[p].backup) else s
    case Finishes(p, key, backup, id, outcome) => Finish(s, p, key, backup, id, outcome)
    case Executes(p, key, backup) => Execute(s, p, key, backup)
    case Continues(p) => if p in s.processes then Continue(s, p) else s
    case Crashes(p) => Leave(s, p)
  }

  const INITIAL := State(map[], {}, map[], 0, [])

  // ---- what every step keeps ----

  /** Identifiers are never reused, and what a process holds was once in the receipt or is its own. */
  ghost predicate Inv(s: State) {
    && Unused(s)
    && (forall p :: p in s.processes ==> Held(s, s.processes[p]))
  }

  ghost predicate Held(s: State, phase: Phase) {
    match phase
    case Validating(_, _) => true
    case Retrying(key, read) => Known(s, key, read) && Retryable(read)
    case Linking(key, record) => record.id < s.nextId && record.state.Requested?
    case Unlinking(key, record) => key in s.receipts
    case Accepting(key, _) => key in s.receipts
    case Finishing(key, read, outcome) =>
      Known(s, key, read) && !read.state.Verified? && read.state != outcome && (outcome.Failed? || outcome.Interrupted?)
    case Restoring(key, read) => Known(s, key, read) && !read.state.Verified?
  }

  /** A record once read: the receipt is still for the same backup. */
  ghost predicate Known(s: State, key: Key, read: Record) {
    key in s.receipts && s.receipts[key].backup == read.backup && read.id < s.nextId
  }

  /** A receipt is never removed, never becomes one for another backup, and identifiers only grow. */
  ghost predicate Kept(s: State, t: State) {
    && s.nextId <= t.nextId
    && forall k :: k in s.receipts ==> k in t.receipts && t.receipts[k].backup == s.receipts[k].backup
  }

  lemma ReceiptsStay(s: State, e: Event)
    requires Inv(s) && Enabled(s, e)
    ensures Kept(s, Next(s, e))
  {
    if e.Continues? {
      assert Held(s, s.processes[e.p]);
    }
  }

  lemma HeldStays(s: State, t: State, phase: Phase)
    requires Kept(s, t) && Held(s, phase)
    ensures Held(t, phase)
  {
  }

  /** Only the process that takes the step changes its phase. */
  lemma OthersStay(s: State, e: Event, q: Pid)
    requires Enabled(s, e) && q != e.p
    ensures q in Next(s, e).processes <==> q in s.processes
    ensures q in s.processes ==> Next(s, e).processes[q] == s.processes[q]
  {
    if e.Continues? {
      OthersStayWhenContinued(s, e.p, q);
    }
  }

  lemma OthersStayWhenContinued(s: State, p: Pid, q: Pid)
    requires p in s.processes && q != p
    ensures q in Continue(s, p).processes <==> q in s.processes
    ensures q in s.processes ==> Continue(s, p).processes[q] == s.processes[q]
  {
  }

  lemma NewPhaseHeld(s: State, e: Event)
    requires Inv(s) && Enabled(s, e)
    ensures e.p in Next(s, e).processes ==> Held(Next(s, e), Next(s, e).processes[e.p])
  {
    if e.Continues? {
      assert Held(s, s.processes[e.p]);
    }
  }

  ghost predicate Unused(s: State) {
    && (forall k :: k in s.receipts ==> s.receipts[k].id < s.nextId)
    && (forall i :: i in s.aliases ==> i < s.nextId)
  }

  lemma ContinueStaysUnused(s: State, p: Pid)
    requires Unused(s) && p in s.processes && Held(s, s.processes[p])
    ensures Unused(Continue(s, p))
  {
  }

  lemma IdsStayUnused(s: State, e: Event)
    requires Inv(s) && Enabled(s, e)
    ensures Unused(Next(s, e))
  {
    if e.Continues? {
      ContinueStaysUnused(s, e.p);
    }
  }

  lemma StepKeeps(s: State, e: Event)
    requires Inv(s) && Enabled(s, e)
    ensures Inv(Next(s, e))
  {
    ReceiptsStay(s, e);
    IdsStayUnused(s, e);
    NewPhaseHeld(s, e);
    StepHolds(s, Next(s, e), e);
  }

  lemma StepHolds(s: State, t: State, e: Event)
    requires Inv(s) && Enabled(s, e) && t == Next(s, e) && Kept(s, t)
    requires e.p in t.processes ==> Held(t, t.processes[e.p])
    ensures forall q :: q in t.processes ==> Held(t, t.processes[q])
  {
    forall q | q in t.processes ensures Held(t, t.processes[q]) {
      if q != e.p {
        OthersStay(s, e, q);
        HeldStays(s, t, s.processes[q]);
      }
    }
  }

  // ---- one operation at a time ----

  /** How a receipt may change: a new operation only after a failure, and nothing after verification. */
  ghost predicate Legal(now: Record, next: Record) {
    && now.backup == next.backup
    && if next.id == now.id then (now.state.Verified? ==> next.state.Verified?)
                                 && (next.state.Requested? ==> now.state.Requested?)
       else (now.state.Failed? || now.state.Interrupted?) && next.state.Requested? && now.id < next.id
  }

  /** The receipt a process is about to rewrite still allows the change it read the receipt for. */
  ghost predicate Timely(s: State, p: Pid) {
    p in s.processes ==>
      match s.processes[p]
      case Retrying(key, read) => key in s.receipts && Retryable(s.receipts[key])
      case Finishing(key, read, outcome) =>
        key in s.receipts && s.receipts[key].id == read.id && !s.receipts[key].state.Verified?
      case Restoring(key, read) => key in s.receipts && s.receipts[key].id == read.id
      case _ => true
  }

  ghost predicate AllLegal(s: State, t: State) {
    forall k :: k in s.receipts ==> k in t.receipts && Legal(s.receipts[k], t.receipts[k])
  }

  /** Only a step that writes changes a receipt. */
  lemma OthersOnlyRead(s: State, e: Event)
    requires Enabled(s, e) && !e.Continues?
    ensures Next(s, e).receipts == s.receipts
  {
  }

  /** A step changes receipts legally exactly when it is no belated rewrite. */
  lemma LegalExactly(s: State, e: Event)
    requires Inv(s) && Enabled(s, e)
    ensures AllLegal(s, Next(s, e)) <==> (e.Continues? ==> Timely(s, e.p))
  {
    if e.Continues? {
      LegalWriteExactly(s, e.p, s.processes[e.p], Continue(s, e.p));
    } else {
      OthersOnlyRead(s, e);
    }
  }

  lemma LegalWriteExactly(s: State, p: Pid, phase: Phase, t: State)
    requires Inv(s) && p in s.processes && s.processes[p] == phase && !phase.Validating? && t == Continue(s, p)
    ensures AllLegal(s, t) <==> Timely(s, p)
  {
    assert Held(s, phase);
    if phase.Retrying? || phase.Finishing? || phase.Restoring? {
      assert phase.key in s.receipts;
      assert Legal(s.receipts[phase.key], t.receipts[phase.key]) <==> Timely(s, p);
    }
  }

  // ---- histories ----

  ghost predicate Runs(s: State, events: seq<Event>)
    decreases |events|
  {
    events == [] || (Enabled(s, events[0]) && Runs(Next(s, events[0]), events[1..]))
  }

  function After(s: State, events: seq<Event>): State
    decreases |events|
  {
    if events == [] then s else After(Next(s, events[0]), events[1..])
  }

  /** No rewrite of the history comes too late. */
  ghost predicate AllTimely(s: State, events: seq<Event>)
    decreases |events|
  {
    events == [] || ((events[0].Continues? ==> Timely(s, events[0].p)) && AllTimely(Next(s, events[0]), events[1..]))
  }

  ghost predicate Stands(s: State, key: Key) {
    key in s.receipts && !s.receipts[key].state.Failed? && !s.receipts[key].state.Interrupted?
  }

  /** The receipt exists and is neither failed nor interrupted at any moment, from the first to the last. */
  ghost predicate KeepsStanding(s: State, events: seq<Event>, key: Key)
    decreases |events|
  {
    Stands(s, key) && (events == [] || KeepsStanding(Next(s, events[0]), events[1..], key))
  }

  lemma {:induction false} HistoriesKeep(s: State, events: seq<Event>)
    requires Inv(s) && Runs(s, events)
    ensures Inv(After(s, events))
    decreases |events|
  {
    if events != [] {
      StepKeeps(s, events[0]);
      HistoriesKeep(Next(s, events[0]), events[1..]);
    }
  }

  lemma StandingStepKeepsId(s: State, e: Event, key: Key)
    requires Inv(s) && Enabled(s, e) && (e.Continues? ==> Timely(s, e.p)) && Stands(s, key)
    ensures key in Next(s, e).receipts && Next(s, e).receipts[key].id == s.receipts[key].id
  {
    LegalExactly(s, e);
    assert Legal(s.receipts[key], Next(s, e).receipts[key]);
  }

  lemma {:induction false} StandingKeepsId(s: State, events: seq<Event>, key: Key)
    requires Inv(s) && Runs(s, events) && AllTimely(s, events) && KeepsStanding(s, events, key)
    ensures Stands(After(s, events), key) && After(s, events).receipts[key].id == s.receipts[key].id
    decreases |events|
  {
    if events != [] {
      StandingStepKeepsId(s, events[0], key);
      StepKeeps(s, events[0]);
      StandingKeepsId(Next(s, events[0]), events[1..], key);
    }
  }

  /** The step answers some request with the operation `id` under `key`. */
  ghost predicate Admits(s: State, e: Event, key: Key, id: OperationId) {
    Next(s, e).replies == s.replies + [Admitted(key, id)]
  }

  lemma AdmittedIsStored(s: State, e: Event, key: Key, id: OperationId)
    requires Inv(s) && Enabled(s, e) && Admits(s, e, key, id)
    ensures key in Next(s, e).receipts && Next(s, e).receipts[key].id == id
  {
    var t := Next(s, e);
    assert t.replies[|s.replies|] == Admitted(key, id);
    if e.Continues? {
      assert Held(s, s.processes[e.p]);
    }
  }

  /**
   * Two admissions under one key name the same operation if the receipt was at no moment between them failed
   * or interrupted: however many processes raced to publish, and whichever crashed around the link.
   */
  lemma AdmissionsAgree(s: State, e: Event, events: seq<Event>, f: Event, key: Key, first: OperationId, second: OperationId)
    requires Inv(s) && Enabled(s, e) && Admits(s, e, key, first)
    requires var t := Next(s, e); Runs(t, events) && AllTimely(t, events) && KeepsStanding(t, events, key)
    requires var u := After(Next(s, e), events);
             Enabled(u, f) && (f.Continues? ==> Timely(u, f.p)) && Admits(u, f, key, second)
    ensures first == second
  {
    var t := Next(s, e);
    var u := After(t, events);
    StepKeeps(s, e);
    AdmittedIsStored(s, e, key, first);
    StandingKeepsId(t, events, key);
    HistoriesKeep(t, events);
    StandingStepKeepsId(u, f, key);
    AdmittedIsStored(u, f, key, second);
  }

  /** Verification is final. */
  lemma {:induction false} VerifiedStays(s: State, events: seq<Event>, key: Key)
    requires Inv(s) && Runs(s, events) && AllTimely(s, events)
    requires key in s.receipts && s.receipts[key].state.Verified?
    ensures key in After(s, events).receipts && After(s, events).receipts[key] == s.receipts[key]
    decreases |events|
  {
    if events != [] {
      LegalExactly(s, events[0]);
      assert Legal(s.receipts[key], Next(s, events[0]).receipts[key]);
      StepKeeps(s, events[0]);
      VerifiedStays(Next(s, events[0]), events[1..], key);
    }
  }

  /** An outcome reported for an operation that was superseded, or verified, changes no receipt, now or later. */
  lemma LateFinishChangesNothing(s: State, p: Pid, key: Key, backup: nat, id: OperationId, outcome: Progress)
    requires key in s.receipts && (s.receipts[key].id != id || s.receipts[key].state.Verified?)
    ensures var t := Next(s, Finishes(p, key, backup, id, outcome));
            t.receipts == s.receipts && t.processes == s.processes
  {
  }

  /** A key stands for one backup: a request for another one is refused at whatever step it looks. */
  lemma OtherBackupIsRefused(s: State, p: Pid, key: Key, backup: nat)
    requires key in s.receipts && s.receipts[key].backup != backup
    ensures var t := Prepare(s, p, key, backup);
            t.replies == s.replies + [Conflict] && t.receipts == s.receipts && t.processes == s.processes
    ensures var t := Publish(s, p, key, backup);
            t.replies == s.replies + [Conflict] && t.receipts == s.receipts
    ensures var t := Accept(s, p, key, backup);
            t.replies == s.replies + [Conflict] && t.receipts == s.receipts
  {
  }

  lemma {:induction false} BackupsStay(s: State, events: seq<Event>, key: Key)
    requires Inv(s) && Runs(s, events) && key in s.receipts
    ensures key in After(s, events).receipts && After(s, events).receipts[key].backup == s.receipts[key].backup
    decreases |events|
  {
    if events != [] {
      StepKeeps(s, events[0]);
      ReceiptsStay(s, events[0]);
      BackupsStay(Next(s, events[0]), events[1..], key);
    }
  }

  /** Once there is a receipt, its key stands for one backup for good: a request for another is refused ever after. */
  lemma KeyStandsForOneBackup(s: State, events: seq<Event>, p: Pid, key: Key, backup: nat)
    requires Inv(s) && Runs(s, events) && key in s.receipts && s.receipts[key].backup != backup
    ensures var u := After(s, events);
            var t := Next(u, Prepares(p, key, backup));
            t.replies == u.replies + [Conflict] && t.receipts == u.receipts && t.processes == u.processes
  {
    BackupsStay(s, events, key);
    OtherBackupIsRefused(After(s, events), p, key, backup);
  }

  /** A rewrite right after its own read is timely. */
  lemma OwnReadIsTimely(s: State, e: Event)
    requires Inv(s) && Enabled(s, e) && (e.Prepares? || e.Finishes? || e.Executes?)
    ensures Timely(Next(s, e), e.p)
  {
  }

  // ---- one process ----

  /** The process has read a receipt and is about to rewrite it. */
  predicate Rewriting(s: State, p: Pid) {
    p in s.processes && (s.processes[p].Retrying? || s.processes[p].Finishing? || s.processes[p].Restoring?)
  }

  predicate OwnStep(e: Event, p: Pid) { e == Continues(p) || e == Crashes(p) }

  /** Each read that leads to a rewrite is directly followed by that rewrite, or by a crash, as within one process. */
  ghost predicate Prompt(s: State, events: seq<Event>)
    decreases |events|
  {
    events == []
    || ((forall p :: Rewriting(s, p) ==> OwnStep(events[0], p)) && Prompt(Next(s, events[0]), events[1..]))
  }

  ghost predicate PendingTimely(s: State) {
    forall p :: Rewriting(s, p) ==> Timely(s, p)
  }

  lemma PromptStepKeeps(s: State, e: Event)
    requires Inv(s) && PendingTimely(s) && Enabled(s, e) && forall p :: Rewriting(s, p) ==> OwnStep(e, p)
    ensures PendingTimely(Next(s, e))
  {
    var t := Next(s, e);
    forall q | Rewriting(t, q) ensures Timely(t, q) {
      OnlyOwnRewrite(s, e, q);
      NewRewriteIsRead(s, e);
      OwnReadIsTimely(s, e);
    }
  }

  lemma OnlyOwnRewrite(s: State, e: Event, q: Pid)
    requires Enabled(s, e) && Rewriting(Next(s, e), q) && forall p :: Rewriting(s, p) ==> OwnStep(e, p)
    ensures q == e.p
  {
    if q != e.p {
      OthersKeepRewriting(s, e, q);
    }
  }

  lemma OthersKeepRewriting(s: State, e: Event, q: Pid)
    requires Enabled(s, e) && q != e.p
    ensures Rewriting(Next(s, e), q) <==> Rewriting(s, q)
  {
    OthersStay(s, e, q);
  }

  /** Only a read leaves a rewrite to be done. */
  lemma NewRewriteIsRead(s: State, e: Event)
    requires Inv(s) && Enabled(s, e) && Rewriting(Next(s, e), e.p)
    ensures e.Prepares? || e.Finishes? || e.Executes?
  {
  }

  lemma {:induction false} PromptIsTimely(s: State, events: seq<Event>)
    requires Inv(s) && PendingTimely(s) && Runs(s, events) && Prompt(s, events)
    ensures AllTimely(s, events) && PendingTimely(After(s, events)) && Inv(After(s, events))
    decreases |events|
  {
    if events != [] {
      var e := events[0];
      PromptStepKeeps(s, e);
      StepKeeps(s, e);
      if e.Continues? {
        TimelyUnlessRewriting(s, e.p);
      }
      PromptIsTimely(Next(s, e), events[1..]);
    }
  }

  lemma TimelyUnlessRewriting(s: State, p: Pid)
    requires PendingTimely(s)
    ensures Timely(s, p)
  {
    if !Rewriting(s, p) {
      assert p in s.processes ==> !s.processes[p].Retrying? && !s.processes[p].Finishing? && !s.processes[p].Restoring?;
    }
  }

  /** Between the calls of one process: nothing has been read that is yet to be rewritten. */
  ghost predicate Calm(s: State) { Inv(s) && forall p :: !Rewriting(s, p) }

  /** A call in one process: its reading step and, directly after it, the rewrite it read for. */
  function Settled(s: State, e: Event): State {
    if Rewriting(Next(s, e), e.p) then Next(Next(s, e), Continues(e.p)) else Next(s, e)
  }

  lemma CallStaysCalm(s: State, e: Event)
    requires Calm(s) && Enabled(s, e)
    ensures Calm(Settled(s, e))
  {
    var t := Next(s, e);
    StepKeeps(s, e);
    if Rewriting(t, e.p) {
      StepKeeps(t, Continues(e.p));
      RewriteLeaves(t, e.p);
      forall q | q != e.p ensures !Rewriting(Next(t, Continues(e.p)), q) {
        OthersKeepRewriting(s, e, q);
        OthersKeepRewriting(t, Continues(e.p), q);
      }
    } else {
      forall q | q != e.p ensures !Rewriting(t, q) {
        OthersKeepRewriting(s, e, q);
      }
    }
  }

  lemma RewriteLeaves(s: State, p: Pid)
    requires Rewriting(s, p)
    ensures !Rewriting(Next(s, Continues(p)), p)
  {
  }

  /**
   * What the caller is told: another backup under the key is refused, a failed or interrupted receipt gets a
   * new operation, any other its own, and without one validation begins if the directory has room.
   */
  ghost predicate PreparedAs(s: State, t: State, p: Pid, key: Key, backup: nat) {
    if key !in s.receipts then
      && t.receipts == s.receipts
      && if |s.receipts| + |s.aliases| >= 1024 then t.replies == s.replies + [Full] && t.processes == s.processes
         else t.replies == s.replies && t.processes == s.processes[p := Validating(key, backup)]
    else if s.receipts[key].backup != backup then
      t.receipts == s.receipts && t.replies == s.replies + [Conflict] && t.processes == s.processes
    else if s.receipts[key].state.Failed? || s.receipts[key].state.Interrupted? then
      && t.receipts == s.receipts[key := Record(s.nextId, backup, Requested)]
      && s.receipts[key].id < s.nextId && t.replies == s.replies + [Admitted(key, s.nextId)]
      && t.processes == s.processes
    else
      && t.receipts == s.receipts && t.replies == s.replies + [Admitted(key, s.receipts[key].id)]
      && t.processes == s.processes
  }

  lemma PrepareMeans(s: State, p: Pid, key: Key, backup: nat)
    requires Calm(s) && p !in s.processes
    ensures PreparedAs(s, Settled(s, Prepares(p, key, backup)), p, key, backup)
  {
    assert s.processes - {p} == s.processes;
    if key in s.receipts {
      var read := s.receipts[key];
      assert s.processes[p := Retrying(key, read)] - {p} == s.processes;
    }
  }

  /** A restore that throws leaves the receipt as it was read. */
  lemma ThrownCallStaysCalm(s: State, e: Event)
    requires Calm(s) && Enabled(s, e) && e.p in Next(s, e).processes
    ensures Calm(Next(Next(s, e), Crashes(e.p)))
  {
    var t := Next(s, e);
    StepKeeps(s, e);
    StepKeeps(t, Crashes(e.p));
    forall q | q != e.p ensures !Rewriting(Next(t, Crashes(e.p)), q) {
      OthersKeepRewriting(s, e, q);
      OthersKeepRewriting(t, Crashes(e.p), q);
    }
  }

  /** A history of one process, from an empty directory. */
  ghost predicate OneProcess(events: seq<Event>) { Runs(INITIAL, events) && Prompt(INITIAL, events) }

  lemma {:induction false} HistorySplits(s: State, events: seq<Event>, rest: seq<Event>)
    requires Runs(s, events + rest) && Prompt(s, events + rest)
    ensures Runs(s, events) && Prompt(s, events)
    ensures Runs(After(s, events), rest) && Prompt(After(s, events), rest)
    ensures After(s, events + rest) == After(After(s, events), rest)
    decreases |events|
  {
    if events == [] {
      assert events + rest == rest;
    } else {
      assert (events + rest)[1..] == events[1..] + rest && (events + rest)[0] == events[0];
      HistorySplits(Next(s, events[0]), events[1..], rest);
    }
  }

  lemma OneProcessKeeps(events: seq<Event>)
    requires OneProcess(events)
    ensures Inv(After(INITIAL, events)) && PendingTimely(After(INITIAL, events))
  {
    PromptIsTimely(INITIAL, events);
  }

  /**
   * In one process, admissions under one key agree however its calls interleave and wherever it crashes: as
   * long as the receipt is not failed or interrupted, all name one operation.
   */
  lemma OneProcessAdmissionsAgree(before: seq<Event>, e: Event, events: seq<Event>, f: Event, key: Key,
                                  first: OperationId, second: OperationId)
    requires OneProcess(before + ([e] + (events + [f])))
    requires var s := After(INITIAL, before);
             && Admits(s, e, key, first) && KeepsStanding(Next(s, e), events, key)
             && Admits(After(Next(s, e), events), f, key, second)
    ensures first == second
  {
    var s := After(INITIAL, before);
    HistorySplits(INITIAL, before, [e] + (events + [f]));
    OneProcessKeeps(before);
    assert ([e] + (events + [f]))[1..] == events + [f];
    PromptStepKeeps(s, e);
    StepKeeps(s, e);
    HistorySplits(Next(s, e), events, [f]);
    PromptIsTimely(Next(s, e), events);
    TimelyUnlessRewriting(After(Next(s, e), events), f.p);
    AdmissionsAgree(s, e, events, f, key, first, second);
  }

  /** In one process, verification is final. */
  lemma OneProcessVerifiedStays(before: seq<Event>, events: seq<Event>, key: Key)
    requires OneProcess(before + events)
    requires var s := After(INITIAL, before); key in s.receipts && s.receipts[key].state.Verified?
    ensures key in After(INITIAL, before + events).receipts
    ensures After(INITIAL, before + events).receipts[key] == After(INITIAL, before).receipts[key]
  {
    HistorySplits(INITIAL, before, events);
    OneProcessKeeps(before);
    PromptIsTimely(After(INITIAL, before), events);
    VerifiedStays(After(INITIAL, before), events, key);
  }

  // ---- two processes that retry at once ----

  lemma {:induction false} RunsExtend(s: State, events: seq<Event>, e: Event)
    requires Runs(s, events) && Enabled(After(s, events), e)
    ensures Runs(s, events + [e]) && After(s, events + [e]) == Next(After(s, events), e)
    decreases |events|
  {
    if events == [] {
      assert [e][1..] == [];
    } else {
      assert (events + [e])[1..] == events[1..] + [e];
      RunsExtend(Next(s, events[0]), events[1..], e);
    }
  }

  ghost predicate Reached(s: State) {
    exists events :: Runs(INITIAL, events) && After(INITIAL, events) == s
  }

  lemma ReachedStep(s: State, e: Event)
    requires Reached(s) && Enabled(s, e)
    ensures Reached(Next(s, e))
  {
    var events :| Runs(INITIAL, events) && After(INITIAL, events) == s;
    RunsExtend(INITIAL, events, e);
  }

  /** The receipt is created and its operation answered, with no trace of the temporary file. */
  function Published(s: State, p: Pid, key: Key, backup: nat): State {
    var record := Record(s.nextId, backup, Requested);
    Replying(Leave(s, p), Admitted(key, s.nextId)).(receipts := s.receipts[key := record], nextId := s.nextId + 1)
  }

  lemma PublishedStaysCalm(s: State, p: Pid, key: Key, backup: nat)
    requires Calm(s) && key !in s.receipts
    ensures Calm(Published(s, p, key, backup))
  {
    var t := Published(s, p, key, backup);
    forall q | q in t.processes ensures Held(t, t.processes[q]) && !Rewriting(t, q) {
      assert !Rewriting(s, q);
      HeldStays(s, t, s.processes[q]);
    }
    forall q ensures !Rewriting(t, q) {
      assert Rewriting(t, q) ==> Rewriting(s, q);
    }
  }

  /** The state of a publication that nobody disturbs, in front of each of its later steps. */
  function During(s: State, p: Pid, phase: Phase, receipts: map<Key, Record>, aliases: set<OperationId>): State {
    State(receipts, aliases, s.processes[p := phase], s.nextId + 1, s.replies)
  }

  lemma AloneItLinks(s: State, p: Pid, key: Key, backup: nat)
    requires key !in s.receipts && !IsFull(s) && s.nextId !in s.aliases
    ensures var record := Record(s.nextId, backup, Requested);
            && Publish(s, p, key, backup)
               == During(s, p, Linking(key, record), s.receipts, s.aliases + {s.nextId})
            && Link(Publish(s, p, key, backup), p, key, record)
               == During(s, p, Unlinking(key, record), s.receipts[key := record], s.aliases + {s.nextId})
  {
    var record := Record(s.nextId, backup, Requested);
    assert s.processes[p := Linking(key, record)][p := Unlinking(key, record)]
        == s.processes[p := Unlinking(key, record)];
  }

  lemma AloneItAccepts(s: State, p: Pid, key: Key, backup: nat)
    requires s.nextId !in s.aliases
    ensures var record := Record(s.nextId, backup, Requested);
            var receipts := s.receipts[key := record];
            && Unlink(During(s, p, Unlinking(key, record), receipts, s.aliases + {s.nextId}), p, key, record)
               == During(s, p, Accepting(key, backup), receipts, s.aliases)
            && Accept(During(s, p, Accepting(key, backup), receipts, s.aliases), p, key, backup)
               == Published(s, p, key, backup)
  {
    var record := Record(s.nextId, backup, Requested);
    assert s.processes[p := Unlinking(key, record)][p := Accepting(key, backup)]
        == s.processes[p := Accepting(key, backup)];
    assert s.processes[p := Accepting(key, backup)] - {p} == s.processes - {p};
    assert s.aliases + {s.nextId} - {s.nextId} == s.aliases && s.aliases - {s.nextId} == s.aliases;
  }

  lemma LinkedIsReached(s: State, p: Pid, key: Key, backup: nat)
    requires Reached(s) && p in s.processes && s.processes[p] == Validating(key, backup)
    requires key !in s.receipts && !IsFull(s) && s.nextId !in s.aliases
    ensures var record := Record(s.nextId, backup, Requested);
            Reached(During(s, p, Unlinking(key, record), s.receipts[key := record], s.aliases + {s.nextId}))
  {
    AloneItLinks(s, p, key, backup);
    ReachedStep(s, Publishes(p));
    ReachedStep(Publish(s, p, key, backup), Continues(p));
  }

  lemma ContinuedTo(s: State, p: Pid, t: State)
    requires Reached(s) && p in s.processes && !s.processes[p].Validating? && t == Continue(s, p)
    ensures Reached(t)
  {
    ReachedStep(s, Continues(p));
  }

  lemma AcceptedIsReached(s: State, p: Pid, key: Key, backup: nat)
    requires s.nextId !in s.aliases
    requires var record := Record(s.nextId, backup, Requested);
             Reached(During(s, p, Unlinking(key, record), s.receipts[key := record], s.aliases + {s.nextId}))
    ensures Reached(Published(s, p, key, backup))
  {
    var record := Record(s.nextId, backup, Requested);
    var receipts := s.receipts[key := record];
    var linked := During(s, p, Unlinking(key, record), receipts, s.aliases + {s.nextId});
    var unlinked := During(s, p, Accepting(key, backup), receipts, s.aliases);
    AloneItAccepts(s, p, key, backup);
    ContinuedTo(linked, p, unlinked);
    ContinuedTo(unlinked, p, Published(s, p, key, backup));
  }

  lemma FailedReceiptIsReached(key: Key, backup: nat)
    ensures Reached(State(map[key := Record(0, backup, Failed)], {}, map[], 1, [Admitted(key, 0)]))
  {
    var record := Record(0, backup, Requested);
    assert Runs(INITIAL, []) && After(INITIAL, []) == INITIAL;
    ReachedStep(INITIAL, Prepares(0, key, backup));
    var s := State(map[], {}, map[0 := Validating(key, backup)], 0, []);
    LinkedIsReached(s, 0, key, backup);
    AcceptedIsReached(s, 0, key, backup);
    var t := State(map[key := record], {}, map[], 1, [Admitted(key, 0)]);
    assert Leave(s, 0).processes == map[];
    FinishIsReached(t, key, record);
  }

  lemma FinishIsReached(s: State, key: Key, record: Record)
    requires Reached(s) && s.processes == map[] && s.receipts == map[key := record] && record.state.Requested?
    requires record.id !in s.aliases
    ensures Reached(s.(receipts := map[key := record.(state := Failed)]))
  {
    var e := Finishes(0, key, record.backup, record.id, Failed);
    ReachedStep(s, e);
    ReachedStep(Next(s, e), Continues(0));
    assert s.aliases - {record.id} == s.aliases;
    assert Next(Next(s, e), Continues(0)) == s.(receipts := map[key := record.(state := Failed)]);
  }

  lemma RetryIsRead(s: State, p: Pid, key: Key)
    requires Reached(s) && p !in s.processes && key in s.receipts && Retryable(s.receipts[key]) && s.aliases == {}
    ensures Reached(Enter(s, p, Retrying(key, s.receipts[key])))
  {
    ReachedStep(s, Prepares(p, key, s.receipts[key].backup));
    assert s.aliases - {s.receipts[key].id} == s.aliases;
  }

  /**
   * Both read the failed receipt before either writes: their requests are answered with different operations
   * although nothing failed in between. The second write is the one that is not timely.
   */
  lemma ConcurrentRetriesDisagree(key: Key, backup: nat)
    ensures exists s, p ::
      && Reached(s) && Enabled(s, Continues(p)) && Stands(s, key) && !Timely(s, p)
      && s.replies == [Admitted(key, 0), Admitted(key, 1)] && Admits(s, Continues(p), key, 2)
  {
    FailedReceiptIsReached(key, backup);
    var read := Record(0, backup, Failed);
    var s := State(map[key := read], {}, map[], 1, [Admitted(key, 0)]);
    RetryIsRead(s, 1, key);
    RetryIsRead(Enter(s, 1, Retrying(key, read)), 2, key);
    var both := Enter(Enter(s, 1, Retrying(key, read)), 2, Retrying(key, read));
    ReachedStep(both, Continues(1));
    SecondRetryDisagrees(key, read, both);
  }

  lemma SecondRetryDisagrees(key: Key, read: Record, both: State)
    requires both.nextId == 1 && both.replies == [Admitted(key, 0)]
    requires 2 in both.processes && both.processes[2] == Retrying(key, read)
    ensures var s := WriteRetry(both, 1, key, read);
            && Enabled(s, Continues(2)) && Stands(s, key) && !Timely(s, 2)
            && s.replies == [Admitted(key, 0), Admitted(key, 1)] && Admits(s, Continues(2), key, 2)
  {
    assert [Admitted(key, 0)] + [Admitted(key, 1)] == [Admitted(key, 0), Admitted(key, 1)];
  }
}
