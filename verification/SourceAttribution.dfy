/** Source evidence of a verification run (src/server/test-source-attribution.ts). */
module SourceAttribution {
  import opened Results
  import opened OrderedSets

  /** The fixed reason codes; any other code an observation reports is carried as it is. */
  datatype Reason =
    | DirtySource | EvidenceIncomplete | ChangedBeforeStart | ChangedDuringExecution
    | PreflightFailed | FinishFailed | LegacyUnavailable
    | Reported(code: string)

  datatype Observation = Observation(
    head: Option<string>, branch: Option<string>, dirty: Option<bool>,
    statusDigest: Option<string>, complete: bool, errorCode: Option<Reason>)

  datatype Comparison = Match | Changed | Unknown

  datatype Attribution = Pending | ObservedMatch | SourceChanged | Uncertain | LegacyUnknown

  datatype ProcessOutcome = OutcomePassed | OutcomeFailed | OutcomeCancelled | OutcomeTimedOut

  datatype Evidence = Evidence(
    enqueue: Option<Observation>, preflight: Option<Observation>, finish: Option<Observation>,
    queueComparison: Comparison, executionComparison: Comparison, attribution: Attribution,
    reasonCodes: seq<Reason>, processOutcome: Option<ProcessOutcome>)

  const MAX_REASON_CODES := 12

  function FirstCodes(codes: seq<Reason>): seq<Reason> {
    if |codes| <= MAX_REASON_CODES then codes else codes[..MAX_REASON_CODES]
  }

  // ---- comparing two observations ----

  predicate Differ<T(==)>(left: Option<T>, right: Option<T>) {
    left.Some? && right.Some? && left != right
  }

  predicate Conflict(left: Observation, right: Observation) {
    || Differ(left.head, right.head)
    || Differ(left.branch, right.branch)
    || Differ(left.statusDigest, right.statusDigest)
    || Differ(left.dirty, right.dirty)
  }

  function CompareSource(left: Option<Observation>, right: Option<Observation>): Comparison {
    if left.None? || right.None? then Unknown
    else if Conflict(left.value, right.value) then Changed
    else if left.value.complete && right.value.complete then Match
    else Unknown
  }

  // ---- reason codes ----

  function CodesOf(o: Option<Observation>): seq<Reason> {
    if o.None? then []
    else
      (if o.value.dirty == Some(true) then [DirtySource] else [])
      + (if o.value.complete then []
         else [if o.value.errorCode.Some? then o.value.errorCode.value else EvidenceIncomplete])
  }

  function Collect(values: seq<Reason>, observations: seq<Option<Observation>>): seq<Reason>
    decreases |observations|
  {
    if observations == [] then values
    else Collect(AddAll(values, CodesOf(observations[0])), observations[1..])
  }

  function ObservationReasons(observations: seq<Option<Observation>>): seq<Reason> {
    FirstCodes(Collect([], observations))
  }

  /** The loop of the original: one local set, filled observation by observation. */
  method CollectObservationReasons(observations: seq<Option<Observation>>) returns (codes: seq<Reason>)
    ensures codes == ObservationReasons(observations)
  {
    var values: seq<Reason> := [];
    for i := 0 to |observations|
      invariant Collect(values, observations[i..]) == Collect([], observations)
    {
      assert observations[i..][1..] == observations[i + 1..];
      var o := observations[i];
      ghost var before := values;
      if o.Some? {
        if o.value.dirty == Some(true) {
          values := Add(values, DirtySource);
        }
        if !o.value.complete {
          values := Add(values, if o.value.errorCode.Some? then o.value.errorCode.value else EvidenceIncomplete);
        }
        CodesAddedInTurn(before, o);
      }
      assert values == AddAll(before, CodesOf(o));
    }
    codes := FirstCodes(values);
  }

  /** What the loop collects is what the observations say, each code once. */
  lemma {:induction false} CollectIsUnion(values: seq<Reason>, observations: seq<Option<Observation>>)
    ensures Distinct(values) ==> Distinct(Collect(values, observations))
    ensures forall c :: c in Collect(values, observations)
                   <==> c in values || exists o :: o in observations && c in CodesOf(o)
    decreases |observations|
  {
    if observations != [] {
      AddAllIsUnion(values, CodesOf(observations[0]));
      CollectIsUnion(AddAll(values, CodesOf(observations[0])), observations[1..]);
      assert forall o :: o in observations <==> o == observations[0] || o in observations[1..];
    }
  }

  lemma CodesAddedInTurn(before: seq<Reason>, o: Option<Observation>)
    requires o.Some?
    ensures var mid := if o.value.dirty == Some(true) then Add(before, DirtySource) else before;
            AddAll(before, CodesOf(o))
            == if o.value.complete then mid
               else Add(mid, if o.value.errorCode.Some? then o.value.errorCode.value else EvidenceIncomplete)
  {
    var codes := CodesOf(o);
    if |codes| == 2 {
      var rest := codes[1..];
      assert rest[1..] == [];
      assert AddAll(Add(before, codes[0]), rest) == Add(Add(before, codes[0]), rest[0]);
    } else if |codes| == 1 {
      assert codes[1..] == [];
    }
  }

  // ---- qualifying evidence ----

  /** The codes qualification adds to those already present, in the order it adds them. */
  function NewReasons(e: Evidence): seq<Reason> {
    ObservationReasons([e.enqueue, e.preflight, e.finish])
    + (if CompareSource(e.enqueue, e.preflight) == Changed then [ChangedBeforeStart] else [])
    + (if CompareSource(e.preflight, e.finish) == Changed then [ChangedDuringExecution] else [])
  }

  function AllReasons(e: Evidence): seq<Reason> {
    AddAll(AddAll([], e.reasonCodes), NewReasons(e))
  }

  predicate AllComplete(e: Evidence) {
    && e.enqueue.Some? && e.enqueue.value.complete
    && e.preflight.Some? && e.preflight.value.complete
    && e.finish.Some? && e.finish.value.complete
  }

  predicate AllClean(e: Evidence) {
    && e.enqueue.Some? && e.enqueue.value.dirty == Some(false)
    && e.preflight.Some? && e.preflight.value.dirty == Some(false)
    && e.finish.Some? && e.finish.value.dirty == Some(false)
  }

  function QualifySource(e: Evidence): Evidence {
    var queue := CompareSource(e.enqueue, e.preflight);
    var execution := CompareSource(e.preflight, e.finish);
    e.(queueComparison := queue,
       executionComparison := execution,
       attribution :=
         if queue == Changed || execution == Changed then SourceChanged
         else if AllComplete(e) && AllClean(e) && queue == Match && execution == Match then ObservedMatch
         else Uncertain,
       reasonCodes := FirstCodes(AllReasons(e)))
  }

  function PendingEvidence(enqueue: Observation): Evidence {
    Evidence(Some(enqueue), None, None, Unknown, Unknown, Pending, ObservationReasons([Some(enqueue)]), None)
  }

  function LegacyEvidence(): Evidence {
    Evidence(None, None, None, Unknown, Unknown, LegacyUnknown, [LegacyUnavailable], None)
  }

  /** Adding the same codes to the cut list and cutting again gives the cut list back. */
  lemma CutIsStable(all: seq<Reason>, more: seq<Reason>)
    requires Distinct(all) && forall c :: c in more ==> c in all
    ensures FirstCodes(AddAll(AddAll([], FirstCodes(all)), more)) == FirstCodes(all)
  {
    var kept := FirstCodes(all);
    assert AddAll([], kept) == kept by {
      assert [] + kept == kept;
      AddAllDistinct([], kept);
    }
    if |all| <= MAX_REASON_CODES {
      AddAllPresent(kept, more);
    } else {
      AddAllIsUnion(kept, more);
    }
  }

  /** Qualifying twice is qualifying once, even when the code list was cut at twelve. */
  lemma QualifyIdempotent(e: Evidence)
    ensures QualifySource(QualifySource(e)) == QualifySource(e)
  {
    AddAllIsUnion([], e.reasonCodes);
    AddAllIsUnion(AddAll([], e.reasonCodes), NewReasons(e));
    CutIsStable(AllReasons(e), NewReasons(e));
    assert NewReasons(QualifySource(e)) == NewReasons(e);
  }

  /** Present, complete and clean at all three moments, and no neighbouring pair disagrees. */
  predicate Unbroken(e: Evidence) {
    && AllComplete(e) && AllClean(e)
    && !Differ(e.enqueue.value.head, e.preflight.value.head) && !Differ(e.preflight.value.head, e.finish.value.head)
    && !Differ(e.enqueue.value.branch, e.preflight.value.branch) && !Differ(e.preflight.value.branch, e.finish.value.branch)
    && !Differ(e.enqueue.value.statusDigest, e.preflight.value.statusDigest)
    && !Differ(e.preflight.value.statusDigest, e.finish.value.statusDigest)
  }

  /** The positive verdict, both ways: it is given exactly over unbroken evidence. */
  lemma ObservedMatchExactly(e: Evidence)
    ensures QualifySource(e).attribution == ObservedMatch <==> Unbroken(e)
  {
  }

  /** Two neighbouring observations name different commits, branches, digests or states of cleanliness. */
  ghost predicate Moved(left: Option<Observation>, right: Option<Observation>) {
    left.Some? && right.Some?
    && (|| Differ(left.value.head, right.value.head) || Differ(left.value.branch, right.value.branch)
        || Differ(left.value.statusDigest, right.value.statusDigest) || Differ(left.value.dirty, right.value.dirty))
  }

  /** The other two verdicts: the source changed exactly if a neighbouring pair disagrees, and else is uncertain. */
  lemma OtherVerdictsExactly(e: Evidence)
    ensures var moved := Moved(e.enqueue, e.preflight) || Moved(e.preflight, e.finish);
            && (QualifySource(e).attribution == SourceChanged <==> moved)
            && (QualifySource(e).attribution == Uncertain <==> !moved && !Unbroken(e))
  {
    ObservedMatchExactly(e);
  }

  /** What an observation gives as a reason against itself. */
  ghost predicate Gives(o: Option<Observation>, c: Reason) {
    o.Some?
    && (|| (c == DirtySource && o.value.dirty == Some(true))
        || (!o.value.complete && c == if o.value.errorCode.Some? then o.value.errorCode.value else EvidenceIncomplete))
  }

  lemma CodesAreGiven(o: Option<Observation>, c: Reason)
    ensures c in CodesOf(o) <==> Gives(o, c)
    ensures |CodesOf(o)| <= 2
  {
  }

  lemma CollectsThree(a: Option<Observation>, b: Option<Observation>, d: Option<Observation>)
    ensures |Collect([], [a, b, d])| <= 6
  {
    var first := AddAll([], CodesOf(a));
    var second := AddAll(first, CodesOf(b));
    assert [a, b, d][1..] == [b, d] && [b, d][1..] == [d] && [d][1..] == [];
    assert Collect([], [a, b, d]) == Collect(first, [b, d]);
    assert Collect(first, [b, d]) == Collect(second, [d]);
    assert Collect(second, [d]) == Collect(AddAll(second, CodesOf(d)), []);
    AddAllIsUnion([], CodesOf(a));
    AddAllIsUnion(first, CodesOf(b));
    AddAllIsUnion(second, CodesOf(d));
  }

  /** Which reasons qualification adds, before its list is cut. */
  lemma NewReasonsExactly(e: Evidence, c: Reason)
    ensures c in NewReasons(e)
       <==> || Gives(e.enqueue, c) || Gives(e.preflight, c) || Gives(e.finish, c)
            || (c == ChangedBeforeStart && Moved(e.enqueue, e.preflight))
            || (c == ChangedDuringExecution && Moved(e.preflight, e.finish))
  {
    var observations := [e.enqueue, e.preflight, e.finish];
    CollectsThree(e.enqueue, e.preflight, e.finish);
    CollectIsUnion([], observations);
    ObservationsGive(observations, e, c);
  }

  /** Which reasons qualified evidence names, unless its list is full: what it named before, and each that applies. */
  lemma ReasonsExactly(e: Evidence, c: Reason)
    requires |QualifySource(e).reasonCodes| < 12
    ensures c in QualifySource(e).reasonCodes
       <==> || c in e.reasonCodes
            || Gives(e.enqueue, c) || Gives(e.preflight, c) || Gives(e.finish, c)
            || (c == ChangedBeforeStart && Moved(e.enqueue, e.preflight))
            || (c == ChangedDuringExecution && Moved(e.preflight, e.finish))
  {
    NewReasonsExactly(e, c);
    AddAllIsUnion([], e.reasonCodes);
    AddAllIsUnion(AddAll([], e.reasonCodes), NewReasons(e));
  }

  lemma ObservationsGive(observations: seq<Option<Observation>>, e: Evidence, c: Reason)
    requires observations == [e.enqueue, e.preflight, e.finish]
    ensures (exists o :: o in observations && c in CodesOf(o))
       <==> Gives(e.enqueue, c) || Gives(e.preflight, c) || Gives(e.finish, c)
  {
    forall o ensures c in CodesOf(o) <==> Gives(o, c) {
      CodesAreGiven(o, c);
    }
    assert observations[0] == e.enqueue && observations[1] == e.preflight && observations[2] == e.finish;
  }

  ghost predicate Identified(o: Option<Observation>) {
    o.Some? && o.value.head.Some? && o.value.statusDigest.Some?
  }

  /** When the evidence names a commit and a digest throughout, one commit and one digest were seen. */
  lemma ObservedMatchIsOneSource(e: Evidence)
    requires QualifySource(e).attribution == ObservedMatch
    requires Identified(e.enqueue) && Identified(e.preflight) && Identified(e.finish)
    ensures e.enqueue.value.head == e.preflight.value.head == e.finish.value.head
    ensures e.enqueue.value.statusDigest == e.preflight.value.statusDigest == e.finish.value.statusDigest
  {
  }

  /**
   * Enqueue and finish are never compared directly, so a positive verdict lets their commits differ
   * exactly when the observation between them has no commit.
   */
  lemma EndsAgreeExactlyThroughPreflight(enqueue: Observation, finish: Observation, preflight: Observation)
    requires enqueue.head.Some? && finish.head.Some? && enqueue.head != finish.head
    requires enqueue.complete && preflight.complete && finish.complete
    requires enqueue.dirty == preflight.dirty == finish.dirty == Some(false)
    requires enqueue.branch == preflight.branch == finish.branch
    requires enqueue.statusDigest == preflight.statusDigest == finish.statusDigest
    ensures QualifySource(PendingEvidence(enqueue).(preflight := Some(preflight), finish := Some(finish))).attribution == ObservedMatch
       <==> preflight.head.None?
  {
  }
}
