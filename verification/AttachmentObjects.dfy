/**
 * Content-addressed attachment objects (src/server/attachment-objects.ts): any number of publishers, each of
 * which may crash between two file-system steps. `hash` stands for SHA-256.
 */
module AttachmentObjects {
  import opened Results

  type Bytes = seq<bv8>
  type Digest = nat
  type Hash = Bytes -> Digest
  type Pid = nat

  datatype Object = Object(digest: Digest, size: nat)

  /** `verify` of a complete read. */
  predicate Matches(hash: Hash, content: Bytes, wanted: Object) {
    |content| == wanted.size && hash(content) == wanted.digest
  }

  // ---- publishers ----

  /** Bytes given by the caller, or a file that may hold anything each time it is read. */
  datatype Source = Given(bytes: Bytes) | Path

  datatype Phase =
    | Looking
    | Found
    | Staging
    | Staged(content: Bytes)
    | Linked
    | Returned
    | Failed

  datatype Publisher = Publisher(wanted: Object, source: Source, phase: Phase)

  /** `objects` is what the destination paths hold; `staging` what private directories hold, if they exist. */
  datatype State = State(objects: map<Digest, Bytes>, staging: map<Pid, Bytes>, publishers: map<Pid, Publisher>)

  function At(s: State, p: Pid, phase: Phase): State
    requires p in s.publishers
  {
    s.(publishers := s.publishers[p := s.publishers[p].(phase := phase)])
  }

  datatype Event =
    | Begins(p: Pid, wanted: Object, source: Source)
    | Looks(p: Pid)
    | Verifies(p: Pid, input: Bytes)
    | Copies(p: Pid, content: Bytes)
    | Breaks(p: Pid, content: Bytes)
    | Links(p: Pid)
    | Confirms(p: Pid)
    | Cleans(p: Pid)
    | Crashes(p: Pid)

  ghost predicate Enabled(s: State, e: Event) {
    match e
    case Begins(p, wanted, source) => p !in s.publishers && p !in s.staging
    case Looks(p) => InPhase(s, p) && s.publishers[p].phase.Looking?
    case Verifies(p, input) => InPhase(s, p) && s.publishers[p].phase.Found?
    case Copies(p, content) =>
      InPhase(s, p) && s.publishers[p].phase.Staging?
      && (s.publishers[p].source.Given? ==> content == s.publishers[p].source.bytes)
    case Breaks(p, content) => InPhase(s, p) && s.publishers[p].phase.Staging?
    case Links(p) => InPhase(s, p) && s.publishers[p].phase.Staged?
    case Confirms(p) => InPhase(s, p) && s.publishers[p].phase.Linked?
    case Cleans(p) => InPhase(s, p) && (s.publishers[p].phase.Returned? || s.publishers[p].phase.Failed?)
    case Crashes(p) => InPhase(s, p)
  }

  predicate InPhase(s: State, p: Pid) { p in s.publishers }

  /** Bytes that do not match what the caller says about them are refused before anything is created. */
  function Begin(hash: Hash, s: State, p: Pid, wanted: Object, source: Source): State {
    var accepted := source.Path? || Matches(hash, source.bytes, wanted);
    s.(publishers := s.publishers[p := Publisher(wanted, source, if accepted then Looking else Failed)])
  }

  function Look(s: State, p: Pid): State
    requires p in s.publishers
  {
    At(s, p, if s.publishers[p].wanted.digest in s.objects then Found else Staging)
  }

  /** An existing object: the source file, if there is one, and the object itself are verified. */
  function VerifyExisting(hash: Hash, s: State, p: Pid, input: Bytes): State
    requires p in s.publishers
  {
    var q := s.publishers[p];
    var good := && (q.source.Path? ==> Matches(hash, input, q.wanted))
                && q.wanted.digest in s.objects && Matches(hash, s.objects[q.wanted.digest], q.wanted);
    At(s, p, if good then Returned else Failed)
  }

  /** The staged copy is verified after it is written. */
  function Copy(hash: Hash, s: State, p: Pid, content: Bytes): State
    requires p in s.publishers
  {
    At(s, p, if Matches(hash, content, s.publishers[p].wanted) then Staged(content) else Failed)
      .(staging := s.staging[p := content])
  }

  /** A link creates the destination or changes nothing. */
  function Link(s: State, p: Pid, content: Bytes): State
    requires p in s.publishers
  {
    var digest := s.publishers[p].wanted.digest;
    At(s, p, Linked).(objects := if digest in s.objects then s.objects else s.objects[digest := content])
  }

  function Confirm(hash: Hash, s: State, p: Pid): State
    requires p in s.publishers
  {
    var wanted := s.publishers[p].wanted;
    At(s, p, if wanted.digest in s.objects && Matches(hash, s.objects[wanted.digest], wanted) then Returned else Failed)
  }

  function Next(hash: Hash, s: State, e: Event): State {
    if e.Begins? then Begin(hash, s, e.p, e.wanted, e.source)
    else if e.p !in s.publishers then s
    else match e
      case Begins(_, _, _) => s
      case Looks(p) => Look(s, p)
      case Verifies(p, input) => VerifyExisting(hash, s, p, input)
      case Copies(p, content) => Copy(hash, s, p, content)
      case Breaks(p, content) => At(s, p, Failed).(staging := s.staging[p := content])
      case Links(p) => if s.publishers[p].phase.Staged? then Link(s, p, s.publishers[p].phase.content) else s
      case Confirms(p) => Confirm(hash, s, p)
      case Cleans(p) => s.(staging := s.staging - {p})
      case Crashes(p) => s.(publishers := s.publishers - {p})
  }

  // ---- what every step keeps ----

  /** Every object's bytes have the digest that names it. */
  ghost predicate Named(hash: Hash, s: State) {
    forall d :: d in s.objects ==> hash(s.objects[d]) == d
  }

  ghost predicate Sound(hash: Hash, s: State, q: Publisher) {
    && (q.phase.Staged? ==> Matches(hash, q.phase.content, q.wanted))
    && (q.phase.Found? || q.phase.Linked? || q.phase.Returned? ==> q.wanted.digest in s.objects)
    && (q.phase.Returned? ==> Matches(hash, s.objects[q.wanted.digest], q.wanted))
    && (q.source.Given? && !q.phase.Failed? ==> Matches(hash, q.source.bytes, q.wanted))
  }

  ghost predicate Inv(hash: Hash, s: State) {
    Named(hash, s) && forall p :: p in s.publishers ==> Sound(hash, s, s.publishers[p])
  }

  lemma ObjectsStay(hash: Hash, s: State, e: Event, d: Digest)
    requires Enabled(s, e) && d in s.objects
    ensures d in Next(hash, s, e).objects && Next(hash, s, e).objects[d] == s.objects[d]
  {
  }

  lemma StepKeeps(hash: Hash, s: State, e: Event)
    requires Inv(hash, s) && Enabled(s, e)
    ensures Inv(hash, Next(hash, s, e))
  {
    var t := Next(hash, s, e);
    assert Named(hash, t);
    forall p | p in t.publishers ensures Sound(hash, t, t.publishers[p]) {
      if p in s.publishers {
        assert Sound(hash, s, s.publishers[p]);
        if s.publishers[p].wanted.digest in s.objects {
          ObjectsStay(hash, s, e, s.publishers[p].wanted.digest);
        }
      }
    }
  }

  // ---- every history ----

  ghost predicate Leads(hash: Hash, s: State, events: seq<Event>, t: State)
    decreases |events|
  {
    if events == [] then s == t
    else Enabled(s, events[0]) && Leads(hash, Next(hash, s, events[0]), events[1..], t)
  }

  ghost predicate Reaches(hash: Hash, objects: map<Digest, Bytes>, events: seq<Event>, s: State) {
    Leads(hash, State(objects, map[], map[]), events, s)
  }

  /** Whatever the store held, no interleaving of publishers and crashes changes or removes a published object. */
  lemma {:induction false} ObjectsNeverChange(hash: Hash, s: State, events: seq<Event>, t: State, d: Digest)
    requires Leads(hash, s, events, t) && d in s.objects
    ensures d in t.objects && t.objects[d] == s.objects[d]
    decreases |events|
  {
    if events != [] {
      ObjectsStay(hash, s, events[0], d);
      ObjectsNeverChange(hash, Next(hash, s, events[0]), events[1..], t, d);
    }
  }

  lemma {:induction false} LeadingKeeps(hash: Hash, s: State, events: seq<Event>, t: State)
    requires Inv(hash, s) && Leads(hash, s, events, t)
    ensures Inv(hash, t)
    decreases |events|
  {
    if events != [] {
      StepKeeps(hash, s, events[0]);
      LeadingKeeps(hash, Next(hash, s, events[0]), events[1..], t);
    }
  }

  /** From a store where every object matches its name, every interleaving with crashes keeps that true. */
  lemma HistoriesKeep(hash: Hash, objects: map<Digest, Bytes>, events: seq<Event>, s: State)
    requires Reaches(hash, objects, events, s)
    requires forall d :: d in objects ==> hash(objects[d]) == d
    ensures Inv(hash, s)
  {
    LeadingKeeps(hash, State(objects, map[], map[]), events, s);
  }

  /** A successful return means the bytes are there: the given ones, unless two contents share a digest. */
  lemma ReturnedMeansPresent(hash: Hash, objects: map<Digest, Bytes>, events: seq<Event>, s: State, p: Pid)
    requires Reaches(hash, objects, events, s)
    requires forall d :: d in objects ==> hash(objects[d]) == d
    requires p in s.publishers && s.publishers[p].phase.Returned?
    ensures var q := s.publishers[p];
            && q.wanted.digest in s.objects
            && |s.objects[q.wanted.digest]| == q.wanted.size && hash(s.objects[q.wanted.digest]) == q.wanted.digest
            && (q.source.Given? && s.objects[q.wanted.digest] != q.source.bytes ==>
                  hash(s.objects[q.wanted.digest]) == hash(q.source.bytes)
                  && |s.objects[q.wanted.digest]| == |q.source.bytes|)
  {
    HistoriesKeep(hash, objects, events, s);
    assert Sound(hash, s, s.publishers[p]);
  }

  /** Losing the race to link is no failure: the object that won is confirmed unless its size betrays a collision. */
  lemma RacingPublisherReturnsExactly(hash: Hash, objects: map<Digest, Bytes>, events: seq<Event>, s: State, p: Pid)
    requires Reaches(hash, objects, events, s)
    requires forall d :: d in objects ==> hash(objects[d]) == d
    requires p in s.publishers && s.publishers[p].phase.Linked?
    ensures var wanted := s.publishers[p].wanted;
            && wanted.digest in s.objects
            && (Next(hash, s, Confirms(p)).publishers[p].phase.Returned? <==> |s.objects[wanted.digest]| == wanted.size)
  {
    HistoriesKeep(hash, objects, events, s);
    assert Sound(hash, s, s.publishers[p]);
  }

  ghost predicate Fit(hash: Hash, content: Bytes, wanted: Object) {
    |content| == wanted.size && hash(content) == wanted.digest
  }

  /** An object that is there already is returned exactly if it matches, and a source file that is given does too. */
  lemma ExistingObjectExactly(hash: Hash, objects: map<Digest, Bytes>, events: seq<Event>, s: State, p: Pid, input: Bytes)
    requires Reaches(hash, objects, events, s) && Enabled(s, Verifies(p, input))
    requires forall d :: d in objects ==> hash(objects[d]) == d
    ensures var q := s.publishers[p];
            && q.wanted.digest in s.objects
            && (Next(hash, s, Verifies(p, input)).publishers[p].phase.Returned?
                <==> (q.source.Path? ==> Fit(hash, input, q.wanted)) && Fit(hash, s.objects[q.wanted.digest], q.wanted))
  {
    HistoriesKeep(hash, objects, events, s);
    assert Sound(hash, s, s.publishers[p]);
  }

  /** A copy is linked only if it matches; begun with bytes that do not, a publication fails at once. */
  lemma StagesExactly(hash: Hash, s: State, p: Pid, content: Bytes)
    requires Enabled(s, Copies(p, content))
    ensures Next(hash, s, Copies(p, content)).publishers[p].phase
         == if Fit(hash, content, s.publishers[p].wanted) then Staged(content) else Failed
    ensures Next(hash, s, Copies(p, content)).objects == s.objects
  {
  }

  lemma BeginsExactly(hash: Hash, s: State, p: Pid, wanted: Object, source: Source)
    requires Enabled(s, Begins(p, wanted, source))
    ensures Next(hash, s, Begins(p, wanted, source)).publishers[p].phase.Failed?
       <==> source.Given? && !Fit(hash, source.bytes, wanted)
  {
  }
}
