/** The server's change stream (src/server/events.ts): coalesced changes, numbered and sent to every client. */
module EventStreams {
  import opened Results
  import opened OrderedSets

  const MAX_PENDING_PROJECT_IDS: nat := 128

  datatype Kind = RuntimeKind | ReservationKind | TestsKind | StorageKind | ControllerKind | TopologyKind | MetadataKind

  datatype ChangeInput = ChangeInput(kinds: Option<seq<Kind>>, projectIds: Option<seq<string>>)
  {
    function Kinds(): seq<Kind> { if kinds.Some? then kinds.value else [TopologyKind] }

    function Ids(): seq<string> { if projectIds.Some? then projectIds.value else [] }
  }

  datatype Change = Change(revision: nat, kinds: seq<Kind>, projectIds: seq<string>, allProjects: bool)

  datatype Frame = Ready(revision: nat) | Changed(change: Change)

  type Client = nat

  /** A timer that `close` cleared is never armed again: the field still holds it. */
  datatype Timer = NoTimer | Armed | Cleared

  datatype State = State(
    revision: nat, kinds: seq<Kind>, projectIds: seq<string>, allProjects: bool, timer: Timer,
    clients: set<Client>, written: map<Client, seq<Frame>>)

  // ---- collecting changes ----

  datatype Collected = Collected(ids: seq<string>, all: bool)

  /** Ids are collected up to the bound; one more drops them all in favour of every project. */
  function CollectIds(c: Collected, ids: seq<string>): Collected
    decreases |ids|
  {
    if ids == [] then c
    else if |c.ids| >= MAX_PENDING_PROJECT_IDS then Collected([], true)
    else CollectIds(c.(ids := Add(c.ids, ids[0])), ids[1..])
  }

  function Publish(s: State, input: ChangeInput): State {
    var c := CollectIds(Collected(s.projectIds, s.allProjects), input.Ids());
    s.(kinds := AddAll(s.kinds, input.Kinds()), projectIds := c.ids,
       allProjects := c.all || input.Ids() == [],
       timer := if s.timer == NoTimer then Armed else s.timer)
  }

  // ---- sending them ----

  function ChangeOf(s: State): Change {
    Change(s.revision + 1, s.kinds, s.projectIds, s.allProjects)
  }

  /** The timer's callback; a client whose buffer is full is written to once more and dropped. */
  function Fire(s: State, full: set<Client>): State {
    s.(revision := s.revision + 1, kinds := [], projectIds := [], allProjects := false, timer := NoTimer,
       clients := s.clients - full,
       written := map c | c in s.written ::
         if c in s.clients then s.written[c] + [Changed(ChangeOf(s))] else s.written[c])
  }

  function AddClient(s: State, client: Client): State {
    s.(clients := s.clients + {client}, written := s.written[client := [Ready(s.revision)]])
  }

  function Close(s: State): State {
    s.(timer := if s.timer == Armed then Cleared else s.timer, clients := {}, kinds := [], projectIds := [])
  }

  datatype Event =
    | Publishes(input: ChangeInput)
    | Fires(full: set<Client>)
    | Connects(client: Client)
    | Disconnects(client: Client)
    | DisconnectsAll
    | Closes

  ghost predicate Enabled(s: State, e: Event) {
    match e
    case Fires(_) => s.timer == Armed
    case Connects(client) => client !in s.written
    case _ => true
  }

  function Next(s: State, e: Event): State {
    match e
    case Publishes(input) => Publish(s, input)
    case Fires(full) => Fire(s, full)
    case Connects(client) => AddClient(s, client)
    case Disconnects(client) => s.(clients := s.clients - {client})
    case DisconnectsAll => s.(clients := {})
    case Closes => Close(s)
  }

  // ---- the object ----

  class EventStream {
    var revision: nat
    var pendingKinds: seq<Kind>
    var pendingProjectIds: seq<string>
    var allProjects: bool
    var timer: Timer
    var clients: set<Client>
    var written: map<Client, seq<Frame>>

    ghost function Value(): State
      reads this
    {
      State(revision, pendingKinds, pendingProjectIds, allProjects, timer, clients, written)
    }

    /** Every client has an unbroken run of revisions, and a connected one is up to date. */
    ghost predicate Valid()
      reads this
    {
      Delivered(Value())
    }

    constructor ()
      ensures Valid()
      ensures Value() == START
    {
      revision, pendingKinds, pendingProjectIds, allProjects := 0, [], [], false;
      timer, clients, written := NoTimer, {}, map[];
    }

    method Publish(input: ChangeInput)
      requires Valid()
      modifies this`pendingKinds, this`pendingProjectIds, this`allProjects, this`timer
      ensures Value() == Next(old(Value()), Publishes(input))
      ensures Valid()
    {
      StepDelivers(Value(), Publishes(input));
      var kinds := input.Kinds();
      assert kinds[0..] == kinds;
      for i := 0 to |kinds|
        invariant AddAll(pendingKinds, kinds[i..]) == AddAll(old(pendingKinds), kinds)
        invariant unchanged(`pendingProjectIds) && unchanged(`allProjects) && unchanged(`timer)
      {
        assert kinds[i..][1..] == kinds[i + 1..];
        pendingKinds := OrderedSets.Add(pendingKinds, kinds[i]);
      }
      CollectProjectIds(input.Ids());
      if input.Ids() == [] {
        allProjects := true;
      }
      if timer == NoTimer {
        timer := Armed;
      }
    }

    method CollectProjectIds(ids: seq<string>)
      modifies this`pendingProjectIds, this`allProjects
      ensures Collected(pendingProjectIds, allProjects) == CollectIds(old(Collected(pendingProjectIds, allProjects)), ids)
    {
      assert ids[0..] == ids;
      for i := 0 to |ids|
        invariant CollectIds(Collected(pendingProjectIds, allProjects), ids[i..])
               == CollectIds(old(Collected(pendingProjectIds, allProjects)), ids)
      {
        assert ids[i..][1..] == ids[i + 1..];
        if |pendingProjectIds| >= MAX_PENDING_PROJECT_IDS {
          pendingProjectIds := [];
          allProjects := true;
          return;
        }
        pendingProjectIds := OrderedSets.Add(pendingProjectIds, ids[i]);
      }
    }

    /** The callback of the pending timer; `full` are the clients whose `write` reports a full buffer. */
    method Fire(full: set<Client>)
      requires Valid()
      requires Enabled(Value(), Fires(full))
      modifies this
      ensures Value() == Next(old(Value()), Fires(full))
      ensures Valid()
    {
      StepDelivers(Value(), Fires(full));
      timer := NoTimer;
      revision := revision + 1;
      var change := Change(revision, pendingKinds, pendingProjectIds, allProjects);
      pendingKinds, pendingProjectIds, allProjects := [], [], false;
      Send(Changed(change), full);
    }

    method Send(frame: Frame, full: set<Client>)
      requires clients <= written.Keys
      modifies this`clients, this`written
      ensures clients == old(clients) - full
      ensures written == map c | c in old(written) ::
                           if c in old(clients) then old(written)[c] + [frame] else old(written)[c]
    {
      var unsent := clients;
      while unsent != {}
        invariant unsent <= old(clients) && written.Keys == old(written).Keys
        invariant forall c :: c in old(written) ==>
                    written[c] == if c in old(clients) - unsent then old(written)[c] + [frame] else old(written)[c]
        invariant clients == old(clients) - (full * (old(clients) - unsent))
        decreases unsent
      {
        var client :| client in unsent;
        unsent := unsent - {client};
        written := written[client := written[client] + [frame]];
        if client in full {
          clients := clients - {client};
        }
      }
    }

    method Add(client: Client)
      requires Valid()
      requires Enabled(Value(), Connects(client))
      modifies this`clients, this`written
      ensures Value() == Next(old(Value()), Connects(client))
      ensures Valid()
    {
      StepDelivers(Value(), Connects(client));
      clients := clients + {client};
      written := written[client := [Ready(revision)]];
    }

    method Close()
      requires Valid()
      modifies this`timer, this`clients, this`pendingKinds, this`pendingProjectIds
      ensures Value() == Next(old(Value()), Closes)
      ensures clients == {}
      ensures Valid()
    {
      StepDelivers(Value(), Closes);
      if timer == Armed {
        timer := Cleared;
      }
      clients := {};
      pendingKinds := [];
      pendingProjectIds := [];
    }
  }

  // ---- what an emitted change says about the publications it stands for ----

  function IdCount(inputs: seq<ChangeInput>): nat
    decreases |inputs|
  {
    if inputs == [] then 0 else IdCount(inputs[..|inputs| - 1]) + |inputs[|inputs| - 1].Ids()|
  }

  /** What one publication is about: the topology unless it names kinds, and every project unless it names some. */
  predicate HasKind(input: ChangeInput, k: Kind) {
    if input.kinds.Some? then k in input.kinds.value else k == TopologyKind
  }

  predicate HasProject(input: ChangeInput, id: string) {
    input.projectIds.Some? && id in input.projectIds.value
  }

  predicate HasAllProjects(input: ChangeInput) {
    input.projectIds.None? || input.projectIds.value == []
  }

  /** Every kind and project published is named, or all projects are. */
  ghost predicate Covers(kinds: seq<Kind>, ids: seq<string>, all: bool, inputs: seq<ChangeInput>) {
    forall input :: input in inputs ==>
      && (forall k :: HasKind(input, k) ==> k in kinds)
      && (all || (!HasAllProjects(input) && forall id :: HasProject(input, id) ==> id in ids))
  }

  /** Nothing else is named, and all projects only for a publication without ids or too many ids. */
  ghost predicate Justified(kinds: seq<Kind>, ids: seq<string>, all: bool, inputs: seq<ChangeInput>) {
    && (forall k :: k in kinds ==> exists input :: input in inputs && HasKind(input, k))
    && (forall id :: id in ids ==> exists input :: input in inputs && HasProject(input, id))
    && (all ==> (exists input :: input in inputs && HasAllProjects(input)) || IdCount(inputs) > 128)
  }

  /** The pending fields stand for exactly these publications. */
  ghost predicate Pending(s: State, inputs: seq<ChangeInput>) {
    && Distinct(s.kinds) && Distinct(s.projectIds) && |s.projectIds| <= MAX_PENDING_PROJECT_IDS
    && |s.projectIds| <= IdCount(inputs)
    && Covers(s.kinds, s.projectIds, s.allProjects, inputs)
    && Justified(s.kinds, s.projectIds, s.allProjects, inputs)
    && (s.timer == NoTimer <==> inputs == [])
  }

  lemma {:induction false} CollectIdsOutcome(c: Collected, ids: seq<string>)
    requires |c.ids| <= MAX_PENDING_PROJECT_IDS
    ensures var r := CollectIds(c, ids);
            && |r.ids| <= MAX_PENDING_PROJECT_IDS
            && (r == Collected(AddAll(c.ids, ids), c.all)
                || (r == Collected([], true) && |c.ids| + |ids| > MAX_PENDING_PROJECT_IDS))
    decreases |ids|
  {
    if ids != [] && |c.ids| < MAX_PENDING_PROJECT_IDS {
      CollectIdsOutcome(c.(ids := OrderedSets.Add(c.ids, ids[0])), ids[1..]);
    }
  }

  /** A publication is added to what the pending fields stand for. */
  lemma PublishPends(s: State, inputs: seq<ChangeInput>, input: ChangeInput)
    requires Pending(s, inputs)
    ensures Pending(Publish(s, input), inputs + [input])
  {
    var all, t := inputs + [input], Publish(s, input);
    assert all[..|all| - 1] == inputs && all[|all| - 1] == input;
    AddAllIsUnion(s.kinds, input.Kinds());
    AddAllIsUnion(s.projectIds, input.Ids());
    CollectIdsOutcome(Collected(s.projectIds, s.allProjects), input.Ids());
    PendingCovers(s, t, inputs, input);
    PendingJustified(s, t, inputs, input);
  }

  lemma PendingCovers(s: State, t: State, inputs: seq<ChangeInput>, input: ChangeInput)
    requires Covers(s.kinds, s.projectIds, s.allProjects, inputs)
    requires forall k :: k in t.kinds <==> k in s.kinds || HasKind(input, k)
    requires t.allProjects || (!s.allProjects && !HasAllProjects(input)
                               && forall id :: id in t.projectIds <==> id in s.projectIds || HasProject(input, id))
    ensures Covers(t.kinds, t.projectIds, t.allProjects, inputs + [input])
  {
    forall x | x in inputs + [input]
      ensures (forall k :: HasKind(x, k) ==> k in t.kinds)
           && (t.allProjects || (!HasAllProjects(x) && forall id :: HasProject(x, id) ==> id in t.projectIds))
    {
      assert x in inputs || x == input;
    }
  }

  lemma PendingJustified(s: State, t: State, inputs: seq<ChangeInput>, input: ChangeInput)
    requires Justified(s.kinds, s.projectIds, s.allProjects, inputs)
    requires forall k :: k in t.kinds <==> k in s.kinds || HasKind(input, k)
    requires forall id :: id in t.projectIds ==> id in s.projectIds || HasProject(input, id)
    requires t.allProjects ==> s.allProjects || HasAllProjects(input) || |s.projectIds| + |input.Ids()| > MAX_PENDING_PROJECT_IDS
    requires |s.projectIds| <= IdCount(inputs) && IdCount(inputs + [input]) == IdCount(inputs) + |input.Ids()|
    ensures Justified(t.kinds, t.projectIds, t.allProjects, inputs + [input])
  {
    assert forall x :: x in inputs ==> x in inputs + [input];
    assert input in inputs + [input];
  }

  /** Firing empties the pending fields; what it sends covers the publications and names nothing else. */
  lemma FirePends(s: State, inputs: seq<ChangeInput>, full: set<Client>)
    requires Pending(s, inputs) && s.timer == Armed
    ensures Pending(Fire(s, full), []) && inputs != []
    ensures var change := ChangeOf(s);
            && Covers(change.kinds, change.projectIds, change.allProjects, inputs)
            && Justified(change.kinds, change.projectIds, change.allProjects, inputs)
            && |change.projectIds| <= MAX_PENDING_PROJECT_IDS
  {
  }

  // ---- histories ----

  const START := State(0, [], [], false, NoTimer, {}, map[])

  function Run(events: seq<Event>): State
    decreases |events|
  {
    if events == [] then START else Next(Run(events[..|events| - 1]), events[|events| - 1])
  }

  ghost predicate Possible(events: seq<Event>)
    decreases |events|
  {
    events == []
    || (Possible(events[..|events| - 1]) && Enabled(Run(events[..|events| - 1]), events[|events| - 1]))
  }

  /** What was published since the last emission. */
  function Window(events: seq<Event>): seq<ChangeInput>
    decreases |events|
  {
    if events == [] || events[|events| - 1].Fires? then []
    else
      var before, last := Window(events[..|events| - 1]), events[|events| - 1];
      if last.Publishes? then before + [last.input] else before
  }

  /** The stream was closed while publications were pending. */
  predicate Stopped(events: seq<Event>)
    decreases |events|
  {
    events != []
    && (Stopped(events[..|events| - 1]) || (events[|events| - 1].Closes? && Window(events[..|events| - 1]) != []))
  }

  lemma WindowStep(s: State, e: Event, window: seq<ChangeInput>)
    requires s.timer != Cleared && Pending(s, window) && Enabled(s, e)
    ensures var t := Next(s, e);
            var after := if e.Fires? then [] else if e.Publishes? then window + [e.input] else window;
            if e.Closes? && window != [] then t.timer == Cleared else t.timer != Cleared && Pending(t, after)
  {
    match e
    case Publishes(input) => PublishPends(s, window, input);
    case Fires(full) => FirePends(s, window, full);
    case Closes => if window == [] { NothingPends(s); }
    case _ =>
  }

  /** With nothing published since the last emission the pending fields are empty. */
  lemma NothingPends(s: State)
    requires Pending(s, [])
    ensures s.kinds == [] && s.projectIds == [] && !s.allProjects
  {
    FirstIsIn(s.kinds);
  }

  lemma FirstIsIn<T>(xs: seq<T>)
    ensures xs == [] || xs[0] in xs
  {
  }

  lemma {:induction false} WindowPends(events: seq<Event>)
    requires Possible(events)
    ensures Run(events).timer == Cleared <==> Stopped(events)
    ensures !Stopped(events) ==> Pending(Run(events), Window(events))
    decreases |events|
  {
    if events != [] {
      var front, last := events[..|events| - 1], events[|events| - 1];
      WindowPends(front);
      if !Stopped(front) {
        WindowStep(Run(front), last, Window(front));
      }
    }
  }

  /** The change in this frame stands for exactly these publications. */
  ghost predicate TellsOf(frame: Frame, revision: nat, inputs: seq<ChangeInput>) {
    && frame.Changed? && frame.change.revision == revision && |frame.change.projectIds| <= 128
    && Covers(frame.change.kinds, frame.change.projectIds, frame.change.allProjects, inputs)
    && Justified(frame.change.kinds, frame.change.projectIds, frame.change.allProjects, inputs)
  }

  /**
   * Over every history: when the timer fires, every connected client is written one more frame, and it tells
   * of exactly what was published since the change before it: each publication's kinds and projects, and
   * nothing that was not published. Nobody else is written anything, and clients with a full buffer are dropped.
   */
  lemma EachChangeCoversItsWindow(events: seq<Event>, full: set<Client>, c: Client)
    requires Possible(events) && Enabled(Run(events), Fires(full))
    ensures var s, t := Run(events), Next(Run(events), Fires(full));
            && Window(events) != [] && t.clients == s.clients - full && t.written.Keys == s.written.Keys
            && (c in s.clients ==>
                  && c in s.written && |t.written[c]| == |s.written[c]| + 1 && s.written[c] <= t.written[c]
                  && TellsOf(t.written[c][|s.written[c]|], s.revision + 1, Window(events)))
            && (c in s.written && c !in s.clients ==> t.written[c] == s.written[c])
  {
    WindowPends(events);
    FirePends(Run(events), Window(events), full);
    ClientsMissNothing(events);
  }

  /** No publication waits in vain: a timer runs for it, unless the stream was closed while one was running. */
  lemma PublicationsAreSentExactly(events: seq<Event>)
    requires Possible(events) && Window(events) != []
    ensures Enabled(Run(events), Fires({})) <==> !Stopped(events)
  {
    WindowPends(events);
  }

  // ---- what one client receives ----

  /** First the revision at which it joined, then every change after it, without a gap. */
  predicate Gapless(frames: seq<Frame>) {
    && frames != [] && frames[0].Ready?
    && forall k :: 1 <= k < |frames| ==> frames[k].Changed? && frames[k].change.revision == frames[0].revision + k
  }

  ghost predicate Delivered(s: State) {
    && s.clients <= s.written.Keys
    && (forall c :: c in s.written ==> Gapless(s.written[c]))
    && (forall c :: c in s.clients ==> s.written[c][0].revision + |s.written[c]| - 1 == s.revision)
    && (forall c :: c in s.written ==> s.written[c][0].revision + |s.written[c]| - 1 <= s.revision)
  }

  /** Every client has received an unbroken run of revisions, and a connected one is up to date. */
  lemma {:induction false} ClientsMissNothing(events: seq<Event>)
    requires Possible(events)
    ensures Delivered(Run(events))
    decreases |events|
  {
    if events != [] {
      ClientsMissNothing(events[..|events| - 1]);
      StepDelivers(Run(events[..|events| - 1]), events[|events| - 1]);
    }
  }

  lemma StepDelivers(s: State, e: Event)
    requires Delivered(s) && Enabled(s, e)
    ensures Delivered(Next(s, e))
  {
    if e.Fires? {
      forall c | c in s.written
        ensures Gapless(Next(s, e).written[c])
        ensures Next(s, e).written[c][0] == s.written[c][0]
      {
        assert Gapless(s.written[c]);
      }
    }
  }
}
