/** McpDiagnostics (src/server/mcp-diagnostics.ts) as an object; a session is known by its number. */
module McpDiagnosticsObjects {
  import C = SessionCounters

  class McpDiagnostics {
    var entries: seq<C.Entry>
    var retained: set<nat>
    var totals: C.Gauges
    var reasons: multiset<C.Reason>
    var recent: seq<C.Reason>
    var logicalSessions: int
    var initializingSessions: int
    var drainingSessions: int
    ghost var refusals: nat
    ghost var history: seq<C.Reason>

    ghost function State(): C.State
      reads this
    {
      C.State(entries, retained, totals, reasons, recent, logicalSessions, initializingSessions, drainingSessions,
              refusals, history)
    }

    /** The gauges are the sizes of the parts, the totals are sums, and every closure is counted. */
    ghost predicate Valid()
      reads this
    {
      C.Inv(State(), 0)
    }

    constructor ()
      ensures Valid()
      ensures State() == C.INITIAL
    {
      entries, retained, totals, reasons, recent := [], {}, C.ZERO, multiset{}, [];
      logicalSessions, initializingSessions, drainingSessions, refusals, history := 0, 0, 0, 0, [];
      new;
      C.HistoriesKeep([]);
    }

    method Create() returns (i: nat)
      requires Valid()
      modifies this
      ensures State() == C.Next(old(State()), C.Creates) && i == |old(entries)|
      ensures Valid()
    {
      C.StepKeepsExactly(State(), C.Creates, 0);
      i := |entries|;
      entries := entries + [C.Entry(false, C.Open, C.ZERO)];
      retained := retained + {i};
      initializingSessions := initializingSessions + 1;
    }

    method Initialize(i: nat)
      requires Valid()
      requires i < |entries|
      modifies this
      ensures State() == C.Next(old(State()), C.Initializes(i))
      ensures Valid() <==> old(entries[i].closing.Open? || entries[i].initialized)
    {
      C.StepKeepsExactly(State(), C.Initializes(i), 0);
      if !entries[i].initialized {
        entries := entries[i := entries[i].(initialized := true)];
        logicalSessions := logicalSessions + 1;
        initializingSessions := initializingSessions - 1;
      }
    }

    method Change(i: nat, gauge: C.Gauge, delta: int)
      requires Valid()
      requires i < |entries|
      modifies this
      ensures State() == C.Next(old(State()), C.Changes(i, gauge, delta))
      ensures Valid()
      ensures entries[i].closing == old(entries[i].closing)
      ensures i in retained
         <==> i in old(retained)
              && (entries[i].closing.Open? || entries[i].gauges.operations != 0 || entries[i].gauges.openResponses != 0)
    {
      C.StepKeepsExactly(State(), C.Changes(i, gauge, delta), 0);
      entries := entries[i := entries[i].(gauges := C.Add(entries[i].gauges, gauge, delta))];
      totals := C.Add(totals, gauge, delta);
      var entry := entries[i];
      if entry.closing.Closed? && entry.gauges.operations == 0 && entry.gauges.openResponses == 0 && i in retained {
        retained := retained - {i};
        drainingSessions := drainingSessions - 1;
      }
    }

    method Record(reason: C.Reason)
      modifies this`reasons, this`recent, this`history
      ensures State() == C.Record(old(State()), reason)
      ensures recent == if |old(recent)| < 64 then old(recent) + [reason] else old(recent)[1..] + [reason]
      ensures history == old(history) + [reason] && reasons == old(reasons) + multiset{reason}
    {
      reasons := reasons + multiset{reason};
      recent := recent + [reason];
      history := history + [reason];
      if |recent| > C.RECENT_LIMIT { recent := recent[1..]; }
    }

    method Refused()
      requires Valid()
      modifies this
      ensures State() == C.Next(old(State()), C.Refuses)
      ensures Valid()
    {
      C.StepKeepsExactly(State(), C.Refuses, 0);
      Record(C.AdmissionRefused);
      refusals := refusals + 1;
    }

    method LeaveGauge(entry: C.Entry)
      modifies this`logicalSessions, this`initializingSessions
      ensures logicalSessions == old(logicalSessions) - if entry.initialized then 1 else 0
      ensures initializingSessions == old(initializingSessions) - if entry.initialized then 0 else 1
    {
      if entry.initialized {
        logicalSessions := logicalSessions - 1;
      } else {
        initializingSessions := initializingSessions - 1;
      }
    }

    method CloseEntry(i: nat, reason: C.Reason)
      requires i < |entries|
      modifies this`entries, this`retained, this`logicalSessions, this`initializingSessions, this`drainingSessions
      ensures State() == C.CloseEntry(old(State()), i, reason)
    {
      ghost var t := C.CloseEntry(State(), i, reason);
      var entry := entries[i];
      entries := entries[i := entry.(closing := C.Closed(reason))];
      LeaveGauge(entry);
      assert entries == t.entries && logicalSessions == t.logical && initializingSessions == t.initializing;
      if C.Busy(entry) {
        drainingSessions := drainingSessions + 1;
      } else {
        retained := retained - {i};
      }
    }

    method Close(i: nat, reason: C.Reason)
      requires Valid()
      requires i < |entries|
      modifies this
      ensures State() == C.Next(old(State()), C.Closes(i, reason))
      ensures Valid()
      ensures old(entries[i].closing.Open?) ==>
        && entries[i].closing == C.Closed(reason) && reasons == old(reasons) + multiset{reason}
        && (i in retained <==> entries[i].gauges.operations != 0 || entries[i].gauges.openResponses != 0)
        && logicalSessions == old(logicalSessions) - (if entries[i].initialized then 1 else 0)
        && initializingSessions == old(initializingSessions) - (if entries[i].initialized then 0 else 1)
    {
      C.StepKeepsExactly(State(), C.Closes(i, reason), 0);
      if entries[i].closing.Closed? { return; }
      CloseEntry(i, reason);
      Record(reason);
    }

    /** The part of `snapshot` that changes state: closures older than its window, `isOld`, are dropped from the front. */
    method DropOld(isOld: nat -> bool) returns (n: nat)
      requires Valid()
      modifies this`recent
      ensures Valid()
      ensures n <= |old(recent)| && State() == C.Next(old(State()), C.Trims(n))
      ensures (forall k :: 0 <= k < n ==> isOld(k)) && (n < |old(recent)| ==> !isOld(n))
    {
      n := 0;
      while |recent| > 0 && isOld(n)
        invariant n <= |old(recent)| && recent == old(recent)[n..]
        invariant forall k :: 0 <= k < n ==> isOld(k)
        decreases |recent|
      {
        recent := recent[1..];
        n := n + 1;
      }
      C.TrimKeeps(old(State()), n, 0);
    }
  }
}
