/**
 * FileLogWriter (src/server/log-writer.ts) as an object. Each method is one synchronous stretch: a call, or
 * what the pruning does between two awaits.
 */
module FileLogWriters {
  import P = LogPruning

  class FileLogWriter {
    var testFiles: set<P.Id>
    var finishing: set<P.Id>
    var pruning: P.Phase
    var pruneAgain: bool
    var closing: bool
    var kept: set<(nat, P.Id)>
    var files: set<P.Entry>
    var first: nat
    var calls: nat
    ghost var outcomes: seq<P.Outcome>
    ghost var begun: nat
    ghost var present: set<P.Entry>
    ghost var spared: set<P.Entry>
    ghost var unlinked: set<P.Entry>

    ghost function State(): P.State
      reads this
    {
      P.State(testFiles, finishing, kept, files, pruning, pruneAgain, closing,
              first, calls, outcomes, begun, present, spared, unlinked)
    }

    /** Calls are settled or owned, and the scan has lost sight of no file. */
    ghost predicate Valid()
      reads this
    {
      P.Inv(State())
    }

    constructor (onDisk: set<P.Entry>)
      ensures Valid()
      ensures State() == P.Initial(onDisk)
    {
      testFiles, finishing, pruning, pruneAgain, closing := {}, {}, P.Idle, false, false;
      kept, files, first, calls, outcomes, begun := {}, onDisk, 0, 0, [], 0;
      present, spared, unlinked := {}, {}, {};
    }

    method OpenTest(runId: P.Id)
      requires Valid()
      modifies this
      ensures State() == P.Next(old(State()), P.Opens(runId))
      ensures old(P.UnlinksDead(State())) ==> (P.UnlinksDead(State()) <==> !old(P.Revives(State(), P.Opens(runId))))
      ensures Valid()
      ensures runId in testFiles <==> runId in old(testFiles) || !(old(closing) || runId in old(finishing))
    {
      P.StepKeeps(State(), P.Opens(runId));
      if closing || runId in testFiles || runId in finishing { return; }
      testFiles := testFiles + {runId};
    }

    method FinishTest(runId: P.Id)
      requires Valid()
      modifies this`testFiles, this`finishing
      ensures State() == P.Next(old(State()), P.Finishes(runId))
      ensures Valid()
      ensures runId !in testFiles && (runId in finishing <==> runId in old(finishing) || runId in old(testFiles))
    {
      P.StepKeeps(State(), P.Finishes(runId));
      if runId !in testFiles { return; }
      LeaveOpen(runId);
    }

    method LeaveOpen(runId: P.Id)
      modifies this`testFiles, this`finishing
      ensures testFiles == old(testFiles) - {runId} && finishing == old(finishing) + {runId}
    {
      testFiles, finishing := testFiles - {runId}, finishing + {runId};
    }

    method PruneTests()
      requires Valid()
      modifies this
      ensures State() == P.Next(old(State()), P.Calls)
      ensures Valid()
    {
      P.StepKeeps(State(), P.Calls);
      if closing { return; }
      pruneAgain := true;
      if pruning.Idle? {
        first, pruning := calls, P.Scheduled;
      }
      calls := calls + 1;
    }

    /** The microtask of a new pruning. */
    method StartPruning()
      requires Valid() && pruning.Scheduled?
      modifies this
      ensures State() == P.Next(old(State()), P.Begins)
      ensures Valid()
    {
      P.StepKeeps(State(), P.Begins);
      BeginScan();
    }

    /** An await of the pruning throws: its calls are rejected. */
    method PruningFails()
      requires Valid() && !pruning.Idle?
      modifies this
      ensures State() == P.Next(old(State()), P.Fails)
      ensures Valid()
    {
      P.StepKeeps(State(), P.Fails);
      SettleCalls(P.Rejected);
    }

    method BeginScan()
      modifies this
      ensures State() == P.Begin(old(State()))
    {
      pruneAgain, pruning, begun := false, P.Listing, calls;
    }

    method ListTests(entries: seq<P.Entry>)
      requires Valid()
      requires P.Enabled(State(), P.Lists(entries))
      modifies this
      ensures State() == P.Next(old(State()), P.Lists(entries))
      ensures Valid()
    {
      P.StepKeeps(State(), P.Lists(entries));
      pruning, present, spared, unlinked := P.Scanning(entries), files, {}, {};
    }

    /** `for await` takes its next entry, or the directory is exhausted and `do … while` decides. */
    method ScanOn()
      requires Valid()
      requires pruning.Scanning?
      modifies this
      ensures State() == P.Next(old(State()), P.Scans)
      ensures Valid()
    {
      P.StepKeeps(State(), P.Scans);
      if pruning.rest == [] {
        if pruneAgain { BeginScan(); } else { SettleCalls(P.Resolved); }
        return;
      }
      var entry, rest := pruning.rest[0], pruning.rest[1..];
      if entry.Other? || entry.id in testFiles || entry.id in finishing || (first, entry.id) in kept {
        pruning, spared := P.Scanning(rest), spared + {entry};
      } else {
        pruning := P.Unlinking(entry, rest);
      }
    }

    method UnlinkReturns()
      requires Valid()
      requires pruning.Unlinking?
      modifies this
      ensures State() == P.Next(old(State()), P.Unlinks)
      ensures Valid()
    {
      P.StepKeeps(State(), P.Unlinks);
      files, unlinked := files - {pruning.entry}, unlinked + {pruning.entry};
      pruning := P.Scanning(pruning.rest);
    }

    /** The `finally`: ownership is cleared, and every joined call has the one promise's outcome. */
    method SettleCalls(outcome: P.Outcome)
      modifies this
      ensures State() == P.Settle(old(State()), outcome)
    {
      outcomes := outcomes + if first <= calls then seq(calls - first, _ => outcome) else [];
      pruning, first := P.Idle, calls;
    }

    method Close()
      requires Valid()
      modifies this
      ensures State() == P.Next(old(State()), P.Closes)
      ensures Valid()
      ensures closing && (!old(closing) ==> testFiles == {} && finishing == old(finishing + testFiles))
    {
      P.StepKeeps(State(), P.Closes);
      if closing { return; }
      closing := true;
      LeaveAll();
    }

    /** The loop over the open logs, each of which is finished. */
    method LeaveAll()
      modifies this`testFiles, this`finishing
      ensures testFiles == {} && finishing == old(finishing + testFiles)
    {
      var open := testFiles;
      while testFiles != {}
        invariant testFiles <= open
        invariant finishing == old(finishing) + (open - testFiles)
        decreases |testFiles|
      {
        var id :| id in testFiles;
        LeaveOpen(id);
      }
    }
  }
}
