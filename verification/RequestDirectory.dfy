/**
 * The receipt operations of src/server/restore-requests.ts in one process, where a read and the write that
 * follows it are one synchronous stretch.
 */
module RequestDirectories {
  import opened Results
  import R = RestoreRequests

  class RequestDirectory {
    var receipts: map<R.Key, R.Record>
    var aliases: set<R.OperationId>
    var waiting: map<R.Pid, R.Phase>
    var nextId: R.OperationId
    var replies: seq<R.Reply>

    ghost function State(): R.State
      reads this
    {
      R.State(receipts, aliases, waiting, nextId, replies)
    }

    /** What calls hold is known, identifiers are unused, and between calls no rewrite is pending. */
    ghost predicate Valid()
      reads this
    {
      R.Calm(State())
    }

    constructor ()
      ensures Valid()
      ensures State() == R.INITIAL
    {
      receipts, aliases, waiting, nextId, replies := map[], {}, map[], 0, [];
    }

    /** The receipt, if there is one; its own temporary file is removed. */
    method ReadRecord(key: R.Key) returns (record: Option<R.Record>)
      modifies this`aliases
      ensures State() == R.Repair(old(State()), key)
      ensures record == if key in receipts then Some(receipts[key]) else None
    {
      if key !in receipts { return None; }
      aliases := aliases - {receipts[key].id};
      return Some(receipts[key]);
    }

    method Answer(reply: R.Reply)
      modifies this`replies
      ensures State() == R.Replying(old(State()), reply)
    {
      replies := replies + [reply];
    }

    /** An existing receipt is answered, or retried under a new operation; else validation may begin. */
    method PrepareRequest(p: R.Pid, key: R.Key, backup: nat)
      requires Valid()
      requires p !in waiting
      modifies this
      ensures State() == R.Settled(old(State()), R.Prepares(p, key, backup))
      ensures Valid()
      ensures R.PreparedAs(old(State()), State(), p, key, backup)
    {
      R.CallStaysCalm(State(), R.Prepares(p, key, backup));
      R.PrepareMeans(State(), p, key, backup);
      ReadOrRetry(p, key, backup);
    }

    method ReadOrRetry(p: R.Pid, key: R.Key, backup: nat)
      requires p !in waiting
      modifies this
      ensures State() == R.Settled(old(State()), R.Prepares(p, key, backup))
    {
      var record := ReadRecord(key);
      if record.None? {
        if |receipts| + |aliases| >= R.CAPACITY { Answer(R.Full); } else { waiting := waiting[p := R.Validating(key, backup)]; }
        return;
      }
      if record.value.backup != backup { Answer(R.Conflict); return; }
      if record.value.state.Failed? || record.value.state.Interrupted? {
        var retry := record.value.(id := nextId, state := R.Requested);
        nextId := nextId + 1;
        receipts := receipts[key := retry];
        Answer(R.Admitted(key, retry.id));
        assert waiting == waiting[p := R.Retrying(key, record.value)] - {p};
      } else {
        Answer(R.Admitted(key, record.value.id));
      }
    }

    /** After validation the file is written under a temporary name, linked, and read back. */
    method PublishRequest(p: R.Pid)
      requires Valid()
      requires p in waiting && waiting[p].Validating?
      modifies this
      ensures var t := R.Next(old(State()), R.Publishes(p));
              if p !in t.processes then State() == t
              else old(waiting[p].key !in receipts)
                   && State() == R.Published(old(State()), p, old(waiting[p].key), old(waiting[p].backup))
      ensures Valid()
      ensures var key, backup := old(waiting[p]).key, old(waiting[p]).backup;
              var r := old(receipts);
              && p !in waiting
              && (if key in r then
                    receipts == r && replies == old(replies)
                      + [if r[key].backup == backup then R.Admitted(key, r[key].id) else R.Conflict]
                  else if |r| + |old(aliases)| >= 1024 then receipts == r && replies == old(replies) + [R.Full]
                  else receipts == r[key := R.Record(old(nextId), backup, R.Requested)]
                       && replies == old(replies) + [R.Admitted(key, old(nextId))])
    {
      R.CallStaysCalm(State(), R.Publishes(p));
      if waiting[p].key !in receipts {
        R.PublishedStaysCalm(State(), p, waiting[p].key, waiting[p].backup);
      }
      Publish(p);
    }

    method Publish(p: R.Pid)
      requires p in waiting && waiting[p].Validating? && nextId !in aliases
      modifies this
      ensures var t := R.Next(old(State()), R.Publishes(p));
              if p !in t.processes then State() == t
              else old(waiting[p].key !in receipts)
                   && State() == R.Published(old(State()), p, old(waiting[p].key), old(waiting[p].backup))
    {
      var key, backup := waiting[p].key, waiting[p].backup;
      ghost var before := State();
      waiting := waiting - {p};
      var existing := ReadRecord(key);
      if existing.Some? {
        Answer(if existing.value.backup != backup then R.Conflict else R.Admitted(key, existing.value.id));
        return;
      }
      if |receipts| + |aliases| >= R.CAPACITY { Answer(R.Full); return; }
      var id := LinkRecord(key, backup);
      var accepted := ReadRecord(key);
      assert aliases == before.aliases;
      Answer(R.Admitted(key, accepted.value.id));
    }

    method LinkRecord(key: R.Key, backup: nat) returns (id: R.OperationId)
      requires key !in receipts && nextId !in aliases
      modifies this`receipts, this`aliases, this`nextId
      ensures id == old(nextId) && nextId == id + 1 && aliases == old(aliases)
      ensures receipts == old(receipts)[key := R.Record(id, backup, R.Requested)]
    {
      id := nextId;
      nextId := nextId + 1;
      aliases := aliases + {id};
      receipts := receipts[key := R.Record(id, backup, R.Requested)];
      aliases := aliases - {id};
    }

    method FinishRequest(p: R.Pid, key: R.Key, backup: nat, id: R.OperationId, outcome: R.Progress)
      requires Valid()
      requires p !in waiting && (outcome.Failed? || outcome.Interrupted?)
      modifies this
      ensures State() == R.Settled(old(State()), R.Finishes(p, key, backup, id, outcome))
      ensures Valid()
      ensures var r := old(receipts);
              if key in r && r[key].backup == backup && r[key].id == id && !r[key].state.Verified?
              then receipts == r[key := R.Record(id, backup, outcome)] else receipts == r
    {
      R.CallStaysCalm(State(), R.Finishes(p, key, backup, id, outcome));
      var record := ReadRecord(key);
      if record.None? || record.value.backup != backup { return; }
      if record.value.id != id { return; }
      if record.value.state.Verified? || record.value.state == outcome { return; }
      receipts := receipts[key := record.value.(state := outcome)];
      assert waiting == waiting[p := R.Finishing(key, record.value, outcome)] - {p};
    }

    /** `restored` says whether the database restore reached its verified state; otherwise the call throws. */
    method ExecuteRequest(p: R.Pid, key: R.Key, backup: nat, restored: bool)
      requires Valid()
      requires p !in waiting
      modifies this
      ensures var t := R.Next(old(State()), R.Executes(p, key, backup));
              State() == if restored || p !in t.processes then R.Settled(old(State()), R.Executes(p, key, backup))
                         else R.Next(t, R.Crashes(p))
      ensures Valid()
      ensures var r := old(receipts);
              if key in r && r[key].backup == backup && restored
              then receipts == r[key := R.Record(r[key].id, backup, R.Verified)] else receipts == r
    {
      R.CallStaysCalm(State(), R.Executes(p, key, backup));
      if p in R.Next(State(), R.Executes(p, key, backup)).processes {
        R.ThrownCallStaysCalm(State(), R.Executes(p, key, backup));
      }
      var record := ReadRecord(key);
      if record.None? || record.value.backup != backup { return; }
      if record.value.state.Verified? { return; }
      assert waiting == waiting[p := R.Restoring(key, record.value)] - {p};
      if restored {
        receipts := receipts[key := record.value.(state := R.Verified)];
      }
    }
  }
}
