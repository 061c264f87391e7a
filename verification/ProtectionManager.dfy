/** The connection state of protection.Manager as an object: each method runs the sections of one command under the
    gate, updating the durable row, the ledger and the process-local fields in the order of the source. */
module ProtectionManager {
  import opened Wrappers
  import opened Protection

  class ConnectionState {
    // durable
    var row: Row
    var ledger: map<string, Entry>
    var log: seq<Event>
    // process-local
    var lockWaiters: int
    var revision: nat
    var mode: Mode
    var lease: Option<Lease>
    var closed: bool
    const profileRevision: string

    function Core(): Core
      reads this
    {
      Protection.Core(row, Memory(revision, mode, lease, closed, profileRevision), ledger, log)
    }

    constructor (mode: Mode, profileRevision: string)
      requires mode != ProtectedUnlocked
      ensures Core() == Protection.Core(Row(1, mode, false), Memory(1, mode, None, false, profileRevision), map[], [])
      ensures lockWaiters == 0
    {
      row, ledger, log := Row(1, mode, false), map[], [];
      lockWaiters, revision, lease, closed := 0, 1, None, false;
      this.mode, this.profileRevision := mode, profileRevision;
    }

    method ReconcileExpiredLease(now: nat) returns (expired: bool)
      modifies this
      ensures lockWaiters == old(lockWaiters)
      ensures expired == LeaseIsOver(old(Core()).memory, now)
      ensures Core() == if expired then ExpireMemory(ExpireTx(old(Core()))) else old(Core())
    {
      expired := mode == ProtectedUnlocked && lease.Some? && now >= lease.value.expires;
      if !expired { return; }
      if !row.closed && row.mode == ProtectedUnlocked {
        row := row.(revision := row.revision + 1, mode := ProtectedLocked);
        log := log + [LeaseExpired(row.revision)];
      }
      revision, mode, lease := row.revision, row.mode, None;
      closed := closed || row.closed;
    }

    method Reject(cmd: Command, error: Error) returns (outcome: Outcome)
      modifies this
      ensures lockWaiters == old(lockWaiters)
      ensures (Core(), outcome) == RejectTx(old(Core()), cmd, error)
    {
      if cmd.scope in ledger { return Replay(ledger[cmd.scope], cmd.digest); }
      ledger := ledger[cmd.scope := Entry(cmd.digest, Some(error), None)];
      return Failed(error);
    }

    /** Unlock once the gate is held and the waiters were checked again. */
    method Unlock(cmd: Command, leaseId: string, now: nat, later: nat) returns (outcome: Outcome)
      requires lockWaiters == 0
      modifies this
      ensures lockWaiters == 0
      ensures var ready := if LeaseIsOver(old(Core()).memory, now) then ExpireMemory(ExpireTx(old(Core()))) else old(Core());
              var (durable, answer) := UnlockTx(ready, cmd, leaseId);
              outcome == answer
              && Core() == if answer.Applied? then UnlockMemory(durable, answer.revision, Lease(leaseId, later + UNLOCK_DURATION))
                           else durable
    {
      var _ := ReconcileExpiredLease(now);
      if cmd.scope in ledger { return Replay(ledger[cmd.scope], cmd.digest); }
      var refusal: Option<Error> := None;
      if row.closed {
        refusal := Some(ConnectionClosed);
      } else if row.revision != cmd.expected {
        refusal := Some(RevisionConflict);
      } else if row.mode == PermanentReadOnly {
        refusal := Some(IsLocked);
      }
      if refusal.Some? {
        ledger := ledger[cmd.scope := Entry(cmd.digest, refusal, None)];
        return Failed(refusal.value);
      }
      row := Row(row.revision + 1, ProtectedUnlocked, false);
      log := log + [Unlocked(cmd.scope, row.revision, leaseId)];
      ledger := ledger[cmd.scope := Entry(cmd.digest, None, Some(row.revision))];
      revision, mode, lease := row.revision, row.mode, Some(Lease(leaseId, later + UNLOCK_DURATION));
      return Applied(row.revision);
    }

    /** Lock from its accepted boundary to its end. */
    method Lock(cmd: Command) returns (outcome: Outcome)
      modifies this
      ensures lockWaiters == old(lockWaiters)
      ensures var (durable, answer) := LockTx(old(Core()), cmd);
              outcome == answer && Core() == if answer.Failed? then durable else LockMemory(durable, answer.Replayed?)
    {
      lockWaiters := lockWaiters + 1;
      if cmd.scope in ledger {
        outcome := Replay(ledger[cmd.scope], cmd.digest);
        if outcome.Replayed? {
          if revision != row.revision {
            revision, mode := row.revision, row.mode;
          }
          lease := None;
        }
      } else if row.closed {
        ledger := ledger[cmd.scope := Entry(cmd.digest, Some(ConnectionClosed), None)];
        outcome := Failed(ConnectionClosed);
      } else {
        row := row.(revision := row.revision + 1);
        if row.mode != PermanentReadOnly {
          row := row.(mode := ProtectedLocked);
        }
        log := log + [Locked(cmd.scope, row.revision)];
        ledger := ledger[cmd.scope := Entry(cmd.digest, None, Some(row.revision))];
        revision, mode, lease := row.revision, row.mode, None;
        outcome := Applied(row.revision);
      }
      lockWaiters := lockWaiters - 1;
    }

    method CloseGeneration()
      modifies this
      ensures lockWaiters == old(lockWaiters) && Core() == CloseMemory(CloseTx(old(Core())))
    {
      lockWaiters := lockWaiters + 1;
      if row.mode != PermanentReadOnly {
        row := row.(mode := ProtectedLocked);
      }
      row := row.(closed := true);
      log := log + [GenerationClosed];
      closed, lease := true, None;
      if mode != PermanentReadOnly {
        mode := ProtectedLocked;
      }
      lockWaiters := lockWaiters - 1;
    }

    /** BeginMutationDispatch: `persisted` says whether the durable dispatch record could be written. The round trip
        begins exactly when the answer is None. */
    method BeginMutationDispatch(b: Binding, now: nat, later: nat, persisted: bool) returns (refusal: Option<Error>, began: bool)
      modifies this
      ensures lockWaiters == old(lockWaiters)
      ensures old(lockWaiters) != 0 ==> refusal == Some(LockPending) && !began && Core() == old(Core())
      ensures old(lockWaiters) == 0 && LeaseIsOver(old(Core()).memory, now) ==>
                refusal == Some(LeaseRanOut) && !began && Core() == ExpireMemory(ExpireTx(old(Core())))
      ensures old(lockWaiters) == 0 && !LeaseIsOver(old(Core()).memory, now) ==>
                && refusal == Validate(old(Core()).memory, 0, b, later)
                && began == (refusal.None? && persisted)
                && Core() == if began then old(Core()).(log := old(Core()).log + [Used(RoundTrip, b)]) else old(Core())
    {
      if lockWaiters != 0 { return Some(LockPending), false; }
      var expired := ReconcileExpiredLease(now);
      if expired { return Some(LeaseRanOut), false; }
      if closed { return Some(ConnectionClosed), false; }
      if profileRevision != b.profileRevision || revision != b.revision { return Some(BindingMismatch), false; }
      if mode != ProtectedUnlocked || lease.None? || lease.value.id != b.lease { return Some(IsLocked), false; }
      if later >= lease.value.expires { return Some(LeaseRanOut), false; }
      if !persisted { return None, false; }
      log := log + [Used(RoundTrip, b)];
      return None, true;
    }

    /** Startup: whatever the process held is gone, and a persisted unlock is locked again. */
    method Recover()
      modifies this
      ensures lockWaiters == 0 && Core() == Restart(old(Core()))
    {
      if !row.closed && row.mode == ProtectedUnlocked {
        row := row.(revision := row.revision + 1, mode := ProtectedLocked);
        log := log + [LockedOnRestart(row.revision)];
      }
      lockWaiters, revision, mode, lease, closed := 0, row.revision, row.mode, None, row.closed;
    }
  }
}
