/** The durable side of operation.Service: one method per transaction, statement by statement. */
module OperationStore {
  import opened Wrappers
  import opened Operation

  class Store {
    var rows: map<OpId, Row>
    var requests: map<string, Entry>
    var commands: map<string, Entry>

    function Db(): Db
      reads this
    {
      Operation.Db(rows, requests, commands)
    }

    constructor ()
      ensures Db() == Empty().db
    {
      rows, requests, commands := map[], map[], map[];
    }

    method Create(req: ExecuteRequest, op: OpId) returns (result: Result<OpId, Error>)
      modifies this
      ensures (Db(), result) == Operation.Create(old(Db()), req, op)
    {
      if req.scope in requests {
        if requests[req.scope].digest != req.digest { return Err(IdempotencyConflict); }
        return Ok(requests[req.scope].op);
      }
      if op in rows { return Err(UniqueConstraint); }
      rows := rows[op := Row(Queued, false, 1, false, false)];
      requests := requests[req.scope := Entry(req.digest, op)];
      return Ok(op);
    }

    method Transition(op: OpId) returns (ok: bool)
      modifies this`rows
      ensures (Db(), ok) == Operation.Transition(old(Db()), op)
    {
      if op !in rows || rows[op].terminal || rows[op].state != Queued { return false; }
      var row := rows[op];
      row := row.(state := Dispatching, revision := row.revision + 1);
      row := row.(attempted := true);
      rows := rows[op := row];
      return true;
    }

    method Finish(op: OpId, state: State)
      modifies this`rows
      ensures Db() == Operation.Finish(old(Db()), op, state)
    {
      if op !in rows || rows[op].terminal { return; }
      var row := rows[op];
      row := row.(terminal := true, revision := row.revision + 1);
      row := row.(state := state);
      rows := rows[op := row];
    }

    method ApplyCancel(op: OpId, req: CancelRequest, started: bool, allowActive: bool) returns (answer: Cancellation)
      modifies this
      ensures (Db(), answer) == Operation.ApplyCancel(old(Db()), op, req, started, allowActive)
    {
      if req.scope in commands {
        if commands[req.scope] != Entry(req.digest, op) { return Refused(CommandConflict); }
        if op !in rows { return Refused(NotFound); }
        return Replay;
      }
      if op !in rows { return Refused(NotFound); }
      var row := rows[op];
      if row.state == CanceledNotSent || row.cancelRequested {
        commands := commands[req.scope := Entry(req.digest, op)];
        return Satisfied;
      }
      if row.revision != req.expected { return Refused(RevisionConflict); }
      if row.terminal || !allowActive { return Refused(StateConflict); }
      if started {
        if row.state != Dispatching { return Refused(StateConflict); }
      } else {
        if row.state != Queued && row.state != Dispatching { return Refused(StateConflict); }
        row := row.(state := CanceledNotSent, terminal := true);
      }
      row := row.(revision := row.revision + 1);
      row := row.(cancelRequested := true);
      rows := rows[op := row];
      commands := commands[req.scope := Entry(req.digest, op)];
      return Applied;
    }

    /** RecoverCore: every operation that was open becomes terminal, one row at a time in one transaction. */
    method RecoverCore() returns (changed: nat)
      modifies this`rows
      ensures Db() == Recover(old(Db()))
      ensures changed == |set op | op in old(rows) && RecoverRow(old(rows)[op]) != old(rows)[op]|
    {
      var before := rows;
      var left := set op | op in rows && !rows[op].terminal && (rows[op].state == Queued || rows[op].state == Dispatching);
      assert left == set op | op in before && RecoverRow(before[op]) != before[op];
      ghost var all := left;
      changed := 0;
      while left != {}
        invariant left <= all && changed + |left| == |all| && rows.Keys == before.Keys
        invariant forall op :: op in left ==> op in before && RecoverRow(before[op]) != before[op]
        invariant forall op :: op in before ==> rows[op] == if op in left then before[op] else RecoverRow(before[op])
        decreases |left|
      {
        var op :| op in left;
        var row := rows[op];
        row := row.(state := if row.state == Queued then InterruptedNotSent else OutcomeUnknown);
        row := row.(terminal := true, revision := row.revision + 1);
        rows := rows[op := row];
        left := left - {op};
        changed := changed + 1;
      }
      assert rows == map op | op in before :: RecoverRow(before[op]);
    }
  }
}
