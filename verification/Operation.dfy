/** Mutations (operation.Service): preview tokens, the durable operation rows with their request and command ledgers,
    and the threads that execute, dispatch and cancel. The durable DISPATCHING record precedes the network. */
module Operation {
  import opened Wrappers

  type OpId = string

  datatype State =
    | Queued | Dispatching | Succeeded | Rejected | OutcomeUnknown
    | RejectedNotSent | FailedInternalNotSent | CanceledNotSent | InterruptedNotSent

  datatype Row = Row(state: State, terminal: bool, revision: nat, attempted: bool, cancelRequested: bool)

  datatype Entry = Entry(digest: string, op: OpId)

  datatype Error =
    | PreviewExpired | ConfirmationMismatch | IdempotencyConflict | CommandConflict | RevisionConflict | StateConflict
    | NotFound | UniqueConstraint

  /** tasks and operations rows, idempotency_ledger and command_ledger. */
  datatype Db = Db(rows: map<OpId, Row>, requests: map<string, Entry>, commands: map<string, Entry>)

  predicate NotSent(state: State) {
    state in {RejectedNotSent, FailedInternalNotSent, CanceledNotSent, InterruptedNotSent}
  }

  // ---------------------------------------------------------------- transactions

  datatype Token = Token(confirmation: Option<string>, expires: nat)

  datatype ExecuteRequest = ExecuteRequest(token: string, scope: string, digest: string, confirmation: string)

  function Create(db: Db, req: ExecuteRequest, op: OpId): (Db, Result<OpId, Error>) {
    if req.scope in db.requests then
      (db, if db.requests[req.scope].digest != req.digest then Err(IdempotencyConflict) else Ok(db.requests[req.scope].op))
    else if op in db.rows then (db, Err(UniqueConstraint))
    else (db.(rows := db.rows[op := Row(Queued, false, 1, false, false)],
              requests := db.requests[req.scope := Entry(req.digest, op)]), Ok(op))
  }

  /** QUEUED to DISPATCHING, and nothing else. */
  function Transition(db: Db, op: OpId): (Db, bool) {
    if op !in db.rows || db.rows[op].terminal || db.rows[op].state != Queued then (db, false)
    else (db.(rows := db.rows[op := db.rows[op].(state := Dispatching, attempted := true,
                                                 revision := db.rows[op].revision + 1)]), true)
  }

  /** The first terminal state stays. */
  function Finish(db: Db, op: OpId, state: State): Db {
    if op !in db.rows || db.rows[op].terminal then db
    else db.(rows := db.rows[op := db.rows[op].(state := state, terminal := true, revision := db.rows[op].revision + 1)])
  }

  datatype CancelRequest = CancelRequest(scope: string, digest: string, expected: nat)

  datatype Cancellation = Refused(error: Error) | Replay | Satisfied | Applied

  function ApplyCancel(db: Db, op: OpId, req: CancelRequest, started: bool, allowActive: bool): (Db, Cancellation) {
    if req.scope in db.commands then
      (db, if db.commands[req.scope] != Entry(req.digest, op) then Refused(CommandConflict)
           else if op !in db.rows then Refused(NotFound) else Replay)
    else if op !in db.rows then (db, Refused(NotFound))
    else
      var row := db.rows[op];
      var recorded := db.commands[req.scope := Entry(req.digest, op)];
      if row.state == CanceledNotSent || row.cancelRequested then (db.(commands := recorded), Satisfied)
      else if row.revision != req.expected then (db, Refused(RevisionConflict))
      else if row.terminal || !allowActive then (db, Refused(StateConflict))
      else if started && row.state != Dispatching then (db, Refused(StateConflict))
      else if !started && row.state != Queued && row.state != Dispatching then (db, Refused(StateConflict))
      else
        var after := if started then row.(revision := row.revision + 1, cancelRequested := true)
                     else Row(CanceledNotSent, true, row.revision + 1, row.attempted, true);
        (db.(rows := db.rows[op := after], commands := recorded), Applied)
  }

  /** RecoverCore for one operation row. */
  function RecoverRow(row: Row): Row {
    if row.terminal then row
    else if row.state == Queued then row.(state := InterruptedNotSent, terminal := true, revision := row.revision + 1)
    else if row.state == Dispatching then row.(state := OutcomeUnknown, terminal := true, revision := row.revision + 1)
    else row
  }

  function Recover(db: Db): Db {
    db.(rows := map op | op in db.rows :: RecoverRow(db.rows[op]))
  }

  // ---------------------------------------------------------------- threads

  datatype Proc =
    // Execute: before its transaction, and between the transaction and the registration of the control
    | Execute(req: ExecuteRequest) | Created(token: string, op: OpId)
    // dispatch, named after what it has done
    | Waiting | InGate | Persisted | Sent | Started | Awaiting | NotBegun(persistAttempted: bool) | Finished
    // Cancel: before its ledger lookup, with the control it found, at the gate, inside with what it read
    | Cancel(op: OpId, cancel: CancelRequest) | Uncontrolled(op: OpId, cancel: CancelRequest)
    | AtGate(op: OpId, cancel: CancelRequest) | Inside(op: OpId, cancel: CancelRequest)
    | Read(op: OpId, cancel: CancelRequest, started: bool)
    | Done

  /** An operation has at most the one dispatch goroutine that Execute starts. */
  datatype Tid = Dispatch(op: OpId) | Client(n: nat)

  /** Tokens, registered controls and their started flags, and who holds the token mutex. */
  datatype Memory = Memory(tokens: map<string, Token>, controls: set<OpId>, started: set<OpId>, tokensMu: Option<Tid>)

  /** `sent` lists the operations whose round trip was entered, in order. */
  datatype Sys = Sys(db: Db, memory: Memory, gate: Option<Tid>, threads: map<Tid, Proc>, sent: seq<OpId>)

  /** What the outside decides: the clock, a fresh id, whether the gate admits, whether a write or a send works, the
      classified response. */
  datatype Input = Input(now: nat, id: OpId, ok: bool, outcome: State)

  function Goto(s: Sys, t: Tid, p: Proc): Sys {
    s.(threads := s.threads[t := p])
  }

  function Alive(tokens: map<string, Token>, now: nat): map<string, Token> {
    map k | k in tokens && now < tokens[k].expires :: tokens[k]
  }

  /** Execute up to its commit, under the token mutex. */
  function StepExecute(s: Sys, t: Tid, req: ExecuteRequest, i: Input): Sys {
    var db, tokens := s.db, Alive(s.memory.tokens, i.now);
    var purged := s.(memory := s.memory.(tokens := tokens));
    if s.memory.tokensMu.Some? then s
    else if req.scope in db.requests then Goto(s, t, Done)
    else if req.token !in tokens then Goto(purged, t, Done)
    else if tokens[req.token].confirmation.Some? && tokens[req.token].confirmation != Some(req.confirmation) then Goto(purged, t, Done)
    else
      var (after, result) := Create(db, req, i.id);
      if result.Err? then Goto(purged, t, Done)
      else Goto(Sys(after, s.memory.(tokens := tokens, tokensMu := Some(t)), s.gate, s.threads, s.sent), t, Created(req.token, i.id))
  }

  /** The token is spent, the control is registered and the dispatch goroutine starts. */
  function StepCreated(s: Sys, t: Tid, token: string, op: OpId): Sys {
    var memory := Memory(s.memory.tokens - {token}, s.memory.controls + {op}, s.memory.started, None);
    s.(memory := memory, threads := s.threads[t := Done][Dispatch(op) := Waiting])
  }

  function StepDispatch(s: Sys, t: Tid, op: OpId, p: Proc, i: Input): Sys {
    match p
    case Waiting =>
      if !i.ok then Goto(s, t, NotBegun(false))
      else if s.gate.None? then Goto(s.(gate := Some(t)), t, InGate)
      else s
    case InGate =>
      var (db, ok) := Transition(s.db, op);
      if ok && i.ok then Goto(s.(db := db), t, Persisted) else Goto(s.(gate := None), t, NotBegun(true))
    case Persisted =>
      if i.ok then Goto(s.(sent := s.sent + [op]), t, Sent) else Goto(s.(gate := None), t, NotBegun(true))
    case Sent => Goto(s.(memory := s.memory.(started := s.memory.started + {op})), t, Started)
    case Started => Goto(s.(gate := None), t, Awaiting)
    case Awaiting => Goto(if i.ok then s.(db := Finish(s.db, op, Answer(i.outcome))) else s, t, Finished)
    case NotBegun(persistAttempted) =>
      Goto(if i.ok then s.(db := Finish(s.db, op, if persistAttempted then FailedInternalNotSent else RejectedNotSent)) else s, t, Finished)
    case Finished => Goto(s.(memory := s.memory.(controls := s.memory.controls - {op})), t, Done)
    case _ => s
  }

  /** classifyMutationResponse has these three answers. */
  function Answer(outcome: State): State {
    if outcome == Succeeded || outcome == Rejected then outcome else OutcomeUnknown
  }

  function StepCancel(s: Sys, t: Tid, p: Proc): Sys {
    match p
    case Cancel(op, req) =>
      if req.scope in s.db.commands || op !in s.db.rows then Goto(s, t, Done)
      else if op in s.memory.controls then Goto(s, t, AtGate(op, req))
      else Goto(s, t, Uncontrolled(op, req))
    case Uncontrolled(op, req) => Goto(s.(db := ApplyCancel(s.db, op, req, false, false).0), t, Done)
    case AtGate(op, req) => if s.gate.None? then Goto(s.(gate := Some(t)), t, Inside(op, req)) else s
    case Inside(op, req) => Goto(s, t, Read(op, req, op in s.memory.started))
    case Read(op, req, started) => Goto(s.(db := ApplyCancel(s.db, op, req, started, true).0, gate := None), t, Done)
    case _ => s
  }

  function Step(s: Sys, t: Tid, p: Proc, i: Input): Sys {
    if t.Dispatch? then StepDispatch(s, t, t.op, p, i)
    else match p
      case Execute(req) => StepExecute(s, t, req, i)
      case Created(token, op) => StepCreated(s, t, token, op)
      case _ => StepCancel(s, t, p)
  }

  datatype Action =
    | Preview(token: string, record: Token)
    | Call(n: nat, proc: Proc)
    | Run(tid: Tid, input: Input)
    | CrashAndRecover

  function Next(s: Sys, a: Action): Sys {
    match a
    case Preview(token, record) =>
      if s.memory.tokensMu.Some? || token in s.memory.tokens then s
      else s.(memory := s.memory.(tokens := s.memory.tokens[token := record]))
    case Call(n, p) => if Client(n) in s.threads || !(p.Execute? || p.Cancel?) then s else Goto(s, Client(n), p)
    case Run(t, i) =>
      if t !in s.threads then s
      else Step(s, t, s.threads[t], i)
    case CrashAndRecover => Sys(Recover(s.db), Memory(map[], {}, {}, None), None, map[], s.sent)
  }

  function Empty(): Sys {
    Sys(Db(map[], map[], map[]), Memory(map[], {}, {}, None), None, map[], [])
  }

  function After(actions: seq<Action>): Sys {
    if actions == [] then Empty() else Next(After(actions[..|actions| - 1]), actions[|actions| - 1])
  }
}
