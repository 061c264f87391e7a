/** protection.Manager for one connection generation: the gate, the lock waiters, the durable snapshot and command
    ledger, and the process-local lease. Every critical section is a function on the state it reads and writes;
    every thread is a program counter that runs its sections one at a time, interleaved with all others. */
module Protection {
  import opened Wrappers

  const UNLOCK_DURATION: nat := 600_000_000_000

  datatype Mode = PermanentReadOnly | ProtectedLocked | ProtectedUnlocked

  datatype Error = LockPending | ConnectionClosed | RevisionConflict | IsLocked | BindingMismatch | LeaseRanOut | CommandConflict

  /** The protection_snapshots row. */
  datatype Row = Row(revision: nat, mode: Mode, closed: bool)

  datatype Entry = Entry(digest: string, code: Option<Error>, applied: Option<nat>)

  datatype Lease = Lease(id: string, expires: nat)

  datatype Memory = Memory(revision: nat, mode: Mode, lease: Option<Lease>, closed: bool, profileRevision: string)

  datatype Binding = Binding(profileRevision: string, revision: nat, lease: string)

  /** What an authorized section does: enter a network round trip, commit a run segment, publish a grant. */
  datatype Use = RoundTrip | RunCommit | GrantIssue

  /** protection_events, plus the authorized uses in the order in which they happened. */
  datatype Event =
    | Unlocked(scope: string, revision: nat, lease: string)
    | Locked(scope: string, revision: nat)
    | LeaseExpired(revision: nat)
    | GenerationClosed
    | LockedOnRestart(revision: nat)
    | Used(use: Use, binding: Binding)

  datatype Core = Core(row: Row, memory: Memory, ledger: map<string, Entry>, log: seq<Event>)

  datatype Command = Command(scope: string, digest: string, expected: nat)

  datatype Outcome = Applied(revision: nat) | Replayed | Failed(error: Error)

  // ---------------------------------------------------------------- critical sections

  function LeaseIsOver(m: Memory, now: nat): bool {
    m.mode == ProtectedUnlocked && m.lease.Some? && now >= m.lease.value.expires
  }

  /** The durable half of reconcileExpiredLeaseUnderGate. */
  function ExpireTx(c: Core): Core {
    if c.row.closed || c.row.mode != ProtectedUnlocked then c
    else c.(row := Row(c.row.revision + 1, ProtectedLocked, false), log := c.log + [LeaseExpired(c.row.revision + 1)])
  }

  function ExpireMemory(c: Core): Core {
    c.(memory := c.memory.(revision := c.row.revision, mode := c.row.mode, lease := None,
                           closed := c.memory.closed || c.row.closed))
  }

  /** A committed command answers again what it answered first. */
  function Replay(entry: Entry, digest: string): Outcome {
    if entry.digest != digest then Failed(CommandConflict)
    else if entry.code.Some? then Failed(entry.code.value)
    else Replayed
  }

  function Insert(c: Core, cmd: Command, code: Option<Error>, applied: Option<nat>): map<string, Entry> {
    c.ledger[cmd.scope := Entry(cmd.digest, code, applied)]
  }

  /** persistCommandRejection: the refusal itself becomes the command's durable answer. */
  function RejectTx(c: Core, cmd: Command, error: Error): (Core, Outcome) {
    if cmd.scope in c.ledger then (c, Replay(c.ledger[cmd.scope], cmd.digest))
    else (c.(ledger := Insert(c, cmd, Some(error), None)), Failed(error))
  }

  function UnlockRefusal(row: Row, expected: nat): Option<Error> {
    if row.closed then Some(ConnectionClosed)
    else if row.revision != expected then Some(RevisionConflict)
    else if row.mode == PermanentReadOnly then Some(IsLocked)
    else None
  }

  function UnlockTx(c: Core, cmd: Command, lease: string): (Core, Outcome) {
    if cmd.scope in c.ledger then (c, Replay(c.ledger[cmd.scope], cmd.digest))
    else if UnlockRefusal(c.row, cmd.expected).Some? then
      var error := UnlockRefusal(c.row, cmd.expected).value;
      (c.(ledger := Insert(c, cmd, Some(error), None)), Failed(error))
    else
      var revision := c.row.revision + 1;
      (c.(row := Row(revision, ProtectedUnlocked, false), ledger := Insert(c, cmd, None, Some(revision)),
          log := c.log + [Unlocked(cmd.scope, revision, lease)]), Applied(revision))
  }

  function UnlockMemory(c: Core, revision: nat, lease: Lease): Core {
    c.(memory := c.memory.(revision := revision, mode := ProtectedUnlocked, lease := Some(lease)))
  }

  function LockMode(mode: Mode): Mode {
    if mode == PermanentReadOnly then PermanentReadOnly else ProtectedLocked
  }

  function LockTx(c: Core, cmd: Command): (Core, Outcome) {
    if cmd.scope in c.ledger then (c, Replay(c.ledger[cmd.scope], cmd.digest))
    else if c.row.closed then (c.(ledger := Insert(c, cmd, Some(ConnectionClosed), None)), Failed(ConnectionClosed))
    else
      var revision := c.row.revision + 1;
      (c.(row := Row(revision, LockMode(c.row.mode), false), ledger := Insert(c, cmd, None, Some(revision)),
          log := c.log + [Locked(cmd.scope, revision)]), Applied(revision))
  }

  /** A replayed lock keeps the in-memory snapshot when it is already at the durable revision. */
  function LockMemory(c: Core, replayed: bool): Core {
    if replayed && c.memory.revision == c.row.revision then c.(memory := c.memory.(lease := None))
    else c.(memory := c.memory.(revision := c.row.revision, mode := c.row.mode, lease := None))
  }

  function CloseTx(c: Core): Core {
    c.(row := Row(c.row.revision, LockMode(c.row.mode), true), log := c.log + [GenerationClosed])
  }

  function CloseMemory(c: Core): Core {
    c.(memory := c.memory.(mode := LockMode(c.memory.mode), lease := None, closed := true))
  }

  /** validateDispatchLocked. */
  function Validate(m: Memory, waiters: int, b: Binding, now: nat): Option<Error> {
    if waiters != 0 then Some(LockPending)
    else if m.closed then Some(ConnectionClosed)
    else if m.profileRevision != b.profileRevision || m.revision != b.revision then Some(BindingMismatch)
    else if m.mode != ProtectedUnlocked || m.lease.None? || m.lease.value.id != b.lease then Some(IsLocked)
    else if now >= m.lease.value.expires then Some(LeaseRanOut)
    else None
  }

  function CurrentBinding(m: Memory): Binding
    requires m.lease.Some?
  {
    Binding(m.profileRevision, m.revision, m.lease.value.id)
  }

  /** The process dies and Recover rebuilds the gate: a persisted unlock is locked again, no lease survives. */
  function Restart(c: Core): Core {
    var row := if !c.row.closed && c.row.mode == ProtectedUnlocked then Row(c.row.revision + 1, ProtectedLocked, false) else c.row;
    c.(row := row, log := if row != c.row then c.log + [LockedOnRestart(row.revision)] else c.log,
       memory := Memory(row.revision, row.mode, None, row.closed, c.memory.profileRevision))
  }

  // ---------------------------------------------------------------- threads

  datatype Op = Unlock(cmd: Command) | Lock(cmd: Command) | Close | Authorize(use: Use, binding: Binding) | Grant | Look | Control

  /** A durable change of the protection state that memory does not show yet. */
  datatype Change = ToUnlocked(revision: nat, lease: Lease) | ToLocked(replayed: bool) | ToClosed | ToExpired

  datatype Pc =
    | Entered | LookedUp | Rejecting(holding: bool) | Marked | Waiting | Held | Checked | Fresh
    | Validated(binding: Binding) | Persisted(binding: Binding) | Committed(change: Change)
    | Finishing | Releasing | Done

  datatype Proc = Proc(op: Op, pc: Pc)

  type Tid = nat

  datatype Sys = Sys(core: Core, waiters: int, holder: Option<Tid>, threads: map<Tid, Proc>)

  /** What the outside decides in one step: the clock, the random lease, a callback's success, a cancellation. */
  datatype Input = Input(now: nat, lease: string, ok: bool, cancel: bool)

  function At(s: Sys, t: Tid, pc: Pc): Sys
    requires t in s.threads
  {
    s.(threads := s.threads[t := Proc(s.threads[t].op, pc)])
  }

  function Set(s: Sys, t: Tid, core: Core, pc: Pc): Sys
    requires t in s.threads
  {
    Sys(core, s.waiters, s.holder, s.threads[t := Proc(s.threads[t].op, pc)])
  }

  function Acquire(s: Sys, t: Tid, cancel: bool): Sys
    requires t in s.threads
  {
    if cancel then At(s, t, Done)
    else if s.holder.None? then At(s.(holder := Some(t)), t, Held)
    else s
  }

  function Release(s: Sys, t: Tid, pc: Pc): Sys
    requires t in s.threads
  {
    At(s.(holder := None), t, pc)
  }

  /** reconcileExpiredLeaseUnderGate: the durable half when the lease is over, nothing otherwise. */
  function Reconcile(s: Sys, t: Tid, now: nat): Sys
    requires t in s.threads
  {
    if LeaseIsOver(s.core.memory, now) then Set(s, t, ExpireTx(s.core), Committed(ToExpired)) else At(s, t, Fresh)
  }

  /** A ledger hit is answered under the gate, after a reconciliation. */
  function LookUp(s: Sys, t: Tid, cmd: Command): Sys
    requires t in s.threads
  {
    if cmd.scope !in s.core.ledger then At(s, t, LookedUp)
    else if s.core.ledger[cmd.scope].digest != cmd.digest then At(s, t, Done)
    else s.(threads := s.threads[t := Proc(Look, Waiting)])
  }

  function StepUnlock(s: Sys, t: Tid, cmd: Command, pc: Pc, i: Input): Sys
    requires t in s.threads
  {
    match pc
    case Entered => LookUp(s, t, cmd)
    case LookedUp => if s.waiters != 0 then At(s, t, Rejecting(false)) else At(s, t, Waiting)
    case Rejecting(holding) => Set(s, t, RejectTx(s.core, cmd, LockPending).0, if holding then Releasing else Done)
    case Waiting => Acquire(s, t, i.cancel)
    case Held => if s.waiters != 0 then At(s, t, Rejecting(true)) else At(s, t, Checked)
    case Checked => Reconcile(s, t, i.now)
    case Fresh =>
      var (core, outcome) := UnlockTx(s.core, cmd, i.lease);
      if outcome.Applied? then Set(s, t, core, Committed(ToUnlocked(outcome.revision, Lease(i.lease, i.now + UNLOCK_DURATION))))
      else Set(s, t, core, Releasing)
    case Committed(ToExpired) => Set(s, t, ExpireMemory(s.core), Fresh)
    case Committed(ToUnlocked(revision, lease)) => Set(s, t, UnlockMemory(s.core, revision, lease), Releasing)
    case Releasing => Release(s, t, Done)
    case _ => s
  }

  /** After Marked the command ignores cancellation. */
  function StepLock(s: Sys, t: Tid, cmd: Command, pc: Pc): Sys
    requires t in s.threads
  {
    match pc
    case Entered => LookUp(s, t, cmd)
    case LookedUp => At(s.(waiters := s.waiters + 1), t, Marked)
    case Marked => Acquire(s, t, false)
    case Held =>
      var (core, outcome) := LockTx(s.core, cmd);
      if outcome.Failed? then Set(s, t, core, Finishing) else Set(s, t, core, Committed(ToLocked(outcome.Replayed?)))
    case Committed(ToLocked(replayed)) => Set(s, t, LockMemory(s.core, replayed), Finishing)
    case Finishing => At(s.(waiters := s.waiters - 1), t, Releasing)
    case Releasing => Release(s, t, Done)
    case _ => s
  }

  function StepClose(s: Sys, t: Tid, pc: Pc): Sys
    requires t in s.threads
  {
    match pc
    case Entered => At(s.(waiters := s.waiters + 1), t, Marked)
    case Marked => Acquire(s, t, false)
    case Held => Set(s, t, CloseTx(s.core), Committed(ToClosed))
    case Committed(ToClosed) => Set(s, t, CloseMemory(s.core), Finishing)
    case Finishing => At(s.(waiters := s.waiters - 1), t, Releasing)
    case Releasing => Release(s, t, Done)
    case _ => s
  }

  /** BeginMutationDispatch and WithAuthorizedGate; only a round trip has a durable dispatch record first. */
  function StepAuthorize(s: Sys, t: Tid, use: Use, b: Binding, pc: Pc, i: Input): Sys
    requires t in s.threads
  {
    match pc
    case Entered => if s.waiters != 0 then At(s, t, Done) else At(s, t, Waiting)
    case Waiting => Acquire(s, t, i.cancel)
    case Held => Reconcile(s, t, i.now)
    case Committed(ToExpired) => Set(s, t, ExpireMemory(s.core), Releasing)
    case Fresh => if Validate(s.core.memory, s.waiters, b, i.now).None? then At(s, t, Validated(b)) else At(s, t, Releasing)
    case Validated(binding) =>
      if use != RoundTrip then Set(s, t, s.core.(log := s.core.log + [Used(use, binding)]), Releasing)
      else if i.ok then At(s, t, Persisted(binding)) else At(s, t, Releasing)
    case Persisted(binding) => Set(s, t, s.core.(log := s.core.log + [Used(use, binding)]), Releasing)
    case Releasing => Release(s, t, Done)
    case _ => s
  }

  /** WithGrantBinding: an expiry noticed between its two clock reads sends it round the loop again. */
  function StepGrant(s: Sys, t: Tid, pc: Pc, i: Input): Sys
    requires t in s.threads
  {
    var m := s.core.memory;
    match pc
    case Entered => if s.waiters != 0 then At(s, t, Done) else At(s, t, Waiting)
    case Waiting => Acquire(s, t, i.cancel)
    case Held => Reconcile(s, t, i.now)
    case Committed(ToExpired) => Set(s, t, ExpireMemory(s.core), Releasing)
    case Fresh =>
      if s.waiters != 0 || m.closed || m.mode != ProtectedUnlocked || m.lease.None? then At(s, t, Releasing)
      else if LeaseIsOver(m, i.now) then At(s, t, Held)
      else At(s, t, Validated(CurrentBinding(m)))
    case Validated(binding) =>
      Set(s, t, if i.ok then s.core.(log := s.core.log + [Used(GrantIssue, binding)]) else s.core, Releasing)
    case Releasing => Release(s, t, Done)
    case _ => s
  }

  /** Get on an expired lease, and the answer to a replayed command. */
  function StepLook(s: Sys, t: Tid, pc: Pc, i: Input): Sys
    requires t in s.threads
  {
    match pc
    case Entered => if LeaseIsOver(s.core.memory, i.now) then At(s, t, Waiting) else At(s, t, Done)
    case Waiting => Acquire(s, t, i.cancel)
    case Held => Reconcile(s, t, i.now)
    case Committed(ToExpired) => Set(s, t, ExpireMemory(s.core), Releasing)
    case Fresh => At(s, t, Releasing)
    case Releasing => Release(s, t, Done)
    case _ => s
  }

  /** WithGenerationGate: waits for pending locks to drain and gives the gate back when a new one arrived. */
  function StepControl(s: Sys, t: Tid, pc: Pc, i: Input): Sys
    requires t in s.threads
  {
    match pc
    case Entered => if i.cancel then At(s, t, Done) else if s.waiters != 0 then s else At(s, t, Waiting)
    case Waiting => Acquire(s, t, i.cancel)
    case Held => if s.waiters != 0 then Release(s, t, Entered) else At(s, t, Releasing)
    case Releasing => Release(s, t, Done)
    case _ => s
  }

  datatype Action = Spawn(tid: Tid, op: Op) | Run(tid: Tid, input: Input) | CrashAndRecover

  function Next(s: Sys, a: Action): Sys {
    match a
    case Spawn(t, op) => if t in s.threads then s else s.(threads := s.threads[t := Proc(op, Entered)])
    case Run(t, i) => if t !in s.threads then s else Step(s, t, s.threads[t].op, s.threads[t].pc, i)
    case CrashAndRecover => Sys(Restart(s.core), 0, None, map[])
  }

  function Step(s: Sys, t: Tid, op: Op, pc: Pc, i: Input): Sys
    requires t in s.threads
  {
    match op
    case Unlock(cmd) => StepUnlock(s, t, cmd, pc, i)
    case Lock(cmd) => StepLock(s, t, cmd, pc)
    case Close => StepClose(s, t, pc)
    case Authorize(use, b) => StepAuthorize(s, t, use, b, pc, i)
    case Grant => StepGrant(s, t, pc, i)
    case Look => StepLook(s, t, pc, i)
    case Control => StepControl(s, t, pc, i)
  }

  /** Register: revision 1, not unlocked, nobody inside. */
  predicate Registered(s: Sys) {
    && s.core.row.revision == 1 && s.core.row.mode != ProtectedUnlocked && !s.core.row.closed
    && s.core.memory == Memory(1, s.core.row.mode, None, false, s.core.memory.profileRevision)
    && s.core.ledger == map[] && s.core.log == []
    && s.waiters == 0 && s.holder == None && s.threads == map[]
  }

  function After(s: Sys, actions: seq<Action>): Sys {
    if actions == [] then s else Next(After(s, actions[..|actions| - 1]), actions[|actions| - 1])
  }
}
