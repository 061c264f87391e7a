/** What every interleaving of the protection manager keeps: whatever crosses the gate was authorized by the latest
    unlock, and nothing between that unlock and the crossing took the authorization back. */
module ProtectionSafety {
  import opened Wrappers
  import opened Protection

  // ---------------------------------------------------------------- the log, read by itself

  /** The last event that changed the protection state. */
  function Latest(log: seq<Event>): Option<Event> {
    if log == [] then None
    else if log[|log| - 1].Used? then Latest(log[..|log| - 1])
    else Some(log[|log| - 1])
  }

  /** The revision after a log; a closing keeps the revision. */
  function Top(log: seq<Event>): nat {
    if log == [] then 1
    else match log[|log| - 1]
      case Unlocked(_, revision, _) => revision
      case Locked(_, revision) => revision
      case LeaseExpired(revision) => revision
      case LockedOnRestart(revision) => revision
      case _ => Top(log[..|log| - 1])
  }

  /** The event is in order after `log`: a change takes the next revision; a use has the revision and lease of the
      unlock that is the latest change. */
  predicate InOrder(log: seq<Event>, e: Event) {
    match e
    case Unlocked(_, revision, _) => revision == Top(log) + 1
    case Locked(_, revision) => revision == Top(log) + 1
    case LeaseExpired(revision) => revision == Top(log) + 1
    case LockedOnRestart(revision) => revision == Top(log) + 1
    case GenerationClosed => true
    case Used(_, b) => Latest(log).Some? && Latest(log).value.Unlocked?
                       && Latest(log).value.revision == b.revision && Latest(log).value.lease == b.lease
  }

  predicate Ordered(log: seq<Event>) {
    log == [] || (Ordered(log[..|log| - 1]) && InOrder(log[..|log| - 1], log[|log| - 1]))
  }

  function ScopeOf(e: Event): Option<string> {
    match e
    case Unlocked(scope, _, _) => Some(scope)
    case Locked(scope, _) => Some(scope)
    case _ => None
  }

  /** A command in the log is in the ledger with the revision it produced. */
  predicate InLedger(e: Event, ledger: map<string, Entry>) {
    ScopeOf(e).Some? ==> ScopeOf(e).value in ledger && ledger[ScopeOf(e).value].applied == Some(e.revision)
  }

  /** No two log events come from the same command. */
  predicate Distinct(log: seq<Event>, i: nat, j: nat)
    requires i < |log| && j < |log|
  {
    i == j || ScopeOf(log[i]).None? || ScopeOf(log[i]) != ScopeOf(log[j])
  }

  predicate Recorded(log: seq<Event>, ledger: map<string, Entry>) {
    && (forall i :: 0 <= i < |log| ==> InLedger(log[i], ledger))
    && (forall i, j :: 0 <= i < |log| && 0 <= j < |log| ==> Distinct(log, i, j))
  }

  /** A first-time command enters log and ledger together; other events leave the ledger alone. */
  lemma RecordedGrows(log: seq<Event>, ledger: map<string, Entry>, e: Event, ledger': map<string, Entry>)
    requires Recorded(log, ledger) && InLedger(e, ledger')
    requires if ScopeOf(e).Some? then ScopeOf(e).value !in ledger && ledger' == ledger[ScopeOf(e).value := ledger'[ScopeOf(e).value]]
             else ledger' == ledger
    ensures Recorded(log + [e], ledger')
  {
    var more := log + [e];
    forall i | 0 <= i < |more| ensures InLedger(more[i], ledger') {
      if i < |log| {
        assert InLedger(log[i], ledger);
      }
    }
    forall i, j | 0 <= i < |more| && 0 <= j < |more| ensures Distinct(more, i, j) {
      if i < |log| && j < |log| {
        assert Distinct(log, i, j);
      } else {
        assert i < |log| ==> InLedger(log[i], ledger);
        assert j < |log| ==> InLedger(log[j], ledger);
      }
    }
  }

  /** A refusal enters the ledger only. */
  lemma RecordedRefusal(log: seq<Event>, ledger: map<string, Entry>, scope: string, entry: Entry)
    requires Recorded(log, ledger) && scope !in ledger
    ensures Recorded(log, ledger[scope := entry])
  {
    forall i | 0 <= i < |log| ensures InLedger(log[i], ledger[scope := entry]) {
      assert InLedger(log[i], ledger);
    }
  }

  // ---------------------------------------------------------------- state invariants

  /** Memory shows the durable state, and a lease is the one of the latest unlock. */
  predicate Synced(c: Core) {
    && c.memory.revision == c.row.revision && c.memory.mode == c.row.mode && c.memory.closed == c.row.closed
    && (c.memory.lease.Some? ==> c.row.mode == ProtectedUnlocked && !c.row.closed && Holds(c, c.row.revision, c.memory.lease.value.id))
  }

  predicate Holds(c: Core, revision: nat, lease: string) {
    Latest(c.log).Some? && Latest(c.log).value.Unlocked? && Latest(c.log).value.revision == revision
    && Latest(c.log).value.lease == lease
  }

  /** Between a durable change and the matching change of memory. */
  predicate Pending(c: Core, change: Change) {
    match change
    case ToUnlocked(revision, lease) =>
      c.row == Row(revision, ProtectedUnlocked, false) && !c.memory.closed && Holds(c, revision, lease.id)
    case ToLocked(replayed) =>
      if replayed then Synced(c)
      else c.row.mode != ProtectedUnlocked && !c.row.closed && !c.memory.closed && c.memory.revision < c.row.revision
    case ToClosed => c.row.closed && c.memory.revision == c.row.revision && LockMode(c.memory.mode) == c.row.mode
    case ToExpired => c.row.mode != ProtectedUnlocked && (c.memory.closed ==> c.row.closed)
  }

  predicate Logged(c: Core) {
    && Ordered(c.log) && c.row.revision == Top(c.log) && Recorded(c.log, c.ledger)
    && (c.row.closed ==> c.row.mode != ProtectedUnlocked)
  }

  predicate Inside(pc: Pc) {
    pc == Rejecting(true) || pc in {Held, Checked, Fresh, Finishing, Releasing} || pc.Validated? || pc.Persisted? || pc.Committed?
  }

  /** The program counter belongs to the operation. */
  predicate Typed(p: Proc) {
    && (p.pc.Validated? || p.pc.Persisted? ==> p.op.Authorize? || p.op.Grant?)
    && (p.pc.Marked? || p.pc.Finishing? ==> p.op.Lock? || p.op.Close?)
    && (p.pc.Checked? || p.pc.Rejecting? ==> p.op.Unlock?)
    && (p.pc.Fresh? ==> !p.op.Lock? && !p.op.Close? && !p.op.Control?)
    && (p.op.Lock? || p.op.Close? ==> !p.pc.Waiting?)
    && (p.pc.Committed? ==>
          match p.pc.change
          case ToUnlocked(_, _) => p.op.Unlock?
          case ToLocked(_) => p.op.Lock?
          case ToClosed => p.op.Close?
          case ToExpired => !p.op.Lock? && !p.op.Close? && !p.op.Control?)
  }

  /** What the thread inside the gate may rely on. */
  predicate Relies(c: Core, pc: Pc) {
    match pc
    case Committed(change) => Pending(c, change)
    case Validated(b) => Synced(c) && c.memory.lease.Some? && c.memory.lease.value.id == b.lease && c.memory.revision == b.revision
    case Persisted(b) => Synced(c) && c.memory.lease.Some? && c.memory.lease.value.id == b.lease && c.memory.revision == b.revision
    case _ => Synced(c)
  }

  /** A lock or close between its acceptance and its end. */
  predicate LockIsPending(p: Proc) {
    (p.op.Lock? || p.op.Close?) && (p.pc in {Marked, Held, Finishing} || p.pc.Committed?)
  }

  function PendingLocks(threads: map<Tid, Proc>): set<Tid> {
    set t | t in threads && LockIsPending(threads[t])
  }

  ghost predicate Gated(s: Sys) {
    && (forall t :: t in s.threads ==> Typed(s.threads[t]) && (Inside(s.threads[t].pc) <==> s.holder == Some(t)))
    && (s.holder.Some? ==> s.holder.value in s.threads)
  }

  ghost predicate Inv(s: Sys) {
    && Gated(s) && Logged(s.core)
    && (if s.holder.Some? then Relies(s.core, s.threads[s.holder.value].pc) else Synced(s.core))
    && s.waiters == |PendingLocks(s.threads)|
  }

  // ---------------------------------------------------------------- the sections

  lemma Appended(log: seq<Event>, e: Event)
    requires Ordered(log) && InOrder(log, e)
    ensures Ordered(log + [e])
    ensures Latest(log + [e]) == (if e.Used? then Latest(log) else Some(e))
    ensures Top(log + [e]) == (match e case Unlocked(_, r, _) => r case Locked(_, r) => r case LeaseExpired(r) => r
                               case LockedOnRestart(r) => r case _ => Top(log))
  {
    assert (log + [e])[..|log|] == log;
  }

  lemma UnlockTxKeeps(c: Core, cmd: Command, lease: string)
    requires Logged(c) && Synced(c)
    ensures var (after, outcome) := UnlockTx(c, cmd, lease);
            && Logged(after)
            && (forall expires :: outcome.Applied? ==> Pending(after, ToUnlocked(outcome.revision, Lease(lease, expires))))
            && (!outcome.Applied? ==> Synced(after))
  {
    hide Recorded;
    var (after, outcome) := UnlockTx(c, cmd, lease);
    var e := Unlocked(cmd.scope, c.row.revision + 1, lease);
    Appended(c.log, e);
    if outcome.Applied? {
      RecordedGrows(c.log, c.ledger, e, after.ledger);
    } else if cmd.scope !in c.ledger {
      RecordedRefusal(c.log, c.ledger, cmd.scope, after.ledger[cmd.scope]);
    }
  }

  lemma LockTxKeeps(c: Core, cmd: Command)
    requires Logged(c) && Synced(c)
    ensures var (after, outcome) := LockTx(c, cmd);
            && Logged(after)
            && (outcome.Failed? ==> Synced(after)) && (!outcome.Failed? ==> Pending(after, ToLocked(outcome.Replayed?)))
  {
    hide Recorded;
    var (after, outcome) := LockTx(c, cmd);
    var e := Locked(cmd.scope, c.row.revision + 1);
    Appended(c.log, e);
    if outcome.Applied? {
      RecordedGrows(c.log, c.ledger, e, after.ledger);
    } else if cmd.scope !in c.ledger {
      RecordedRefusal(c.log, c.ledger, cmd.scope, after.ledger[cmd.scope]);
    }
  }

  lemma CloseTxKeeps(c: Core)
    requires Logged(c) && Synced(c)
    ensures Logged(CloseTx(c)) && Pending(CloseTx(c), ToClosed)
  {
    hide Recorded;
    Appended(c.log, GenerationClosed);
    RecordedGrows(c.log, c.ledger, GenerationClosed, c.ledger);
  }

  lemma ExpireTxKeeps(c: Core)
    requires Logged(c) && Synced(c) && c.memory.lease.Some?
    ensures Logged(ExpireTx(c)) && Pending(ExpireTx(c), ToExpired)
  {
    hide Recorded;
    var e := LeaseExpired(c.row.revision + 1);
    Appended(c.log, e);
    RecordedGrows(c.log, c.ledger, e, c.ledger);
  }

  lemma UseKeeps(c: Core, use: Use, b: Binding)
    requires Logged(c) && Relies(c, Validated(b))
    ensures Logged(c.(log := c.log + [Used(use, b)])) && Synced(c.(log := c.log + [Used(use, b)]))
  {
    hide Recorded;
    Appended(c.log, Used(use, b));
    RecordedGrows(c.log, c.ledger, Used(use, b), c.ledger);
  }

  lemma RejectTxKeeps(c: Core, cmd: Command, error: Error)
    requires Logged(c)
    ensures var after := RejectTx(c, cmd, error).0;
            Logged(after) && after.row == c.row && after.memory == c.memory && after.log == c.log
  {
    hide Recorded;
    if cmd.scope !in c.ledger {
      RecordedRefusal(c.log, c.ledger, cmd.scope, Entry(cmd.digest, Some(error), None));
    }
  }

  function CaughtUp(c: Core, change: Change): Core {
    match change
    case ToUnlocked(revision, lease) => UnlockMemory(c, revision, lease)
    case ToLocked(replayed) => LockMemory(c, replayed)
    case ToClosed => CloseMemory(c)
    case ToExpired => ExpireMemory(c)
  }

  lemma MemoryCatchesUp(c: Core, change: Change)
    requires Pending(c, change) && Logged(c)
    ensures Synced(CaughtUp(c, change)) && Logged(CaughtUp(c, change))
  {
    hide Ordered, Recorded;
  }

  lemma RestartKeeps(c: Core)
    requires Logged(c)
    ensures Logged(Restart(c)) && Synced(Restart(c))
  {
    hide Recorded;
    var e := LockedOnRestart(c.row.revision + 1);
    Appended(c.log, e);
    RecordedGrows(c.log, c.ledger, e, c.ledger);
  }

  // ---------------------------------------------------------------- the ways a thread moves

  lemma SamePending(threads: map<Tid, Proc>, t: Tid, p: Proc)
    requires if t in threads then LockIsPending(threads[t]) == LockIsPending(p) else !LockIsPending(p)
    ensures PendingLocks(threads[t := p]) == PendingLocks(threads)
  {
  }

  /** The thread inside the gate goes on. */
  lemma InsideStep(s: Sys, t: Tid, core: Core, pc: Pc)
    requires Inv(s) && s.holder == Some(t) && Inside(pc) && Typed(Proc(s.threads[t].op, pc))
    requires LockIsPending(s.threads[t]) == LockIsPending(Proc(s.threads[t].op, pc))
    requires Logged(core) && Relies(core, pc)
    ensures Inv(Set(s, t, core, pc))
  {
    hide Logged, Relies;
    SamePending(s.threads, t, Proc(s.threads[t].op, pc));
  }

  /** A thread outside the gate goes on; all it can write is a refusal in the ledger. */
  lemma OutsideStep(s: Sys, t: Tid, core: Core, p: Proc)
    requires Inv(s) && t in s.threads && !Inside(s.threads[t].pc) && !Inside(p.pc) && Typed(p)
    requires LockIsPending(s.threads[t]) == LockIsPending(p)
    requires Logged(core) && core.row == s.core.row && core.memory == s.core.memory && core.log == s.core.log
    ensures Inv(Sys(core, s.waiters, s.holder, s.threads[t := p]))
  {
    hide Logged;
    SamePending(s.threads, t, p);
    if s.holder.Some? {
      SameReliance(s.core, core, s.threads[s.holder.value].pc);
    }
  }

  lemma SameReliance(c: Core, after: Core, pc: Pc)
    requires Relies(c, pc) && after.row == c.row && after.memory == c.memory && after.log == c.log
    ensures Relies(after, pc)
  {
  }

  lemma AcquireStep(s: Sys, t: Tid, cancel: bool)
    requires Inv(s) && t in s.threads && s.threads[t].pc in {Waiting, Marked}
    requires Typed(Proc(s.threads[t].op, Held)) && (s.threads[t].pc.Marked? ==> !cancel)
    ensures Inv(Acquire(s, t, cancel))
  {
    hide Logged;
    SamePending(s.threads, t, Proc(s.threads[t].op, Held));
    if cancel {
      OutsideStep(s, t, s.core, Proc(s.threads[t].op, Done));
    }
  }

  lemma ReleaseStep(s: Sys, t: Tid, pc: Pc)
    requires Inv(s) && s.holder == Some(t) && !Inside(pc) && Typed(Proc(s.threads[t].op, pc))
    requires !LockIsPending(s.threads[t]) && !LockIsPending(Proc(s.threads[t].op, pc)) && Relies(s.core, Releasing)
    ensures Inv(Release(s, t, pc))
  {
    hide Logged;
    SamePending(s.threads, t, Proc(s.threads[t].op, pc));
  }

  lemma PendingGrows(threads: map<Tid, Proc>, t: Tid, p: Proc)
    requires LockIsPending(p) && (t in threads ==> !LockIsPending(threads[t]))
    ensures |PendingLocks(threads[t := p])| == |PendingLocks(threads)| + 1
  {
    assert PendingLocks(threads[t := p]) == PendingLocks(threads) + {t};
  }

  lemma MarkStep(s: Sys, t: Tid)
    requires Inv(s) && t in s.threads && s.threads[t].pc in {Entered, LookedUp} && (s.threads[t].op.Lock? || s.threads[t].op.Close?)
    ensures Inv(At(s.(waiters := s.waiters + 1), t, Marked))
  {
    hide Logged, Relies, PendingLocks;
    PendingGrows(s.threads, t, Proc(s.threads[t].op, Marked));
  }

  lemma FinishStep(s: Sys, t: Tid)
    requires Inv(s) && t in s.threads && s.threads[t].pc.Finishing?
    ensures Inv(At(s.(waiters := s.waiters - 1), t, Releasing))
  {
    hide Logged, PendingLocks;
    var after := s.threads[t := Proc(s.threads[t].op, Releasing)];
    PendingGrows(after, t, s.threads[t]);
    assert after[t := s.threads[t]] == s.threads;
  }

  lemma ReconcileStep(s: Sys, t: Tid, now: nat)
    requires Inv(s) && s.holder == Some(t) && s.threads[t].pc in {Held, Checked}
    requires !s.threads[t].op.Lock? && !s.threads[t].op.Close? && !s.threads[t].op.Control?
    ensures var after := Reconcile(s, t, now);
            && Inv(after)
            && (if LeaseIsOver(s.core.memory, now) then
                  && after.threads[t].pc == Committed(ToExpired)
                  && after.core.row == Row(s.core.row.revision + 1, ProtectedLocked, false)
                  && after.core.log == s.core.log + [LeaseExpired(s.core.row.revision + 1)]
                else after.threads[t].pc == Fresh && after.core == s.core)
  {
    hide Logged;
    if LeaseIsOver(s.core.memory, now) {
      ExpireTxKeeps(s.core);
      InsideStep(s, t, ExpireTx(s.core), Committed(ToExpired));
    } else {
      InsideStep(s, t, s.core, Fresh);
    }
  }

  lemma ExpiredStep(s: Sys, t: Tid, pc: Pc)
    requires Inv(s) && s.holder == Some(t) && s.threads[t].pc == Committed(ToExpired)
    requires pc in {Fresh, Releasing} && Typed(Proc(s.threads[t].op, pc))
    ensures Inv(Set(s, t, ExpireMemory(s.core), pc))
  {
    MemoryCatchesUp(s.core, ToExpired);
    InsideStep(s, t, ExpireMemory(s.core), pc);
  }

  // ---------------------------------------------------------------- every operation

  lemma LookUpStep(s: Sys, t: Tid, cmd: Command)
    requires Inv(s) && t in s.threads && s.threads[t].pc.Entered?
    ensures Inv(LookUp(s, t, cmd))
  {
    hide Logged;
    OutsideStep(s, t, s.core, Proc(s.threads[t].op, LookedUp));
    OutsideStep(s, t, s.core, Proc(s.threads[t].op, Done));
    OutsideStep(s, t, s.core, Proc(Look, Waiting));
  }

  lemma UnlockStep(s: Sys, t: Tid, cmd: Command, i: Input)
    requires Inv(s) && t in s.threads && s.threads[t].op == Unlock(cmd)
    ensures Inv(StepUnlock(s, t, cmd, s.threads[t].pc, i))
  {
    hide Logged, Inv, LookUp, Acquire, Reconcile, Release, UnlockTx, UnlockMemory, ExpireMemory;
    var op := s.threads[t].op;
    InvFacts(s, t);
    match s.threads[t].pc
    case Entered => LookUpStep(s, t, cmd);
    case LookedUp =>
      OutsideStep(s, t, s.core, Proc(op, Rejecting(false)));
      OutsideStep(s, t, s.core, Proc(op, Waiting));
    case Rejecting(holding) =>
      RejectTxKeeps(s.core, cmd, LockPending);
      if holding { InsideStep(s, t, RejectTx(s.core, cmd, LockPending).0, Releasing); }
      else { OutsideStep(s, t, RejectTx(s.core, cmd, LockPending).0, Proc(op, Done)); }
    case Waiting => AcquireStep(s, t, i.cancel);
    case Held =>
      InsideStep(s, t, s.core, Rejecting(true));
      InsideStep(s, t, s.core, Checked);
    case Checked => ReconcileStep(s, t, i.now);
    case Fresh =>
      UnlockTxKeeps(s.core, cmd, i.lease);
      var (core, outcome) := UnlockTx(s.core, cmd, i.lease);
      if outcome.Applied? {
        InsideStep(s, t, core, Committed(ToUnlocked(outcome.revision, Lease(i.lease, i.now + UNLOCK_DURATION))));
      } else {
        InsideStep(s, t, core, Releasing);
      }
    case Committed(change) =>
      if change.ToExpired? {
        ExpiredStep(s, t, Fresh);
      } else {
        MemoryCatchesUp(s.core, change);
        InsideStep(s, t, UnlockMemory(s.core, change.revision, change.lease), Releasing);
      }
    case Releasing => ReleaseStep(s, t, Done);
    case _ =>
  }

  /** What the invariant says of one thread. */
  lemma InvFacts(s: Sys, t: Tid)
    requires Inv(s) && t in s.threads
    ensures Typed(s.threads[t]) && (Inside(s.threads[t].pc) <==> s.holder == Some(t)) && Logged(s.core)
    ensures Inside(s.threads[t].pc) ==> Relies(s.core, s.threads[t].pc)
  {
  }

  lemma LockStep(s: Sys, t: Tid, cmd: Command)
    requires Inv(s) && t in s.threads && s.threads[t].op == Lock(cmd)
    ensures Inv(StepLock(s, t, cmd, s.threads[t].pc))
  {
    hide Logged, Inv;
    InvFacts(s, t);
    match s.threads[t].pc
    case Entered => LookUpStep(s, t, cmd);
    case LookedUp => MarkStep(s, t);
    case Marked => AcquireStep(s, t, false);
    case Held =>
      LockTxKeeps(s.core, cmd);
      var (core, outcome) := LockTx(s.core, cmd);
      if outcome.Failed? { InsideStep(s, t, core, Finishing); }
      else { InsideStep(s, t, core, Committed(ToLocked(outcome.Replayed?))); }
    case Committed(change) =>
      if change.ToLocked? {
        MemoryCatchesUp(s.core, change);
        InsideStep(s, t, LockMemory(s.core, change.replayed), Finishing);
      }
    case Finishing => FinishStep(s, t);
    case Releasing => ReleaseStep(s, t, Done);
    case _ =>
  }

  lemma CloseStep(s: Sys, t: Tid)
    requires Inv(s) && t in s.threads && s.threads[t].op == Close
    ensures Inv(StepClose(s, t, s.threads[t].pc))
  {
    hide Logged, Inv;
    InvFacts(s, t);
    match s.threads[t].pc
    case Entered => MarkStep(s, t);
    case Marked => AcquireStep(s, t, false);
    case Held =>
      CloseTxKeeps(s.core);
      InsideStep(s, t, CloseTx(s.core), Committed(ToClosed));
    case Committed(change) =>
      if change.ToClosed? {
        MemoryCatchesUp(s.core, change);
        InsideStep(s, t, CloseMemory(s.core), Finishing);
      }
    case Finishing => FinishStep(s, t);
    case Releasing => ReleaseStep(s, t, Done);
    case _ =>
  }

  lemma AuthorizeStep(s: Sys, t: Tid, use: Use, b: Binding, i: Input)
    requires Inv(s) && t in s.threads && s.threads[t].op == Authorize(use, b)
    ensures Inv(StepAuthorize(s, t, use, b, s.threads[t].pc, i))
  {
    hide Logged, Inv;
    var op := s.threads[t].op;
    InvFacts(s, t);
    match s.threads[t].pc
    case Entered =>
      OutsideStep(s, t, s.core, Proc(op, Done));
      OutsideStep(s, t, s.core, Proc(op, Waiting));
    case Waiting => AcquireStep(s, t, i.cancel);
    case Held => ReconcileStep(s, t, i.now);
    case Committed(change) => ExpiredStep(s, t, Releasing);
    case Fresh =>
      InsideStep(s, t, s.core, Releasing);
      if Validate(s.core.memory, s.waiters, b, i.now).None? { InsideStep(s, t, s.core, Validated(b)); }
    case Validated(binding) =>
      UseKeeps(s.core, use, binding);
      if use != RoundTrip { InsideStep(s, t, s.core.(log := s.core.log + [Used(use, binding)]), Releasing); }
      else if i.ok { InsideStep(s, t, s.core, Persisted(binding)); }
      else { InsideStep(s, t, s.core, Releasing); }
    case Persisted(binding) =>
      UseKeeps(s.core, use, binding);
      InsideStep(s, t, s.core.(log := s.core.log + [Used(use, binding)]), Releasing);
    case Releasing => ReleaseStep(s, t, Done);
    case _ =>
  }

  lemma GrantStep(s: Sys, t: Tid, i: Input)
    requires Inv(s) && t in s.threads && s.threads[t].op == Grant
    ensures Inv(StepGrant(s, t, s.threads[t].pc, i))
  {
    hide Logged, Inv;
    var op := s.threads[t].op;
    InvFacts(s, t);
    match s.threads[t].pc
    case Entered =>
      OutsideStep(s, t, s.core, Proc(op, Done));
      OutsideStep(s, t, s.core, Proc(op, Waiting));
    case Waiting => AcquireStep(s, t, i.cancel);
    case Held => ReconcileStep(s, t, i.now);
    case Committed(change) => ExpiredStep(s, t, Releasing);
    case Fresh =>
      InsideStep(s, t, s.core, Releasing);
      InsideStep(s, t, s.core, Held);
      if s.core.memory.lease.Some? { InsideStep(s, t, s.core, Validated(CurrentBinding(s.core.memory))); }
    case Validated(binding) =>
      UseKeeps(s.core, GrantIssue, binding);
      InsideStep(s, t, s.core, Releasing);
      InsideStep(s, t, s.core.(log := s.core.log + [Used(GrantIssue, binding)]), Releasing);
    case Releasing => ReleaseStep(s, t, Done);
    case _ =>
  }

  lemma LookStep(s: Sys, t: Tid, i: Input)
    requires Inv(s) && t in s.threads && s.threads[t].op == Look
    ensures Inv(StepLook(s, t, s.threads[t].pc, i))
  {
    hide Logged, Inv;
    InvFacts(s, t);
    match s.threads[t].pc
    case Entered =>
      OutsideStep(s, t, s.core, Proc(Look, Done));
      OutsideStep(s, t, s.core, Proc(Look, Waiting));
    case Waiting => AcquireStep(s, t, i.cancel);
    case Held => ReconcileStep(s, t, i.now);
    case Committed(change) => ExpiredStep(s, t, Releasing);
    case Fresh => InsideStep(s, t, s.core, Releasing);
    case Releasing => ReleaseStep(s, t, Done);
    case _ =>
  }

  lemma ControlStep(s: Sys, t: Tid, i: Input)
    requires Inv(s) && t in s.threads && s.threads[t].op == Control
    ensures Inv(StepControl(s, t, s.threads[t].pc, i))
  {
    hide Logged, Inv;
    InvFacts(s, t);
    match s.threads[t].pc
    case Entered =>
      OutsideStep(s, t, s.core, Proc(Control, Done));
      OutsideStep(s, t, s.core, Proc(Control, Waiting));
    case Waiting => AcquireStep(s, t, i.cancel);
    case Held =>
      ReleaseStep(s, t, Entered);
      InsideStep(s, t, s.core, Releasing);
    case Releasing => ReleaseStep(s, t, Done);
    case _ =>
  }

  lemma NextKeeps(s: Sys, a: Action)
    requires Inv(s)
    ensures Inv(Next(s, a))
  {
    hide Logged, StepUnlock, StepLock, StepClose, StepAuthorize, StepGrant, StepLook, StepControl;
    match a
    case Spawn(t, op) => if t !in s.threads { SamePending(s.threads, t, Proc(op, Entered)); }
    case CrashAndRecover =>
      RestartKeeps(s.core);
      assert PendingLocks(map[]) == {};
    case Run(t, i) =>
      if t in s.threads {
        match s.threads[t].op
        case Unlock(cmd) => UnlockStep(s, t, cmd, i);
        case Lock(cmd) => LockStep(s, t, cmd);
        case Close => CloseStep(s, t);
        case Authorize(use, b) => AuthorizeStep(s, t, use, b, i);
        case Grant => GrantStep(s, t, i);
        case Look => LookStep(s, t, i);
        case Control => ControlStep(s, t, i);
      }
  }

  lemma {:induction false} AfterInv(s: Sys, actions: seq<Action>)
    requires Registered(s)
    ensures Inv(After(s, actions))
  {
    hide Next;
    if actions == [] {
      assert PendingLocks(s.threads) == {};
    } else {
      AfterInv(s, actions[..|actions| - 1]);
      NextKeeps(After(s, actions[..|actions| - 1]), actions[|actions| - 1]);
    }
  }

  // ---------------------------------------------------------------- theorems

  /** The use at `i` is covered by the unlock at `j`: same revision and lease, and nothing but uses in between. */
  predicate CoveredBy(log: seq<Event>, i: nat, j: nat)
    requires j < i < |log| && log[i].Used?
  {
    && log[j].Unlocked? && log[j].revision == log[i].binding.revision && log[j].lease == log[i].binding.lease
    && forall k :: j < k < i ==> log[k].Used?
  }

  lemma {:induction false} LatestIs(log: seq<Event>) returns (j: nat)
    requires Latest(log).Some?
    ensures j < |log| && log[j] == Latest(log).value && forall k :: j < k < |log| ==> log[k].Used?
  {
    var last := |log| - 1;
    if log[last].Used? {
      j := LatestIs(log[..last]);
    } else {
      j := last;
    }
  }

  lemma {:induction false} OrderedCovers(log: seq<Event>, i: nat) returns (j: nat)
    requires Ordered(log) && i < |log| && log[i].Used?
    ensures j < i && CoveredBy(log, i, j)
  {
    var last := |log| - 1;
    if i < last {
      j := OrderedCovers(log[..last], i);
    } else {
      j := LatestIs(log[..last]);
    }
  }

  /** In every interleaving, whatever crossed the gate carried the revision and lease of the latest committed unlock,
      and no lock, expiry, closing or restart was committed since that unlock. */
  lemma CrossingsAreAuthorized(s: Sys, actions: seq<Action>, i: nat)
    requires Registered(s) && i < |After(s, actions).core.log| && After(s, actions).core.log[i].Used?
    ensures exists j: nat :: j < i && CoveredBy(After(s, actions).core.log, i, j)
  {
    hide Next;
    AfterInv(s, actions);
    var j := OrderedCovers(After(s, actions).core.log, i);
  }

  predicate Revises(e: Event) {
    e.Unlocked? || e.Locked? || e.LeaseExpired? || e.LockedOnRestart?
  }

  lemma {:induction false} OrderedRevisionsGrow(log: seq<Event>, i: nat)
    requires Ordered(log) && i < |log| && Revises(log[i])
    ensures 1 < log[i].revision <= Top(log)
    ensures forall j :: 0 <= j < i && Revises(log[j]) ==> log[j].revision < log[i].revision
  {
    var last := |log| - 1;
    var init := log[..last];
    if i < last {
      OrderedRevisionsGrow(init, i);
      if Revises(log[last]) { assert Top(init) < Top(log); }
      assert forall j :: 0 <= j < i ==> init[j] == log[j];
    } else {
      forall j | 0 <= j < i && Revises(log[j]) ensures log[j].revision < log[i].revision {
        OrderedRevisionsGrow(init, j);
      }
      TopIsPositive(init);
    }
  }

  lemma {:induction false} TopIsPositive(log: seq<Event>)
    requires Ordered(log)
    ensures Top(log) >= 1
  {
    if log != [] {
      TopIsPositive(log[..|log| - 1]);
    }
  }

  /** Revisions only grow, and the durable revision is the one of the last event that has one. */
  lemma RevisionsGrow(s: Sys, actions: seq<Action>, i: nat, j: nat)
    requires Registered(s) && i < j < |After(s, actions).core.log|
    requires Revises(After(s, actions).core.log[i]) && Revises(After(s, actions).core.log[j])
    ensures After(s, actions).core.log[i].revision < After(s, actions).core.log[j].revision <= After(s, actions).core.row.revision
  {
    hide Next;
    AfterInv(s, actions);
    OrderedRevisionsGrow(After(s, actions).core.log, j);
  }

  /** However often a command id is sent, by however many threads, it changes the revision at most once. */
  lemma CommandsApplyOnce(s: Sys, actions: seq<Action>, i: nat, j: nat)
    requires Registered(s) && i < |After(s, actions).core.log| && j < |After(s, actions).core.log|
    requires ScopeOf(After(s, actions).core.log[i]).Some?
    requires ScopeOf(After(s, actions).core.log[i]) == ScopeOf(After(s, actions).core.log[j])
    ensures i == j
  {
    hide Next;
    AfterInv(s, actions);
    assert Distinct(After(s, actions).core.log, i, j);
  }

  /** Once a lock or close is accepted, no thread passes validation until it has finished. */
  lemma PendingLockBlocks(s: Sys, actions: seq<Action>, lock: Tid, t: Tid, i: Input)
    requires Registered(s) && lock in After(s, actions).threads && LockIsPending(After(s, actions).threads[lock])
    requires t in After(s, actions).threads && !After(s, actions).threads[t].pc.Validated?
    ensures var after := Next(After(s, actions), Run(t, i)); t in after.threads && !after.threads[t].pc.Validated?
  {
    var now := After(s, actions);
    assert now.waiters != 0 by {
      hide Next;
      AfterInv(s, actions);
      assert lock in PendingLocks(now.threads);
    }
    ValidationNeedsNoWaiter(now, t, i);
  }

  lemma ValidationNeedsNoWaiter(s: Sys, t: Tid, i: Input)
    requires s.waiters != 0 && t in s.threads && !s.threads[t].pc.Validated?
    ensures t in Next(s, Run(t, i)).threads && !Next(s, Run(t, i)).threads[t].pc.Validated?
  {
  }

  /** When nobody is inside the gate, a lease in memory means: durably unlocked at this revision, not closed, and
      granted by the latest unlock. */
  lemma LeaseMeansUnlocked(s: Sys, actions: seq<Action>)
    requires Registered(s) && After(s, actions).holder.None? && After(s, actions).core.memory.lease.Some?
    ensures var c := After(s, actions).core;
            c.row == Row(c.memory.revision, ProtectedUnlocked, false) && Holds(c, c.row.revision, c.memory.lease.value.id)
  {
    hide Next;
    AfterInv(s, actions);
  }
}
