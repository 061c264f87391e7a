/** When the protection state reads UNLOCKED and yet no lease exists. Nothing crosses the gate then, but only an unlock, a
    first-time lock, a close, or a restart ends it. */
module ProtectionLeases {
  import opened Wrappers
  import opened Protection
  import opened ProtectionSafety

  predicate Bare(m: Memory) {
    m.mode == ProtectedUnlocked && m.lease.None?
  }

  /** The durable change that this action brings into memory. */
  function Brings(s: Sys, a: Action): Option<Change> {
    if a.Run? && a.tid in s.threads && s.threads[a.tid].pc.Committed? then Some(s.threads[a.tid].pc.change) else None
  }

  /** A lock command that found its own answer in the ledger reaches memory while the state is unlocked. */
  predicate LateReplay(s: Sys, a: Action) {
    Brings(s, a) == Some(ToLocked(true)) && s.core.memory.mode == ProtectedUnlocked
  }

  /** Memory takes over a new durable state. */
  predicate Refreshes(s: Sys, a: Action) {
    a.CrashAndRecover? || (Brings(s, a).Some? && Brings(s, a) != Some(ToLocked(true)))
  }

  lemma ElsewhereKeepsMemory(s: Sys, a: Action)
    requires Inv(s) && Brings(s, a).None? && !a.CrashAndRecover?
    ensures Next(s, a).core.memory == s.core.memory
  {
    hide Gated, Logged, Relies, PendingLocks;
  }

  lemma StepBare(s: Sys, a: Action)
    requires Inv(s)
    ensures Bare(Next(s, a).core.memory) <==> LateReplay(s, a) || (Bare(s.core.memory) && !Refreshes(s, a))
  {
    if Brings(s, a).None? && !a.CrashAndRecover? {
      hide Inv, Next;
      ElsewhereKeepsMemory(s, a);
    } else if a.Run? {
      hide Logged, PendingLocks;
      assert Inside(s.threads[a.tid].pc) && s.holder == Some(a.tid);
      assert Typed(s.threads[a.tid]) && Pending(s.core, s.threads[a.tid].pc.change);
    }
  }

  /** On every run, the state reads UNLOCKED without a lease exactly when a lock was replayed late and memory has not taken
      over a new durable state since. */
  lemma {:induction false} UnlockedWithoutLease(s: Sys, actions: seq<Action>)
    requires Registered(s)
    ensures Bare(After(s, actions).core.memory)
       <==> exists k :: 0 <= k < |actions| && ReplayedAt(s, actions, k)
  {
    hide Next, Inv, Refreshes, LateReplay;
    if actions == [] {
    } else {
      var n := |actions| - 1;
      var before := actions[..n];
      UnlockedWithoutLease(s, before);
      AfterInv(s, before);
      StepBare(After(s, before), actions[n]);
      forall k | 0 <= k < n ensures ReplayedAt(s, actions, k) <==> ReplayedAt(s, before, k) && !Refreshes(After(s, before), actions[n]) {
        ReplayedLonger(s, actions, k);
      }
      assert ReplayedAt(s, actions, n) <==> LateReplay(After(s, before), actions[n]);
    }
  }

  /** The late replay at `k` is still what memory shows. */
  ghost predicate ReplayedAt(s: Sys, actions: seq<Action>, k: nat)
    requires k < |actions|
  {
    && LateReplay(After(s, actions[..k]), actions[k])
    && forall j :: k < j < |actions| ==> !Refreshes(After(s, actions[..j]), actions[j])
  }

  lemma ReplayedLonger(s: Sys, actions: seq<Action>, k: nat)
    requires k < |actions| - 1
    ensures var n := |actions| - 1;
            ReplayedAt(s, actions, k) <==> ReplayedAt(s, actions[..n], k) && !Refreshes(After(s, actions[..n]), actions[n])
  {
    hide Next, Refreshes, LateReplay, After;
    var n := |actions| - 1;
    forall j | 0 <= j <= n ensures actions[..n][..j] == actions[..j] {
    }
    forall j | 0 <= j < n ensures actions[..n][j] == actions[j] {
    }
    if ReplayedAt(s, actions, k) {
      assert !Refreshes(After(s, actions[..n]), actions[n]);
    }
  }

  // ---------------------------------------------------------------- such a run

  lemma {:induction false} Joined(s: Sys, xs: seq<Action>, ys: seq<Action>)
    ensures After(s, xs + ys) == After(After(s, xs), ys)
  {
    hide Next;
    if ys == [] {
      assert xs + ys == xs;
    } else {
      assert (xs + ys)[..|xs + ys| - 1] == xs + ys[..|ys| - 1];
      Joined(s, xs, ys[..|ys| - 1]);
    }
  }

  /** Thread `t` moves `n` times. */
  function Moves(t: Tid, i: Input, n: nat): (actions: seq<Action>)
    ensures |actions| == n
  {
    if n == 0 then [] else Moves(t, i, n - 1) + [Run(t, i)]
  }

  function Moved(s: Sys, t: Tid, i: Input, n: nat): Sys {
    if n == 0 then s else Next(Moved(s, t, i, n - 1), Run(t, i))
  }

  lemma {:induction false} MovesAre(s: Sys, t: Tid, i: Input, n: nat)
    ensures After(s, Moves(t, i, n)) == Moved(s, t, i, n)
  {
    hide Next;
    if n > 0 {
      assert Moves(t, i, n)[..n - 1] == Moves(t, i, n - 1);
      MovesAre(s, t, i, n - 1);
    }
  }

  lemma {:induction false} MovedOn(s: Sys, t: Tid, i: Input, m: nat, n: nat)
    ensures Moved(s, t, i, m + n) == Moved(Moved(s, t, i, m), t, i, n)
  {
    hide Next;
    if n > 0 {
      MovedOn(s, t, i, m, n - 1);
    }
  }

  lemma LockEnters(s: Sys, t: Tid, cmd: Command, i: Input)
    requires t in s.threads && s.threads[t] == Proc(Lock(cmd), LookedUp) && s.holder.None?
    ensures Moved(s, t, i, 2) == Sys(s.core, s.waiters + 1, Some(t), s.threads[t := Proc(Lock(cmd), Held)])
  {
    assert Moved(s, t, i, 1) == Sys(s.core, s.waiters + 1, None, s.threads[t := Proc(Lock(cmd), Marked)]);
  }

  lemma LockCommits(s: Sys, t: Tid, cmd: Command, i: Input)
    requires t in s.threads && s.threads[t] == Proc(Lock(cmd), Held) && !LockTx(s.core, cmd).1.Failed?
    ensures var (core, outcome) := LockTx(s.core, cmd);
            Moved(s, t, i, 2) == Sys(LockMemory(core, outcome.Replayed?), s.waiters, s.holder, s.threads[t := Proc(Lock(cmd), Finishing)])
  {
    hide LockTx, LockMemory;
    var (core, outcome) := LockTx(s.core, cmd);
    var change := Committed(ToLocked(outcome.Replayed?));
    assert Moved(s, t, i, 1) == Sys(core, s.waiters, s.holder, s.threads[t := Proc(Lock(cmd), change)]);
  }

  lemma LockLeaves(s: Sys, t: Tid, cmd: Command, i: Input)
    requires t in s.threads && s.threads[t] == Proc(Lock(cmd), Finishing)
    ensures Moved(s, t, i, 2) == Sys(s.core, s.waiters - 1, None, s.threads[t := Proc(Lock(cmd), Done)])
  {
    assert Moved(s, t, i, 1) == Sys(s.core, s.waiters - 1, s.holder, s.threads[t := Proc(Lock(cmd), Releasing)]);
  }

  /** From its acceptance a lock runs through in six moves when nobody else is about. */
  lemma LockRuns(s: Sys, t: Tid, cmd: Command, i: Input)
    requires t in s.threads && s.threads[t] == Proc(Lock(cmd), LookedUp) && s.holder.None?
    requires !LockTx(s.core, cmd).1.Failed?
    ensures var (core, outcome) := LockTx(s.core, cmd);
            Moved(s, t, i, 6) == Sys(LockMemory(core, outcome.Replayed?), s.waiters, None, s.threads[t := Proc(Lock(cmd), Done)])
  {
    hide LockTx, LockMemory, Moved;
    LockEnters(s, t, cmd, i);
    MovedOn(s, t, i, 2, 2);
    LockCommits(Moved(s, t, i, 2), t, cmd, i);
    MovedOn(s, t, i, 4, 2);
    LockLeaves(Moved(s, t, i, 4), t, cmd, i);
  }

  lemma UnlockEnters(s: Sys, t: Tid, cmd: Command, i: Input)
    requires t in s.threads && s.threads[t] == Proc(Unlock(cmd), Entered) && s.holder.None? && s.waiters == 0 && !i.cancel
    requires cmd.scope !in s.core.ledger && s.core.memory.lease.None?
    ensures Moved(s, t, i, 5) == Sys(s.core, 0, Some(t), s.threads[t := Proc(Unlock(cmd), Fresh)])
  {
    assert Moved(s, t, i, 1) == Sys(s.core, 0, None, s.threads[t := Proc(Unlock(cmd), LookedUp)]);
    assert Moved(s, t, i, 2) == Sys(s.core, 0, None, s.threads[t := Proc(Unlock(cmd), Waiting)]);
    assert Moved(s, t, i, 3) == Sys(s.core, 0, Some(t), s.threads[t := Proc(Unlock(cmd), Held)]);
    assert Moved(s, t, i, 4) == Sys(s.core, 0, Some(t), s.threads[t := Proc(Unlock(cmd), Checked)]);
  }

  lemma UnlockEnds(s: Sys, t: Tid, cmd: Command, i: Input)
    requires t in s.threads && s.threads[t] == Proc(Unlock(cmd), Fresh) && UnlockTx(s.core, cmd, i.lease).1.Applied?
    ensures var (core, outcome) := UnlockTx(s.core, cmd, i.lease);
            Moved(s, t, i, 3) == Sys(UnlockMemory(core, outcome.revision, Lease(i.lease, i.now + UNLOCK_DURATION)), s.waiters, None,
                                     s.threads[t := Proc(Unlock(cmd), Done)])
  {
    hide UnlockTx, UnlockMemory;
    var (core, outcome) := UnlockTx(s.core, cmd, i.lease);
    var change := ToUnlocked(outcome.revision, Lease(i.lease, i.now + UNLOCK_DURATION));
    var shown := UnlockMemory(core, outcome.revision, change.lease);
    assert Moved(s, t, i, 1) == Sys(core, s.waiters, s.holder, s.threads[t := Proc(Unlock(cmd), Committed(change))]);
    assert Moved(s, t, i, 2) == Sys(shown, s.waiters, s.holder, s.threads[t := Proc(Unlock(cmd), Releasing)]);
  }

  /** An unlock runs through in eight. */
  lemma UnlockRuns(s: Sys, t: Tid, cmd: Command, i: Input)
    requires t in s.threads && s.threads[t] == Proc(Unlock(cmd), Entered) && s.holder.None? && s.waiters == 0 && !i.cancel
    requires cmd.scope !in s.core.ledger && s.core.memory.lease.None? && UnlockTx(s.core, cmd, i.lease).1.Applied?
    ensures var (core, outcome) := UnlockTx(s.core, cmd, i.lease);
            Moved(s, t, i, 8) == Sys(UnlockMemory(core, outcome.revision, Lease(i.lease, i.now + UNLOCK_DURATION)), 0, None,
                                     s.threads[t := Proc(Unlock(cmd), Done)])
  {
    hide UnlockTx, UnlockMemory, Moved;
    UnlockEnters(s, t, cmd, i);
    MovedOn(s, t, i, 5, 3);
    UnlockEnds(Moved(s, t, i, 5), t, cmd, i);
  }

  /** Two threads ask for the same lock and both pass the ledger lookup; a third asks for an unlock. */
  function Arrivals(lock: Command, unlock: Command, i: Input): seq<Action> {
    [Spawn(1, Lock(lock)), Spawn(2, Lock(lock)), Spawn(3, Unlock(unlock)), Run(1, i), Run(2, i)]
  }

  lemma Arrived(s: Sys, lock: Command, unlock: Command, i: Input)
    requires Registered(s)
    ensures After(s, Arrivals(lock, unlock, i)) == Sys(s.core, 0, None,
              map[1 := Proc(Lock(lock), LookedUp), 2 := Proc(Lock(lock), LookedUp), 3 := Proc(Unlock(unlock), Entered)])
  {
    hide After;
    var actions := Arrivals(lock, unlock, i);
    var a, c := Proc(Lock(lock), Entered), Proc(Unlock(unlock), Entered);
    NothingYet(s);
    OneMore(s, actions, 0);
    OneMore(s, actions, 1);
    assert After(s, actions[..2]) == Sys(s.core, 0, None, map[1 := a, 2 := a]);
    OneMore(s, actions, 2);
    assert After(s, actions[..3]) == Sys(s.core, 0, None, map[1 := a, 2 := a, 3 := c]);
    OneMore(s, actions, 3);
    OneMore(s, actions, 4);
    assert actions[..5] == actions;
  }

  lemma NothingYet(s: Sys)
    ensures After(s, []) == s
  {
  }

  lemma OneMore(s: Sys, actions: seq<Action>, k: nat)
    requires k < |actions|
    ensures actions[..0] == [] && After(s, actions[..k + 1]) == Next(After(s, actions[..k]), actions[k])
  {
    hide Next;
    assert actions[..k + 1][..k] == actions[..k];
  }

  /** The first lock runs through, then the unlock of revision 2, then the second lock finds the answer of the first. */
  function LockedTwice(lock: Command, unlock: Command, i: Input): seq<Action> {
    Arrivals(lock, unlock, i) + Moves(1, i, 6) + Moves(3, i, 8) + Moves(2, i, 6)
  }

  /** Nobody is inside, no lock is pending, the row and memory say UNLOCKED at revision 3, and there is no lease. */
  lemma LockedTwiceIsBare(s: Sys, lock: Command, unlock: Command, i: Input)
    requires Registered(s) && s.core.row.mode == ProtectedLocked && lock.scope != unlock.scope && unlock.expected == 2 && !i.cancel
    ensures var after := After(s, LockedTwice(lock, unlock, i));
            && Bare(after.core.memory) && after.core.row == Row(3, ProtectedUnlocked, false) && after.core.memory.revision == 3
            && after.holder.None? && after.waiters == 0 && (forall t :: t in after.threads ==> after.threads[t].pc == Done)
  {
    hide Next, Moved, After, Moves;
    var arrived := Arrivals(lock, unlock, i);
    Arrived(s, lock, unlock, i);
    var first := After(s, arrived);
    Joined(s, arrived, Moves(1, i, 6));
    MovesAre(first, 1, i, 6);
    LockRuns(first, 1, lock, i);
    var second := After(s, arrived + Moves(1, i, 6));
    Joined(s, arrived + Moves(1, i, 6), Moves(3, i, 8));
    MovesAre(second, 3, i, 8);
    UnlockRuns(second, 3, unlock, i);
    var third := After(s, arrived + Moves(1, i, 6) + Moves(3, i, 8));
    Joined(s, arrived + Moves(1, i, 6) + Moves(3, i, 8), Moves(2, i, 6));
    MovesAre(third, 2, i, 6);
    LockRuns(third, 2, lock, i);
  }
}
