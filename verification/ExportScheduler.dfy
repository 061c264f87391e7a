/** The scheduler object: each method is one critical section of exportlane.Scheduler under its mutex. */
module ExportScheduler {
  import opened Wrappers
  import opened ExportLane
  import opened ExportLaneSafety

  /** What is left of a ready list when the given jobs are taken out. */
  function Without(ready: seq<Id>, gone: set<Id>): seq<Id> {
    if ready == [] then [] else if ready[0] in gone then Without(ready[1..], gone) else [ready[0]] + Without(ready[1..], gone)
  }

  lemma {:induction false} WithoutNothing(ready: seq<Id>)
    ensures Without(ready, {}) == ready
  {
    if ready != [] {
      WithoutNothing(ready[1..]);
      assert ready == [ready[0]] + ready[1..];
    }
  }

  lemma {:induction false} WithoutMembers(ready: seq<Id>, gone: set<Id>)
    ensures forall x :: x in Without(ready, gone) ==> x in ready && x !in gone
  {
    if ready != [] {
      WithoutMembers(ready[1..], gone);
      assert ready == [ready[0]] + ready[1..];
    }
  }

  lemma {:induction false} RemoveAbsent(ready: seq<Id>, id: Id)
    requires id !in ready
    ensures Remove(ready, id) == ready
  {
    if ready != [] {
      RemoveAbsent(ready[1..], id);
      assert ready == [ready[0]] + ready[1..];
    }
  }

  /** Removing the jobs one at a time takes them out all together, because no job is listed twice. */
  lemma {:induction false} RemoveOneMore(ready: seq<Id>, gone: set<Id>, id: Id)
    requires Distinct(ready) && id !in gone
    ensures Remove(Without(ready, gone), id) == Without(ready, gone + {id})
  {
    if ready != [] {
      RemoveOneMore(ready[1..], gone, id);
      assert ready == [ready[0]] + ready[1..];
      var rest := Without(ready[1..], gone);
      if ready[0] == id {
        WithoutMembers(ready[1..], gone);
        assert id !in ready[1..];
        assert ([id] + rest)[1..] == rest;
        RemoveAbsent(rest, id);
      } else if ready[0] !in gone {
        assert ([ready[0]] + rest)[1..] == rest;
      }
    }
  }

  lemma {:induction false} KeptIsWithout(ready: seq<Id>, jobs: map<Id, Record>, g: Gen, gone: set<Id>)
    requires forall id :: id in gone <==> id in jobs && Pauses(jobs[id], g) && jobs[id].state == Queued
    ensures Kept(ready, jobs, g) == Without(ready, gone)
  {
    if ready != [] {
      KeptIsWithout(ready[1..], jobs, g, gone);
    }
  }

  /** The queued jobs that a pause has come across when only `left` remain to be looked at. */
  function Gone(jobs: map<Id, Record>, left: set<Id>, g: Gen): set<Id> {
    set x | x in jobs && x !in left && Pauses(jobs[x], g) && jobs[x].state == Queued
  }

  lemma GoneGrows(jobs: map<Id, Record>, left: set<Id>, g: Gen, id: Id)
    requires id in left && id in jobs
    ensures id !in Gone(jobs, left, g)
    ensures Gone(jobs, left - {id}, g) ==
            if Pauses(jobs[id], g) && jobs[id].state == Queued then Gone(jobs, left, g) + {id} else Gone(jobs, left, g)
  {
  }

  function Paused(r: Record, g: Gen): Record {
    if Pauses(r, g) then Pausing(r) else r
  }

  /** Every record outside `left` was paused, the queued ones left the list. */
  ghost predicate PausedBut(before: Sched, jobs: map<Id, Record>, ready: map<Gen, seq<Id>>, left: set<Id>, g: Gen) {
    && jobs.Keys == before.jobs.Keys && left <= before.jobs.Keys && ready.Keys == before.ready.Keys
    && (forall x :: x in jobs ==> jobs[x] == if x in left then before.jobs[x] else Paused(before.jobs[x], g))
    && (forall h :: h in ready && h != g ==> ready[h] == before.ready[h])
    && (g in ready ==> ready[g] == Without(before.ready[g], Gone(before.jobs, left, g)))
  }

  lemma PauseStarts(before: Sched, g: Gen)
    ensures PausedBut(before, before.jobs, before.ready, before.jobs.Keys, g)
  {
    assert Gone(before.jobs, before.jobs.Keys, g) == {};
    if g in before.ready { WithoutNothing(before.ready[g]); }
  }

  lemma PauseStep(before: Sched, jobs: map<Id, Record>, ready: map<Gen, seq<Id>>, left: set<Id>, g: Gen, id: Id,
                  jobs': map<Id, Record>, ready': map<Gen, seq<Id>>)
    requires PausedBut(before, jobs, ready, left, g) && id in left && id in jobs && (g in before.ready ==> Distinct(before.ready[g]))
    requires jobs' == jobs[id := Paused(jobs[id], g)]
    requires ready' == if Pauses(jobs[id], g) && jobs[id].state == Queued && g in ready
                       then ready[g := Remove(ready[g], id)] else ready
    ensures PausedBut(before, jobs', ready', left - {id}, g)
  {
    hide Without, Remove, Paused, Distinct, Gone;
    GoneGrows(before.jobs, left, g, id);
    if g in ready { RemoveOneMore(before.ready[g], Gone(before.jobs, left, g), id); }
  }

  lemma PauseEnds(before: Sched, jobs: map<Id, Record>, ready: map<Gen, seq<Id>>, g: Gen)
    requires PausedBut(before, jobs, ready, {}, g)
    ensures PauseGeneration(before, g) == before.(jobs := jobs, ready := ready)
  {
    hide Without, Kept;
    if g in ready { KeptIsWithout(before.ready[g], before.jobs, g, Gone(before.jobs, {}, g)); }
    assert jobs == PauseGeneration(before, g).jobs;
    assert ready == PauseGeneration(before, g).ready;
  }

  ghost predicate ClosedBut(before: map<Id, Record>, jobs: map<Id, Record>, left: set<Id>) {
    jobs.Keys == before.Keys && left <= before.Keys
    && forall x :: x in jobs ==> jobs[x] == if x in left then before[x] else Closing(before[x])
  }

  lemma CloseStarts(jobs: map<Id, Record>)
    ensures ClosedBut(jobs, jobs, jobs.Keys)
  {
  }

  lemma CloseStep(before: map<Id, Record>, jobs: map<Id, Record>, left: set<Id>, id: Id)
    requires ClosedBut(before, jobs, left) && id in left
    ensures id in jobs && ClosedBut(before, jobs[id := Closing(jobs[id])], left - {id})
  {
    hide Closing;
  }

  lemma CloseEnds(before: Sched, jobs: map<Id, Record>)
    requires ClosedBut(before.jobs, jobs, {}) && !before.closed
    ensures Close(before) == before.(jobs := jobs, closed := true)
  {
    hide Closing;
    assert jobs == Close(before).jobs;
  }

  lemma ClosedStaysIf(s: Sched)
    ensures s.closed ==> Close(s) == s
  {
  }

  /** One round of claim's loop. */
  lemma ClaimRound(s: Sched, g: Gen, id: Id, rest: seq<Id>)
    requires g in s.ready && g in s.workers
    ensures Claim(s, g, [id] + rest) ==
            if Claimable(s.jobs, id)
            then Sched(s.jobs[id := s.jobs[id].(claimed := true)], s.ready[g := rest],
                       s.workers[g := Claimed(id, s.jobs[id].quanta[0])], s.closed)
            else Claim(s, g, rest)
  {
    assert ([id] + rest)[1..] == rest;
  }

  lemma ClaimNothing(s: Sched, g: Gen)
    requires g in s.ready && g in s.workers
    ensures Claim(s, g, []) == s.(ready := s.ready[g := []])
  {
  }

  class Scheduler {
    var jobs: map<Id, Record>
    var ready: map<Gen, seq<Id>>
    var workers: map<Gen, Worker>
    var closed: bool

    function View(): Sched
      reads this
    {
      Sched(jobs, ready, workers, closed)
    }

    ghost predicate Valid()
      reads this
    {
      Inv(View())
    }

    constructor ()
      ensures View() == Empty() && Valid()
    {
      jobs, ready, workers, closed := map[], map[], map[], false;
    }

    method Submit(id: Id, g: Gen, quanta: seq<Quantum>) returns (error: Option<Error>)
      requires Valid()
      modifies this
      ensures Valid() && (View(), error) == ExportLane.Submit(old(View()), id, g, quanta)
    {
      SubmitKeeps(View(), id, g, quanta);
      hide Inv;
      if id == "" || g == "" || quanta == [] { return Some(InvalidJob); }
      if closed { return Some(SchedulerClosed); }
      if id in jobs { return Some(DuplicateJob); }
      if !(g in ready && g in workers) {
        ready := ready[g := []];
        workers := workers[g := Idle];
      }
      jobs := jobs[id := Record(g, quanta, quanta, 0, Queued, Flags(false, false, false), false)];
      ready := ready[g := ready[g] + [id]];
      return None;
    }

    method Cancel(id: Id) returns (error: Option<Error>)
      requires Valid()
      modifies this
      ensures Valid() && (View(), error) == ExportLane.Cancel(old(View()), id)
    {
      CancelKeeps(View(), id);
      if id !in jobs { return Some(JobNotFound); }
      assert JobInv(View(), id);
      hide Inv, Remove;
      var r := jobs[id];
      if r.flags.terminal || r.state == Canceled { return None; }
      r := r.(flags := r.flags.(cancelRequested := true));
      match r.state {
        case Queued =>
          if r.generation in ready {
            ready := ready[r.generation := Remove(ready[r.generation], id)];
          }
          r := r.(state := Canceled);
          r := r.(flags := r.flags.(terminal := true));
        case Running => r := r.(state := CancelRequested);
        case CancelRequested =>
        case PausedRestartable =>
          r := r.(state := Canceled);
          r := r.(flags := r.flags.(terminal := true));
        case _ => assert false;
      }
      jobs := jobs[id := r];
      return None;
    }

    method Restart(id: Id) returns (error: Option<Error>)
      requires Valid()
      modifies this
      ensures Valid() && (View(), error) == ExportLane.Restart(old(View()), id)
    {
      RestartKeeps(View(), id);
      hide Inv;
      if closed { return Some(SchedulerClosed); }
      if id !in jobs { return Some(JobNotFound); }
      var r := jobs[id];
      if r.state != PausedRestartable || r.flags.terminal || r.claimed || r.generation !in ready { return Some(StateConflict); }
      r := r.(state := Queued);
      r := r.(flags := r.flags.(cancelRequested := false, pauseRequested := false));
      jobs := jobs[id := r];
      ready := ready[r.generation := ready[r.generation] + [id]];
      return None;
    }

    /** The first half of PauseGeneration, under the mutex: record after record, in any order. */
    method PauseGeneration(g: Gen)
      requires Valid()
      modifies this`jobs, this`ready
      ensures Valid() && View() == ExportLane.PauseGeneration(old(View()), g)
    {
      PauseKeeps(View(), g);
      ghost var before := View();
      assert g in ready ==> Distinct(ready[g]) by { if g in ready { assert ReadyInv(View(), g); } }
      hide Inv, PausedBut, Distinct, ReadyInv, ExportLane.PauseGeneration;
      PauseAll(g);
      PauseEnds(before, jobs, ready, g);
    }

    method PauseAll(g: Gen)
      requires g in ready ==> Distinct(ready[g])
      modifies this`jobs, this`ready
      ensures PausedBut(old(View()), jobs, ready, {}, g)
    {
      hide PausedBut, Distinct;
      ghost var before := View();
      var left := jobs.Keys;
      PauseStarts(before, g);
      while left != {}
        invariant PausedBut(before, jobs, ready, left, g) && left <= jobs.Keys
        decreases |left|
      {
        var id :| id in left;
        ghost var jobs1, ready1 := jobs, ready;
        PauseRecord(id, g);
        PauseStep(before, jobs1, ready1, left, g, id, jobs, ready);
        left := left - {id};
      }
    }

    method PauseRecord(id: Id, g: Gen)
      requires id in jobs
      modifies this`jobs, this`ready
      ensures jobs == old(jobs)[id := Paused(old(jobs)[id], g)]
      ensures ready == if Pauses(old(jobs)[id], g) && old(jobs)[id].state == Queued && g in old(ready)
                       then old(ready)[g := Remove(old(ready)[g], id)] else old(ready)
    {
      var r := jobs[id];
      if r.generation != g || r.flags.terminal || r.flags.cancelRequested {
        assert jobs[id := r] == jobs;
        return;
      }
      r := r.(flags := r.flags.(pauseRequested := true));
      if r.state == Queued {
        if g in ready {
          ready := ready[g := Remove(ready[g], id)];
        }
        if !r.claimed {
          r := r.(state := PausedRestartable);
        }
      }
      jobs := jobs[id := r];
    }

    method Close()
      requires Valid()
      modifies this`jobs, this`closed
      ensures Valid() && View() == ExportLane.Close(old(View()))
    {
      CloseKeeps(View());
      ghost var before := View();
      ClosedStaysIf(before);
      hide Inv, ClosedBut, ExportLane.Close;
      if closed { return; }
      closed := true;
      CloseAll();
      CloseEnds(before, jobs);
    }

    method CloseAll()
      modifies this`jobs
      ensures ClosedBut(old(jobs), jobs, {})
    {
      hide ClosedBut, Closing;
      ghost var before := jobs;
      var left := jobs.Keys;
      CloseStarts(jobs);
      while left != {}
        invariant ClosedBut(before, jobs, left) && left <= jobs.Keys
        decreases |left|
      {
        var id :| id in left;
        CloseStep(before, jobs, left, id);
        CloseRecord(id);
        left := left - {id};
      }
    }

    method CloseRecord(id: Id)
      requires id in jobs
      modifies this`jobs
      ensures jobs == old(jobs)[id := Closing(old(jobs)[id])]
    {
      var r := jobs[id];
      if !r.flags.terminal {
        r := r.(flags := r.flags.(pauseRequested := true));
        if r.state != Running && r.state != CancelRequested {
          r := r.(state := PausedRestartable);
        }
      }
      jobs := jobs[id := r];
    }

    method Claim(g: Gen)
      requires Valid() && g in ready && g in workers && workers[g].Idle?
      modifies this`jobs, this`ready, this`workers
      ensures Valid() && View() == ExportLane.Claim(old(View()), g, old(ready)[g])
    {
      ClaimKeeps(View(), g);
      hide Inv, Claimable, ExportLane.Claim;
      ghost var before := View();
      assert before.ready[g := before.ready[g]] == before.ready;
      while |ready[g]| != 0
        invariant g in ready && g in workers && ready == before.ready[g := ready[g]]
        invariant jobs == before.jobs && workers == before.workers && closed == before.closed
        invariant ExportLane.Claim(before, g, before.ready[g]) == ExportLane.Claim(before, g, ready[g])
        decreases |ready[g]|
      {
        var id, rest := ready[g][0], ready[g][1..];
        assert ready[g] == [id] + rest;
        ready := ready[g := rest];
        assert ready == before.ready[g := rest];
        ClaimRound(before, g, id, rest);
        if CanClaim(id) {
          workers := workers[g := Claimed(id, jobs[id].quanta[0])];
          jobs := jobs[id := jobs[id].(claimed := true)];
          return;
        }
      }
      ClaimNothing(before, g);
    }

    predicate CanClaim(id: Id)
      reads this`jobs
      ensures CanClaim(id) <==> Claimable(jobs, id)
      ensures CanClaim(id) ==> id in jobs && jobs[id].quanta != []
    {
      id in jobs && jobs[id].state == Queued && !jobs[id].flags.terminal && !jobs[id].claimed && jobs[id].quanta != []
    }

    /** The worker's next step: lease, refusal, start, or settlement of the claimed quantum. */
    method Advance(g: Gen, e: Event)
      requires Valid() && g in ready && g in workers
      modifies this`jobs, this`ready, this`workers
      ensures Valid() && View() == Work(old(View()), g, e)
    {
      WorkKeeps(View(), g, e);
      assert WorkerInv(View(), g);
      hide Inv, FinishBeforeDispatch, FinishQuantum, MarkRunning;
      var w := workers[g];
      if w.Claimed? && e.Leases? {
        workers := workers[g := Leased(w.job, w.quantum)];
      } else if w.Claimed? && e.Refused? {
        GiveUp(g, e.canceled);
      } else if w.Leased? && e.Starts? {
        Start(g);
      } else if w.Executing? && e.Returns? {
        Return(g, e.outcome);
      }
    }

    method GiveUp(g: Gen, canceled: bool)
      requires g in workers && !workers[g].Idle? && workers[g].job in jobs
      modifies this`jobs, this`workers
      ensures jobs == old(jobs)[old(workers)[g].job := FinishBeforeDispatch(old(jobs)[old(workers)[g].job], canceled)]
      ensures workers == old(workers)[g := Idle]
    {
      var id := workers[g].job;
      var r := jobs[id];
      r := r.(claimed := false);
      if r.flags.pauseRequested {
        r := r.(state := PausedRestartable);
      } else {
        r := r.(state := if r.flags.terminal || r.flags.cancelRequested || canceled then Canceled else Failed);
        r := r.(flags := r.flags.(terminal := true));
      }
      jobs := jobs[id := r];
      workers := workers[g := Idle];
    }

    method Start(g: Gen)
      requires g in ready && g in workers && workers[g].Leased? && workers[g].job in jobs
      modifies this`jobs, this`workers
      ensures View() == Work(old(View()), g, Starts)
    {
      hide FinishBeforeDispatch;
      var w := workers[g];
      var r := jobs[w.job];
      if r.state != Queued || r.flags.terminal || r.flags.cancelRequested || !r.claimed {
        GiveUp(g, true);
        return;
      }
      jobs := jobs[w.job := r.(state := Running)];
      workers := workers[g := Executing(w.job, w.quantum)];
    }

    method Return(g: Gen, outcome: Outcome)
      requires g in ready && g in workers && workers[g].Executing? && workers[g].job in jobs
      modifies this`jobs, this`ready, this`workers
      ensures View() == Work(old(View()), g, Returns(outcome))
    {
      hide FinishQuantum;
      var w := workers[g];
      var r, again := Settle(jobs[w.job], w.quantum, outcome);
      jobs := jobs[w.job := r];
      workers := workers[g := Idle];
      if again {
        ready := ready[g := ready[g] + [w.job]];
      }
    }

    /** finishQuantum on the record. */
    method Settle(record: Record, quantum: Quantum, outcome: Outcome) returns (r: Record, again: bool)
      ensures (r, again) == FinishQuantum(record, quantum, outcome)
    {
      again := false;
      r := record.(claimed := false);
      if r.flags.cancelRequested || r.state == CancelRequested {
        r := r.(state := Canceled, flags := r.flags.(terminal := true));
        return;
      }
      if r.flags.pauseRequested || outcome == Timeout {
        r := r.(state := PausedRestartable);
        return;
      }
      if outcome == ExecutionError || r.quanta == [] || r.quanta[0] != quantum {
        r := r.(state := Failed, flags := r.flags.(terminal := true));
        return;
      }
      r := r.(quanta := r.quanta[1..]);
      r := r.(completed := r.completed + 1);
      if r.quanta == [] {
        r := r.(state := Succeeded, flags := r.flags.(terminal := true));
        return;
      }
      r := r.(state := Queued);
      again := true;
    }
  }
}
