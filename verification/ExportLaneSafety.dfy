/** What every interleaving of submissions, cancellations, restarts, pauses and worker steps keeps. */
module ExportLaneSafety {
  import opened Wrappers
  import opened ExportLane

  predicate Busy(w: Worker, id: Id) {
    !w.Idle? && w.job == id
  }

  predicate OnIt(w: Worker, id: Id) {
    w.Executing? && w.job == id
  }

  predicate JobInv(s: Sched, id: Id)
    requires id in s.jobs
  {
    var r := s.jobs[id];
    && r.generation in s.ready && r.generation in s.workers
    && r.completed <= |r.original| && r.quanta == r.original[r.completed..] && (r.quanta == [] <==> r.state == Succeeded)
    && (r.state == Succeeded || r.state == Canceled || r.state == Failed ==> r.flags.terminal)
    && (r.state == Queued ==> !r.flags.terminal && !r.flags.cancelRequested)
    && (r.claimed <==> Busy(s.workers[r.generation], id))
    && (r.state == Running || r.state == CancelRequested <==> OnIt(s.workers[r.generation], id))
    && (r.state == Running || r.state == CancelRequested ==> !r.flags.terminal)
    && (!s.closed && r.state == Queued && !r.claimed ==> id in s.ready[r.generation])
    && (s.closed ==> r.state != Queued)
    && (s.closed && (r.state == Running || r.state == CancelRequested) ==> r.flags.pauseRequested)
  }

  predicate WorkerInv(s: Sched, g: Gen)
    requires g in s.workers
  {
    var w := s.workers[g];
    !w.Idle? ==> w.job in s.jobs && s.jobs[w.job].generation == g && s.jobs[w.job].quanta != [] && s.jobs[w.job].quanta[0] == w.quantum
  }

  predicate Listed(jobs: map<Id, Record>, g: Gen, id: Id) {
    id in jobs && jobs[id].generation == g && jobs[id].state == Queued && !jobs[id].claimed
  }

  predicate Distinct(ready: seq<Id>) {
    forall i, j :: 0 <= i < j < |ready| ==> ready[i] != ready[j]
  }

  predicate ReadyInv(s: Sched, g: Gen)
    requires g in s.ready
  {
    Distinct(s.ready[g]) && (!s.closed ==> forall i :: 0 <= i < |s.ready[g]| ==> Listed(s.jobs, g, s.ready[g][i]))
  }

  ghost predicate Inv(s: Sched) {
    && s.ready.Keys == s.workers.Keys
    && (forall id :: id in s.jobs ==> JobInv(s, id))
    && (forall g :: g in s.workers ==> WorkerInv(s, g))
    && (forall g :: g in s.ready ==> ReadyInv(s, g))
  }

  // ---------------------------------------------------------------- ready lists

  lemma EnqueueDistinct(ready: seq<Id>, id: Id)
    requires Distinct(ready) && id !in ready
    ensures Distinct(ready + [id])
  {
  }

  lemma {:induction false} RemoveFacts(ready: seq<Id>, id: Id)
    requires Distinct(ready)
    ensures Distinct(Remove(ready, id)) && |Remove(ready, id)| <= |ready|
    ensures forall i :: 0 <= i < |Remove(ready, id)| ==> Remove(ready, id)[i] in ready && Remove(ready, id)[i] != id
    ensures forall x :: x in ready && x != id ==> x in Remove(ready, id)
  {
    if ready != [] {
      var tail := ready[1..];
      RemoveFacts(tail, id);
      assert ready == [ready[0]] + tail;
      DistinctTail(ready);
      var rest := Remove(tail, id);
      if ready[0] == id {
        assert Remove(ready, id) == tail;
      } else {
        assert Remove(ready, id) == [ready[0]] + rest;
        hide Remove;
        DistinctCons(ready[0], rest);
      }
    }
  }

  lemma DistinctTail(ready: seq<Id>)
    requires Distinct(ready) && ready != []
    ensures Distinct(ready[1..]) && ready[0] !in ready[1..]
  {
  }

  lemma DistinctCons(id: Id, rest: seq<Id>)
    requires Distinct(rest) && id !in rest
    ensures Distinct([id] + rest)
  {
  }

  lemma {:induction false} KeptFacts(ready: seq<Id>, jobs: map<Id, Record>, g: Gen)
    requires Distinct(ready)
    ensures Distinct(Kept(ready, jobs, g))
    ensures forall i :: 0 <= i < |Kept(ready, jobs, g)| ==>
              var id := Kept(ready, jobs, g)[i]; id in ready && !(id in jobs && Pauses(jobs[id], g) && jobs[id].state == Queued)
    ensures forall id :: id in ready && !(id in jobs && Pauses(jobs[id], g) && jobs[id].state == Queued) ==> id in Kept(ready, jobs, g)
  {
    if ready != [] {
      KeptFacts(ready[1..], jobs, g);
      assert ready == [ready[0]] + ready[1..];
      var rest := Kept(ready[1..], jobs, g);
      forall i | 0 <= i < |rest| ensures rest[i] != ready[0] {
        assert rest[i] in ready[1..];
      }
    }
  }

  // ---------------------------------------------------------------- frames

  /** A step that changes job `id` and its generation `g` and nothing else. */
  ghost predicate Touches(s: Sched, after: Sched, id: Id, g: Gen) {
    && after.closed == s.closed
    && (forall x :: x != id ==> (x in after.jobs <==> x in s.jobs) && (x in s.jobs ==> after.jobs[x] == s.jobs[x]))
    && (forall h :: h != g ==> (h in after.ready <==> h in s.ready) && (h in s.ready ==> after.ready[h] == s.ready[h]))
    && (forall h :: h != g ==> (h in after.workers <==> h in s.workers) && (h in s.workers ==> after.workers[h] == s.workers[h]))
    && g in after.ready && g in after.workers
    && (g in s.ready <==> g in s.workers)
    && (forall x :: x != id && g in s.ready && x in s.ready[g] ==> x in after.ready[g])
    && (forall x :: x != id && g in s.workers ==>
          (Busy(after.workers[g], x) <==> Busy(s.workers[g], x)) && (OnIt(after.workers[g], x) <==> OnIt(s.workers[g], x)))
  }

  lemma OthersKeep(s: Sched, after: Sched, id: Id, g: Gen, x: Id)
    requires Touches(s, after, id, g) && x != id && x in s.jobs && JobInv(s, x)
    ensures x in after.jobs && JobInv(after, x)
  {
  }

  /** The whole invariant from the parts a step can have changed. */
  lemma TouchKeeps(s: Sched, after: Sched, id: Id, g: Gen)
    requires Inv(s) && Touches(s, after, id, g) && (id in s.jobs ==> s.jobs[id].generation == g)
    requires id in after.jobs ==> JobInv(after, id) && after.jobs[id].generation == g
    requires WorkerInv(after, g) && ReadyInv(after, g)
    ensures Inv(after)
  {
    forall x | x in after.jobs ensures JobInv(after, x) {
      if x != id { OthersKeep(s, after, id, g, x); }
    }
    forall h | h in after.workers ensures WorkerInv(after, h) {
      if h != g { assert WorkerInv(s, h); }
    }
    forall h | h in after.ready ensures ReadyInv(after, h) {
      if h != g { OtherReady(s, after, id, g, h); }
    }
    forall h ensures h in after.ready <==> h in after.workers {
      if h != g { assert h in s.ready.Keys <==> h in s.workers.Keys; }
    }
  }

  lemma OtherReady(s: Sched, after: Sched, id: Id, g: Gen, h: Gen)
    requires Touches(s, after, id, g) && h != g && h in s.ready && ReadyInv(s, h) && (id in s.jobs ==> s.jobs[id].generation == g)
    ensures ReadyInv(after, h)
  {
    if !s.closed {
      forall i | 0 <= i < |after.ready[h]| ensures Listed(after.jobs, h, after.ready[h][i]) {
        assert Listed(s.jobs, h, s.ready[h][i]);
      }
    }
  }

  // ---------------------------------------------------------------- commands

  lemma SubmitKeeps(s: Sched, id: Id, g: Gen, quanta: seq<Quantum>)
    requires Inv(s)
    ensures Inv(Submit(s, id, g, quanta).0)
  {
    if Submit(s, id, g, quanta).1.None? {
      assert g in s.ready.Keys <==> g in s.workers.Keys;
      if g in s.ready { assert ReadyInv(s, g) && WorkerInv(s, g); }
      SubmitOwn(s, id, g, quanta);
      hide Inv, JobInv, WorkerInv, ReadyInv, Touches;
      TouchKeeps(s, Submit(s, id, g, quanta).0, id, g);
    }
  }

  lemma SubmitOwn(s: Sched, id: Id, g: Gen, quanta: seq<Quantum>)
    requires Submit(s, id, g, quanta).1.None? && (g in s.ready <==> g in s.workers)
    requires g in s.ready ==> ReadyInv(s, g) && WorkerInv(s, g)
    ensures var after := Submit(s, id, g, quanta).0;
            && id !in s.jobs && id in after.jobs && after.jobs[id].generation == g && g in after.ready && g in after.workers
            && Touches(s, after, id, g) && JobInv(after, id) && WorkerInv(after, g) && ReadyInv(after, g)
  {
    var after := Submit(s, id, g, quanta).0;
    var old_ := if g in s.ready then s.ready[g] else [];
    if g in s.ready {
      forall i | 0 <= i < |old_| ensures old_[i] != id { assert Listed(s.jobs, g, old_[i]); }
    }
    EnqueueDistinct(old_, id);
    assert after.ready[g] == old_ + [id];
  }

  lemma CancelKeeps(s: Sched, id: Id)
    requires Inv(s)
    ensures Inv(Cancel(s, id).0)
  {
    var after := Cancel(s, id).0;
    if id in s.jobs && after != s {
      var g := s.jobs[id].generation;
      assert JobInv(s, id) && WorkerInv(s, g);
      CancelReady(s, id);
      CancelTouches(s, id);
      TouchKeeps(s, after, id, g);
    }
  }

  lemma CancelTouches(s: Sched, id: Id)
    requires Inv(s) && id in s.jobs && JobInv(s, id)
    ensures Touches(s, Cancel(s, id).0, id, s.jobs[id].generation)
  {
    var g := s.jobs[id].generation;
    RemoveKeepsOthers(s.ready[g], id);
  }

  lemma {:induction false} RemoveKeepsOthers(ready: seq<Id>, id: Id)
    ensures forall x :: x in ready && x != id ==> x in Remove(ready, id)
  {
    if ready != [] {
      RemoveKeepsOthers(ready[1..], id);
      assert ready == [ready[0]] + ready[1..];
    }
  }

  lemma CancelReady(s: Sched, id: Id)
    requires Inv(s) && id in s.jobs
    ensures ReadyInv(Cancel(s, id).0, s.jobs[id].generation)
  {
    var g, after := s.jobs[id].generation, Cancel(s, id).0;
    assert JobInv(s, id) && ReadyInv(s, g);
    RemoveFacts(s.ready[g], id);
    hide Remove;
    if !s.closed {
      forall i | 0 <= i < |after.ready[g]| ensures Listed(after.jobs, g, after.ready[g][i]) {
        var x := after.ready[g][i];
        assert x in s.ready[g];
        var k :| 0 <= k < |s.ready[g]| && s.ready[g][k] == x;
        assert Listed(s.jobs, g, s.ready[g][k]);
      }
    }
  }

  lemma RestartKeeps(s: Sched, id: Id)
    requires Inv(s)
    ensures Inv(Restart(s, id).0)
  {
    var (after, error) := Restart(s, id);
    if error.None? {
      var g := s.jobs[id].generation;
      assert JobInv(s, id) && ReadyInv(s, g) && WorkerInv(s, g);
      forall i | 0 <= i < |s.ready[g]| ensures s.ready[g][i] != id { assert Listed(s.jobs, g, s.ready[g][i]); }
      EnqueueDistinct(s.ready[g], id);
      TouchKeeps(s, after, id, g);
    }
  }

  lemma PauseKeeps(s: Sched, g: Gen)
    requires Inv(s)
    ensures Inv(PauseGeneration(s, g))
  {
    var after := PauseGeneration(s, g);
    if g in s.ready {
      assert ReadyInv(s, g);
      KeptFacts(s.ready[g], s.jobs, g);
    }
    forall id | id in after.jobs ensures JobInv(after, id) {
      assert JobInv(s, id);
      PauseJob(s, g, id);
    }
    forall h | h in after.workers ensures WorkerInv(after, h) { assert WorkerInv(s, h); }
    forall h | h in after.ready ensures ReadyInv(after, h) {
      assert ReadyInv(s, h);
      PauseReady(s, g, h);
    }
  }

  lemma PauseJob(s: Sched, g: Gen, id: Id)
    requires id in s.jobs && JobInv(s, id) && (g in s.ready ==> ReadyInv(s, g))
    ensures JobInv(PauseGeneration(s, g), id)
  {
    if g in s.ready {
      KeptFacts(s.ready[g], s.jobs, g);
    }
    hide Kept;
  }

  lemma PauseReady(s: Sched, g: Gen, h: Gen)
    requires h in s.ready && ReadyInv(s, h) && (g in s.ready ==> ReadyInv(s, g))
    ensures ReadyInv(PauseGeneration(s, g), h)
  {
    var after := PauseGeneration(s, g);
    KeptFacts(s.ready[h], s.jobs, g);
    hide Kept;
    if !s.closed {
      forall i | 0 <= i < |after.ready[h]| ensures Listed(after.jobs, h, after.ready[h][i]) {
        var x := after.ready[h][i];
        assert x in s.ready[h];
        var k :| 0 <= k < |s.ready[h]| && s.ready[h][k] == x;
        assert Listed(s.jobs, h, s.ready[h][k]);
      }
    }
  }

  lemma CloseKeeps(s: Sched)
    requires Inv(s)
    ensures Inv(Close(s))
  {
    var after := Close(s);
    forall id | id in after.jobs ensures JobInv(after, id) { assert JobInv(s, id); }
    forall h | h in after.workers ensures WorkerInv(after, h) { assert WorkerInv(s, h); }
    forall h | h in after.ready ensures ReadyInv(after, h) { assert ReadyInv(s, h); }
  }

  // ---------------------------------------------------------------- the worker

  /** While the scheduler is open, claim takes the first ready job and skips none. */
  lemma ClaimTakesFirst(s: Sched, g: Gen)
    requires Inv(s) && !s.closed && g in s.ready
    ensures s.ready[g] != [] ==> Claimable(s.jobs, s.ready[g][0])
  {
    assert ReadyInv(s, g);
    if s.ready[g] != [] {
      assert Listed(s.jobs, g, s.ready[g][0]);
      assert JobInv(s, s.ready[g][0]);
    }
  }

  /** The first ready job leaves the list and gets the worker. */
  lemma ClaimOneKeeps(s: Sched, g: Gen)
    requires Inv(s) && !s.closed && g in s.ready && s.ready[g] != [] && s.workers[g].Idle?
    ensures Claimable(s.jobs, s.ready[g][0])
    ensures var id := s.ready[g][0];
            Inv(Sched(s.jobs[id := s.jobs[id].(claimed := true)], s.ready[g := s.ready[g][1..]],
                      s.workers[g := Claimed(id, s.jobs[id].quanta[0])], s.closed))
  {
    ClaimTakesFirst(s, g);
    var id, rest := s.ready[g][0], s.ready[g][1..];
    assert ReadyInv(s, g) && Listed(s.jobs, g, id);
    var after := Sched(s.jobs[id := s.jobs[id].(claimed := true)], s.ready[g := rest],
                       s.workers[g := Claimed(id, s.jobs[id].quanta[0])], s.closed);
    assert JobInv(s, id);
    assert s.ready[g] == [id] + rest;
    forall i | 0 <= i < |rest| ensures Listed(after.jobs, g, rest[i]) && rest[i] != id {
      assert rest[i] == s.ready[g][i + 1];
      assert Listed(s.jobs, g, s.ready[g][i + 1]);
    }
    TouchKeeps(s, after, id, g);
  }

  /** After Close nothing is claimable. */
  lemma {:induction false} ClosedClaimsNothing(s: Sched, g: Gen, ready: seq<Id>)
    requires Inv(s) && s.closed && g in s.ready
    ensures Claim(s, g, ready) == s.(ready := s.ready[g := []])
    decreases |ready|
  {
    if ready != [] {
      if ready[0] in s.jobs { assert JobInv(s, ready[0]); }
      ClosedClaimsNothing(s, g, ready[1..]);
    }
  }

  lemma ClosedDrop(s: Sched, g: Gen)
    requires Inv(s) && s.closed && g in s.ready
    ensures Inv(s.(ready := s.ready[g := []]))
  {
    var after := s.(ready := s.ready[g := []]);
    forall x | x in after.jobs ensures JobInv(after, x) { assert JobInv(s, x); }
    forall h | h in after.workers ensures WorkerInv(after, h) { assert WorkerInv(s, h); }
    forall h | h in after.ready ensures ReadyInv(after, h) { if h != g { assert ReadyInv(s, h); } }
  }

  lemma ClaimKeeps(s: Sched, g: Gen)
    requires Inv(s) && g in s.ready && s.workers[g].Idle?
    ensures Inv(Claim(s, g, s.ready[g]))
  {
    if s.closed {
      ClosedClaimsNothing(s, g, s.ready[g]);
      ClosedDrop(s, g);
    } else if s.ready[g] == [] {
      assert s.ready[g := []] == s.ready;
    } else {
      ClaimOneKeeps(s, g);
    }
  }

  lemma WorkKeeps(s: Sched, g: Gen, e: Event)
    requires Inv(s) && g in s.ready
    ensures Inv(Work(s, g, e))
  {
    var after, w := Work(s, g, e), s.workers[g];
    assert WorkerInv(s, g);
    if !w.Idle? && after != s {
      assert JobInv(s, w.job);
      WorkTouches(s, g, e);
      WorkOwn(s, g, e);
      WorkReady(s, g, e);
      TouchKeeps(s, after, w.job, g);
    }
  }

  lemma PointTouches(s: Sched, id: Id, g: Gen, r: Record, ready: seq<Id>, w: Worker)
    requires id in s.jobs && g in s.ready && g in s.workers && s.ready[g] <= ready
    requires (Busy(s.workers[g], id) || s.workers[g].Idle?) && (Busy(w, id) || w.Idle?)
    ensures Touches(s, Sched(s.jobs[id := r], s.ready[g := ready], s.workers[g := w], s.closed), id, g)
  {
  }

  lemma WorkTouches(s: Sched, g: Gen, e: Event)
    requires g in s.ready && g in s.workers && !s.workers[g].Idle? && WorkerInv(s, g)
    ensures Touches(s, Work(s, g, e), s.workers[g].job, g)
  {
    hide MarkRunning, FinishBeforeDispatch, FinishQuantum, Touches;
    var after, id := Work(s, g, e), s.workers[g].job;
    assert s.ready[g := s.ready[g]] == s.ready;
    assert s.jobs[id := s.jobs[id]] == s.jobs;
    assert s.workers[g := s.workers[g]] == s.workers;
    PointTouches(s, id, g, after.jobs[id], after.ready[g], after.workers[g]);
  }

  /** The job the worker is on keeps its invariant through lease, start, execution and settlement. */
  lemma WorkOwn(s: Sched, g: Gen, e: Event)
    requires g in s.ready && g in s.workers && !s.workers[g].Idle? && WorkerInv(s, g) && JobInv(s, s.workers[g].job)
    ensures var after, id := Work(s, g, e), s.workers[g].job;
            id in after.jobs && after.jobs[id].generation == g && JobInv(after, id) && WorkerInv(after, g)
  {
    match (s.workers[g], e)
    case (Executing(_, quantum), Returns(outcome)) => FinishOwn(s, g, outcome);
    case (Leased(_, _), Starts) => StartOwn(s, g);
    case (Claimed(_, _), Refused(canceled)) => RefusedOwn(s, g, canceled);
    case _ =>
  }

  lemma StartOwn(s: Sched, g: Gen)
    requires g in s.ready && g in s.workers && s.workers[g].Leased? && WorkerInv(s, g) && JobInv(s, s.workers[g].job)
    ensures var after, id := Work(s, g, Starts), s.workers[g].job;
            id in after.jobs && after.jobs[id].generation == g && JobInv(after, id) && WorkerInv(after, g)
  {
  }

  lemma RefusedOwn(s: Sched, g: Gen, canceled: bool)
    requires g in s.ready && g in s.workers && s.workers[g].Claimed? && WorkerInv(s, g) && JobInv(s, s.workers[g].job)
    ensures var after, id := Work(s, g, Refused(canceled)), s.workers[g].job;
            id in after.jobs && after.jobs[id].generation == g && JobInv(after, id) && WorkerInv(after, g)
  {
  }

  lemma FinishOwn(s: Sched, g: Gen, outcome: Outcome)
    requires g in s.ready && g in s.workers && s.workers[g].Executing? && WorkerInv(s, g) && JobInv(s, s.workers[g].job)
    ensures var after, id := Work(s, g, Returns(outcome)), s.workers[g].job;
            id in after.jobs && after.jobs[id].generation == g && JobInv(after, id) && WorkerInv(after, g)
  {
    var r := s.jobs[s.workers[g].job];
    if r.completed < |r.original| {
      assert r.quanta[1..] == r.original[r.completed + 1..];
    }
  }

  lemma WorkReady(s: Sched, g: Gen, e: Event)
    requires Inv(s) && g in s.ready && !s.workers[g].Idle?
    ensures ReadyInv(Work(s, g, e), g)
  {
    var id, after := s.workers[g].job, Work(s, g, e);
    assert WorkerInv(s, g) && JobInv(s, id) && ReadyInv(s, g);
    if !s.closed {
      forall i | 0 <= i < |s.ready[g]| ensures s.ready[g][i] != id && Listed(after.jobs, g, s.ready[g][i]) {
        assert Listed(s.jobs, g, s.ready[g][i]);
      }
      EnqueueDistinct(s.ready[g], id);
    }
  }

  lemma NextKeeps(s: Sched, a: Action)
    requires Inv(s)
    ensures Inv(Next(s, a))
  {
    hide Submit, Cancel, Restart, PauseGeneration, Close, Claim, Work;
    assert forall g :: g in s.ready.Keys <==> g in s.workers.Keys;
    match a
    case DoSubmit(id, g, quanta) => SubmitKeeps(s, id, g, quanta);
    case DoCancel(id) => CancelKeeps(s, id);
    case DoRestart(id) => RestartKeeps(s, id);
    case DoPause(g) => PauseKeeps(s, g);
    case DoClose => CloseKeeps(s);
    case DoClaim(g) => if g in s.ready && s.workers[g].Idle? { ClaimKeeps(s, g); }
    case DoWork(g, e) => if g in s.ready { WorkKeeps(s, g, e); }
  }

  lemma {:induction false} AfterInv(actions: seq<Action>)
    ensures Inv(After(actions))
  {
    hide Next;
    if actions != [] {
      AfterInv(actions[..|actions| - 1]);
      NextKeeps(After(actions[..|actions| - 1]), actions[|actions| - 1]);
    }
  }

  // ---------------------------------------------------------------- theorems

  /** While the scheduler is open a generation's ready list holds exactly its queued unclaimed jobs, each once. */
  lemma ReadyIsExact(actions: seq<Action>, g: Gen, id: Id)
    requires !After(actions).closed && g in After(actions).ready
    ensures Distinct(After(actions).ready[g])
    ensures id in After(actions).ready[g] <==> Listed(After(actions).jobs, g, id)
  {
    hide Next;
    AfterInv(actions);
    var s := After(actions);
    assert ReadyInv(s, g);
    if id in s.ready[g] {
      var k :| 0 <= k < |s.ready[g]| && s.ready[g][k] == id;
      assert Listed(s.jobs, g, s.ready[g][k]);
    }
    if Listed(s.jobs, g, id) { assert JobInv(s, id); }
  }

  /** A generation has at most one claimed job, and it is the one its worker is on. */
  lemma OneClaimPerGeneration(actions: seq<Action>, a: Id, b: Id)
    requires a in After(actions).jobs && b in After(actions).jobs
    requires After(actions).jobs[a].claimed && After(actions).jobs[b].claimed
    requires After(actions).jobs[a].generation == After(actions).jobs[b].generation
    ensures a == b
  {
    hide Next;
    AfterInv(actions);
    assert JobInv(After(actions), a) && JobInv(After(actions), b);
  }

  /** Completed and remaining quanta are the submitted list, in order; a job succeeds exactly when none remains. */
  lemma QuantaAreConserved(actions: seq<Action>, id: Id)
    requires id in After(actions).jobs
    ensures var r := After(actions).jobs[id];
            && r.completed <= |r.original| && r.original[..r.completed] + r.quanta == r.original
            && (r.state == Succeeded <==> r.completed == |r.original|)
  {
    hide Next;
    AfterInv(actions);
    assert JobInv(After(actions), id);
  }

  /** The quantum that comes back is always the one at the head of the job's list. */
  lemma NoQuantumMismatch(actions: seq<Action>, g: Gen)
    requires g in After(actions).workers && After(actions).workers[g].Executing?
    ensures var s := After(actions);
            var w := s.workers[g];
            w.job in s.jobs && s.jobs[w.job].quanta != [] && s.jobs[w.job].quanta[0] == w.quantum
  {
    hide Next;
    AfterInv(actions);
    assert WorkerInv(After(actions), g);
  }

  // ---------------------------------------------------------------- terminal stays terminal

  /** A record keeps its submitted list, and once terminal it stays terminal and completes nothing more. */
  predicate RecordKept(r: Record, after: Record) {
    after.original == r.original && (r.flags.terminal ==> after.flags.terminal && after.completed == r.completed)
  }

  predicate TerminalKept(s: Sched, after: Sched) {
    forall id :: id in s.jobs ==> id in after.jobs && RecordKept(s.jobs[id], after.jobs[id])
  }

  lemma PointKept(s: Sched, after: Sched, id: Id, r: Record)
    requires after.jobs == s.jobs[id := r] && (id in s.jobs ==> RecordKept(s.jobs[id], r))
    ensures TerminalKept(s, after)
  {
  }

  lemma NextKeepsTerminal(s: Sched, a: Action)
    requires Inv(s)
    ensures TerminalKept(s, Next(s, a))
  {
    match a
    case DoSubmit(id, g, quanta) => SubmitKeepsTerminal(s, id, g, quanta);
    case DoCancel(id) => CancelKeepsTerminal(s, id);
    case DoRestart(id) => RestartKeepsTerminal(s, id);
    case DoPause(g) => PauseKeepsTerminal(s, g);
    case DoClose => CloseKeepsTerminal(s);
    case DoClaim(g) =>
      if g in s.ready && g in s.workers && s.workers[g].Idle? { ClaimKeepsTerminal(s, g, s.ready[g]); }
    case DoWork(g, e) =>
      if g in s.ready && g in s.workers { WorkKeepsTerminal(s, g, e); }
  }

  lemma SubmitKeepsTerminal(s: Sched, id: Id, g: Gen, quanta: seq<Quantum>)
    ensures TerminalKept(s, Submit(s, id, g, quanta).0)
  {
  }

  lemma CancelKeepsTerminal(s: Sched, id: Id)
    ensures TerminalKept(s, Cancel(s, id).0)
  {
    hide Remove;
    if id in s.jobs && !s.jobs[id].flags.terminal && s.jobs[id].state != Canceled {
      PointKept(s, Cancel(s, id).0, id, Canceling(s.jobs[id]));
    }
  }

  lemma RestartKeepsTerminal(s: Sched, id: Id)
    ensures TerminalKept(s, Restart(s, id).0)
  {
  }

  lemma PauseKeepsTerminal(s: Sched, g: Gen)
    ensures TerminalKept(s, PauseGeneration(s, g))
  {
    hide Kept;
  }

  lemma CloseKeepsTerminal(s: Sched)
    ensures TerminalKept(s, Close(s))
  {
  }

  lemma {:induction false} ClaimKeepsTerminal(s: Sched, g: Gen, ready: seq<Id>)
    requires g in s.ready && g in s.workers
    ensures TerminalKept(s, Claim(s, g, ready))
    decreases |ready|
  {
    if ready != [] {
      ClaimKeepsTerminal(s, g, ready[1..]);
    }
  }

  lemma FinishKeepsRecord(r: Record, quantum: Quantum, outcome: Outcome)
    requires !r.flags.terminal
    ensures RecordKept(r, FinishQuantum(r, quantum, outcome).0)
  {
  }

  /** An executing job is not terminal, so its settlement cannot reopen one. */
  lemma WorkKeepsTerminal(s: Sched, g: Gen, e: Event)
    requires Inv(s) && g in s.ready && g in s.workers
    ensures TerminalKept(s, Work(s, g, e))
  {
    assert WorkerInv(s, g);
    if !s.workers[g].Idle? {
      var id := s.workers[g].job;
      assert JobInv(s, id);
      hide Inv, JobInv, WorkerInv;
      match (s.workers[g], e)
      case (Executing(_, quantum), Returns(outcome)) =>
        FinishKeepsRecord(s.jobs[id], quantum, outcome);
        hide FinishQuantum;
        PointKept(s, Work(s, g, e), id, FinishQuantum(s.jobs[id], quantum, outcome).0);
      case (Claimed(_, _), Refused(canceled)) =>
        PointKept(s, Work(s, g, e), id, FinishBeforeDispatch(s.jobs[id], canceled));
      case (Leased(_, _), Starts) =>
        PointKept(s, Work(s, g, e), id, Work(s, g, e).jobs[id]);
      case _ =>
    }
  }

  function RunFrom(s: Sched, actions: seq<Action>): Sched {
    if actions == [] then s else Next(RunFrom(s, actions[..|actions| - 1]), actions[|actions| - 1])
  }

  lemma {:induction false} RunInv(s: Sched, actions: seq<Action>)
    requires Inv(s)
    ensures Inv(RunFrom(s, actions))
  {
    hide Next;
    if actions != [] {
      RunInv(s, actions[..|actions| - 1]);
      NextKeeps(RunFrom(s, actions[..|actions| - 1]), actions[|actions| - 1]);
    }
  }

  lemma {:induction false} TerminalIsForever(s: Sched, actions: seq<Action>)
    requires Inv(s)
    ensures TerminalKept(s, RunFrom(s, actions))
  {
    hide Next, Inv;
    if actions != [] {
      var init := actions[..|actions| - 1];
      TerminalIsForever(s, init);
      RunInv(s, init);
      NextKeepsTerminal(RunFrom(s, init), actions[|actions| - 1]);
    }
  }

  // ---------------------------------------------------------------- CANCELED is not final

  /** The worker gives a claimed job back without having started it. */
  predicate GivesBack(s: Sched, a: Action, id: Id) {
    a.DoWork? && a.generation in s.ready && a.generation in s.workers
    && match (s.workers[a.generation], a.event)
       case (Claimed(job, _), Refused(_)) => job == id
       case (Leased(job, _), Starts) => job == id
       case _ => false
  }

  /** The one way out of CANCELED: a job that was claimed, paused and then cancelled comes back from its worker. */
  lemma CanceledIsLeftExactly(s: Sched, a: Action, id: Id)
    requires Inv(s) && id in s.jobs && s.jobs[id].state == Canceled
    ensures id in Next(s, a).jobs
    ensures Next(s, a).jobs[id].state != Canceled <==> GivesBack(s, a, id) && s.jobs[id].flags.pauseRequested
  {
    assert JobInv(s, id);
    match a
    case DoWork(g, e) =>
      if g in s.ready && g in s.workers { CanceledAtWork(s, g, e, id); }
    case DoClaim(g) =>
      if g in s.ready && g in s.workers { ClaimKeepsStates(s, g, s.ready[g], id); }
    case DoSubmit(x, g, quanta) => CanceledAtSubmit(s, x, g, quanta, id);
    case _ =>
      hide Inv;
      CanceledOtherwise(s, a, id);
  }

  lemma CanceledAtSubmit(s: Sched, x: Id, g: Gen, quanta: seq<Quantum>, id: Id)
    requires id in s.jobs
    ensures id in Submit(s, x, g, quanta).0.jobs && Submit(s, x, g, quanta).0.jobs[id] == s.jobs[id]
  {
  }

  lemma CanceledOtherwise(s: Sched, a: Action, id: Id)
    requires a.DoCancel? || a.DoRestart? || a.DoPause? || a.DoClose?
    requires id in s.jobs && s.jobs[id].state == Canceled && s.jobs[id].flags.terminal
    ensures id in Next(s, a).jobs && Next(s, a).jobs[id].state == Canceled
  {
  }

  lemma {:induction false} ClaimKeepsStates(s: Sched, g: Gen, ready: seq<Id>, id: Id)
    requires g in s.ready && g in s.workers && id in s.jobs
    ensures id in Claim(s, g, ready).jobs && Claim(s, g, ready).jobs[id].state == s.jobs[id].state
    decreases |ready|
  {
    if ready != [] && !Claimable(s.jobs, ready[0]) {
      ClaimKeepsStates(s, g, ready[1..], id);
    }
  }

  lemma CanceledAtWork(s: Sched, g: Gen, e: Event, id: Id)
    requires g in s.ready && g in s.workers && id in s.jobs && s.jobs[id].state == Canceled
    requires JobInv(s, id) && WorkerInv(s, g)
    ensures id in Work(s, g, e).jobs
    ensures Work(s, g, e).jobs[id].state != Canceled <==> GivesBack(s, DoWork(g, e), id) && s.jobs[id].flags.pauseRequested
  {
  }

  /** It happens: submit, claim, pause, cancel, and a lane that refuses. */
  lemma CanceledCanBeLeft(id: Id, g: Gen, quantum: Quantum)
    requires id != "" && g != ""
    ensures var s := Next(Next(Next(Next(Empty(), DoSubmit(id, g, [quantum])), DoClaim(g)), DoPause(g)), DoCancel(id));
            && id in s.jobs && s.jobs[id].state == Canceled && s.jobs[id].flags.terminal
            && var after := Next(s, DoWork(g, Refused(true)));
               id in after.jobs && after.jobs[id].state == PausedRestartable && after.jobs[id].flags.terminal
  {
    var s1 := Next(Empty(), DoSubmit(id, g, [quantum]));
    assert s1.ready[g] == [id] && s1.workers[g].Idle?;
    var s2 := Next(s1, DoClaim(g));
    assert s2.workers[g] == Claimed(id, quantum) && s2.ready[g] == [];
    var s3 := Next(s2, DoPause(g));
    assert s3.jobs[id].state == Queued && s3.jobs[id].flags.pauseRequested;
    var s4 := Next(s3, DoCancel(id));
    assert s4.workers[g] == Claimed(id, quantum);
  }

  // ---------------------------------------------------------------- first in, first out

  /** The job waits at a position no later than `k`. */
  ghost predicate WaitsBy(s: Sched, g: Gen, id: Id, k: int) {
    !s.closed && g in s.ready && exists p :: 0 <= p <= k && p < |s.ready[g]| && s.ready[g][p] == id
  }

  /** A claim of this generation that finds a job. */
  predicate Claims(s: Sched, a: Action, g: Gen) {
    a == DoClaim(g) && g in s.ready && g in s.workers && s.workers[g].Idle? && s.ready[g] != []
  }

  predicate Takes(s: Sched, a: Action, g: Gen, id: Id) {
    var next := Next(s, a);
    a == DoClaim(g) && g in next.workers && next.workers[g].Claimed? && next.workers[g].job == id
  }

  /** Neither cancelled nor paused, and the scheduler stays open. */
  predicate Leaves(a: Action, g: Gen, id: Id) {
    !a.DoClose? && a != DoCancel(id) && a != DoPause(g)
  }

  lemma {:induction false} RemovePosition(ready: seq<Id>, other: Id, p: nat)
    requires p < |ready| && ready[p] != other
    ensures var after := Remove(ready, other); (p < |after| && after[p] == ready[p]) || (0 < p <= |after| && after[p - 1] == ready[p])
  {
    if ready[0] != other && p > 0 {
      RemovePosition(ready[1..], other, p - 1);
    }
  }

  lemma {:induction false} KeptOthers(ready: seq<Id>, jobs: map<Id, Record>, g: Gen)
    requires forall i :: 0 <= i < |ready| ==> ready[i] in jobs && jobs[ready[i]].generation != g
    ensures Kept(ready, jobs, g) == ready
  {
    if ready != [] {
      KeptOthers(ready[1..], jobs, g);
      assert ready == [ready[0]] + ready[1..];
    }
  }

  lemma WaitsAt(s: Sched, g: Gen, id: Id, k: int, p: nat)
    requires !s.closed && g in s.ready && p <= k && p < |s.ready[g]| && s.ready[g][p] == id
    ensures WaitsBy(s, g, id, k)
  {
  }

  /** A claim moves the job one place forward or takes it; nothing else moves it back. */
  lemma StepPosition(s: Sched, a: Action, g: Gen, id: Id, k: int)
    requires Inv(s) && WaitsBy(s, g, id, k) && Leaves(a, g, id)
    ensures Takes(s, a, g, id) || WaitsBy(Next(s, a), g, id, if Claims(s, a, g) then k - 1 else k)
  {
    hide JobInv, WorkerInv, ReadyInv, FinishQuantum, FinishBeforeDispatch, MarkRunning, Kept;
    var p :| 0 <= p <= k && p < |s.ready[g]| && s.ready[g][p] == id;
    var next := Next(s, a);
    match a
    case DoClaim(h) =>
      if h in s.ready && h in s.workers && s.workers[h].Idle? {
        ClaimTakesFirst(s, h);
        if h == g {
          if p > 0 {
            assert next.ready[g] == s.ready[g][1..];
            WaitsAt(next, g, id, k - 1, p - 1);
          }
        } else {
          WaitsAt(next, g, id, k, p);
        }
      } else {
        WaitsAt(next, g, id, k, p);
      }
    case DoCancel(other) =>
      RemovePosition(s.ready[g], other, p);
      CancelPosition(s, other, g, id, k, p);
    case DoSubmit(x, h, quanta) => AppendedPosition(s, next, g, id, k, p);
    case DoRestart(x) => AppendedPosition(s, next, g, id, k, p);
    case DoPause(h) => AppendedPosition(s, next, g, id, k, p);
    case DoWork(h, e) => AppendedPosition(s, next, g, id, k, p);
    case DoClose =>
  }

  lemma AppendedPosition(s: Sched, next: Sched, g: Gen, id: Id, k: int, p: nat)
    requires g in s.ready && p <= k && p < |s.ready[g]| && s.ready[g][p] == id
    requires !next.closed && g in next.ready && s.ready[g] <= next.ready[g]
    ensures WaitsBy(next, g, id, k)
  {
  }

  lemma CancelPosition(s: Sched, other: Id, g: Gen, id: Id, k: int, p: nat)
    requires !s.closed && g in s.ready && p <= k && p < |s.ready[g]| && s.ready[g][p] == id && other != id
    ensures WaitsBy(Cancel(s, other).0, g, id, k)
  {
    var next := Cancel(s, other).0;
    RemovePosition(s.ready[g], other, p);
    hide Remove;
    if p < |next.ready[g]| && next.ready[g][p] == id {
      WaitsAt(next, g, id, k, p);
    } else {
      WaitsAt(next, g, id, k, p - 1);
    }
  }

  /** How many jobs of the generation are claimed along the way. */
  function ClaimCount(s: Sched, actions: seq<Action>, g: Gen): nat {
    if actions == [] then 0
    else
      var init := actions[..|actions| - 1];
      ClaimCount(s, init, g) + if Claims(RunFrom(s, init), actions[|actions| - 1], g) then 1 else 0
  }

  ghost predicate TakenDuring(s: Sched, actions: seq<Action>, g: Gen, id: Id) {
    exists i :: 0 <= i < |actions| && TakenAt(s, actions, g, id, i)
  }

  predicate TakenAt(s: Sched, actions: seq<Action>, g: Gen, id: Id, i: nat)
    requires i < |actions|
  {
    Takes(RunFrom(s, actions[..i]), actions[i], g, id)
  }

  /** A ready job at position k is claimed after at most k other claims, unless it is cancelled or its generation is
      paused or the scheduler closed. */
  lemma {:induction false} ReadyIsFifo(s: Sched, actions: seq<Action>, g: Gen, id: Id, k: nat)
    requires Inv(s) && !s.closed && g in s.ready && k < |s.ready[g]| && s.ready[g][k] == id
    requires forall i :: 0 <= i < |actions| ==> Leaves(actions[i], g, id)
    ensures TakenDuring(s, actions, g, id) || WaitsBy(RunFrom(s, actions), g, id, k - ClaimCount(s, actions, g))
    ensures ClaimCount(s, actions, g) > k ==> TakenDuring(s, actions, g, id)
  {
    hide Next, Inv, Takes, Claims;
    if actions == [] {
      WaitsAt(s, g, id, k, k);
    } else {
      var last := |actions| - 1;
      var init := actions[..last];
      ReadyIsFifo(s, init, g, id, k);
      if TakenDuring(s, init, g, id) {
        var i :| 0 <= i < |init| && TakenAt(s, init, g, id, i);
        assert init[..i] == actions[..i];
        assert TakenAt(s, actions, g, id, i);
      } else {
        RunInv(s, init);
        StepPosition(RunFrom(s, init), actions[last], g, id, k - ClaimCount(s, init, g));
        if Takes(RunFrom(s, init), actions[last], g, id) {
          assert TakenAt(s, actions, g, id, last);
        }
      }
    }
  }
}
