/** transfer.Repository: the tables of all jobs and the process-local permit registry, updated statement by
    statement. Each method is proved to be the protocol step of its job and to leave every other job alone. */
module ImportRepository {
  import opened Bytes
  import opened Wrappers
  import opened Import
  import opened ImportInvariants
  import opened ImportRuns

  /** One job's rows and its entry in the permit registry. */
  function SysOf(jobs: map<Id, Db>, permits: map<Id, Permit>, job: Id): Sys
    requires job in jobs
  {
    Sys(jobs[job], if job in permits then Some(permits[job]) else None)
  }

  function WithPermit(permits: map<Id, Permit>, job: Id, permit: Option<Permit>): map<Id, Permit> {
    if permit.Some? then permits[job := permit.value] else permits - {job}
  }

  /** `step` was taken for `job`, and nothing else happened. */
  predicate Took(jobs: map<Id, Db>, permits: map<Id, Permit>, jobs': map<Id, Db>, permits': map<Id, Permit>, job: Id,
                 step: Step, answer: Result<bool, Error>) {
    && answer == step.answer
    && jobs' == jobs[job := step.next.db] && permits' == WithPermit(permits, job, step.next.permit)
  }

  predicate Nothing(jobs: map<Id, Db>, permits: map<Id, Permit>, jobs': map<Id, Db>, permits': map<Id, Permit>,
                    answer: Result<bool, Error>) {
    answer == Err(NoRow) && jobs' == jobs && permits' == permits
  }

  ghost predicate AllInv(jobs: map<Id, Db>, permits: map<Id, Permit>) {
    permits.Keys <= jobs.Keys && forall j :: j in jobs ==> Inv(SysOf(jobs, permits, j))
  }

  lemma TookInv(jobs: map<Id, Db>, permits: map<Id, Permit>, jobs': map<Id, Db>, permits': map<Id, Permit>, job: Id,
                step: Step, answer: Result<bool, Error>)
    requires AllInv(jobs, permits) && job in jobs && Took(jobs, permits, jobs', permits', job, step, answer)
    requires Inv(step.next)
    ensures AllInv(jobs', permits') && SysOf(jobs', permits', job) == step.next
    ensures forall j :: j in jobs && j != job ==> SysOf(jobs', permits', j) == SysOf(jobs, permits, j)
  {
    hide Inv;
    TookFrame(jobs, permits, jobs', permits', job, step, answer);
  }

  lemma TookFrame(jobs: map<Id, Db>, permits: map<Id, Permit>, jobs': map<Id, Db>, permits': map<Id, Permit>, job: Id,
                  step: Step, answer: Result<bool, Error>)
    requires permits.Keys <= jobs.Keys && job in jobs && Took(jobs, permits, jobs', permits', job, step, answer)
    ensures jobs'.Keys == jobs.Keys && permits'.Keys <= jobs'.Keys && SysOf(jobs', permits', job) == step.next
    ensures forall j :: j in jobs && j != job ==> SysOf(jobs', permits', j) == SysOf(jobs, permits, j)
  {
  }

  lemma AllInvAt(jobs: map<Id, Db>, permits: map<Id, Permit>, job: Id)
    requires AllInv(jobs, permits) && job in jobs
    ensures Inv(SysOf(jobs, permits, job))
  {
  }

  lemma StartRunInv(s: Sys, req: StartRequest, now: nat)
    requires Inv(s)
    ensures Inv(Import.StartRun(s, req, now).next)
  {
    hide Inv, Import.StartRun;
    StepInv(s, EStart(req, now));
  }

  lemma BeginAttemptInv(s: Sys, req: AttemptRequest, profile: string, permit: Permit)
    requires Inv(s)
    ensures Inv(Import.BeginAttempt(s, req, profile, permit).next)
  {
    hide Inv, Import.BeginAttempt;
    StepInv(s, EBegin(req, profile, permit));
  }

  lemma SettleAckInv(s: Sys, id: Id)
    requires Inv(s)
    ensures Inv(Import.SettleAck(s, id).next)
  {
    hide Inv, Import.SettleAck;
    StepInv(s, EAck(id));
  }

  lemma RecordIncidentInv(s: Sys, id: Id, incident: Id, kind: IncidentKind)
    requires Inv(s)
    ensures Inv(Import.RecordIncident(s, id, incident, kind).next)
  {
    hide Inv, Import.RecordIncident;
    StepInv(s, EIncident(id, incident, kind));
  }

  lemma AbortInv(s: Sys, cmd: Control, incident: Id, parent: Digest)
    requires Inv(s)
    ensures Inv(Import.Abort(s, cmd, incident, parent).next)
  {
    hide Inv, Import.Abort;
    StepInv(s, EAbort(cmd, incident, parent));
  }

  lemma InvalidatePermitInv(s: Sys, permit: Permit, reason: string)
    requires Inv(s)
    ensures Inv(Import.InvalidatePermit(s, permit, reason).next)
  {
    hide Inv, Import.InvalidatePermit;
    StepInv(s, EInvalidate(permit, reason));
  }

  /** What a sweep over the matching permits has done when only `left` of them remain. */
  ghost predicate Swept(jobs0: map<Id, Db>, permits0: map<Id, Permit>, jobs: map<Id, Db>, permits: map<Id, Permit>,
                        left: set<Id>, reason: string, binding: string) {
    && jobs.Keys == jobs0.Keys
    && (forall j :: j in left ==> j in jobs0 && j in permits0 && permits0[j].binding == binding)
    && (forall j :: j in jobs0 ==>
          SysOf(jobs, permits, j) == SweptJob(SysOf(jobs0, permits0, j), j in left, reason, binding))
    && (forall j :: j in permits && permits[j].binding == binding ==> j in left)
  }

  function SweptJob(s: Sys, left: bool, reason: string, binding: string): Sys {
    if s.permit.Some? && s.permit.value.binding == binding && !left then Import.InvalidatePermit(s, s.permit.value, reason).next
    else s
  }

  lemma RevokesItself(s: Sys, permit: Permit, reason: string)
    requires s.permit == Some(permit) && Import.InvalidatePermit(s, permit, reason).answer.Ok?
    ensures Import.InvalidatePermit(s, permit, reason).next.permit.None?
  {
  }

  lemma SweepStarts(jobs: map<Id, Db>, permits: map<Id, Permit>, left: set<Id>, reason: string, binding: string)
    requires permits.Keys <= jobs.Keys && left == set j | j in permits && permits[j].binding == binding
    ensures Swept(jobs, permits, jobs, permits, left, reason, binding)
  {
  }

  lemma SweepAt(jobs0: map<Id, Db>, permits0: map<Id, Permit>, jobs: map<Id, Db>, permits: map<Id, Permit>, left: set<Id>,
                reason: string, binding: string, j: Id)
    requires Swept(jobs0, permits0, jobs, permits, left, reason, binding) && j in left
    ensures j in jobs && j in jobs0 && j in permits0 && SysOf(jobs, permits, j) == SysOf(jobs0, permits0, j)
  {
  }

  lemma SweepStep(jobs0: map<Id, Db>, permits0: map<Id, Permit>, jobs: map<Id, Db>, permits: map<Id, Permit>, left: set<Id>,
                  reason: string, binding: string, jobs': map<Id, Db>, permits': map<Id, Permit>, j: Id)
    requires Swept(jobs0, permits0, jobs, permits, left, reason, binding) && j in left
    requires jobs'.Keys == jobs.Keys
    requires SysOf(jobs', permits', j) == Import.InvalidatePermit(SysOf(jobs0, permits0, j), permits0[j], reason).next
    requires Import.InvalidatePermit(SysOf(jobs0, permits0, j), permits0[j], reason).answer.Ok?
    requires forall k :: k in jobs && k != j ==> SysOf(jobs', permits', k) == SysOf(jobs, permits, k)
    requires permits'.Keys <= jobs'.Keys
    ensures Swept(jobs0, permits0, jobs', permits', left - {j}, reason, binding)
  {
    hide Import.InvalidatePermit;
    RevokesItself(SysOf(jobs0, permits0, j), permits0[j], reason);
    forall k | k in jobs0
      ensures SysOf(jobs', permits', k) == SweptJob(SysOf(jobs0, permits0, k), k in left - {j}, reason, binding) {
    }
    forall k | k in permits' && permits'[k].binding == binding ensures k in left - {j} {
      assert SysOf(jobs', permits', k).permit == Some(permits'[k]);
      if k != j {
        assert SysOf(jobs', permits', k) == SysOf(jobs, permits, k);
      }
    }
  }

  lemma CancelImportInv(s: Sys, cmd: Control, raced: bool)
    requires Inv(s)
    ensures Inv(Import.CancelImport(s, cmd, TheOne(Lives(s.db)), raced).next)
    ensures forall g, h :: g in Lives(s.db) && h in Lives(s.db) ==> g == h
  {
    hide Import.CancelImport;
    StepInv(s, ECancel(cmd, raced));
    LiveRows(s.db);
  }

  /** The lookup before the lock answers for the transaction, and without a hit it does not matter that it was made. */
  lemma KnownCancel(s: Sys, cmd: Control)
    ensures var found := Lookup(s.db, cmd.scope, cmd.digest);
            var first := Import.CancelImport(s, cmd, TheOne(Lives(s.db)), false);
            && (found.Err? ==> first == Refuse(s, found.error))
            && (found.Ok? && found.value.Some? ==> first == Step(s, Ok(true)))
            && (found.Ok? && found.value.None? ==> first == Import.CancelImport(s, cmd, TheOne(Lives(s.db)), true))
  {
  }

  lemma RecoverInv(s: Sys, incident: Id)
    requires Inv(s) && s.permit.None? && incident !in s.db.incidents
    ensures Inv(Recover(s, TheOne(Sendings(s.db)), incident).next) && Recover(s, TheOne(Sendings(s.db)), incident).answer.Ok?
    ensures Recover(s, TheOne(Sendings(s.db)), incident).next.permit.None?
    ensures forall a, b :: a in Sendings(s.db) && b in Sendings(s.db) ==> a == b
  {
    hide Recover;
    StepInv(s, ERecover(incident));
    LiveRows(s.db);
    RecoverAnswers(s, TheOne(Sendings(s.db)), incident);
  }

  lemma RecoverAnswers(s: Sys, sending: Option<Id>, incident: Id)
    requires Inv(s) && incident !in s.db.incidents && (sending.Some? ==> sending.value in Sendings(s.db))
    ensures Recover(s, sending, incident).answer.Ok? && Recover(s, sending, incident).next.permit.None?
  {
    if sending.Some? && s.db.job.state == Running {
      assert Opens(s.db) == {};
    }
  }

  /** Every job not in `left` was recovered. */
  ghost predicate AllRecovered(jobs0: map<Id, Db>, jobs: map<Id, Db>, left: set<Id>, newId: Id -> Id) {
    jobs.Keys == jobs0.Keys
    && forall j :: j in jobs0 ==>
         jobs[j] == if j in left then jobs0[j]
                    else Recover(Sys(jobs0[j], None), TheOne(Sendings(jobs0[j])), newId(j)).next.db
  }

  lemma AllInvCrash(jobs: map<Id, Db>, permits: map<Id, Permit>)
    requires AllInv(jobs, permits)
    ensures AllInv(jobs, map[])
  {
    forall j | j in jobs ensures Inv(SysOf(jobs, map[], j)) {
      assert Inv(SysOf(jobs, permits, j));
    }
  }

  lemma RecoveryStarts(jobs: map<Id, Db>, ids: set<Id>, newId: Id -> Id)
    requires ids == set j | j in jobs && jobs[j].job.rowState in {Preflighting, Staging, Running}
    ensures AllRecovered(jobs, jobs, ids, newId)
  {
  }

  lemma RecoveryAt(jobs0: map<Id, Db>, jobs: map<Id, Db>, left: set<Id>, newId: Id -> Id, j: Id)
    requires AllRecovered(jobs0, jobs, left, newId) && j in left && left <= jobs0.Keys
    ensures j in jobs && jobs[j] == jobs0[j]
  {
  }

  lemma RecoveryStep(jobs0: map<Id, Db>, jobs: map<Id, Db>, left: set<Id>, newId: Id -> Id, jobs': map<Id, Db>, j: Id)
    requires AllRecovered(jobs0, jobs, left, newId) && j in left && j in jobs0
    requires jobs' == jobs[j := Recover(Sys(jobs0[j], None), TheOne(Sendings(jobs0[j])), newId(j)).next.db]
    ensures AllRecovered(jobs0, jobs', left - {j}, newId)
  {
    hide Recover;
  }

  class Repository {
    var jobs: map<Id, Db>
    var permits: map<Id, Permit>

    ghost predicate Valid()
      reads this
    {
      AllInv(jobs, permits)
    }

    constructor ()
      ensures Valid() && jobs == map[] && permits == map[]
    {
      jobs, permits := map[], map[];
    }

    // -------------------------------------------------------------- permit registry

    method Activate(job: Id, permit: Permit) returns (ok: bool)
      modifies this`permits
      ensures ok <==> permit.wellFormed && job !in old(permits)
      ensures permits == if ok then old(permits)[job := permit] else old(permits)
    {
      ok := permit.wellFormed && job !in permits;
      if ok {
        permits := permits[job := permit];
      }
    }

    method CompareAndSwap(job: Id, segment: Id, parent: Digest, child: Digest) returns (ok: bool)
      modifies this`permits
      ensures ok <==> job in old(permits) && old(permits)[job].segment == segment && old(permits)[job].checkpoint == parent
      ensures permits == if ok then old(permits)[job := old(permits)[job].(checkpoint := child)] else old(permits)
    {
      ok := job in permits && permits[job].segment == segment && permits[job].checkpoint == parent;
      if ok {
        permits := permits[job := permits[job].(checkpoint := child)];
      }
    }

    method Revoke(job: Id)
      modifies this`permits
      ensures permits == old(permits) - {job}
    {
      permits := permits - {job};
    }

    // -------------------------------------------------------------- runs

    method PausePermitDesync(job: Id, segment: Id, checkpoint: Digest)
      requires job in jobs
      modifies this
      ensures permits == old(permits) - {job}
      ensures jobs == old(jobs)[job := Import.PausePermitDesync(old(jobs)[job], segment, checkpoint)]
    {
      Revoke(job);
      var tx := jobs[job];
      if tx.job.state != Running || tx.chain.digest != Some(checkpoint) || tx.job.active != Some(segment) { return; }
      if Sendings(tx) != {} { return; }
      tx := tx.(job := ApplyTask(tx.job, PausedSafe, true, false));
      if segment in tx.segments {
        tx := tx.(segments := tx.segments[segment := tx.segments[segment].(state := Closed, stop := Some(PermitCheckpointDesync))]);
      }
      tx := tx.(job := tx.job.(active := None));
      jobs := jobs[job := tx];
    }

    method StartRun(job: Id, req: StartRequest, now: nat) returns (answer: Result<bool, Error>)
      requires Valid()
      modifies this
      ensures Valid()
      ensures job !in old(jobs) ==> Nothing(old(jobs), old(permits), jobs, permits, answer)
      ensures job in old(jobs) ==>
                Took(old(jobs), old(permits), jobs, permits, job, Import.StartRun(old(SysOf(jobs, permits, job)), req, now), answer)
    {
      if job !in jobs { return Err(NoRow); }
      hide Inv, Import.StartRun;
      ghost var before := SysOf(jobs, permits, job);
      AllInvAt(jobs, permits, job);
      StartRunInv(before, req, now);
      answer := StartRunLocked(job, req, now);
      TookInv(old(jobs), old(permits), jobs, permits, job, Import.StartRun(before, req, now), answer);
    }

    method StartRunLocked(job: Id, req: StartRequest, now: nat) returns (answer: Result<bool, Error>)
      requires job in jobs
      modifies this
      ensures Took(old(jobs), old(permits), jobs, permits, job, Import.StartRun(old(SysOf(jobs, permits, job)), req, now), answer)
    {
      var tx := jobs[job];
      var found := Lookup(tx, req.scope, req.digest);
      if found.Err? { return Err(found.error); }
      if found.value.Some? {
        answer := if tx.job.profile != req.profile then Err(ProfileMismatch) else Ok(true);
        return;
      }
      if tx.job.profile != req.profile { return Err(ProfileMismatch); }
      if now >= req.grantExpiresAt { return Err(GrantExpired); }
      if tx.job.stateRevision != req.expectedRevision { return Err(RevisionConflict); }
      if tx.job.state != Ready && tx.job.state != PausedSafe { return Err(ImportState); }
      if req.permit.segment != req.segment || tx.chain.digest != Some(req.permit.checkpoint) { return Err(PermitMismatch); }
      if req.segment in tx.segments || Lives(tx) != {} { return Err(UniqueConstraint); }
      var checkpoint := req.permit.checkpoint;
      tx := tx.(segments := tx.segments[req.segment := Segment(Active, checkpoint, checkpoint, None, None)]);
      tx := tx.(job := ApplyTask(tx.job, Running, true, false));
      tx := tx.(job := tx.job.(active := Some(req.segment), pauseRequested := false));
      tx := tx.(commands := Record(tx.commands, tx.job, req.scope, req.digest));
      jobs := jobs[job := tx];
      var activated := Activate(job, req.permit);
      if !activated {
        PausePermitDesync(job, req.segment, checkpoint);
        return Err(PermitMismatch);
      }
      return Ok(false);
    }

    /** `permit` is what the caller read before it took the job lock. */
    method BeginAttempt(job: Id, req: AttemptRequest, profile: string, permit: Permit) returns (answer: Result<bool, Error>)
      requires Valid()
      modifies this
      ensures Valid()
      ensures job !in old(jobs) ==> Nothing(old(jobs), old(permits), jobs, permits, answer)
      ensures job in old(jobs) ==>
                Took(old(jobs), old(permits), jobs, permits, job,
                     Import.BeginAttempt(old(SysOf(jobs, permits, job)), req, profile, permit), answer)
    {
      if job !in jobs { return Err(NoRow); }
      hide Inv, Import.BeginAttempt;
      ghost var before := SysOf(jobs, permits, job);
      AllInvAt(jobs, permits, job);
      BeginAttemptInv(before, req, profile, permit);
      answer := BeginAttemptLocked(job, req, profile, permit);
      TookInv(old(jobs), old(permits), jobs, permits, job, Import.BeginAttempt(before, req, profile, permit), answer);
    }

    method BeginAttemptLocked(job: Id, req: AttemptRequest, profile: string, permit: Permit)
      returns (answer: Result<bool, Error>)
      requires job in jobs
      modifies this
      ensures Took(old(jobs), old(permits), jobs, permits, job,
                   Import.BeginAttempt(old(SysOf(jobs, permits, job)), req, profile, permit), answer)
    {
      if req.segment != permit.segment || req.parent != permit.checkpoint { return Err(PermitMismatch); }
      if job !in permits || permits[job] != permit || !permit.wellFormed { return Err(PermitMismatch); }
      if req.end <= req.start { return Err(OffsetConflict); }
      var tx := jobs[job];
      if tx.job.profile != profile || permit.profile != profile { return Err(ProfileMismatch); }
      if tx.job.state != Running || tx.chain.digest != Some(req.parent) || tx.job.active != Some(req.segment) {
        return Err(CheckpointConflict);
      }
      var checkpoint := CheckpointOf(tx);
      if checkpoint.None? { return Err(NoRow); }
      if req.start != checkpoint.value.offset { return Err(OffsetConflict); }
      if req.segment !in tx.segments { return Err(NoRow); }
      var segment := tx.segments[req.segment];
      if segment.state != Active || segment.committed != req.parent { return Err(CheckpointConflict); }
      if segment.attempt.Some? || Sendings(tx) != {} { return Err(ImportState); }
      if req.attempt in tx.attempts { return Err(UniqueConstraint); }
      var row := Attempt(req.batch, req.segment, Sending, req.parent, req.start, req.end, req.payload, None);
      tx := tx.(attempts := tx.attempts[req.attempt := row]);
      tx := tx.(segments := tx.segments[req.segment := segment.(attempt := Some(req.attempt))]);
      jobs := jobs[job := tx];
      return Ok(false);
    }

    // -------------------------------------------------------------- settlement

    method SettleAck(job: Id, id: Id) returns (answer: Result<bool, Error>)
      requires Valid()
      modifies this
      ensures Valid()
      ensures job !in old(jobs) ==> Nothing(old(jobs), old(permits), jobs, permits, answer)
      ensures job in old(jobs) ==>
                Took(old(jobs), old(permits), jobs, permits, job, Import.SettleAck(old(SysOf(jobs, permits, job)), id), answer)
    {
      if job !in jobs { return Err(NoRow); }
      hide Inv, Import.SettleAck;
      ghost var before := SysOf(jobs, permits, job);
      AllInvAt(jobs, permits, job);
      SettleAckInv(before, id);
      answer := SettleAckLocked(job, id);
      TookInv(old(jobs), old(permits), jobs, permits, job, Import.SettleAck(before, id), answer);
    }

    method SettleAckLocked(job: Id, id: Id) returns (answer: Result<bool, Error>)
      requires job in jobs
      modifies this
      ensures Took(old(jobs), old(permits), jobs, permits, job, Import.SettleAck(old(SysOf(jobs, permits, job)), id), answer)
    {
      var tx := jobs[job];
      var fault := SettlementFault(tx, id, ImportState);
      if fault.Some? { return Err(fault.value); }
      if CheckpointOf(tx).None? { return Err(NoRow); }
      var a := tx.attempts[id];
      var segment := tx.segments[a.segment];
      var continues := segment.state == Active && !tx.job.pauseRequested;
      var canceled := segment.state == Stopping && segment.stop == Some(UserCanceled);
      var next := AckedCheckpoint(CheckpointOf(tx).value, a);
      var child := Sha256(next);
      if !CanAdvance(tx, a.parent, child) { return Err(UniqueConstraint); }
      if segment.committed != a.parent { return Err(CheckpointConflict); }
      var row := Transition(next.sequence, a.segment, Ack, a.parent, child, a.batch, id);
      tx := tx.(chain := tx.chain.(checkpoints := tx.chain.checkpoints[child := next]));
      tx := tx.(chain := tx.chain.(transitions := tx.chain.transitions + [row]));
      tx := tx.(attempts := tx.attempts[id := a.(state := Acked, child := Some(child))]);
      tx := tx.(segments := tx.segments[a.segment := MoveSegment(segment, child, continues, segment.stop)]);
      tx := tx.(chain := tx.chain.(digest := Some(child)));
      if continues {
        tx := tx.(job := ApplyTask(tx.job, Running, false, false).(pauseRequested := false));
      } else {
        var target := if canceled then Canceled else PausedSafe;
        tx := tx.(job := ApplyTask(tx.job, target, true, canceled).(active := None, pauseRequested := false));
        tx := tx.(job := tx.job.(transferState := target));
      }
      jobs := jobs[job := tx];
      if !continues {
        Revoke(job);
        return Ok(false);
      }
      var swapped := CompareAndSwap(job, a.segment, a.parent, child);
      if !swapped {
        PausePermitDesync(job, a.segment, child);
      }
      return Ok(false);
    }

    method RecordIncident(job: Id, id: Id, incident: Id, kind: IncidentKind) returns (answer: Result<bool, Error>)
      requires Valid()
      modifies this
      ensures Valid()
      ensures job !in old(jobs) ==> Nothing(old(jobs), old(permits), jobs, permits, answer)
      ensures job in old(jobs) ==>
                Took(old(jobs), old(permits), jobs, permits, job,
                     Import.RecordIncident(old(SysOf(jobs, permits, job)), id, incident, kind), answer)
    {
      if job !in jobs { return Err(NoRow); }
      hide Inv, Import.RecordIncident;
      ghost var before := SysOf(jobs, permits, job);
      AllInvAt(jobs, permits, job);
      RecordIncidentInv(before, id, incident, kind);
      answer := RecordIncidentLocked(job, id, incident, kind);
      TookInv(old(jobs), old(permits), jobs, permits, job, Import.RecordIncident(before, id, incident, kind), answer);
    }

    method RecordIncidentLocked(job: Id, id: Id, incident: Id, kind: IncidentKind) returns (answer: Result<bool, Error>)
      requires job in jobs
      modifies this
      ensures Took(old(jobs), old(permits), jobs, permits, job,
                   Import.RecordIncident(old(SysOf(jobs, permits, job)), id, incident, kind), answer)
    {
      var tx := jobs[job];
      var fault := SettlementFault(tx, id, CheckpointConflict);
      if fault.Some? { return Err(fault.value); }
      if incident in tx.incidents || Opens(tx) != {} { return Err(UniqueConstraint); }
      var a := tx.attempts[id];
      var target, outcome := NeedsUnknownDecision, EndedUnknown;
      if kind == PartialWrite {
        target, outcome := NeedsPartialDecision, EndedPartial;
      }
      tx := tx.(attempts := tx.attempts[id := a.(state := outcome)]);
      tx := tx.(segments := tx.segments[a.segment := tx.segments[a.segment].(state := Closed, attempt := None,
                                                                             stop := Some(Incidental(kind)))]);
      tx := tx.(incidents := tx.incidents[incident := Incident(kind, Open, a.parent, a.segment, a.batch, id, a.start, a.end,
                                                               a.payload)]);
      tx := tx.(job := ApplyTask(tx.job, target, true, false).(active := None, pauseRequested := false));
      tx := tx.(job := tx.job.(transferState := target));
      jobs := jobs[job := tx];
      Revoke(job);
      return Ok(false);
    }

    // -------------------------------------------------------------- control

    method Abort(job: Id, cmd: Control, incident: Id, parent: Digest) returns (answer: Result<bool, Error>)
      requires Valid()
      modifies this
      ensures Valid()
      ensures job !in old(jobs) ==> Nothing(old(jobs), old(permits), jobs, permits, answer)
      ensures job in old(jobs) ==>
                Took(old(jobs), old(permits), jobs, permits, job,
                     Import.Abort(old(SysOf(jobs, permits, job)), cmd, incident, parent), answer)
    {
      hide Inv, Import.Abort;
      if job !in jobs {
        Revoke(job);
        assert permits == old(permits);
        return Err(NoRow);
      }
      ghost var before := SysOf(jobs, permits, job);
      AllInvAt(jobs, permits, job);
      AbortInv(before, cmd, incident, parent);
      answer := AbortLocked(job, cmd, incident, parent);
      TookInv(old(jobs), old(permits), jobs, permits, job, Import.Abort(before, cmd, incident, parent), answer);
    }

    method AbortLocked(job: Id, cmd: Control, incident: Id, parent: Digest) returns (answer: Result<bool, Error>)
      requires job in jobs
      modifies this
      ensures Took(old(jobs), old(permits), jobs, permits, job,
                   Import.Abort(old(SysOf(jobs, permits, job)), cmd, incident, parent), answer)
    {
      Revoke(job);
      var tx := jobs[job];
      var found := Lookup(tx, cmd.scope, cmd.digest);
      if found.Err? { return Err(found.error); }
      if found.value.Some? { return Ok(true); }
      if tx.job.stateRevision != cmd.expectedRevision { return Err(RevisionConflict); }
      if !NeedsDecision(tx.job.state) { return Err(ImportState); }
      if tx.chain.digest != Some(parent) || incident !in Opens(tx) || tx.incidents[incident].parent != parent {
        return Err(CheckpointConflict);
      }
      if Sendings(tx) != {} { return Err(ImportState); }
      var row := tx.incidents[incident];
      tx := tx.(incidents := tx.incidents[incident := row.(status := AbortedIncident)]);
      tx := tx.(segments := CloseSegment(tx.segments, row.segment, Some(UserAborted)));
      tx := tx.(job := ApplyTask(tx.job, Aborted, true, true).(active := None, pauseRequested := false));
      tx := tx.(job := tx.job.(transferState := Aborted));
      tx := tx.(commands := Record(tx.commands, tx.job, cmd.scope, cmd.digest));
      jobs := jobs[job := tx];
      return Ok(false);
    }

    method InvalidatePermit(job: Id, permit: Permit, reason: string) returns (answer: Result<bool, Error>)
      requires Valid() && job in jobs
      modifies this
      ensures Valid()
      ensures Took(old(jobs), old(permits), jobs, permits, job,
                   Import.InvalidatePermit(old(SysOf(jobs, permits, job)), permit, reason), answer)
    {
      hide Inv, Import.InvalidatePermit;
      ghost var before := SysOf(jobs, permits, job);
      AllInvAt(jobs, permits, job);
      InvalidatePermitInv(before, permit, reason);
      answer := InvalidatePermitLocked(job, permit, reason);
      TookInv(old(jobs), old(permits), jobs, permits, job, Import.InvalidatePermit(before, permit, reason), answer);
    }

    method InvalidatePermitLocked(job: Id, permit: Permit, reason: string) returns (answer: Result<bool, Error>)
      requires job in jobs
      modifies this
      ensures Took(old(jobs), old(permits), jobs, permits, job,
                   Import.InvalidatePermit(old(SysOf(jobs, permits, job)), permit, reason), answer)
    {
      if job !in permits || permits[job] != permit { return Ok(false); }
      var tx := jobs[job];
      if tx.job.profile != permit.profile { return Err(ProfileMismatch); }
      if tx.job.state == Running && tx.job.active == Some(permit.segment) {
        var sending := set a | a in Sendings(tx) && tx.attempts[a].segment == permit.segment;
        if |sending| > 1 || tx.job.rowState != Running { return Err(ImportState); }
        if permit.segment !in tx.segments || tx.segments[permit.segment].state == Closed
           || (tx.segments[permit.segment].attempt.Some? <==> sending == {}) {
          return Err(ImportState);
        }
        if sending == {} {
          tx := tx.(segments := CloseSegment(tx.segments, permit.segment, Some(Invalidated(reason))));
          tx := tx.(job := ApplyTask(tx.job, PausedSafe, true, false).(active := None, pauseRequested := false));
        } else {
          tx := tx.(segments := Stop(tx.segments, permit.segment, Invalidated(reason)));
          tx := tx.(job := ApplyTask(tx.job, Running, true, false).(pauseRequested := true));
        }
        jobs := jobs[job := tx];
      }
      Revoke(job);
      return Ok(false);
    }

    /** Stops every run bound to the invalidated binding. */
    method InvalidatePermits(binding: string, reason: string) returns (answer: Result<nat, Error>)
      requires Valid()
      modifies this
      ensures Valid()
      ensures answer.Ok? ==> Swept(old(jobs), old(permits), jobs, permits, {}, reason, binding)
    {
      hide Inv, Swept, Import.InvalidatePermit;
      ghost var jobs0 := jobs;
      var permits0 := permits;
      var entries := set j | j in permits && permits[j].binding == binding;
      SweepStarts(jobs, permits, entries, reason, binding);
      var invalidated := 0;
      while entries != {}
        invariant AllInv(jobs, permits) && Swept(jobs0, permits0, jobs, permits, entries, reason, binding)
        decreases |entries|
      {
        var j :| j in entries;
        SweepAt(jobs0, permits0, jobs, permits, entries, reason, binding, j);
        ghost var jobs1, permits1 := jobs, permits;
        var one := InvalidatePermit(j, permits0[j], reason);
        if one.Err? { return Err(one.error); }
        TookFrame(jobs1, permits1, jobs, permits, j, Import.InvalidatePermit(SysOf(jobs0, permits0, j), permits0[j], reason), one);
        SweepStep(jobs0, permits0, jobs1, permits1, entries, reason, binding, jobs, permits, j);
        entries := entries - {j};
        invalidated := invalidated + 1;
      }
      return Ok(invalidated);
    }

    /** A replay found before the job lock is taken changes nothing; otherwise the transaction decides. */
    method CancelImport(job: Id, cmd: Control) returns (answer: Result<bool, Error>)
      requires Valid()
      modifies this
      ensures Valid()
      ensures job !in old(jobs) ==> Nothing(old(jobs), old(permits), jobs, permits, answer)
      ensures job in old(jobs) ==>
                Took(old(jobs), old(permits), jobs, permits, job,
                     Import.CancelImport(old(SysOf(jobs, permits, job)), cmd, TheOne(Lives(old(jobs)[job])), false), answer)
    {
      hide Inv, Import.CancelImport;
      if job !in jobs { return Err(NoRow); }
      ghost var before := SysOf(jobs, permits, job);
      AllInvAt(jobs, permits, job);
      CancelImportInv(before, cmd, false);
      KnownCancel(before, cmd);
      var found := Lookup(jobs[job], cmd.scope, cmd.digest);
      if found.Err? {
        answer := Err(found.error);
      } else if found.value.Some? {
        answer := Ok(true);
      } else {
        answer := CancelImportLocked(job, cmd);
      }
      assert jobs[job] == old(jobs)[job] ==> jobs == old(jobs)[job := old(jobs)[job]];
      TookInv(old(jobs), old(permits), jobs, permits, job, Import.CancelImport(before, cmd, TheOne(Lives(before.db)), false), answer);
    }

    /** The rest of a cancel that did not find its command before it waited for the job lock: meanwhile anything may have been
        committed, the command itself included, and then the permit goes all the same. */
    method CancelImportAfterWait(job: Id, cmd: Control) returns (answer: Result<bool, Error>)
      requires Valid() && job in jobs
      modifies this
      ensures Valid()
      ensures Took(old(jobs), old(permits), jobs, permits, job,
                   Import.CancelImport(old(SysOf(jobs, permits, job)), cmd, TheOne(Lives(old(jobs)[job])), true), answer)
    {
      hide Inv, Import.CancelImport;
      ghost var before := SysOf(jobs, permits, job);
      AllInvAt(jobs, permits, job);
      CancelImportInv(before, cmd, true);
      answer := CancelImportLocked(job, cmd);
      TookInv(old(jobs), old(permits), jobs, permits, job, Import.CancelImport(before, cmd, TheOne(Lives(before.db)), true), answer);
    }

    method CancelImportLocked(job: Id, cmd: Control) returns (answer: Result<bool, Error>)
      requires job in jobs && (forall g, h :: g in Lives(jobs[job]) && h in Lives(jobs[job]) ==> g == h)
      modifies this
      ensures Took(old(jobs), old(permits), jobs, permits, job,
                   Import.CancelImport(old(SysOf(jobs, permits, job)), cmd, TheOne(Lives(old(jobs)[job])), true), answer)
    {
      var tx := jobs[job];
      var found := Lookup(tx, cmd.scope, cmd.digest);
      if found.Err? { return Err(found.error); }
      if found.value.Some? {
        assert jobs == jobs[job := tx];
        Revoke(job);
        return Ok(true);
      }
      var live: Option<Id> := None;
      if Lives(tx) != {} {
        var g :| g in Lives(tx);
        live := Some(g);
      }
      assert live == TheOne(Lives(tx));
      var sending := |Sendings(tx)|;
      if sending > 1 || (sending == 1 && (live.None? || tx.segments[live.value].attempt.None?)) { return Err(ImportState); }
      if tx.job.state == Canceled
         || (live.Some? && tx.segments[live.value].state == Stopping && tx.segments[live.value].stop == Some(UserCanceled)) {
        tx := tx.(commands := Record(tx.commands, tx.job, cmd.scope, cmd.digest));
        jobs := jobs[job := tx];
        Revoke(job);
        return Ok(false);
      }
      if tx.job.stateRevision != cmd.expectedRevision { return Err(RevisionConflict); }
      if Opens(tx) != {} || NeedsDecision(tx.job.state) { return Err(OpenIncidentExists); }
      if tx.job.terminal || tx.job.state == Cleaning { return Err(ImportState); }
      if sending == 0 {
        if live.Some? {
          if tx.segments[live.value].state == Closed || tx.segments[live.value].attempt.Some? { return Err(ImportState); }
          tx := tx.(segments := CloseSegment(tx.segments, live.value, Some(UserCanceled)));
        }
        if tx.job.rowState != tx.job.state { return Err(ImportState); }
        tx := tx.(job := ApplyTask(tx.job, Canceled, true, true).(active := None, pauseRequested := false));
      } else {
        if tx.job.state != Running || tx.segments[live.value].state != Active || tx.job.active != live || tx.job.rowState != Running {
          return Err(ImportState);
        }
        tx := tx.(segments := Stop(tx.segments, live.value, UserCanceled));
        tx := tx.(job := ApplyTask(tx.job, Running, true, false).(pauseRequested := true));
      }
      tx := tx.(job := tx.job.(transferState := tx.job.state));
      tx := tx.(commands := Record(tx.commands, tx.job, cmd.scope, cmd.digest));
      jobs := jobs[job := tx];
      Revoke(job);
      return Ok(false);
    }

    // -------------------------------------------------------------- recovery after a crash

    method RecoverJob(job: Id, incident: Id) returns (answer: Result<bool, Error>)
      requires job in jobs && permits == map[] && jobs[job].job.rowState in {Preflighting, Staging, Running}
      requires forall a, b :: a in Sendings(jobs[job]) && b in Sendings(jobs[job]) ==> a == b
      modifies this`jobs
      ensures Took(old(jobs), permits, jobs, permits, job,
                   Recover(Sys(old(jobs)[job], None), TheOne(Sendings(old(jobs)[job])), incident), answer)
    {
      var tx := jobs[job];
      if tx.job.state == Preflighting || tx.job.state == Staging {
        tx := tx.(job := Rest(tx.job, PausedRestage, PausedRestage));
        jobs := jobs[job := tx];
        return Ok(false);
      }
      if Sendings(tx) == {} {
        if tx.job.active.Some? {
          tx := tx.(segments := CloseSegment(tx.segments, tx.job.active.value, Some(LostOnRestart)));
        }
        tx := tx.(job := Rest(tx.job, PausedSafe, PausedSafe));
        jobs := jobs[job := tx];
        return Ok(false);
      }
      var id :| id in Sendings(tx);
      assert TheOne(Sendings(tx)) == Some(id);
      if incident in tx.incidents || Opens(tx) != {} { return Err(UniqueConstraint); }
      var a := tx.attempts[id];
      tx := tx.(attempts := EndAttempt(tx.attempts, id, EndedUnknown));
      tx := tx.(segments := CloseSegment(tx.segments, a.segment, Some(LostOnRestart)));
      tx := tx.(incidents := tx.incidents[incident := IncidentFor(a, id, UnknownOutcome)]);
      tx := tx.(job := Rest(tx.job, NeedsUnknownDecision, NeedsUnknownDecision));
      jobs := jobs[job := tx];
      return Ok(false);
    }

    /** Startup: the permits are gone, and every interrupted job is brought to rest. `newId` supplies the fresh
        incident id of each job. */
    method RecoverImports(newId: Id -> Id) returns (changed: nat)
      requires Valid() && forall j :: j in jobs ==> newId(j) !in jobs[j].incidents
      modifies this
      ensures Valid() && permits == map[]
      ensures changed == |set j | j in old(jobs) && old(jobs)[j].job.rowState in {Preflighting, Staging, Running}|
      ensures AllRecovered(old(jobs), jobs, {}, newId)
    {
      hide Inv, AllRecovered, Recover;
      ghost var jobs0 := jobs;
      AllInvCrash(jobs, permits);
      permits := map[];
      var ids := set j | j in jobs && jobs[j].job.rowState in {Preflighting, Staging, Running};
      RecoveryStarts(jobs, ids, newId);
      changed := 0;
      ghost var all := ids;
      while ids != {}
        invariant permits == map[] && AllInv(jobs, permits) && AllInv(jobs0, permits)
        invariant AllRecovered(jobs0, jobs, ids, newId) && ids <= jobs0.Keys && changed + |ids| == |all|
        invariant forall j :: j in ids ==> jobs0[j].job.rowState in {Preflighting, Staging, Running}
        invariant forall j :: j in jobs0 ==> newId(j) !in jobs0[j].incidents
        decreases |ids|
      {
        var j :| j in ids;
        RecoveryAt(jobs0, jobs, ids, newId, j);
        AllInvAt(jobs0, permits, j);
        RecoverInv(Sys(jobs0[j], None), newId(j));
        ghost var jobs1 := jobs;
        var one := RecoverJob(j, newId(j));
        TookInv(jobs1, map[], jobs, permits, j, Recover(Sys(jobs0[j], None), TheOne(Sendings(jobs0[j])), newId(j)), one);
        RecoveryStep(jobs0, jobs1, ids, newId, jobs, j);
        ids := ids - {j};
        changed := changed + 1;
      }
    }
  }
}
