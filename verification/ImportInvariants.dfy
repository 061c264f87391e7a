/** What every import operation keeps: liveness of segments and attempts, the checkpoint chain, and agreement of
    the process-local permit with the durable rows. */
module ImportInvariants {
  import opened Bytes
  import opened Wrappers
  import opened Import

  // ---------------------------------------------------------------- invariants

  /** The live segment agrees with the job row, and its active attempt is the one that is out. */
  predicate LiveRun(db: Db, g: Id) {
    && g in db.segments && db.segments[g].state != Closed
    && db.chain.digest == Some(db.segments[g].committed)
    && (db.job.pauseRequested <==> db.segments[g].state == Stopping)
    && (db.segments[g].state == Stopping ==> db.segments[g].attempt.Some?)
    && (db.segments[g].attempt.Some? ==> OutAttempt(db, g, db.segments[g].attempt.value))
  }

  predicate OutAttempt(db: Db, g: Id, a: Id) {
    && a in db.attempts && db.chain.digest.Some?
    && db.attempts[a].state == Sending && db.attempts[a].segment == g
    && db.attempts[a].parent == db.chain.digest.value
    && db.attempts[a].start == db.chain.digest.value.of.offset < db.attempts[a].end
  }

  predicate Live(db: Db) {
    && db.job.rowState == db.job.state && (db.job.terminal <==> IsTerminal(db.job.state))
    && (db.job.active.Some? <==> db.job.state == Running)
    && (db.job.active.Some? ==> LiveRun(db, db.job.active.value))
    && (db.job.active.None? ==> !db.job.pauseRequested)
    && (forall g :: g in db.segments && db.segments[g].state != Closed ==> db.job.active == Some(g))
    && (forall a :: a in db.attempts && db.attempts[a].state == Sending ==>
          db.job.active.Some? && db.segments[db.job.active.value].attempt == Some(a))
  }

  function DecisionFor(kind: IncidentKind): JobState {
    if kind == PartialWrite then NeedsPartialDecision else NeedsUnknownDecision
  }

  /** A decision is pending exactly while an incident is open; only one is, and it is at the current checkpoint. */
  ghost predicate Incidents(db: Db) {
    && (forall i :: i in Opens(db) ==>
          db.job.state == DecisionFor(db.incidents[i].kind) && db.chain.digest == Some(db.incidents[i].parent))
    && (forall i, j :: i in Opens(db) && j in Opens(db) ==> i == j)
    && (NeedsDecision(db.job.state) <==> Opens(db) != {})
  }

  /** One committed checkpoint step. */
  predicate Hop(t: Transition) {
    && t.child.of.parent == Some(t.parent) && t.child.of.sequence == t.parent.of.sequence + 1
    && t.sequence == t.child.of.sequence && t.child.of.identity == t.parent.of.identity
    && (t.cause == Ack ==> t.parent.of.offset < t.child.of.offset)
    && (t.cause == BatchLimitReduced ==> t.child.of.offset == t.parent.of.offset)
  }

  /** The transitions form one path from the genesis checkpoint to `head`. */
  predicate Linked(ts: seq<Transition>, genesis: Digest, head: Digest) {
    if ts == [] then head == genesis
    else
      var t := ts[|ts| - 1];
      t.child == head && Hop(t) && Linked(ts[..|ts| - 1], genesis, t.parent)
  }

  function Genesis(db: Db): Digest
    requires db.chain.digest.Some?
  {
    if db.chain.transitions == [] then db.chain.digest.value else db.chain.transitions[0].parent
  }

  /** The settled attempt of a transition carries its range and its child digest. */
  predicate Settles(db: Db, t: Transition) {
    && t.attempt in db.attempts
    && db.attempts[t.attempt].child == Some(t.child) && db.attempts[t.attempt].parent == t.parent
    && db.attempts[t.attempt].state == (if t.cause == Ack then Acked else RejectedTooLarge)
    && (t.cause == Ack ==> db.attempts[t.attempt].start == t.parent.of.offset
                           && db.attempts[t.attempt].end == t.child.of.offset)
  }

  ghost predicate Chain(db: Db) {
    && (db.chain.digest.None? ==> db.chain.transitions == [] && db.chain.checkpoints == map[])
    && (db.chain.digest.Some? ==>
          && Linked(db.chain.transitions, Genesis(db), db.chain.digest.value)
          && db.chain.digest.value in db.chain.checkpoints
          && (forall d :: d in db.chain.checkpoints ==>
                d == Sha256(db.chain.checkpoints[d]) && d.of.sequence <= db.chain.digest.value.of.sequence))
    && (forall i :: 0 <= i < |db.chain.transitions| ==> Settles(db, db.chain.transitions[i]))
    && (forall a :: a in db.attempts && db.attempts[a].state == Acked ==> AckRecorded(db, a))
  }

  ghost predicate AckRecorded(db: Db, a: Id) {
    exists i :: 0 <= i < |db.chain.transitions| && db.chain.transitions[i].attempt == a && db.chain.transitions[i].cause == Ack
  }

  /** A live permit belongs to the ACTIVE segment of a RUNNING job, at the job's checkpoint. */
  predicate PermitAgrees(s: Sys) {
    s.permit.Some? ==>
      && s.permit.value.wellFormed
      && s.db.job.state == Running && s.db.job.active == Some(s.permit.value.segment)
      && s.permit.value.segment in s.db.segments && s.db.segments[s.permit.value.segment].state == Active
      && s.db.chain.digest == Some(s.permit.value.checkpoint)
  }

  ghost predicate Inv(s: Sys) {
    Live(s.db) && Incidents(s.db) && Chain(s.db) && PermitAgrees(s)
  }

  // ---------------------------------------------------------------- the chain is always extensible

  lemma {:induction false} ParentsAreOlder(ts: seq<Transition>, genesis: Digest, head: Digest)
    requires Linked(ts, genesis, head)
    ensures forall i :: 0 <= i < |ts| ==> ts[i].parent.of.sequence < head.of.sequence
                                          && ts[i].child.of.sequence <= head.of.sequence
  {
    if ts != [] {
      var init := ts[..|ts| - 1];
      ParentsAreOlder(init, genesis, ts[|ts| - 1].parent);
      forall i | 0 <= i < |ts| ensures ts[i].parent.of.sequence < head.of.sequence
                                       && ts[i].child.of.sequence <= head.of.sequence {
        if i < |ts| - 1 {
          assert ts[i] == init[i];
        }
      }
    }
  }

  /** Neither the primary key on checkpoints nor the unique parent of transitions is ever hit. */
  lemma AlwaysAdvances(db: Db, next: Checkpoint)
    requires Chain(db) && db.chain.digest.Some? && next.sequence == db.chain.digest.value.of.sequence + 1
    ensures CanAdvance(db, db.chain.digest.value, Sha256(next))
  {
    ParentsAreOlder(db.chain.transitions, Genesis(db), db.chain.digest.value);
  }

  lemma LinkedGrows(db: Db, t: Transition)
    requires db.chain.digest.Some? && Linked(db.chain.transitions, Genesis(db), db.chain.digest.value)
    requires t.parent == db.chain.digest.value && Hop(t)
    ensures Linked(db.chain.transitions + [t], Genesis(db), t.child)
    ensures (db.chain.transitions + [t])[0].parent == Genesis(db)
  {
    var ts := db.chain.transitions + [t];
    assert ts[..|ts| - 1] == db.chain.transitions;
  }

  /** The attempt that was out settled `cause`: one more checkpoint, one more transition, its outcome. */
  predicate Advanced(db: Db, after: Db, id: Id, next: Checkpoint, cause: Cause) {
    var outcome := if cause == Ack then Acked else RejectedTooLarge;
    && db.chain.digest.Some? && id in db.attempts && db.attempts[id].state == Sending
    && db.attempts[id].parent == db.chain.digest.value
    && next.sequence == db.chain.digest.value.of.sequence + 1 && next.parent == db.chain.digest
    && next.identity == db.chain.digest.value.of.identity
    && (cause == Ack ==> db.attempts[id].start == db.chain.digest.value.of.offset < db.attempts[id].end == next.offset)
    && (cause == BatchLimitReduced ==> next.offset == db.chain.digest.value.of.offset)
    && after.chain == Extend(db.chain, id, db.attempts[id], next, cause) && !HasSucceeded(after)
    && after.attempts == db.attempts[id := db.attempts[id].(state := outcome, child := Some(Sha256(next)))]
  }

  /** What an attempt sends is fixed when it begins. */
  predicate SameRange(a: Attempt, b: Attempt) {
    a.start == b.start && a.end == b.end && a.payload == b.payload && a.parent == b.parent && a.batch == b.batch
  }

  /** The job succeeded, or is being cleaned up after it succeeded. */
  predicate HasSucceeded(db: Db) {
    db.job.state == Succeeded || (db.job.state == Cleaning && db.job.transferState == Succeeded)
  }

  /** No checkpoint was settled: only attempts that were out changed, and none of them to ACKED. */
  predicate KeepsCheckpoints(db: Db, after: Db) {
    && after.chain == db.chain
    && (forall a :: a in db.attempts ==> a in after.attempts && SameRange(db.attempts[a], after.attempts[a]))
    && (forall a :: a in db.attempts && db.attempts[a].state != Sending ==> after.attempts[a] == db.attempts[a])
    && (forall a :: a in after.attempts && after.attempts[a].state == Acked ==>
          a in db.attempts && db.attempts[a].state == Acked)
  }

  /** No attempt began either, and the job did not come to succeed. */
  predicate Idle(db: Db, after: Db) {
    && KeepsCheckpoints(db, after) && after.attempts.Keys == db.attempts.Keys
    && (HasSucceeded(after) ==> HasSucceeded(db))
  }

  /** At most the attempt `id`, which was out, ended with `outcome`. */
  predicate Quiet(db: Db, after: Db, id: Id, outcome: AttemptState) {
    && after.chain == db.chain && (HasSucceeded(after) ==> HasSucceeded(db))
    && (|| after.attempts == db.attempts
        || (&& id in db.attempts && db.attempts[id].state == Sending && outcome != Sending && outcome != Acked
            && after.attempts == EndAttempt(db.attempts, id, outcome)))
  }

  lemma QuietIdle(db: Db, after: Db, id: Id, outcome: AttemptState)
    requires Quiet(db, after, id, outcome)
    ensures Idle(db, after)
  {
  }

  lemma AdvancedChain(db: Db, after: Db, id: Id, next: Checkpoint, cause: Cause)
    requires Chain(db) && Advanced(db, after, id, next, cause)
    ensures Chain(after)
  {
    var t := after.chain.transitions[|db.chain.transitions|];
    LinkedGrows(db, t);
    forall i | 0 <= i < |after.chain.transitions| ensures Settles(after, after.chain.transitions[i]) {
      if i < |db.chain.transitions| {
        assert Settles(db, db.chain.transitions[i]);
      }
    }
    forall a | a in after.attempts && after.attempts[a].state == Acked ensures AckRecorded(after, a) {
      if a == id {
        assert after.chain.transitions[|db.chain.transitions|].attempt == a;
      } else {
        assert AckRecorded(db, a);
        var i :| 0 <= i < |db.chain.transitions| && db.chain.transitions[i].attempt == a && db.chain.transitions[i].cause == Ack;
        assert after.chain.transitions[i] == db.chain.transitions[i];
      }
    }
  }

  lemma SameChain(db: Db, after: Db)
    requires Chain(db) && KeepsCheckpoints(db, after)
    ensures Chain(after)
  {
    forall i | 0 <= i < |after.chain.transitions| ensures Settles(after, after.chain.transitions[i]) {
      assert Settles(db, db.chain.transitions[i]);
    }
    forall a | a in after.attempts && after.attempts[a].state == Acked ensures AckRecorded(after, a) {
      assert AckRecorded(db, a);
    }
  }

  // ---------------------------------------------------------------- segments, attempts and the permit

  predicate Keyed(db: Db) {
    CheckpointOf(db).Some? ==> Sha256(CheckpointOf(db).value) == db.chain.digest.value
  }

  lemma StartRunLive(s: Sys, req: StartRequest, now: nat)
    requires Live(s.db) && PermitAgrees(s) && Keyed(s.db)
    ensures Live(StartRun(s, req, now).next.db) && PermitAgrees(StartRun(s, req, now).next)
  {
    LiveRows(s.db);
    var next := StartRun(s, req, now).next;
    if next.db != s.db {
      var started := Started(s.db, req.segment, req.permit.checkpoint, req.scope, req.digest);
      assert Live(started);
      DesyncLive(started, req.segment, req.permit.checkpoint);
    }
  }

  lemma BeginAttemptLive(s: Sys, req: AttemptRequest, profile: string, permit: Permit)
    requires Live(s.db) && PermitAgrees(s) && Keyed(s.db)
    ensures Live(BeginAttempt(s, req, profile, permit).next.db) && PermitAgrees(BeginAttempt(s, req, profile, permit).next)
  {
  }

  /** The rows the unique indexes speak of are the job's own live segment and its active attempt. */
  lemma LiveRows(db: Db)
    requires Live(db)
    ensures Lives(db) == if db.job.active.Some? then {db.job.active.value} else {}
    ensures Sendings(db) == if db.job.active.Some? && db.segments[db.job.active.value].attempt.Some?
                            then {db.segments[db.job.active.value].attempt.value} else {}
  {
  }

  lemma DesyncLive(db: Db, segment: Id, checkpoint: Digest)
    requires Live(db)
    ensures Live(PausePermitDesync(db, segment, checkpoint))
  {
    LiveRows(db);
  }

  /** The attempt that was out is settled and the run goes on at the child checkpoint. */
  lemma ContinueLive(db: Db, id: Id, next: Checkpoint, cause: Cause, outcome: AttemptState, stop: Option<StopReason>)
    requires Live(db) && SettlementFault(db, id, CheckpointConflict).None? && outcome != Sending
    requires db.segments[db.attempts[id].segment].state == Active
    ensures var g := db.attempts[id].segment;
            var after := Advance(db, id, next, cause, outcome, Continue(db.job), MoveSegment(db.segments[g], Sha256(next), true, stop));
            Live(after) && after.segments[g].state == Active
  {
  }

  lemma CloseLive(db: Db, id: Id, next: Checkpoint, cause: Cause, outcome: AttemptState, stop: Option<StopReason>,
                  target: JobState, transferState: JobState)
    requires Live(db) && SettlementFault(db, id, CheckpointConflict).None? && outcome != Sending && target != Running
    ensures Live(Advance(db, id, next, cause, outcome, Rest(db.job, target, transferState),
                         MoveSegment(db.segments[db.attempts[id].segment], Sha256(next), false, stop)))
  {
  }

  /** The attempt that was out ends without a checkpoint and the run with it. */
  lemma EndedLive(db: Db, id: Id, outcome: AttemptState, stop: Option<StopReason>, target: JobState, transferState: JobState)
    requires Live(db) && SettlementFault(db, id, CheckpointConflict).None? && outcome != Sending && target != Running
    ensures Live(Ended(db, id, outcome, stop, target, transferState))
  {
  }

  lemma FollowLive(s: Sys, db: Db, segment: Id, parent: Digest, child: Digest)
    requires PermitAgrees(s) && Live(db) && db.chain.digest == Some(child) && db.job.state == Running && db.job.active == Some(segment)
    requires db.segments[segment].state == Active
    ensures Live(Follow(s.permit, db, segment, parent, child).next.db) && PermitAgrees(Follow(s.permit, db, segment, parent, child).next)
  {
    DesyncLive(db, segment, child);
  }

  lemma SettleAckLive(s: Sys, id: Id)
    requires Live(s.db) && PermitAgrees(s) && Keyed(s.db)
    ensures Live(SettleAck(s, id).next.db) && PermitAgrees(SettleAck(s, id).next)
  {
    var db := s.db;
    if SettleAck(s, id).answer.Ok? {
      var a := db.attempts[id];
      var segment, next := db.segments[a.segment], AckedCheckpoint(CheckpointOf(db).value, a);
      if segment.state == Active {
        ContinueLive(db, id, next, Ack, Acked, segment.stop);
        FollowLive(s, Advance(db, id, next, Ack, Acked, Continue(db.job), MoveSegment(segment, Sha256(next), true, segment.stop)),
                   a.segment, a.parent, Sha256(next));
      } else {
        var target := if segment.stop == Some(UserCanceled) then Canceled else PausedSafe;
        CloseLive(db, id, next, Ack, Acked, segment.stop, target, target);
      }
    }
  }

  lemma SettleTooLargeLive(s: Sys, id: Id)
    requires Live(s.db) && PermitAgrees(s) && Keyed(s.db)
    ensures Live(SettleTooLarge(s, id).next.db) && PermitAgrees(SettleTooLarge(s, id).next)
  {
    var db := s.db;
    if SettleTooLarge(s, id).answer.Ok? {
      var a, cp := db.attempts[id], CheckpointOf(db).value;
      var segment, next := db.segments[a.segment], ReducedCheckpoint(cp, a);
      var stop := Some(PausedAfterBatchLimitReduction);
      if segment.state == Stopping && segment.stop == Some(UserCanceled) {
        EndedLive(db, id, RejectedTooLarge, Some(UserCanceled), Canceled, Canceled);
      } else if cp.maxPoints == 1 {
        EndedLive(db, id, RejectedTooLarge, Some(SinglePointTooLarge), Failed, db.job.transferState);
      } else if segment.state == Active {
        ContinueLive(db, id, next, BatchLimitReduced, RejectedTooLarge, stop);
        FollowLive(s, Advance(db, id, next, BatchLimitReduced, RejectedTooLarge, Continue(db.job),
                              MoveSegment(segment, Sha256(next), true, stop)), a.segment, a.parent, Sha256(next));
      } else {
        CloseLive(db, id, next, BatchLimitReduced, RejectedTooLarge, stop, PausedSafe, db.job.transferState);
      }
    }
  }

  lemma MarkNotSentLive(s: Sys, id: Id)
    requires Live(s.db) && PermitAgrees(s) && Keyed(s.db)
    ensures Live(MarkNotSent(s, id).next.db) && PermitAgrees(MarkNotSent(s, id).next)
  {
    var db := s.db;
    if id in db.attempts && MarkNotSent(s, id).answer.Ok? {
      var segment := db.segments[db.attempts[id].segment];
      if segment.state == Stopping {
        var target := if segment.stop == Some(UserCanceled) then Canceled else PausedSafe;
        EndedLive(db, id, FailedNotSent, segment.stop, target, target);
      }
    }
  }

  lemma SettleRejectedLive(s: Sys, id: Id)
    requires Live(s.db) && PermitAgrees(s) && Keyed(s.db)
    ensures Live(SettleRejected(s, id).next.db) && PermitAgrees(SettleRejected(s, id).next)
  {
    var db := s.db;
    if SettleRejected(s, id).answer.Ok? {
      var segment := db.segments[db.attempts[id].segment];
      var paused := segment.state == Stopping || db.job.pauseRequested;
      var canceled := paused && segment.stop == Some(UserCanceled);
      EndedLive(db, id, Rejected, Some(if canceled then UserCanceled else if paused then PausedAfterWriteRejection else WriteRejected),
                if canceled then Canceled else if paused then PausedSafe else Failed,
                if canceled then Canceled else if paused then PausedSafe else Failed);
      hide Ended, Live;
    }
  }

  lemma RecordIncidentLive(s: Sys, id: Id, incident: Id, kind: IncidentKind)
    requires Live(s.db) && PermitAgrees(s) && Keyed(s.db)
    ensures Live(RecordIncident(s, id, incident, kind).next.db) && PermitAgrees(RecordIncident(s, id, incident, kind).next)
  {
  }

  lemma AbortLive(s: Sys, cmd: Control, incident: Id, parent: Digest)
    requires Live(s.db) && PermitAgrees(s) && Keyed(s.db)
    ensures Live(Abort(s, cmd, incident, parent).next.db) && PermitAgrees(Abort(s, cmd, incident, parent).next)
  {
  }

  lemma InvalidatePermitLive(s: Sys, permit: Permit, reason: string)
    requires Live(s.db) && PermitAgrees(s) && Keyed(s.db)
    ensures Live(InvalidatePermit(s, permit, reason).next.db) && PermitAgrees(InvalidatePermit(s, permit, reason).next)
  {
  }

  lemma CancelImportLive(s: Sys, cmd: Control, live: Option<Id>, raced: bool)
    requires Live(s.db) && PermitAgrees(s) && Keyed(s.db)
    requires if Lives(s.db) == {} then live == None else live.Some? && live.value in Lives(s.db)
    ensures Live(CancelImport(s, cmd, live, raced).next.db) && PermitAgrees(CancelImport(s, cmd, live, raced).next)
  {
    LiveRows(s.db);
  }

  lemma FinishImportLive(s: Sys, segment: Id, checkpoint: Digest, size: nat)
    requires Live(s.db) && PermitAgrees(s) && Keyed(s.db)
    ensures Live(FinishImport(s, segment, checkpoint, size).next.db) && PermitAgrees(FinishImport(s, segment, checkpoint, size).next)
  {
  }

  lemma BeginCleanupLive(s: Sys, cmd: Control)
    requires Live(s.db) && PermitAgrees(s) && Keyed(s.db)
    ensures Live(BeginCleanup(s, cmd).next.db) && PermitAgrees(BeginCleanup(s, cmd).next)
  {
  }

  lemma CompleteCleanupLive(s: Sys, scope: string, digest: string)
    requires Live(s.db) && PermitAgrees(s) && Keyed(s.db)
    ensures Live(CompleteCleanup(s, scope, digest).next.db) && PermitAgrees(CompleteCleanup(s, scope, digest).next)
  {
  }

  lemma CompletePreflightLive(s: Sys, genesis: Checkpoint)
    requires Live(s.db) && PermitAgrees(s) && Keyed(s.db)
    ensures Live(CompletePreflight(s, genesis).next.db) && PermitAgrees(CompletePreflight(s, genesis).next)
  {
  }

  lemma RecoverLive(s: Sys, sending: Option<Id>, incident: Id)
    requires Live(s.db) && PermitAgrees(s) && Keyed(s.db)
    requires if Sendings(s.db) == {} then sending == None else sending.Some? && sending.value in Sendings(s.db)
    ensures Live(Recover(s, sending, incident).next.db) && PermitAgrees(Recover(s, sending, incident).next)
  {
    LiveRows(s.db);
  }

  // ---------------------------------------------------------------- incidents

  lemma SameIncidents(db: Db, after: Db)
    requires Incidents(db) && after.incidents == db.incidents
    requires if NeedsDecision(db.job.state) then after.job.state == db.job.state && after.chain.digest == db.chain.digest
             else !NeedsDecision(after.job.state)
    ensures Incidents(after)
  {
    assert Opens(after) == Opens(db);
  }

  lemma StartRunIncidents(s: Sys, req: StartRequest, now: nat)
    requires Live(s.db) && Incidents(s.db)
    ensures Incidents(StartRun(s, req, now).next.db)
  {
    SameIncidents(s.db, StartRun(s, req, now).next.db);
  }

  lemma BeginAttemptIncidents(s: Sys, req: AttemptRequest, profile: string, permit: Permit)
    requires Live(s.db) && Incidents(s.db)
    ensures Incidents(BeginAttempt(s, req, profile, permit).next.db)
  {
    SameIncidents(s.db, BeginAttempt(s, req, profile, permit).next.db);
  }

  lemma SettleAckIncidents(s: Sys, id: Id)
    requires Live(s.db) && Incidents(s.db)
    ensures Incidents(SettleAck(s, id).next.db)
  {
    SameIncidents(s.db, SettleAck(s, id).next.db);
  }

  lemma SettleTooLargeIncidents(s: Sys, id: Id)
    requires Live(s.db) && Incidents(s.db)
    ensures Incidents(SettleTooLarge(s, id).next.db)
  {
    SameIncidents(s.db, SettleTooLarge(s, id).next.db);
  }

  lemma MarkNotSentIncidents(s: Sys, id: Id)
    requires Live(s.db) && Incidents(s.db)
    ensures Incidents(MarkNotSent(s, id).next.db)
  {
    SameIncidents(s.db, MarkNotSent(s, id).next.db);
  }

  lemma SettleRejectedIncidents(s: Sys, id: Id)
    requires Live(s.db) && Incidents(s.db)
    ensures Incidents(SettleRejected(s, id).next.db)
  {
    SameIncidents(s.db, SettleRejected(s, id).next.db);
  }

  lemma RecordIncidentIncidents(s: Sys, id: Id, incident: Id, kind: IncidentKind)
    requires Live(s.db) && Incidents(s.db)
    ensures Incidents(RecordIncident(s, id, incident, kind).next.db)
  {
    var db, after := s.db, RecordIncident(s, id, incident, kind).next.db;
    if after.incidents != db.incidents {
      assert Opens(after) == {incident};
    }
  }

  lemma AbortIncidents(s: Sys, cmd: Control, incident: Id, parent: Digest)
    requires Live(s.db) && Incidents(s.db)
    ensures Incidents(Abort(s, cmd, incident, parent).next.db)
  {
    var db, after := s.db, Abort(s, cmd, incident, parent).next.db;
    if after != db {
      assert incident in Opens(db);
      assert forall i :: i in Opens(db) ==> i == incident;
      assert after.incidents == db.incidents[incident := db.incidents[incident].(status := AbortedIncident)];
      assert Opens(after) == {};
      assert after.job.state == Aborted;
    }
  }

  lemma InvalidatePermitIncidents(s: Sys, permit: Permit, reason: string)
    requires Live(s.db) && Incidents(s.db)
    ensures Incidents(InvalidatePermit(s, permit, reason).next.db)
  {
    SameIncidents(s.db, InvalidatePermit(s, permit, reason).next.db);
  }

  lemma CancelImportIncidents(s: Sys, cmd: Control, live: Option<Id>, raced: bool)
    requires Live(s.db) && Incidents(s.db)
    requires if Lives(s.db) == {} then live == None else live.Some? && live.value in Lives(s.db)
    ensures Incidents(CancelImport(s, cmd, live, raced).next.db)
  {
    LiveRows(s.db);
    SameIncidents(s.db, CancelImport(s, cmd, live, raced).next.db);
  }

  lemma FinishImportIncidents(s: Sys, segment: Id, checkpoint: Digest, size: nat)
    requires Live(s.db) && Incidents(s.db)
    ensures Incidents(FinishImport(s, segment, checkpoint, size).next.db)
  {
    SameIncidents(s.db, FinishImport(s, segment, checkpoint, size).next.db);
  }

  lemma BeginCleanupIncidents(s: Sys, cmd: Control)
    requires Live(s.db) && Incidents(s.db)
    ensures Incidents(BeginCleanup(s, cmd).next.db)
  {
    SameIncidents(s.db, BeginCleanup(s, cmd).next.db);
  }

  lemma CompleteCleanupIncidents(s: Sys, scope: string, digest: string)
    requires Live(s.db) && Incidents(s.db)
    ensures Incidents(CompleteCleanup(s, scope, digest).next.db)
  {
    SameIncidents(s.db, CompleteCleanup(s, scope, digest).next.db);
  }

  lemma CompletePreflightIncidents(s: Sys, genesis: Checkpoint)
    requires Live(s.db) && Incidents(s.db)
    ensures Incidents(CompletePreflight(s, genesis).next.db)
  {
    SameIncidents(s.db, CompletePreflight(s, genesis).next.db);
  }

  lemma RecoverIncidents(s: Sys, sending: Option<Id>, incident: Id)
    requires Live(s.db) && Incidents(s.db)
    requires if Sendings(s.db) == {} then sending == None else sending.Some? && sending.value in Sendings(s.db)
    ensures Incidents(Recover(s, sending, incident).next.db)
  {
    LiveRows(s.db);
    var db, after := s.db, Recover(s, sending, incident).next.db;
    if after.incidents != db.incidents {
      assert Opens(after) == {incident};
    } else {
      SameIncidents(db, after);
    }
  }

  // ---------------------------------------------------------------- the checkpoint chain

  lemma SettleAckAdvances(s: Sys, id: Id)
    requires Live(s.db) && Keyed(s.db)
    ensures SettleAck(s, id).answer.Err? ==> SettleAck(s, id).next.db == s.db
    ensures SettleAck(s, id).answer.Ok? ==>
              Advanced(s.db, SettleAck(s, id).next.db, id, AckedCheckpoint(CheckpointOf(s.db).value, s.db.attempts[id]), Ack)
  {
  }

  /** SettleTooLarge closes the run when it was cancelled or the batch cannot shrink. */
  predicate TooLargeEnds(db: Db, id: Id) {
    && id in db.attempts && db.attempts[id].segment in db.segments && CheckpointOf(db).Some?
    && var segment := db.segments[db.attempts[id].segment];
       (segment.state == Stopping && segment.stop == Some(UserCanceled)) || CheckpointOf(db).value.maxPoints == 1
  }

  lemma TooLargeEndKeeps(s: Sys, id: Id)
    requires TooLargeEnds(s.db, id)
    ensures Idle(s.db, SettleTooLarge(s, id).next.db)
  {
    QuietIdle(s.db, SettleTooLarge(s, id).next.db, id, RejectedTooLarge);
  }

  lemma TooLargeAdvances(s: Sys, id: Id)
    requires Live(s.db) && Keyed(s.db) && !TooLargeEnds(s.db, id)
    ensures SettleTooLarge(s, id).answer.Err? ==> SettleTooLarge(s, id).next.db == s.db
    ensures SettleTooLarge(s, id).answer.Ok? ==>
              Advanced(s.db, SettleTooLarge(s, id).next.db, id,
                       ReducedCheckpoint(CheckpointOf(s.db).value, s.db.attempts[id]), BatchLimitReduced)
  {
  }

  lemma StartRunKeeps(s: Sys, req: StartRequest, now: nat)
    ensures Idle(s.db, StartRun(s, req, now).next.db)
  {
    QuietIdle(s.db, StartRun(s, req, now).next.db, "", Rejected);
  }

  lemma BeginAttemptKeeps(s: Sys, req: AttemptRequest, profile: string, permit: Permit)
    requires Live(s.db)
    ensures var after := BeginAttempt(s, req, profile, permit).next.db;
            && KeepsCheckpoints(s.db, after) && (HasSucceeded(after) ==> HasSucceeded(s.db))
            && (forall a :: a in after.attempts && a !in s.db.attempts ==>
                  after.attempts[a] == Attempt(req.batch, req.segment, Sending, req.parent, req.start, req.end, req.payload, None))
  {
  }

  lemma MarkNotSentKeeps(s: Sys, id: Id)
    ensures Idle(s.db, MarkNotSent(s, id).next.db)
  {
    QuietIdle(s.db, MarkNotSent(s, id).next.db, id, FailedNotSent);
  }

  lemma SettleRejectedKeeps(s: Sys, id: Id)
    ensures Idle(s.db, SettleRejected(s, id).next.db)
  {
    QuietIdle(s.db, SettleRejected(s, id).next.db, id, Rejected);
  }

  lemma RecordIncidentKeeps(s: Sys, id: Id, incident: Id, kind: IncidentKind)
    ensures Idle(s.db, RecordIncident(s, id, incident, kind).next.db)
  {
    QuietIdle(s.db, RecordIncident(s, id, incident, kind).next.db, id, if kind == PartialWrite then EndedPartial else EndedUnknown);
  }

  lemma AbortKeeps(s: Sys, cmd: Control, incident: Id, parent: Digest)
    ensures Idle(s.db, Abort(s, cmd, incident, parent).next.db)
  {
    QuietIdle(s.db, Abort(s, cmd, incident, parent).next.db, "", Rejected);
  }

  lemma InvalidatePermitKeeps(s: Sys, permit: Permit, reason: string)
    ensures Idle(s.db, InvalidatePermit(s, permit, reason).next.db)
  {
    QuietIdle(s.db, InvalidatePermit(s, permit, reason).next.db, "", Rejected);
  }

  lemma CancelImportKeeps(s: Sys, cmd: Control, live: Option<Id>, raced: bool)
    requires if Lives(s.db) == {} then live == None else live.Some? && live.value in Lives(s.db)
    ensures Idle(s.db, CancelImport(s, cmd, live, raced).next.db)
  {
    QuietIdle(s.db, CancelImport(s, cmd, live, raced).next.db, "", Rejected);
  }

  lemma FinishImportKeeps(s: Sys, segment: Id, checkpoint: Digest, size: nat)
    requires Live(s.db) && Keyed(s.db)
    ensures var after := FinishImport(s, segment, checkpoint, size).next.db;
            && KeepsCheckpoints(s.db, after) && after.attempts.Keys == s.db.attempts.Keys
            && (HasSucceeded(after) && !HasSucceeded(s.db) ==> after.chain.digest.Some? && after.chain.digest.value.of.offset == size)
  {
  }

  lemma BeginCleanupKeeps(s: Sys, cmd: Control)
    ensures Idle(s.db, BeginCleanup(s, cmd).next.db)
  {
    QuietIdle(s.db, BeginCleanup(s, cmd).next.db, "", Rejected);
  }

  lemma CompleteCleanupKeeps(s: Sys, scope: string, digest: string)
    ensures Idle(s.db, CompleteCleanup(s, scope, digest).next.db)
  {
    QuietIdle(s.db, CompleteCleanup(s, scope, digest).next.db, "", Rejected);
  }

  lemma RecoverKeeps(s: Sys, sending: Option<Id>, incident: Id)
    requires if Sendings(s.db) == {} then sending == None else sending.Some? && sending.value in Sendings(s.db)
    ensures Idle(s.db, Recover(s, sending, incident).next.db)
  {
    QuietIdle(s.db, Recover(s, sending, incident).next.db, if sending.Some? then sending.value else "", EndedUnknown);
  }
}
