/** What single operations of the import protocol leave behind, beyond keeping the invariant. */
module ImportOutcomes {
  import opened Wrappers
  import opened Import
  import opened ImportInvariants
  import opened ImportRuns

  /** Nothing is out and no segment lives: the run is over and its permit gone. */
  ghost predicate RunOver(s: Sys) {
    Lives(s.db) == {} && Sendings(s.db) == {} && s.permit.None? && s.db.job.active.None? && !s.db.job.pauseRequested
  }

  lemma EndedIsOver(db: Db, id: Id, outcome: AttemptState, stop: Option<StopReason>, target: JobState)
    requires Live(db) && SettlementFault(db, id, CheckpointConflict).None? && outcome != Sending && target != Running
    ensures RunOver(Sys(Ended(db, id, outcome, stop, target, target), None))
  {
    EndedLive(db, id, outcome, stop, target, target);
    LiveRows(Ended(db, id, outcome, stop, target, target));
  }

  /** An attempt that was not sent is closed. A stopping run ends with it, cancelled or paused as it was asked; an active run
      stays usable with its permit and nothing out. */
  lemma NotSentOutcome(s: Sys, id: Id)
    requires Live(s.db) && PermitAgrees(s) && id in s.db.attempts && MarkNotSent(s, id).answer.Ok?
    ensures var segment := s.db.attempts[id].segment;
            var next := MarkNotSent(s, id).next;
            && segment in s.db.segments && next.db.attempts == s.db.attempts[id := s.db.attempts[id].(state := FailedNotSent)]
            && (if s.db.segments[segment].state == Stopping then
                  RunOver(next) && next.db.job.state == if s.db.segments[segment].stop == Some(UserCanceled) then Canceled else PausedSafe
                else
                  && next.db.job == s.db.job && next.permit == s.permit && Sendings(next.db) == {}
                  && next.db.segments[segment] == s.db.segments[segment].(attempt := None, stop := None))
  {
    var segment := s.db.segments[s.db.attempts[id].segment];
    if segment.state == Stopping {
      EndedIsOver(s.db, id, FailedNotSent, segment.stop, if segment.stop == Some(UserCanceled) then Canceled else PausedSafe);
    } else {
      LiveRows(s.db);
      assert Sendings(s.db) == {id};
    }
  }

  /** A rejected write ends its run: cancelled or paused when that was asked for, failed otherwise. */
  lemma RejectedOutcome(s: Sys, id: Id)
    requires Live(s.db) && SettleRejected(s, id).answer.Ok?
    ensures id in s.db.attempts && s.db.attempts[id].segment in s.db.segments
    ensures var segment := s.db.segments[s.db.attempts[id].segment];
            var next := SettleRejected(s, id).next;
            && RunOver(next) && next.db.attempts == s.db.attempts[id := s.db.attempts[id].(state := Rejected)]
            && next.db.job.state == (if segment.state != Stopping then Failed
                                     else if segment.stop == Some(UserCanceled) then Canceled else PausedSafe)
  {
    var db := s.db;
    var segment := db.segments[db.attempts[id].segment];
    var paused := segment.state == Stopping || db.job.pauseRequested;
    var canceled := paused && segment.stop == Some(UserCanceled);
    EndedIsOver(db, id, Rejected, Some(if canceled then UserCanceled else if paused then PausedAfterWriteRejection else WriteRejected),
                if canceled then Canceled else if paused then PausedSafe else Failed);
  }

  /** An abort revokes the permit whatever happens; when it is carried out, the named incident was the one open incident, it is
      closed, and the job is ABORTED. */
  lemma AbortOutcome(s: Sys, cmd: Control, incident: Id, parent: Digest)
    requires Live(s.db) && Incidents(s.db)
    ensures var step := Abort(s, cmd, incident, parent);
            && step.next.permit.None? && (step.answer != Ok(false) ==> step.next.db == s.db)
            && (step.answer == Ok(false) ==>
                  && Opens(s.db) == {incident} && Opens(step.next.db) == {} && step.next.db.job.state == Aborted
                  && incident in step.next.db.incidents && step.next.db.incidents[incident].status == AbortedIncident
                  && step.next.db.attempts == s.db.attempts && step.next.db.chain == s.db.chain)
  {
    var db, step := s.db, Abort(s, cmd, incident, parent);
    if step.answer == Ok(false) {
      assert incident in Opens(db);
      assert forall i :: i in Opens(db) ==> i == incident;
      var after := step.next.db.incidents;
      assert after == db.incidents[incident := db.incidents[incident].(status := AbortedIncident)];
      assert forall i :: i in after && after[i].status == Open ==> i in Opens(db);
    }
  }

  /** Cleanup is entered only from rest, and its two phases together give the job its final outcome: what it was, or CANCELED
      for a paused job. */
  lemma CleanupRestores(s: Sys, cmd: Control)
    requires Live(s.db) && BeginCleanup(s, cmd).answer == Ok(false)
    ensures NoLiveWork(s.db) && IsCleanupState(s.db.job.state)
    ensures var begun := BeginCleanup(s, cmd).next;
            var done := CompleteCleanup(begun, cmd.scope, cmd.digest);
            && begun.db.job.state == Cleaning && done.answer == Ok(false)
            && done.next.db.job.state == CleanupFinalState(s.db.job.state) && !done.next.db.job.retained
            && done.next.db.chain == s.db.chain && done.next.db.attempts == s.db.attempts
            && done.next.db.segments == s.db.segments && done.next.db.incidents == s.db.incidents
  {
    hide LiveRun;
    var begun := BeginCleanup(s, cmd).next;
    assert Lives(begun.db) == Lives(s.db) && Sendings(begun.db) == Sendings(s.db) && Opens(begun.db) == Opens(s.db);
  }

  lemma OnlyFinishSucceeds(s: Sys, e: Event)
    requires Inv(s) && !HasSucceeded(s.db) && HasSucceeded(Apply(s, e).next.db)
    ensures e.EFinish? && Apply(s, e).next.db.chain == s.db.chain
            && s.db.chain.digest.Some? && s.db.chain.digest.value.of.offset == e.size
  {
    hide Inv, Commits, HasSucceeded, CompletePreflight, SettleAck, SettleTooLarge;
    if e.EPreflight? {
      PreflightChain(s, GenesisCheckpoint(e.maxPoints, e.maxBytes, e.identity));
    } else if Commits(s, e).None? {
      StepKeeps(s, e);
    } else {
      StepCommits(s, e);
    }
  }

  lemma FinishesAtRest(s: Sys, segment: Id, checkpoint: Digest, size: nat)
    requires !HasSucceeded(s.db) && HasSucceeded(FinishImport(s, segment, checkpoint, size).next.db)
    ensures Sendings(s.db) == {} && Opens(s.db) == {}
  {
  }

  /** The only way to SUCCEEDED is finishing a run with nothing out whose current checkpoint ends at the size of the staging
      file. */
  lemma SucceedsOnlyByFinish(s: Sys, e: Event)
    requires Inv(s) && !HasSucceeded(s.db) && HasSucceeded(Apply(s, e).next.db)
    ensures e.EFinish? && Apply(s, e).next.db.chain == s.db.chain
            && s.db.chain.digest.Some? && s.db.chain.digest.value.of.offset == e.size && Sendings(s.db) == {} && Opens(s.db) == {}
  {
    hide Inv, HasSucceeded, FinishImport;
    OnlyFinishSucceeds(s, e);
    FinishesAtRest(s, e.segment, e.checkpoint, e.size);
  }
}
