/** Whole runs of the import protocol: any sequence of commands, settlements, crashes and recoveries. */
module ImportRuns {
  import opened Bytes
  import opened Wrappers
  import opened Import
  import opened ImportInvariants

  datatype Event =
    | EPreflight(maxPoints: nat, maxBytes: nat, identity: string)
    | EStart(start: StartRequest, now: nat)
    | EBegin(begin: AttemptRequest, profile: string, permit: Permit)
    | EAck(id: Id)
    | ETooLarge(id: Id)
    | ENotSent(id: Id)
    | ERejected(id: Id)
    | EIncident(id: Id, incident: Id, kind: IncidentKind)
    | EAbort(cmd: Control, incident: Id, parent: Digest)
    | EInvalidate(permit: Permit, reason: string)
    | ECancel(cmd: Control, raced: bool)
    | EFinish(segment: Id, checkpoint: Digest, size: nat)
    | EBeginCleanup(cmd: Control)
    | ECompleteCleanup(scope: string, digest: string)
    | ECrash
    | ERecover(incident: Id)

  /** The first checkpoint of a job: nothing of the staging file is settled. */
  function GenesisCheckpoint(maxPoints: nat, maxBytes: nat, identity: string): Checkpoint {
    Checkpoint(0, None, 0, "", NoDisposition, maxPoints, maxBytes, identity)
  }

  /** The row a unique index lets a query find, if there is one. */
  ghost function TheOne(ids: set<Id>): Option<Id> {
    if ids == {} then None else var id :| id in ids; Some(id)
  }

  ghost function Apply(s: Sys, e: Event): Step {
    match e
    case EPreflight(points, bytes, identity) => CompletePreflight(s, GenesisCheckpoint(points, bytes, identity))
    case EStart(req, now) => StartRun(s, req, now)
    case EBegin(req, profile, permit) => BeginAttempt(s, req, profile, permit)
    case EAck(id) => SettleAck(s, id)
    case ETooLarge(id) => SettleTooLarge(s, id)
    case ENotSent(id) => MarkNotSent(s, id)
    case ERejected(id) => SettleRejected(s, id)
    case EIncident(id, incident, kind) => RecordIncident(s, id, incident, kind)
    case EAbort(cmd, incident, parent) => Abort(s, cmd, incident, parent)
    case EInvalidate(permit, reason) => InvalidatePermit(s, permit, reason)
    case ECancel(cmd, raced) => CancelImport(s, cmd, TheOne(Lives(s.db)), raced)
    case EFinish(segment, checkpoint, size) => FinishImport(s, segment, checkpoint, size)
    case EBeginCleanup(cmd) => BeginCleanup(s, cmd)
    case ECompleteCleanup(scope, digest) => CompleteCleanup(s, scope, digest)
    case ECrash => Step(Crash(s), Ok(false))
    case ERecover(incident) => Recover(s, TheOne(Sendings(s.db)), incident)
  }

  ghost function Run(s: Sys, es: seq<Event>): Sys {
    if es == [] then s else Apply(Run(s, es[..|es| - 1]), es[|es| - 1]).next
  }

  /** A fresh job: still preparing its staging file, or created READY at its first checkpoint. */
  ghost predicate Init(s: Sys) {
    && s.permit.None? && s.db.job.rowState == s.db.job.state && !s.db.job.terminal
    && s.db.job.active.None? && !s.db.job.pauseRequested
    && s.db.segments == map[] && s.db.attempts == map[] && s.db.incidents == map[]
    && (|| (s.db.job.state in {Preflighting, Staging} && s.db.chain == Lineage(None, map[], []))
        || (s.db.job.state == Ready && exists points, bytes, identity :: s.db.chain == Born(points, bytes, identity)))
  }

  function Born(maxPoints: nat, maxBytes: nat, identity: string): Lineage {
    var genesis := GenesisCheckpoint(maxPoints, maxBytes, identity);
    Lineage(Some(Sha256(genesis)), map[Sha256(genesis) := genesis], [])
  }

  // ---------------------------------------------------------------- the invariant on every run

  lemma ChainKeyed(db: Db)
    requires Chain(db)
    ensures Keyed(db) && (db.chain.digest.Some? ==> CheckpointOf(db) == Some(db.chain.digest.value.of))
  {
  }

  predicate OfRun(e: Event) {
    e.EStart? || e.EBegin? || e.EAck? || e.ETooLarge? || e.ENotSent? || e.ERejected? || e.EIncident? || e.EFinish?
  }

  lemma StepLiveOfRun(s: Sys, e: Event)
    requires Inv(s) && OfRun(e)
    ensures Live(Apply(s, e).next.db) && PermitAgrees(Apply(s, e).next)
  {
    hide StartRun, BeginAttempt, SettleAck, SettleTooLarge, MarkNotSent, SettleRejected, RecordIncident, FinishImport;
    hide Live, PermitAgrees, Incidents, Chain, Keyed;
    ChainKeyed(s.db);
    match e
    case EStart(req, now) => StartRunLive(s, req, now);
    case EBegin(req, profile, permit) => BeginAttemptLive(s, req, profile, permit);
    case EAck(id) => SettleAckLive(s, id);
    case ETooLarge(id) => SettleTooLargeLive(s, id);
    case ENotSent(id) => MarkNotSentLive(s, id);
    case ERejected(id) => SettleRejectedLive(s, id);
    case EIncident(id, incident, kind) => RecordIncidentLive(s, id, incident, kind);
    case EFinish(segment, checkpoint, size) => FinishImportLive(s, segment, checkpoint, size);
  }

  lemma StepLiveOfControl(s: Sys, e: Event)
    requires Inv(s) && !OfRun(e)
    ensures Live(Apply(s, e).next.db) && PermitAgrees(Apply(s, e).next)
  {
    hide Abort, InvalidatePermit, CancelImport, BeginCleanup, CompleteCleanup, Recover, CompletePreflight;
    hide Live, Incidents, Chain, Keyed;
    ChainKeyed(s.db);
    match e
    case EPreflight(points, bytes, identity) => CompletePreflightLive(s, GenesisCheckpoint(points, bytes, identity));
    case EAbort(cmd, incident, parent) => AbortLive(s, cmd, incident, parent);
    case EInvalidate(permit, reason) => InvalidatePermitLive(s, permit, reason);
    case ECancel(cmd, raced) => CancelImportLive(s, cmd, TheOne(Lives(s.db)), raced);
    case EBeginCleanup(cmd) => BeginCleanupLive(s, cmd);
    case ECompleteCleanup(scope, digest) => CompleteCleanupLive(s, scope, digest);
    case ECrash =>
    case ERecover(incident) => RecoverLive(s, TheOne(Sendings(s.db)), incident);
  }

  lemma StepLive(s: Sys, e: Event)
    requires Inv(s)
    ensures Live(Apply(s, e).next.db) && PermitAgrees(Apply(s, e).next)
  {
    if OfRun(e) { StepLiveOfRun(s, e); } else { StepLiveOfControl(s, e); }
  }

  lemma StepIncidentsOfRun(s: Sys, e: Event)
    requires Inv(s) && OfRun(e)
    ensures Incidents(Apply(s, e).next.db)
  {
    hide StartRun, BeginAttempt, SettleAck, SettleTooLarge, MarkNotSent, SettleRejected, RecordIncident, FinishImport;
    match e
    case EStart(req, now) => StartRunIncidents(s, req, now);
    case EBegin(req, profile, permit) => BeginAttemptIncidents(s, req, profile, permit);
    case EAck(id) => SettleAckIncidents(s, id);
    case ETooLarge(id) => SettleTooLargeIncidents(s, id);
    case ENotSent(id) => MarkNotSentIncidents(s, id);
    case ERejected(id) => SettleRejectedIncidents(s, id);
    case EIncident(id, incident, kind) => RecordIncidentIncidents(s, id, incident, kind);
    case EFinish(segment, checkpoint, size) => FinishImportIncidents(s, segment, checkpoint, size);
  }

  lemma StepIncidentsOfControl(s: Sys, e: Event)
    requires Inv(s) && !OfRun(e)
    ensures Incidents(Apply(s, e).next.db)
  {
    hide Abort, InvalidatePermit, CancelImport, BeginCleanup, CompleteCleanup, Recover, CompletePreflight;
    match e
    case EPreflight(points, bytes, identity) => CompletePreflightIncidents(s, GenesisCheckpoint(points, bytes, identity));
    case EAbort(cmd, incident, parent) => AbortIncidents(s, cmd, incident, parent);
    case EInvalidate(permit, reason) => InvalidatePermitIncidents(s, permit, reason);
    case ECancel(cmd, raced) => CancelImportIncidents(s, cmd, TheOne(Lives(s.db)), raced);
    case EBeginCleanup(cmd) => BeginCleanupIncidents(s, cmd);
    case ECompleteCleanup(scope, digest) => CompleteCleanupIncidents(s, scope, digest);
    case ECrash =>
    case ERecover(incident) => RecoverIncidents(s, TheOne(Sendings(s.db)), incident);
  }

  lemma StepIncidents(s: Sys, e: Event)
    requires Inv(s)
    ensures Incidents(Apply(s, e).next.db)
  {
    if OfRun(e) { StepIncidentsOfRun(s, e); } else { StepIncidentsOfControl(s, e); }
  }

  /** The checkpoint an event commits, if it commits one: an ACK, or a smaller batch limit after a 413. */
  ghost function Commits(s: Sys, e: Event): Option<(Id, Checkpoint, Cause)> {
    match e
    case EAck(id) =>
      if SettleAck(s, id).answer.Err? || id !in s.db.attempts || CheckpointOf(s.db).None? then None
      else Some((id, AckedCheckpoint(CheckpointOf(s.db).value, s.db.attempts[id]), Ack))
    case ETooLarge(id) =>
      if SettleTooLarge(s, id).answer.Err? || id !in s.db.attempts || CheckpointOf(s.db).None? || TooLargeEnds(s.db, id) then None
      else Some((id, ReducedCheckpoint(CheckpointOf(s.db).value, s.db.attempts[id]), BatchLimitReduced))
    case _ => None
  }

  /** What an event that commits no checkpoint leaves behind. */
  ghost predicate Uncommitted(s: Sys, e: Event, after: Db) {
    && KeepsCheckpoints(s.db, after)
    && (forall a :: a in after.attempts && a !in s.db.attempts ==>
          e.EBegin? && after.attempts[a].start == e.begin.start && after.attempts[a].end == e.begin.end
          && after.attempts[a].payload == e.begin.payload)
    && (HasSucceeded(after) && !HasSucceeded(s.db) ==>
          e.EFinish? && after.chain.digest.Some? && after.chain.digest.value.of.offset == e.size)
  }

  lemma IdleUncommitted(s: Sys, e: Event, after: Db)
    requires Idle(s.db, after)
    ensures Uncommitted(s, e, after)
  {
  }

  lemma StepIdle(s: Sys, e: Event)
    requires Inv(s) && Commits(s, e).None? && OfRun(e) && !e.EBegin? && !e.EFinish?
    ensures Idle(s.db, Apply(s, e).next.db)
  {
    ChainKeyed(s.db);
    match e
    case EStart(req, now) => StartRunKeeps(s, req, now);
    case EAck(id) => SettleAckAdvances(s, id);
    case ETooLarge(id) => if TooLargeEnds(s.db, id) { TooLargeEndKeeps(s, id); } else { TooLargeAdvances(s, id); }
    case ENotSent(id) => MarkNotSentKeeps(s, id);
    case ERejected(id) => SettleRejectedKeeps(s, id);
    case EIncident(id, incident, kind) => RecordIncidentKeeps(s, id, incident, kind);
  }

  lemma StepIdleOfControl(s: Sys, e: Event)
    requires Inv(s) && !OfRun(e) && !e.EPreflight?
    ensures Idle(s.db, Apply(s, e).next.db)
  {
    hide Idle, Abort, InvalidatePermit, CancelImport, BeginCleanup, CompleteCleanup, Recover;
    match e
    case EAbort(cmd, incident, parent) => AbortKeeps(s, cmd, incident, parent);
    case EInvalidate(permit, reason) => InvalidatePermitKeeps(s, permit, reason);
    case ECancel(cmd, raced) => CancelImportKeeps(s, cmd, TheOne(Lives(s.db)), raced);
    case EBeginCleanup(cmd) => BeginCleanupKeeps(s, cmd);
    case ECompleteCleanup(scope, digest) => CompleteCleanupKeeps(s, scope, digest);
    case ECrash => QuietIdle(s.db, s.db, "", Rejected);
    case ERecover(incident) => RecoverKeeps(s, TheOne(Sendings(s.db)), incident);
  }

  lemma StepKeeps(s: Sys, e: Event)
    requires Inv(s) && Commits(s, e).None? && !e.EPreflight?
    ensures Uncommitted(s, e, Apply(s, e).next.db)
  {
    ChainKeyed(s.db);
    if e.EBegin? {
      BeginAttemptKeeps(s, e.begin, e.profile, e.permit);
    } else if e.EFinish? {
      FinishImportKeeps(s, e.segment, e.checkpoint, e.size);
    } else {
      if OfRun(e) { StepIdle(s, e); } else { StepIdleOfControl(s, e); }
      IdleUncommitted(s, e, Apply(s, e).next.db);
    }
  }

  lemma StepCommits(s: Sys, e: Event)
    requires Inv(s) && Commits(s, e).Some?
    ensures var (id, next, cause) := Commits(s, e).value; Advanced(s.db, Apply(s, e).next.db, id, next, cause)
  {
    ChainKeyed(s.db);
    match e
    case EAck(id) => SettleAckAdvances(s, id);
    case ETooLarge(id) => TooLargeAdvances(s, id);
  }

  lemma PreflightChain(s: Sys, genesis: Checkpoint)
    requires Inv(s)
    ensures var after := CompletePreflight(s, genesis).next.db;
            && Chain(after) && after.attempts == s.db.attempts && (HasSucceeded(after) ==> HasSucceeded(s.db))
            && (after.chain == s.db.chain
                || (s.db.chain.transitions == [] && s.db.chain.digest.None?
                    && after.chain == Lineage(Some(Sha256(genesis)), map[Sha256(genesis) := genesis], [])))
  {
    var after := CompletePreflight(s, genesis).next.db;
    if after != s.db {
      assert after.chain.transitions == [] && after.attempts == s.db.attempts;
    }
  }

  lemma StepInv(s: Sys, e: Event)
    requires Inv(s)
    ensures Inv(Apply(s, e).next)
  {
    StepLive(s, e);
    StepIncidents(s, e);
    var after := Apply(s, e).next.db;
    if e.EPreflight? {
      PreflightChain(s, GenesisCheckpoint(e.maxPoints, e.maxBytes, e.identity));
    } else if Commits(s, e).None? {
      StepKeeps(s, e);
      SameChain(s.db, after);
    } else {
      StepCommits(s, e);
      var (id, next, cause) := Commits(s, e).value;
      AdvancedChain(s.db, after, id, next, cause);
    }
  }

  lemma {:induction false} RunInv(s: Sys, es: seq<Event>)
    requires Init(s)
    ensures Inv(Run(s, es))
  {
    hide Apply;
    if es != [] {
      RunInv(s, es[..|es| - 1]);
      StepInv(Run(s, es[..|es| - 1]), es[|es| - 1]);
    }
  }
}
