/** The import run protocol of one job: its durable rows, the process-local permit, and one function per
    repository operation. Each function is one WithImmediate transaction together with the permit change made
    under the same job lock; a refusal leaves the rows as they were. */
module Import {
  import opened Bytes
  import opened Wrappers

  type Id = string

  datatype JobState =
    | Preflighting | Staging | Ready | Running | PausedSafe | PausedRestage
    | NeedsPartialDecision | NeedsUnknownDecision | Cleaning
    | Succeeded | Canceled | Aborted | Failed

  datatype SegmentState = Active | Stopping | Closed

  datatype StopReason =
    | UserCanceled | Invalidated(reason: string) | Incidental(kind: IncidentKind) | PermitCheckpointDesync
    | LostOnRestart | WriteRejected | PausedAfterWriteRejection | PausedAfterBatchLimitReduction
    | SinglePointTooLarge | StagingEof | UserAborted

  datatype AttemptState = Sending | Acked | EndedPartial | EndedUnknown | FailedNotSent | Rejected | RejectedTooLarge

  datatype IncidentKind = PartialWrite | UnknownOutcome

  datatype IncidentStatus = Open | AbortedIncident

  datatype Disposition = NoDisposition | DispositionAcked | DispositionTooLarge

  type Digest = Sha256<Checkpoint>

  datatype Checkpoint = Checkpoint(sequence: nat, parent: Option<Sha256<Checkpoint>>, offset: nat, batch: Id,
                                   disposition: Disposition, maxPoints: nat, maxBytes: nat, identity: string)

  datatype Segment = Segment(state: SegmentState, initial: Digest, committed: Digest, attempt: Option<Id>,
                             stop: Option<StopReason>)

  datatype Attempt = Attempt(batch: Id, segment: Id, state: AttemptState, parent: Digest, start: nat, end: nat,
                             payload: Sha256<seq<Byte>>, child: Option<Digest>)

  datatype Incident = Incident(kind: IncidentKind, status: IncidentStatus, parent: Digest, segment: Id, batch: Id,
                               attempt: Id, start: nat, end: nat, payload: Sha256<seq<Byte>>)

  datatype Cause = Ack | BatchLimitReduced

  datatype Transition = Transition(sequence: nat, owner: Id, cause: Cause, parent: Digest, child: Digest,
                                   batch: Id, attempt: Id)

  datatype Command = Command(digest: string, resultState: JobState, resultRevision: nat)

  /** The rows of tasks, import_jobs and transfer_jobs that belong to one job. */
  datatype Job = Job(
    state: JobState, terminal: bool, stateRevision: nat, snapshotRevision: nat,
    rowState: JobState, active: Option<Id>, pauseRequested: bool,
    transferState: JobState, retained: bool, profile: string)

  /** The job's checkpoint digest, the checkpoint rows and the transition rows. */
  datatype Lineage = Lineage(digest: Option<Digest>, checkpoints: map<Digest, Checkpoint>, transitions: seq<Transition>)

  datatype Db = Db(
    job: Job, chain: Lineage, segments: map<Id, Segment>, attempts: map<Id, Attempt>, incidents: map<Id, Incident>,
    commands: map<string, Command>)

  datatype Permit = Permit(segment: Id, checkpoint: Digest, profile: string, binding: string, wellFormed: bool)

  datatype Sys = Sys(db: Db, permit: Option<Permit>)

  datatype Error =
    | ImportState | ProfileMismatch | GrantExpired | RevisionConflict | PermitMismatch | CheckpointConflict
    | OffsetConflict | OpenIncidentExists | CommandConflict | StagingBoundary | StageFileCleanup
    | InvalidDecimal | NoRow | UniqueConstraint

  /** What an operation leaves behind and what it answers; Ok(true) is a replayed command. */
  datatype Step = Step(next: Sys, answer: Result<bool, Error>)

  function Refuse(s: Sys, e: Error): Step {
    Step(s, Err(e))
  }

  function Commit(db: Db, permit: Option<Permit>): Step {
    Step(Sys(db, permit), Ok(false))
  }

  // ---------------------------------------------------------------- queries

  function Sendings(db: Db): set<Id> {
    set a | a in db.attempts && db.attempts[a].state == Sending
  }

  function Lives(db: Db): set<Id> {
    set g | g in db.segments && db.segments[g].state != Closed
  }

  function Opens(db: Db): set<Id> {
    set i | i in db.incidents && db.incidents[i].status == Open
  }

  predicate IsTerminal(state: JobState) {
    state in {Aborted, Canceled, Failed, Succeeded}
  }

  predicate NeedsDecision(state: JobState) {
    state == NeedsPartialDecision || state == NeedsUnknownDecision
  }

  predicate IsCleanupState(state: JobState) {
    state in {Aborted, Canceled, Failed, Succeeded, PausedSafe, PausedRestage}
  }

  function CleanupFinalState(state: JobState): JobState {
    if state == PausedSafe || state == PausedRestage then Canceled else state
  }

  /** The command ledger is asked by scope; another digest under the same scope is a conflict. */
  function Lookup(db: Db, scope: string, digest: string): Result<Option<Command>, Error> {
    if scope !in db.commands then Ok(None)
    else if db.commands[scope].digest != digest then Err(CommandConflict)
    else Ok(Some(db.commands[scope]))
  }

  function CheckpointOf(db: Db): Option<Checkpoint> {
    if db.chain.digest.Some? && db.chain.digest.value in db.chain.checkpoints then Some(db.chain.checkpoints[db.chain.digest.value]) else None
  }

  // ---------------------------------------------------------------- row updates

  /** tasks.ApplyInTx: one more snapshot revision, and one more state revision when the state changed. */
  function ApplyTask(job: Job, state: JobState, stateChanged: bool, terminal: bool): Job {
    job.(state := state, terminal := terminal, snapshotRevision := job.snapshotRevision + 1,
         stateRevision := if stateChanged then job.stateRevision + 1 else job.stateRevision,
         rowState := state)
  }

  /** The job leaves RUNNING (or never was): no active segment, no pause request. */
  function Rest(job: Job, state: JobState, transferState: JobState): Job {
    ApplyTask(job, state, true, IsTerminal(state)).(active := None, pauseRequested := false, transferState := transferState)
  }

  function CloseSegment(segments: map<Id, Segment>, segment: Id, stop: Option<StopReason>): map<Id, Segment> {
    if segment !in segments then segments
    else segments[segment := segments[segment].(state := Closed, attempt := None, stop := stop)]
  }

  function EndAttempt(attempts: map<Id, Attempt>, attempt: Id, state: AttemptState): map<Id, Attempt>
    requires attempt in attempts
  {
    attempts[attempt := attempts[attempt].(state := state)]
  }

  /** The command's ledger row holds the job's state and revision after the command. */
  function Record(commands: map<string, Command>, job: Job, scope: string, digest: string): map<string, Command> {
    commands[scope := Command(digest, job.state, job.stateRevision)]
  }

  // ---------------------------------------------------------------- run start and attempts

  datatype StartRequest = StartRequest(profile: string, segment: Id, scope: string, digest: string,
                                       expectedRevision: nat, grantExpiresAt: nat, permit: Permit)

  function StartRun(s: Sys, req: StartRequest, now: nat): Step {
    var db := s.db;
    match Lookup(db, req.scope, req.digest)
    case Err(e) => Refuse(s, e)
    case Ok(Some(_)) => if db.job.profile != req.profile then Refuse(s, ProfileMismatch) else Step(s, Ok(true))
    case Ok(None) =>
      if db.job.profile != req.profile then Refuse(s, ProfileMismatch)
      else if now >= req.grantExpiresAt then Refuse(s, GrantExpired)
      else if db.job.stateRevision != req.expectedRevision then Refuse(s, RevisionConflict)
      else if db.job.state != Ready && db.job.state != PausedSafe then Refuse(s, ImportState)
      else if req.permit.segment != req.segment || db.chain.digest != Some(req.permit.checkpoint) then Refuse(s, PermitMismatch)
      else if req.segment in db.segments || Lives(db) != {} then Refuse(s, UniqueConstraint)
      else
        var d := req.permit.checkpoint;
        var started := Started(db, req.segment, d, req.scope, req.digest);
        if req.permit.wellFormed && s.permit.None? then Commit(started, Some(req.permit))
        else Step(Sys(PausePermitDesync(started, req.segment, d), None), Err(PermitMismatch))
  }

  function Started(db: Db, segment: Id, checkpoint: Digest, scope: string, digest: string): Db {
    var job := ApplyTask(db.job, Running, true, false).(active := Some(segment), pauseRequested := false);
    db.(job := job, segments := db.segments[segment := Segment(Active, checkpoint, checkpoint, None, None)],
        commands := Record(db.commands, job, scope, digest))
  }

  /** The permit could not follow the rows: the run is paused unless an attempt is out. */
  function PausePermitDesync(db: Db, segment: Id, checkpoint: Digest): Db {
    if db.job.state != Running || db.chain.digest != Some(checkpoint) || db.job.active != Some(segment) then db
    else if Sendings(db) != {} then db
    else
      db.(job := ApplyTask(db.job, PausedSafe, true, false).(active := None),
          segments := if segment !in db.segments then db.segments else
            db.segments[segment := db.segments[segment].(state := Closed, stop := Some(PermitCheckpointDesync))])
  }

  datatype AttemptRequest = AttemptRequest(attempt: Id, batch: Id, segment: Id, parent: Digest, start: nat, end: nat,
                                           payload: Sha256<seq<Byte>>)

  /** `permit` is the copy read before the job lock was taken. */
  function BeginAttempt(s: Sys, req: AttemptRequest, profile: string, permit: Permit): Step {
    var db := s.db;
    if req.segment != permit.segment || req.parent != permit.checkpoint then Refuse(s, PermitMismatch)
    else if s.permit != Some(permit) || !permit.wellFormed then Refuse(s, PermitMismatch)
    else if req.end <= req.start then Refuse(s, OffsetConflict)
    else if db.job.profile != profile || permit.profile != profile then Refuse(s, ProfileMismatch)
    else if db.job.state != Running || db.chain.digest != Some(req.parent) || db.job.active != Some(req.segment) then
      Refuse(s, CheckpointConflict)
    else if CheckpointOf(db).None? then Refuse(s, NoRow)
    else if req.start != CheckpointOf(db).value.offset then Refuse(s, OffsetConflict)
    else if req.segment !in db.segments then Refuse(s, NoRow)
    else
      var segment := db.segments[req.segment];
      if segment.state != Active || segment.committed != req.parent then Refuse(s, CheckpointConflict)
      else if segment.attempt.Some? || Sendings(db) != {} then Refuse(s, ImportState)
      else if req.attempt in db.attempts then Refuse(s, UniqueConstraint)
      else
        var row := Attempt(req.batch, req.segment, Sending, req.parent, req.start, req.end, req.payload, None);
        Commit(db.(attempts := db.attempts[req.attempt := row],
                   segments := db.segments[req.segment := segment.(attempt := Some(req.attempt))]), s.permit)
  }

  // ---------------------------------------------------------------- settlement

  /** What every settlement asks: the attempt is SENDING in the job's live segment at the job's checkpoint.
      `closed` is the operation's answer for a segment that is no longer live. */
  function SettlementFault(db: Db, id: Id, closed: Error): Option<Error> {
    if id !in db.attempts then Some(NoRow)
    else
      var a := db.attempts[id];
      if a.state != Sending then Some(ImportState)
      else if db.job.state != Running || db.chain.digest != Some(a.parent) || db.job.active != Some(a.segment) then
        Some(CheckpointConflict)
      else if a.segment !in db.segments then Some(NoRow)
      else if db.segments[a.segment].state == Closed then Some(closed)
      else if db.segments[a.segment].attempt != Some(id) || db.job.rowState != Running then Some(CheckpointConflict)
      else None
  }

  /** The child checkpoint row and its transition, at the digest of the child. */
  function Extend(chain: Lineage, id: Id, a: Attempt, next: Checkpoint, cause: Cause): Lineage {
    var child := Sha256(next);
    Lineage(Some(child), chain.checkpoints[child := next],
            chain.transitions + [Transition(next.sequence, a.segment, cause, a.parent, child, a.batch, id)])
  }

  predicate CanAdvance(db: Db, parent: Digest, child: Digest) {
    child !in db.chain.checkpoints && forall i :: 0 <= i < |db.chain.transitions| ==> db.chain.transitions[i].parent != parent
  }

  /** The live segment after a committed checkpoint: it goes on, or closes with the given reason. */
  function MoveSegment(segment: Segment, child: Digest, continues: bool, stop: Option<StopReason>): Segment {
    Segment(if continues then Active else Closed, segment.initial, child, None, if continues then None else stop)
  }

  /** The chain grows by `next`, the attempt ends with its child, and the segment moves or closes. */
  function Advance(db: Db, id: Id, next: Checkpoint, cause: Cause, outcome: AttemptState, job: Job, segment: Segment): Db
    requires id in db.attempts
  {
    var a := db.attempts[id];
    db.(job := job, chain := Extend(db.chain, id, a, next, cause),
        attempts := db.attempts[id := a.(state := outcome, child := Some(Sha256(next)))],
        segments := db.segments[a.segment := segment])
  }

  function Continue(job: Job): Job {
    ApplyTask(job, Running, false, false).(pauseRequested := false)
  }

  function AckedCheckpoint(cp: Checkpoint, a: Attempt): Checkpoint {
    cp.(sequence := cp.sequence + 1, parent := Some(a.parent), offset := a.end, batch := a.batch,
        disposition := DispositionAcked)
  }

  function SettleAck(s: Sys, id: Id): Step {
    var db := s.db;
    match SettlementFault(db, id, ImportState)
    case Some(e) => Refuse(s, e)
    case None =>
      if CheckpointOf(db).None? then Refuse(s, NoRow) else
      var a := db.attempts[id];
      var segment := db.segments[a.segment];
      var continues := segment.state == Active && !db.job.pauseRequested;
      var canceled := segment.state == Stopping && segment.stop == Some(UserCanceled);
      var next := AckedCheckpoint(CheckpointOf(db).value, a);
      var child := Sha256(next);
      if !CanAdvance(db, a.parent, child) then Refuse(s, UniqueConstraint)
      else if segment.committed != a.parent then Refuse(s, CheckpointConflict) else
      var moved := MoveSegment(segment, child, continues, segment.stop);
      if continues then
        Follow(s.permit, Advance(db, id, next, Ack, Acked, Continue(db.job), moved), a.segment, a.parent, child)
      else
        var target := if canceled then Canceled else PausedSafe;
        Commit(Advance(db, id, next, Ack, Acked, Rest(db.job, target, target), moved), None)
  }

  /** A continuing run moves its permit to the child checkpoint by compare-and-swap, or is paused. */
  function Follow(permit: Option<Permit>, db: Db, segment: Id, parent: Digest, child: Digest): Step {
    if permit.Some? && permit.value.segment == segment && permit.value.checkpoint == parent
    then Commit(db, Some(permit.value.(checkpoint := child)))
    else Commit(PausePermitDesync(db, segment, child), None)
  }

  function Halve(n: nat): nat {
    if n / 2 == 0 then 1 else n / 2
  }

  function ReducedCheckpoint(cp: Checkpoint, a: Attempt): Checkpoint {
    cp.(sequence := cp.sequence + 1, parent := Some(a.parent), batch := a.batch, disposition := DispositionTooLarge,
        maxPoints := Halve(cp.maxPoints), maxBytes := Halve(cp.maxBytes))
  }

  /** The attempt ends without a checkpoint, its segment closes and the job comes to rest. */
  function Ended(db: Db, id: Id, outcome: AttemptState, stop: Option<StopReason>, state: JobState, transferState: JobState): Db
    requires id in db.attempts
  {
    db.(job := Rest(db.job, state, transferState), attempts := EndAttempt(db.attempts, id, outcome),
        segments := CloseSegment(db.segments, db.attempts[id].segment, stop))
  }

  function SettleTooLarge(s: Sys, id: Id): Step {
    var db := s.db;
    match SettlementFault(db, id, CheckpointConflict)
    case Some(e) => Refuse(s, e)
    case None =>
      if CheckpointOf(db).None? then Refuse(s, NoRow) else
      var a, cp := db.attempts[id], CheckpointOf(db).value;
      var segment := db.segments[a.segment];
      if segment.state == Stopping && segment.stop == Some(UserCanceled) then
        Commit(Ended(db, id, RejectedTooLarge, Some(UserCanceled), Canceled, Canceled), None)
      else if cp.maxPoints == 1 then
        Commit(Ended(db, id, RejectedTooLarge, Some(SinglePointTooLarge), Failed, db.job.transferState), None)
      else if cp.maxPoints == 0 || cp.maxBytes == 0 then Refuse(s, InvalidDecimal)
      else
        var next := ReducedCheckpoint(cp, a);
        var child := Sha256(next);
        if !CanAdvance(db, a.parent, child) then Refuse(s, UniqueConstraint)
        else if segment.committed != a.parent then Refuse(s, CheckpointConflict) else
        var continues := segment.state == Active && !db.job.pauseRequested;
        var moved := MoveSegment(segment, child, continues, Some(PausedAfterBatchLimitReduction));
        if continues then
          Follow(s.permit, Advance(db, id, next, BatchLimitReduced, RejectedTooLarge, Continue(db.job), moved), a.segment,
                 a.parent, child)
        else
          Commit(Advance(db, id, next, BatchLimitReduced, RejectedTooLarge,
                         Rest(db.job, PausedSafe, db.job.transferState), moved), None)
  }

  /** The dispatcher's start barrier was not crossed: the attempt is closed and an active run stays usable. */
  function MarkNotSent(s: Sys, id: Id): Step {
    var db := s.db;
    if id !in db.attempts then Step(s, Ok(false)) else
    match SettlementFault(db, id, CheckpointConflict)
    case Some(e) => Refuse(s, e)
    case None =>
      var a := db.attempts[id];
      var segment := db.segments[a.segment];
      if segment.committed != a.parent then Refuse(s, CheckpointConflict) else
      if segment.state == Stopping then
        var target := if segment.stop == Some(UserCanceled) then Canceled else PausedSafe;
        Commit(Ended(db, id, FailedNotSent, segment.stop, target, target), None)
      else
        Commit(db.(attempts := EndAttempt(db.attempts, id, FailedNotSent),
                   segments := db.segments[a.segment := segment.(attempt := None, stop := None)]), s.permit)
  }

  function SettleRejected(s: Sys, id: Id): Step {
    var db := s.db;
    if id !in db.attempts || db.attempts[id].segment !in db.segments then Refuse(s, NoRow)
    else if db.attempts[id].state != Sending || db.segments[db.attempts[id].segment].state == Closed then Refuse(s, ImportState)
    else
    match SettlementFault(db, id, CheckpointConflict)
    case Some(e) => Refuse(s, e)
    case None =>
      var a := db.attempts[id];
      var segment := db.segments[a.segment];
      var paused := segment.state == Stopping || db.job.pauseRequested;
      var canceled := paused && segment.stop == Some(UserCanceled);
      var target := if canceled then Canceled else if paused then PausedSafe else Failed;
      var stop := if canceled then UserCanceled else if paused then PausedAfterWriteRejection else WriteRejected;
      Commit(Ended(db, id, Rejected, Some(stop), target, target), None)
  }

  function IncidentFor(a: Attempt, id: Id, kind: IncidentKind): Incident {
    Incident(kind, Open, a.parent, a.segment, a.batch, id, a.start, a.end, a.payload)
  }

  function RecordIncident(s: Sys, id: Id, incident: Id, kind: IncidentKind): Step {
    var db := s.db;
    match SettlementFault(db, id, CheckpointConflict)
    case Some(e) => Refuse(s, e)
    case None =>
      if incident in db.incidents || Opens(db) != {} then Refuse(s, UniqueConstraint) else
      var a := db.attempts[id];
      var target := if kind == PartialWrite then NeedsPartialDecision else NeedsUnknownDecision;
      var outcome := if kind == PartialWrite then EndedPartial else EndedUnknown;
      Commit(Ended(db, id, outcome, Some(Incidental(kind)), target, target).(
               incidents := db.incidents[incident := IncidentFor(a, id, kind)]), None)
  }

  // ---------------------------------------------------------------- control commands

  datatype Control = Control(scope: string, digest: string, expectedRevision: nat)

  /** The permit is revoked before the transaction, so even a refused abort cannot leave a stale permit. */
  function Abort(s: Sys, cmd: Control, incident: Id, parent: Digest): Step {
    var db := s.db;
    var revoked := Sys(db, None);
    match Lookup(db, cmd.scope, cmd.digest)
    case Err(e) => Refuse(revoked, e)
    case Ok(Some(_)) => Step(revoked, Ok(true))
    case Ok(None) =>
      if db.job.stateRevision != cmd.expectedRevision then Refuse(revoked, RevisionConflict)
      else if !NeedsDecision(db.job.state) then Refuse(revoked, ImportState)
      else if db.chain.digest != Some(parent) || incident !in Opens(db) || db.incidents[incident].parent != parent then
        Refuse(revoked, CheckpointConflict)
      else if Sendings(db) != {} then Refuse(revoked, ImportState)
      else
        var row := db.incidents[incident];
        var job := Rest(db.job, Aborted, Aborted);
        Commit(db.(job := job, incidents := db.incidents[incident := row.(status := AbortedIncident)],
                   segments := CloseSegment(db.segments, row.segment, Some(UserAborted)),
                   commands := Record(db.commands, job, cmd.scope, cmd.digest)), None)
  }

  /** InvalidatePermits and PauseRun: stop the run this very permit belongs to. */
  function InvalidatePermit(s: Sys, permit: Permit, reason: string): Step {
    var db := s.db;
    if s.permit != Some(permit) then Step(s, Ok(false))
    else if db.job.profile != permit.profile then Refuse(s, ProfileMismatch)
    else if db.job.state != Running || db.job.active != Some(permit.segment) then Commit(db, None)
    else
      var sending := set a | a in Sendings(db) && db.attempts[a].segment == permit.segment;
      if |sending| > 1 || db.job.rowState != Running then Refuse(s, ImportState)
      else if permit.segment !in db.segments || db.segments[permit.segment].state == Closed
              || (db.segments[permit.segment].attempt.Some? <==> sending == {}) then Refuse(s, ImportState)
      else if sending == {} then
        Commit(db.(job := Rest(db.job, PausedSafe, db.job.transferState),
                   segments := CloseSegment(db.segments, permit.segment, Some(Invalidated(reason)))), None)
      else
        Commit(db.(job := ApplyTask(db.job, Running, true, false).(pauseRequested := true),
                   segments := Stop(db.segments, permit.segment, Invalidated(reason))), None)
  }

  /** An attempt is out: the segment only stops after it settles. */
  function Stop(segments: map<Id, Segment>, segment: Id, reason: StopReason): map<Id, Segment>
    requires segment in segments
  {
    segments[segment := segments[segment].(state := Stopping, stop := Some(reason))]
  }

  /** `live` is the row the one-live-segment index allows, if any. A replay found before the job lock changes
      nothing; one found under it (`raced`) still revokes the permit. */
  function CancelImport(s: Sys, cmd: Control, live: Option<Id>, raced: bool): Step
    requires live.Some? ==> live.value in s.db.segments
  {
    var db := s.db;
    match Lookup(db, cmd.scope, cmd.digest)
    case Err(e) => Refuse(s, e)
    case Ok(Some(_)) => Step(if raced then Sys(db, None) else s, Ok(true))
    case Ok(None) =>
      var sending := |Sendings(db)|;
      if sending > 1 || (sending == 1 && (live.None? || db.segments[live.value].attempt.None?)) then Refuse(s, ImportState)
      else if db.job.state == Canceled
           || (live.Some? && db.segments[live.value].state == Stopping && db.segments[live.value].stop == Some(UserCanceled)) then
        Commit(db.(commands := Record(db.commands, db.job, cmd.scope, cmd.digest)), None)
      else if db.job.stateRevision != cmd.expectedRevision then Refuse(s, RevisionConflict)
      else if Opens(db) != {} || NeedsDecision(db.job.state) then Refuse(s, OpenIncidentExists)
      else if db.job.terminal || db.job.state == Cleaning then Refuse(s, ImportState)
      else if sending == 0 then
        if live.Some? && (db.segments[live.value].state == Closed || db.segments[live.value].attempt.Some?) then
          Refuse(s, ImportState)
        else if db.job.rowState != db.job.state then Refuse(s, ImportState)
        else
          var job := Rest(db.job, Canceled, Canceled);
          Commit(db.(job := job,
                     segments := if live.Some? then CloseSegment(db.segments, live.value, Some(UserCanceled)) else db.segments,
                     commands := Record(db.commands, job, cmd.scope, cmd.digest)), None)
      else if db.job.state != Running || db.segments[live.value].state != Active || db.job.active != live || db.job.rowState != Running then
        Refuse(s, ImportState)
      else
        var job := ApplyTask(db.job, Running, true, false).(pauseRequested := true, transferState := Running);
        Commit(db.(job := job, segments := Stop(db.segments, live.value, UserCanceled),
                   commands := Record(db.commands, job, cmd.scope, cmd.digest)), None)
  }

  function FinishImport(s: Sys, segment: Id, checkpoint: Digest, size: nat): Step {
    var db := s.db;
    if size == 0 then Refuse(s, StagingBoundary)
    else if db.job.state == Succeeded then Step(s, Ok(true))
    else if db.job.state != Running || db.chain.digest != Some(checkpoint) || CheckpointOf(db).None?
         || CheckpointOf(db).value.offset != size || db.job.active != Some(segment) || Opens(db) != {} then
      Refuse(s, StagingBoundary)
    else if s.permit.None? || s.permit.value.segment != segment || s.permit.value.checkpoint != checkpoint then
      Refuse(s, PermitMismatch)
    else if segment !in db.segments then Refuse(s, NoRow)
    else if db.segments[segment].state != Active || db.segments[segment].committed != checkpoint
         || db.segments[segment].attempt.Some? || Sendings(db) != {} || db.job.rowState != Running then Refuse(s, StagingBoundary)
    else Commit(db.(job := Rest(db.job, Succeeded, Succeeded),
                    segments := CloseSegment(db.segments, segment, Some(StagingEof))), None)
  }

  // ---------------------------------------------------------------- cleanup in two phases

  predicate NoLiveWork(db: Db) {
    Lives(db) == {} && Sendings(db) == {} && Opens(db) == {}
  }

  function BeginCleanup(s: Sys, cmd: Control): Step {
    var db := s.db;
    match Lookup(db, cmd.scope, cmd.digest)
    case Err(e) => Refuse(s, e)
    case Ok(Some(entry)) =>
      if entry.resultState != Cleaning then Step(s, Ok(true))
      else if db.job.state != Cleaning then Refuse(s, ImportState)
      else Step(Sys(db, None), Ok(true))
    case Ok(None) =>
      if db.job.stateRevision != cmd.expectedRevision then Refuse(s, RevisionConflict)
      else if !IsCleanupState(db.job.state) || !NoLiveWork(db) || db.job.rowState != db.job.state then Refuse(s, ImportState)
      else
        var job := Rest(db.job, Cleaning, CleanupFinalState(db.job.state));
        Commit(db.(job := job, commands := Record(db.commands, job, cmd.scope, cmd.digest)), None)
  }

  /** Runs only after the files were verified absent; releases the reservations and the retention. */
  function CompleteCleanup(s: Sys, scope: string, digest: string): Step {
    var db := s.db;
    match Lookup(db, scope, digest)
    case Err(e) => Refuse(s, e)
    case Ok(None) => Refuse(s, CommandConflict)
    case Ok(Some(entry)) =>
      if entry.resultState != Cleaning then Step(s, Ok(false))
      else if db.job.state != Cleaning || !NoLiveWork(db) || !IsCleanupState(db.job.transferState) || db.job.rowState != Cleaning then
        Refuse(s, ImportState)
      else
        var job := Rest(db.job, db.job.transferState, db.job.transferState).(retained := false);
        Commit(db.(job := job, commands := Record(db.commands, job, scope, digest)), s.permit)
  }

  // ---------------------------------------------------------------- preflight, crash and recovery

  function CompletePreflight(s: Sys, genesis: Checkpoint): Step {
    var db := s.db;
    if db.job.state != Staging || db.chain.digest.Some? then Refuse(s, ImportState)
    else if db.job.rowState != Staging then Refuse(s, ImportState)
    else if Sha256(genesis) in db.chain.checkpoints then Refuse(s, UniqueConstraint)
    else
      Commit(db.(job := ApplyTask(db.job, Ready, true, false).(transferState := Ready),
                 chain := db.chain.(digest := Some(Sha256(genesis)),
                                    checkpoints := db.chain.checkpoints[Sha256(genesis) := genesis])), s.permit)
  }

  /** A crash loses the permit map and nothing durable. */
  function Crash(s: Sys): Sys {
    Sys(s.db, None)
  }

  /** RecoverImports for this job; `sending` is the row the one-live-attempt index allows, if any. */
  function Recover(s: Sys, sending: Option<Id>, incident: Id): Step
    requires sending.Some? ==> sending.value in s.db.attempts
  {
    var db := s.db;
    if db.job.rowState !in {Preflighting, Staging, Running} then Step(Sys(db, None), Ok(false))
    else if db.job.state == Preflighting || db.job.state == Staging then
      Commit(db.(job := Rest(db.job, PausedRestage, PausedRestage)), None)
    else if sending.None? then
      Commit(db.(job := Rest(db.job, PausedSafe, PausedSafe),
                 segments := if db.job.active.Some? then CloseSegment(db.segments, db.job.active.value, Some(LostOnRestart))
                             else db.segments), None)
    else if incident in db.incidents || Opens(db) != {} then Refuse(Sys(db, None), UniqueConstraint)
    else
      var a := db.attempts[sending.value];
      Commit(Ended(db, sending.value, EndedUnknown, Some(LostOnRestart), NeedsUnknownDecision, NeedsUnknownDecision).(
               incidents := db.incidents[incident := IncidentFor(a, sending.value, UnknownOutcome)]), None)
  }
}
