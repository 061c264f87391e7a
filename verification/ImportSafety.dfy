/** Safety of the import protocol across pause, cancel, crash and recovery. */
module ImportSafety {
  import opened Wrappers
  import opened Import
  import opened ImportInvariants
  import opened ImportRuns

  // ---------------------------------------------------------------- one run, one attempt, one permit

  /** What the one-live-segment and one-live-attempt indexes demand, and what a permit promises. */
  ghost predicate Exclusive(s: Sys) {
    && (forall a, b :: a in Sendings(s.db) && b in Sendings(s.db) ==> a == b)
    && (forall g, h :: g in Lives(s.db) && h in Lives(s.db) ==> g == h)
    && (s.db.job.state == Running <==> Lives(s.db) != {})
    && (forall a :: a in Sendings(s.db) <==> Named(s.db, a))
    && (s.permit.Some? ==>
          && s.db.job.state == Running && s.permit.value.segment in Lives(s.db)
          && s.db.segments[s.permit.value.segment].state == Active && s.db.chain.digest == Some(s.permit.value.checkpoint))
  }

  /** The live segment names `a` as its active attempt. */
  ghost predicate Named(db: Db, a: Id) {
    exists g :: g in Lives(db) && db.segments[g].attempt == Some(a)
  }

  lemma InvExclusive(s: Sys)
    requires Inv(s)
    ensures Exclusive(s)
  {
    LiveRows(s.db);
    forall a ensures a in Sendings(s.db) <==> Named(s.db, a) {
      if a in Sendings(s.db) {
        assert s.db.job.active.value in Lives(s.db);
      }
    }
  }

  lemma EveryRunIsExclusive(s: Sys, es: seq<Event>)
    requires Init(s)
    ensures Exclusive(Run(s, es))
  {
    hide Apply;
    RunInv(s, es);
    InvExclusive(Run(s, es));
  }

  /** A settlement of a SENDING attempt never collides with the checkpoint key or with the unique parent of a
      transition, whatever was committed before. */
  lemma SettlementsNeverCollide(s: Sys, es: seq<Event>, id: Id)
    requires Init(s)
    ensures Apply(Run(s, es), EAck(id)).answer != Err(UniqueConstraint)
    ensures Apply(Run(s, es), ETooLarge(id)).answer != Err(UniqueConstraint)
  {
    RunInv(s, es);
    NoCollision(Run(s, es), id);
  }

  lemma NoCollision(s: Sys, id: Id)
    requires Inv(s)
    ensures SettleAck(s, id).answer != Err(UniqueConstraint) && SettleTooLarge(s, id).answer != Err(UniqueConstraint)
  {
    ChainKeyed(s.db);
    if id in s.db.attempts && s.db.chain.digest.Some? {
      AlwaysAdvances(s.db, AckedCheckpoint(s.db.chain.digest.value.of, s.db.attempts[id]));
      AlwaysAdvances(s.db, ReducedCheckpoint(s.db.chain.digest.value.of, s.db.attempts[id]));
    }
  }

  // ---------------------------------------------------------------- no attempt without a permit

  /** A start that is not refused and not replayed. */
  ghost predicate Starts(s: Sys, e: Event) {
    e.EStart? && Apply(s, e).answer == Ok(false)
  }

  /** Only a fresh start gives a permit to a job that has none, and only a permit lets an attempt begin. */
  lemma StepWithoutPermit(s: Sys, e: Event)
    requires s.permit.None? && !Starts(s, e)
    ensures Apply(s, e).next.permit.None? && (e.EBegin? ==> Apply(s, e).answer.Err?)
  {
  }

  ghost predicate BeginsAt(s: Sys, es: seq<Event>, i: nat)
    requires i < |es|
  {
    es[i].EBegin? && Apply(Run(s, es[..i]), es[i]).answer.Ok?
  }

  ghost predicate StartsAt(s: Sys, es: seq<Event>, i: nat)
    requires i < |es|
  {
    Starts(Run(s, es[..i]), es[i])
  }

  lemma {:induction false} NothingBeginsWithoutPermit(s: Sys, es: seq<Event>)
    requires s.permit.None? && forall i :: 0 <= i < |es| ==> !StartsAt(s, es, i)
    ensures Run(s, es).permit.None? && forall i :: 0 <= i < |es| ==> !BeginsAt(s, es, i)
  {
    hide Apply;
    if es != [] {
      var init, last := es[..|es| - 1], |es| - 1;
      forall i | 0 <= i < |init| ensures !StartsAt(s, init, i) {
        assert init[..i] == es[..i] && !StartsAt(s, es, i);
      }
      NothingBeginsWithoutPermit(s, init);
      assert !StartsAt(s, es, last);
      StepWithoutPermit(Run(s, init), es[last]);
      forall i | 0 <= i < |es| ensures !BeginsAt(s, es, i) {
        if i < last {
          assert init[..i] == es[..i] && !BeginsAt(s, init, i);
        }
      }
    }
  }

  /** An operation that stops the run: a cancellation it accepted, the invalidation of the run's own permit, any
      abort, a crash. */
  ghost predicate Stops(s: Sys, e: Event) {
    || (e.ECancel? && Apply(s, e).answer == Ok(false))
    || (e.EInvalidate? && Apply(s, e).answer == Ok(false) && s.permit == Some(e.permit))
    || e.EAbort? || e.ECrash?
  }

  /** Once a stopping operation has returned, no attempt begins until a new run is started. */
  lemma NothingBeginsAfterStop(s: Sys, e: Event, es: seq<Event>)
    requires Stops(s, e) && forall i :: 0 <= i < |es| ==> !StartsAt(Apply(s, e).next, es, i)
    ensures forall i :: 0 <= i < |es| ==> !BeginsAt(Apply(s, e).next, es, i)
  {
    assert Apply(s, e).next.permit.None?;
    NothingBeginsWithoutPermit(Apply(s, e).next, es);
  }

  // ---------------------------------------------------------------- crash and recovery

  /** The incident a recovery opens for an interrupted attempt: its range, payload and parent checkpoint. */
  predicate Reports(i: Incident, a: Attempt, id: Id) {
    && i.kind == UnknownOutcome && i.status == Open && i.attempt == id
    && i.start == a.start && i.end == a.end && i.payload == a.payload && i.parent == a.parent && i.batch == a.batch
  }

  /** The state after a crash and one recovery pass. */
  ghost function Recovered(s: Sys, incident: Id): Sys {
    Recover(Crash(s), TheOne(Sendings(s.db)), incident).next
  }

  /** Nothing is in flight after a recovery, and no checkpoint moved. */
  ghost predicate AtRest(before: Db, s: Sys) {
    && s.permit.None? && s.db.job.state !in {Preflighting, Staging, Running} && s.db.job.rowState == s.db.job.state
    && Sendings(s.db) == {} && Lives(s.db) == {}
    && s.db.chain == before.chain
  }

  lemma RecoveryRests(s: Sys, incident: Id)
    requires Inv(s) && incident !in s.db.incidents
    ensures AtRest(s.db, Recovered(s, incident))
  {
    hide Chain, Incidents, Recover, LiveRun;
    var after := Recovered(s, incident);
    ChainKeyed(s.db);
    if s.db.job.state == Running {
      RunningHasNoIncident(s.db);
    }
    RecoveredState(s.db, TheOne(Sendings(s.db)), incident);
    RecoverLive(Crash(s), TheOne(Sendings(s.db)), incident);
    RecoverKeeps(Crash(s), TheOne(Sendings(s.db)), incident);
    LiveRows(after.db);
  }

  lemma RecoveredState(db: Db, sending: Option<Id>, incident: Id)
    requires (sending.Some? ==> sending.value in db.attempts) && db.job.rowState == db.job.state
    requires db.job.state == Running ==> incident !in db.incidents && Opens(db) == {}
    ensures var after := Recover(Sys(db, None), sending, incident).next;
            && after.permit.None? && after.db.job.state !in {Preflighting, Staging, Running}
            && after.db.job.rowState == after.db.job.state
  {
    hide Opens, IncidentFor;
  }

  lemma RunningHasNoIncident(db: Db)
    requires Incidents(db) && db.job.state == Running
    ensures Opens(db) == {}
  {
  }

  /** The interrupted attempt became one open incident and ended as unknown; nothing else was touched. */
  ghost predicate Reported(before: Db, after: Db, a: Id, incident: Id) {
    && a in before.attempts && after.attempts == before.attempts[a := before.attempts[a].(state := EndedUnknown)]
    && incident in after.incidents && after.incidents == before.incidents[incident := after.incidents[incident]]
    && Reports(after.incidents[incident], before.attempts[a], a) && Opens(after) == {incident}
  }

  /** The interrupted attempt, if there was one, becomes exactly one open incident; otherwise none is opened. */
  lemma RecoveryReports(s: Sys, incident: Id)
    requires Inv(s) && incident !in s.db.incidents
    ensures var after := Recovered(s, incident).db;
            && (forall a :: a in Sendings(s.db) ==> Reported(s.db, after, a, incident))
            && (Sendings(s.db) == {} ==> after.incidents == s.db.incidents && after.attempts == s.db.attempts)
  {
    hide Chain, Incidents, PermitAgrees;
    LiveRows(s.db);
    var after := Recovered(s, incident).db;
    forall a | a in Sendings(s.db) ensures Reported(s.db, after, a, incident) {
      assert TheOne(Sendings(s.db)) == Some(a);
      RunningHasNoIncident(s.db);
      assert after.incidents == s.db.incidents[incident := IncidentFor(s.db.attempts[a], a, UnknownOutcome)];
      assert Opens(after) == {incident};
    }
  }

  /** A second recovery finds nothing to do, whatever incident id it would have used. */
  lemma RecoveryIsIdempotent(s: Sys, incident: Id, again: Id)
    requires Inv(s) && incident !in s.db.incidents
    ensures Recovered(Recovered(s, incident), again) == Recovered(s, incident)
  {
    RecoveryRests(s, incident);
  }

  /** After every run, whatever was in flight. */
  lemma EveryCrashRecovers(s: Sys, es: seq<Event>, incident: Id, again: Id)
    requires Init(s) && incident !in Run(s, es).db.incidents
    ensures var crashed := Run(s, es);
            && AtRest(crashed.db, Recovered(crashed, incident))
            && Recovered(Recovered(crashed, incident), again) == Recovered(crashed, incident)
  {
    hide Apply;
    RunInv(s, es);
    RecoveryRests(Run(s, es), incident);
    RecoveryIsIdempotent(Run(s, es), incident, again);
  }

  // ---------------------------------------------------------------- terminal jobs stay as they are

  /** Terminal, or a terminal job on its way through the two cleanup phases. */
  predicate Done(db: Db) {
    IsTerminal(db.job.state) || (db.job.state == Cleaning && IsTerminal(db.job.transferState))
  }

  /** What a finished job has to show for: its chain, its attempts, its segments and its outcome. */
  predicate SameOutcome(before: Sys, after: Sys) {
    && after.permit.None? && after.db.chain == before.db.chain && after.db.attempts == before.db.attempts
    && after.db.segments == before.db.segments && after.db.incidents == before.db.incidents
    && Outcome(after.db) == Outcome(before.db)
  }

  function Outcome(db: Db): JobState {
    if db.job.state == Cleaning then db.job.transferState else db.job.state
  }

  lemma StepDone(s: Sys, e: Event)
    requires Inv(s) && Done(s.db)
    ensures Done(Apply(s, e).next.db) && SameOutcome(s, Apply(s, e).next)
  {
    if OfRun(e) { StepDoneOfRun(s, e); } else { StepDoneOfControl(s, e); }
  }

  lemma StepDoneOfRun(s: Sys, e: Event)
    requires Inv(s) && Done(s.db) && OfRun(e)
    ensures Apply(s, e).next.db == s.db && Apply(s, e).next.permit.None?
  {
  }

  lemma CancelDone(s: Sys, cmd: Control, raced: bool)
    requires Inv(s) && Done(s.db)
    ensures var next := CancelImport(s, cmd, TheOne(Lives(s.db)), raced).next; Done(next.db) && SameOutcome(s, next)
  {
    hide Chain, Incidents, Lookup, LiveRun;
    LiveRows(s.db);
  }

  lemma CleanupDone(s: Sys, cmd: Control)
    requires Inv(s) && Done(s.db)
    ensures var next := BeginCleanup(s, cmd).next; Done(next.db) && SameOutcome(s, next)
  {
    hide Chain, Incidents, LiveRun, Lookup;
  }

  lemma CompleteDone(s: Sys, scope: string, digest: string)
    requires Inv(s) && Done(s.db)
    ensures var next := CompleteCleanup(s, scope, digest).next; Done(next.db) && SameOutcome(s, next)
  {
    hide Chain, Incidents, LiveRun, Lookup;
  }

  lemma AbortDone(s: Sys, cmd: Control, incident: Id, parent: Digest)
    requires Inv(s) && Done(s.db)
    ensures Abort(s, cmd, incident, parent).next == s
  {
  }

  lemma StepDoneOfControl(s: Sys, e: Event)
    requires Inv(s) && Done(s.db) && !OfRun(e)
    ensures Done(Apply(s, e).next.db) && SameOutcome(s, Apply(s, e).next)
  {
    match e
    case EPreflight(points, bytes, identity) =>
    case EAbort(cmd, incident, parent) => AbortDone(s, cmd, incident, parent);
    case EInvalidate(permit, reason) =>
    case ECancel(cmd, raced) => CancelDone(s, cmd, raced);
    case EBeginCleanup(cmd) => CleanupDone(s, cmd);
    case ECompleteCleanup(scope, digest) => CompleteDone(s, scope, digest);
    case ECrash =>
    case ERecover(incident) =>
  }

  /** A job that succeeded, failed, was cancelled or aborted never writes again: whatever is asked of it later, its
      chain, attempts, segments, incidents and outcome stay. */
  lemma {:induction false} DoneIsFinal(s: Sys, before: seq<Event>, later: seq<Event>)
    requires Init(s) && Done(Run(s, before).db)
    ensures Done(Run(s, before + later).db) && SameOutcome(Run(s, before), Run(s, before + later))
  {
    hide Apply, Init;
    if later == [] {
      assert before + later == before;
      RunInv(s, before);
    } else {
      var init, e := later[..|later| - 1], later[|later| - 1];
      DoneIsFinal(s, before, init);
      var all := before + later;
      assert all[..|all| - 1] == before + init && all[|all| - 1] == e;
      RunInv(s, before + init);
      StepDone(Run(s, before + init), e);
    }
  }
}
