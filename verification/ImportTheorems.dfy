/** What holds of every run of the import protocol. */
module ImportTheorems {
  import opened Bytes
  import opened Wrappers
  import opened Import
  import opened ImportInvariants
  import opened ImportRuns
  import StagedBatch

  // ---------------------------------------------------------------- one chain from offset zero

  ghost predicate FromZero(db: Db) {
    db.chain.digest.Some? ==> Genesis(db).of.offset == 0 && Genesis(db).of.sequence == 0 && Genesis(db).of.parent.None?
  }

  lemma StepFromZero(s: Sys, e: Event)
    requires Inv(s) && FromZero(s.db)
    ensures FromZero(Apply(s, e).next.db)
  {
    hide Live, Incidents, PermitAgrees;
    if e.EPreflight? {
      PreflightChain(s, GenesisCheckpoint(e.maxPoints, e.maxBytes, e.identity));
    } else if Commits(s, e).None? {
      StepKeeps(s, e);
    } else {
      StepCommits(s, e);
    }
  }

  lemma {:induction false} RunFromZero(s: Sys, es: seq<Event>)
    requires Init(s)
    ensures FromZero(Run(s, es).db)
  {
    hide Apply;
    if es != [] {
      RunFromZero(s, es[..|es| - 1]);
      RunInv(s, es[..|es| - 1]);
      StepFromZero(Run(s, es[..|es| - 1]), es[|es| - 1]);
    }
  }

  /** The i-th transition starts where the one before it ended. */
  predicate Follows(ts: seq<Transition>, genesis: Digest, i: nat)
    requires i < |ts|
  {
    && ts[i].parent == (if i == 0 then genesis else ts[i - 1].child)
    && ts[i].child.of.parent == Some(ts[i].parent)
    && ts[i].sequence == ts[i].child.of.sequence == genesis.of.sequence + i + 1
  }

  lemma {:induction false} LinkedIsOneChain(ts: seq<Transition>, genesis: Digest, head: Digest, i: nat)
    requires Linked(ts, genesis, head) && i < |ts|
    ensures Follows(ts, genesis, i)
    ensures head == ts[|ts| - 1].child && head.of.sequence == genesis.of.sequence + |ts|
  {
    var last := |ts| - 1;
    if last > 0 {
      LinkedIsOneChain(ts[..last], genesis, ts[last].parent, if i < last then i else last - 1);
    } else {
      assert ts[..last] == [];
    }
  }

  /** One hash-linked path to the current checkpoint, numbered without a gap from a parentless checkpoint 0. */
  ghost predicate OneChain(chain: Lineage) {
    chain.transitions != [] ==>
      && chain.digest == Some(chain.transitions[|chain.transitions| - 1].child)
      && var genesis := chain.transitions[0].parent;
         genesis.of.sequence == 0 && genesis.of.parent.None?
         && forall i :: 0 <= i < |chain.transitions| ==> Follows(chain.transitions, genesis, i)
  }

  lemma InvIsOneChain(db: Db)
    requires Chain(db) && FromZero(db)
    ensures OneChain(db.chain)
  {
    forall i | 0 <= i < |db.chain.transitions|
      ensures Follows(db.chain.transitions, Genesis(db), i)
              && db.chain.digest.value == db.chain.transitions[|db.chain.transitions| - 1].child {
      LinkedIsOneChain(db.chain.transitions, Genesis(db), db.chain.digest.value, i);
    }
    if db.chain.transitions != [] {
      LinkedIsOneChain(db.chain.transitions, Genesis(db), db.chain.digest.value, 0);
    }
  }

  lemma CheckpointsAreOneChain(s: Sys, es: seq<Event>)
    requires Init(s)
    ensures OneChain(Run(s, es).db.chain)
  {
    hide Apply;
    RunInv(s, es);
    RunFromZero(s, es);
    InvIsOneChain(Run(s, es).db);
  }

  // ---------------------------------------------------------------- ACKED attempts tile the staging file

  /** The attempts of the ACK transitions in commit order. */
  function Acks(ts: seq<Transition>): seq<Id> {
    if ts == [] then []
    else Acks(ts[..|ts| - 1]) + if ts[|ts| - 1].cause == Ack then [ts[|ts| - 1].attempt] else []
  }

  /** The ranges follow one another from `from` to `to`: none is empty, none overlaps, nothing is left out. */
  predicate Tiles(attempts: map<Id, Attempt>, ids: seq<Id>, from: nat, to: nat)
    requires forall k :: 0 <= k < |ids| ==> ids[k] in attempts
  {
    && (ids == [] ==> from == to)
    && (ids != [] ==> attempts[ids[0]].start == from && attempts[ids[|ids| - 1]].end == to)
    && (forall k :: 0 <= k < |ids| ==> attempts[ids[k]].start < attempts[ids[k]].end)
    && (forall k :: 0 < k < |ids| ==> attempts[ids[k]].start == attempts[ids[k - 1]].end)
  }

  lemma {:induction false} AcksAreRows(db: Db, ts: seq<Transition>, k: nat)
    requires k < |Acks(ts)| && forall i :: 0 <= i < |ts| ==> Settles(db, ts[i])
    ensures Acks(ts)[k] in db.attempts && db.attempts[Acks(ts)[k]].state == Acked
  {
    var last := |ts| - 1;
    if k < |Acks(ts[..last])| {
      AcksAreRows(db, ts[..last], k);
    } else {
      assert Settles(db, ts[last]);
    }
  }

  lemma {:induction false} AcksFindAll(ts: seq<Transition>, i: nat)
    requires i < |ts| && ts[i].cause == Ack
    ensures ts[i].attempt in Acks(ts)
  {
    if i < |ts| - 1 {
      AcksFindAll(ts[..|ts| - 1], i);
    }
  }

  lemma TilesGrow(attempts: map<Id, Attempt>, ids: seq<Id>, from: nat, middle: nat, id: Id)
    requires (forall k :: 0 <= k < |ids| ==> ids[k] in attempts) && Tiles(attempts, ids, from, middle)
    requires id in attempts && attempts[id].start == middle < attempts[id].end
    ensures var more := ids + [id];
            (forall k :: 0 <= k < |more| ==> more[k] in attempts) && Tiles(attempts, more, from, attempts[id].end)
  {
  }

  lemma {:induction false} LinkedTiles(db: Db, ts: seq<Transition>, genesis: Digest, head: Digest)
    requires Linked(ts, genesis, head) && forall i :: 0 <= i < |ts| ==> Settles(db, ts[i])
    ensures forall k :: 0 <= k < |Acks(ts)| ==> Acks(ts)[k] in db.attempts
    ensures Tiles(db.attempts, Acks(ts), genesis.of.offset, head.of.offset)
  {
    if ts != [] {
      var last, init := ts[|ts| - 1], ts[..|ts| - 1];
      LinkedTiles(db, init, genesis, last.parent);
      assert Settles(db, last);
      if last.cause == Ack {
        TilesGrow(db.attempts, Acks(init), genesis.of.offset, last.parent.of.offset, last.attempt);
      }
    }
  }

  lemma {:induction false} TilesIncrease(attempts: map<Id, Attempt>, ids: seq<Id>, from: nat, to: nat, i: nat, j: nat)
    requires (forall k :: 0 <= k < |ids| ==> ids[k] in attempts) && Tiles(attempts, ids, from, to)
    requires i < j < |ids|
    ensures attempts[ids[i]].end <= attempts[ids[j]].start
  {
    if i < j - 1 {
      TilesIncrease(attempts, ids, from, to, i, j - 1);
    }
  }

  /** On every run the ACKED attempts, in commit order and each once, tile [0, logical offset). */
  lemma AckedAttemptsTile(s: Sys, es: seq<Event>)
    requires Init(s) && Run(s, es).db.chain.digest.Some?
    ensures var db := Run(s, es).db;
            var ids := Acks(db.chain.transitions);
            && (forall k :: 0 <= k < |ids| ==> ids[k] in db.attempts)
            && Tiles(db.attempts, ids, 0, db.chain.digest.value.of.offset)
            && (forall a :: a in ids <==> a in db.attempts && db.attempts[a].state == Acked)
            && (forall i, j :: 0 <= i < j < |ids| ==> ids[i] != ids[j])
  {
    hide Apply;
    RunInv(s, es);
    RunFromZero(s, es);
    var db := Run(s, es).db;
    var ts := db.chain.transitions;
    var ids, head := Acks(ts), db.chain.digest.value;
    LinkedTiles(db, ts, Genesis(db), head);
    forall i, j | 0 <= i < j < |ids| ensures ids[i] != ids[j] {
      TilesIncrease(db.attempts, ids, 0, head.of.offset, i, j);
    }
    forall a | a in ids ensures a in db.attempts && db.attempts[a].state == Acked {
      var k :| 0 <= k < |ids| && ids[k] == a;
      AcksAreRows(db, ts, k);
    }
    forall a | a in db.attempts && db.attempts[a].state == Acked ensures a in ids {
      assert AckRecorded(db, a);
      var i :| 0 <= i < |ts| && ts[i].attempt == a && ts[i].cause == Ack;
      AcksFindAll(ts, i);
    }
  }

  // ---------------------------------------------------------------- the payloads are the file

  /** Every attempt begins with a batch that readVerifiedBatch accepted on this staging file. */
  ghost predicate FromStaging(staging: seq<Byte>, e: Event) {
    e.EBegin? ==> exists q, b :: BatchOf(staging, q, b, e.begin)
  }

  ghost predicate BatchOf(staging: seq<Byte>, q: StagedBatch.Request, b: StagedBatch.Batch, req: AttemptRequest) {
    && StagedBatch.Accepted(staging, StagedBatch.Split(staging), q, b) && b.points > 0
    && req.start == b.start && req.end == b.end && req.payload == Sha256(b.payload)
  }

  ghost predicate AllFromStaging(staging: seq<Byte>, es: seq<Event>) {
    forall i :: 0 <= i < |es| ==> FromStaging(staging, es[i])
  }

  /** The attempt's payload and one newline are exactly its range of the file. */
  predicate Covers(staging: seq<Byte>, a: Attempt) {
    a.start < a.end <= |staging| && a.payload.of + [StagedBatch.NEWLINE] == staging[a.start..a.end]
  }

  ghost predicate AllCover(staging: seq<Byte>, db: Db) {
    forall a :: a in db.attempts ==> Covers(staging, db.attempts[a])
  }

  lemma StepCovers(s: Sys, e: Event, staging: seq<Byte>)
    requires Inv(s) && AllCover(staging, s.db) && FromStaging(staging, e)
    ensures AllCover(staging, Apply(s, e).next.db)
  {
    var after := Apply(s, e).next.db;
    if e.EPreflight? {
      PreflightChain(s, GenesisCheckpoint(e.maxPoints, e.maxBytes, e.identity));
    } else if Commits(s, e).Some? {
      StepCommits(s, e);
      AdvancedCovers(s.db, after, Commits(s, e).value.0, Commits(s, e).value.1, Commits(s, e).value.2, staging);
    } else {
      StepKeeps(s, e);
      UncommittedCovers(s, e, after, staging);
    }
  }

  lemma AdvancedCovers(db: Db, after: Db, id: Id, next: Checkpoint, cause: Cause, staging: seq<Byte>)
    requires AllCover(staging, db) && Advanced(db, after, id, next, cause)
    ensures AllCover(staging, after)
  {
    forall a | a in after.attempts ensures Covers(staging, after.attempts[a]) {
      assert Covers(staging, db.attempts[a]);
    }
  }

  lemma UncommittedCovers(s: Sys, e: Event, after: Db, staging: seq<Byte>)
    requires AllCover(staging, s.db) && FromStaging(staging, e) && Uncommitted(s, e, after)
    ensures AllCover(staging, after)
  {
    forall a | a in after.attempts ensures Covers(staging, after.attempts[a]) {
      if a in s.db.attempts {
        assert Covers(staging, s.db.attempts[a]);
      } else {
        var q, b :| BatchOf(staging, q, b, e.begin);
        StagedBatch.BatchCoversRange(staging, StagedBatch.Split(staging), q, b);
      }
    }
  }

  lemma {:induction false} RunCovers(s: Sys, es: seq<Event>, staging: seq<Byte>)
    requires Init(s) && AllFromStaging(staging, es)
    ensures AllCover(staging, Run(s, es).db)
  {
    hide Apply;
    if es != [] {
      var init := es[..|es| - 1];
      forall i | 0 <= i < |init| ensures FromStaging(staging, init[i]) { assert FromStaging(staging, es[i]); }
      RunCovers(s, init, staging);
      RunInv(s, init);
      StepCovers(Run(s, init), es[|es| - 1], staging);
    }
  }

  /** The payloads of the attempts one after another, each followed by a newline. */
  function Sent(attempts: map<Id, Attempt>, ids: seq<Id>): seq<Byte>
    requires forall k :: 0 <= k < |ids| ==> ids[k] in attempts
  {
    if ids == [] then []
    else Sent(attempts, ids[..|ids| - 1]) + attempts[ids[|ids| - 1]].payload.of + [StagedBatch.NEWLINE]
  }

  lemma {:induction false} TilesJoin(attempts: map<Id, Attempt>, ids: seq<Id>, to: nat, staging: seq<Byte>)
    requires (forall k :: 0 <= k < |ids| ==> ids[k] in attempts) && Tiles(attempts, ids, 0, to)
    requires forall k :: 0 <= k < |ids| ==> Covers(staging, attempts[ids[k]])
    ensures to <= |staging| && Sent(attempts, ids) == staging[..to]
  {
    if ids != [] {
      var init, last := ids[..|ids| - 1], attempts[ids[|ids| - 1]];
      assert forall k :: 0 <= k < |init| ==> init[k] == ids[k];
      TilesJoin(attempts, init, last.start, staging);
      assert Covers(staging, last);
      assert staging[..last.start] + staging[last.start..to] == staging[..to];
      assert Sent(attempts, ids) == staging[..last.start] + (last.payload.of + [StagedBatch.NEWLINE]);
    }
  }

  /** On every run the ACKED payloads, each with its newline, are exactly the settled prefix of the staging file. */
  lemma AckedPayloadsArePrefix(s: Sys, es: seq<Event>, staging: seq<Byte>)
    requires Init(s) && AllFromStaging(staging, es) && Run(s, es).db.chain.digest.Some?
    ensures var db := Run(s, es).db;
            var ids := Acks(db.chain.transitions);
            && db.chain.digest.value.of.offset <= |staging|
            && (forall k :: 0 <= k < |ids| ==> ids[k] in db.attempts)
            && Sent(db.attempts, ids) == staging[..db.chain.digest.value.of.offset]
  {
    hide Apply;
    AckedAttemptsTile(s, es);
    RunCovers(s, es, staging);
    var db := Run(s, es).db;
    TilesJoin(db.attempts, Acks(db.chain.transitions), db.chain.digest.value.of.offset, staging);
  }

  // ---------------------------------------------------------------- SUCCEEDED means everything was acknowledged

  ghost predicate AtEnd(db: Db, size: nat) {
    HasSucceeded(db) ==> db.chain.digest.Some? && db.chain.digest.value.of.offset == size
  }

  lemma StepAtEnd(s: Sys, e: Event, size: nat)
    requires Inv(s) && AtEnd(s.db, size) && (e.EFinish? ==> e.size == size)
    ensures AtEnd(Apply(s, e).next.db, size)
  {
    if e.EPreflight? {
      PreflightChain(s, GenesisCheckpoint(e.maxPoints, e.maxBytes, e.identity));
    } else if Commits(s, e).Some? {
      StepCommits(s, e);
    } else {
      StepKeeps(s, e);
    }
  }

  lemma {:induction false} RunAtEnd(s: Sys, es: seq<Event>, size: nat)
    requires Init(s) && forall i :: 0 <= i < |es| && es[i].EFinish? ==> es[i].size == size
    ensures AtEnd(Run(s, es).db, size)
  {
    hide Apply;
    if es != [] {
      var init, e := es[..|es| - 1], es[|es| - 1];
      RunAtEnd(s, init, size);
      RunInv(s, init);
      StepAtEnd(Run(s, init), e, size);
    }
  }

  /** A job is SUCCEEDED only when the whole staging file was acknowledged, in order, each byte once. */
  lemma SucceededDeliveredAll(s: Sys, es: seq<Event>, staging: seq<Byte>)
    requires Init(s) && AllFromStaging(staging, es) && HasSucceeded(Run(s, es).db)
    requires forall i :: 0 <= i < |es| && es[i].EFinish? ==> es[i].size == |staging|
    ensures var db := Run(s, es).db;
            var ids := Acks(db.chain.transitions);
            (forall k :: 0 <= k < |ids| ==> ids[k] in db.attempts) && Sent(db.attempts, ids) == staging
  {
    hide Apply;
    RunAtEnd(s, es, |staging|);
    AckedPayloadsArePrefix(s, es, staging);
  }
}
