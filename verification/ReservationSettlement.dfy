/** Settling and aborting: bytes are conserved, and a writer that reserves before it writes is never refused. */
module ReservationSettlement {
  import opened Wrappers
  import opened ArtifactReservation
  import opened ReservationSafety

  // ---------------------------------------------------------------- the settle loop

  predicate Whole(extents: map<nat, Extent>, n: nat) {
    forall i :: 0 <= i < n ==> i in extents && extents[i].bytes == EXTENT
  }

  function Share(extents: map<nat, Extent>, k: nat, actual: nat): nat
    requires k in extents
  {
    Min(extents[k].bytes, Remaining(extents, k, actual))
  }

  lemma {:induction false} RemainingIs(extents: map<nat, Extent>, k: nat, actual: nat)
    requires Whole(extents, k)
    ensures Remaining(extents, k, actual) == if actual < EXTENT * k then 0 else actual - EXTENT * k
  {
    if k > 0 {
      RemainingIs(extents, k - 1, actual);
    }
  }

  lemma RemainingSteps(extents: map<nat, Extent>, k: nat, actual: nat)
    requires k in extents
    ensures Remaining(extents, k + 1, actual) == Remaining(extents, k, actual) - Share(extents, k, actual)
    ensures Remaining(extents, 0, actual) == actual
  {
  }

  lemma SettledRowsStep(rows: map<Rid, Amount>, extents: map<nat, Extent>, k: nat, actual: nat)
    requires k in extents
    ensures SettledRows(rows, extents, k + 1, actual)
            == SettledRows(rows, extents, k, actual)[extents[k].reservation := Amount(Share(extents, k, actual), Share(extents, k, actual))]
  {
  }

  lemma SettledRowsStart(rows: map<Rid, Amount>, extents: map<nat, Extent>, actual: nat)
    ensures SettledRows(rows, extents, 0, actual) == rows
  {
  }

  /** The first k extents have distinct rows. */
  predicate Distinct(extents: map<nat, Extent>, k: nat) {
    forall i, j :: 0 <= i < j < k && i in extents && j in extents ==> extents[i].reservation != extents[j].reservation
  }

  predicate SettledAt(rows: map<Rid, Amount>, extents: map<nat, Extent>, i: nat, actual: nat) {
    && i in extents && extents[i].reservation in rows
    && rows[extents[i].reservation] == Amount(Share(extents, i, actual), Share(extents, i, actual))
  }

  /** The row is behind one of the first k extents. */
  predicate Among(extents: map<nat, Extent>, k: nat, id: Rid) {
    exists i :: 0 <= i < k && i in extents && extents[i].reservation == id
  }

  /** After k rounds the first k rows hold their shares, reserved and consumed alike, and no other row was written. */
  lemma {:induction false} SettledRowsAre(rows: map<Rid, Amount>, extents: map<nat, Extent>, k: nat, actual: nat)
    requires Whole(extents, k) && Distinct(extents, k) && forall i :: 0 <= i < k ==> extents[i].reservation in rows
    ensures var after := SettledRows(rows, extents, k, actual);
            && after.Keys == rows.Keys
            && (forall i :: 0 <= i < k ==> SettledAt(after, extents, i, actual))
            && (forall id :: id in rows && !Among(extents, k, id) ==> after[id] == rows[id])
  {
    hide SettledRows, Share;
    if k == 0 {
      SettledRowsStart(rows, extents, actual);
    } else {
      SettledRowsAre(rows, extents, k - 1, actual);
      SettledRowsStep(rows, extents, k - 1, actual);
      var before, after := SettledRows(rows, extents, k - 1, actual), SettledRows(rows, extents, k, actual);
      forall i | 0 <= i < k ensures SettledAt(after, extents, i, actual) {
        if i < k - 1 {
          assert SettledAt(before, extents, i, actual);
        }
      }
      forall id | id in rows && !Among(extents, k, id) ensures after[id] == rows[id] {
        assert !Among(extents, k - 1, id) && extents[k - 1].reservation != id;
      }
    }
  }

  lemma {:induction false} SharesAddUp(rows: map<Rid, Amount>, extents: map<nat, Extent>, n: nat, actual: nat)
    requires forall i :: 0 <= i < n ==> SettledAt(rows, extents, i, actual)
    ensures Consumed(rows, extents, n) + Remaining(extents, n, actual) == actual
  {
    hide Share, Remaining;
    if n > 0 {
      assert SettledAt(rows, extents, n - 1, actual);
      SharesAddUp(rows, extents, n - 1, actual);
      RemainingSteps(extents, n - 1, actual);
    } else {
      RemainingStarts(extents, actual);
    }
  }

  lemma RemainingStarts(extents: map<nat, Extent>, actual: nat)
    ensures Remaining(extents, 0, actual) == actual
  {
  }

  /** Replacing one row moves the outstanding bytes by the difference. */
  lemma OutstandingUpdates(rows: map<Rid, Amount>, id: Rid, amount: Amount)
    requires id in rows
    ensures Outstanding(rows[id := amount]) == Outstanding(rows) - (rows[id].reserved - rows[id].consumed) + amount.reserved - amount.consumed
  {
    var after := rows[id := amount];
    assert after.Keys == rows.Keys;
    OutstandingSplits(rows, rows.Keys, id);
    OutstandingSplits(after, after.Keys, id);
    OutstandingSame(rows, after, rows.Keys - {id});
  }

  /** Settling k untouched extents takes exactly their bytes off what is outstanding. */
  lemma {:induction false} SettlingFrees(rows: map<Rid, Amount>, extents: map<nat, Extent>, k: nat, actual: nat)
    requires Whole(extents, k) && Distinct(extents, k)
    requires forall i :: 0 <= i < k ==> extents[i].reservation in rows && rows[extents[i].reservation] == Amount(EXTENT, 0)
    ensures Outstanding(SettledRows(rows, extents, k, actual)) == Outstanding(rows) - EXTENT * k
  {
    hide SettledRows, Share, Outstanding;
    if k == 0 {
      SettledRowsStart(rows, extents, actual);
    } else {
      SettlingFrees(rows, extents, k - 1, actual);
      SettledRowsAre(rows, extents, k - 1, actual);
      SettledRowsStep(rows, extents, k - 1, actual);
      var share := Share(extents, k - 1, actual);
      assert !Among(extents, k - 1, extents[k - 1].reservation);
      OutstandingUpdates(SettledRows(rows, extents, k - 1, actual), extents[k - 1].reservation, Amount(share, share));
    }
  }

  // ---------------------------------------------------------------- one ledger among the others

  predicate SameRow(rows: map<Rid, Amount>, rows': map<Rid, Amount>, id: Rid) {
    id in rows && id in rows' && rows'[id] == rows[id]
  }

  lemma OwnRowsKeep(rows: map<Rid, Amount>, ledger: Ledger, rows': map<Rid, Amount>)
    requires LedgerInv(rows, ledger)
    requires forall i :: i in ledger.extents ==> SameRow(rows, rows', ledger.extents[i].reservation)
    ensures LedgerInv(rows', ledger)
  {
    forall i | i in ledger.extents ensures ExtentInv(rows', ledger, i) {
      assert ExtentInv(rows, ledger, i);
    }
    SameConsumed(rows, ledger.extents, |ledger.extents|, rows');
  }

  /** What an active ledger of a consistent database looks like. */
  lemma ActiveLedger(db: Db, a: Art)
    requires DbInv(db) && a in db.ledgers && db.ledgers[a].state == Active
    ensures var ledger := db.ledgers[a]; var n := |ledger.extents|;
            && Contiguous(ledger.extents) && Whole(ledger.extents, n) && Distinct(ledger.extents, n) && ledger.reserved == EXTENT * n
            && (forall i :: 0 <= i < n ==> ledger.extents[i].reservation in db.rows && db.rows[ledger.extents[i].reservation] == Amount(EXTENT, 0))
  {
    var ledger := db.ledgers[a];
    forall i | 0 <= i < |ledger.extents|
      ensures i in ledger.extents && ledger.extents[i].bytes == EXTENT && ledger.extents[i].reservation in db.rows
              && db.rows[ledger.extents[i].reservation] == Amount(EXTENT, 0) {
      assert ExtentInv(db.rows, ledger, i);
    }
    forall i, j | 0 <= i < j < |ledger.extents| && i in ledger.extents && j in ledger.extents
      ensures ledger.extents[i].reservation != ledger.extents[j].reservation {
      assert Apart(db.ledgers, a, i, a, j);
    }
  }

  /** A row behind another artifact's extent is not behind one of this artifact. */
  lemma OthersAreApart(db: Db, a: Art, b: Art, j: nat)
    requires DbInv(db) && a in db.ledgers && b in db.ledgers && a != b && j in db.ledgers[b].extents
    ensures forall i :: i in db.ledgers[a].extents ==> db.ledgers[a].extents[i].reservation != db.ledgers[b].extents[j].reservation
    ensures db.ledgers[b].extents[j].reservation in db.rows
  {
    assert ExtentInv(db.rows, db.ledgers[b], j);
    forall i | i in db.ledgers[a].extents ensures db.ledgers[a].extents[i].reservation != db.ledgers[b].extents[j].reservation {
      assert Apart(db.ledgers, a, i, b, j);
    }
  }

  /** Rows that change only behind artifact a leave every other ledger in order. */
  lemma OtherLedgersUnmoved(db: Db, a: Art, rows': map<Rid, Amount>)
    requires DbInv(db) && a in db.ledgers
    requires forall id :: id in db.rows && !Holds(db.ledgers[a], id) ==> id in rows' && rows'[id] == db.rows[id]
    ensures forall b :: b in db.ledgers && b != a ==> LedgerInv(rows', db.ledgers[b])
  {
    hide LedgerInv;
    forall b | b in db.ledgers && b != a ensures LedgerInv(rows', db.ledgers[b]) {
      forall j | j in db.ledgers[b].extents
        ensures SameRow(db.rows, rows', db.ledgers[b].extents[j].reservation) {
        OthersAreApart(db, a, b, j);
      }
      OwnRowsKeep(db.rows, db.ledgers[b], rows');
    }
  }

  // ---------------------------------------------------------------- settle

  predicate Settles(db: Db, a: Art, actual: nat) {
    && a in db.fragments && db.fragments[a] == Complete(actual) && a in db.ledgers && db.ledgers[a].state == Active
    && db.ledgers[a].extents != map[] && actual <= db.ledgers[a].reserved
  }

  /** On a consistent database an active ledger settles exactly when it has extents and they cover the actual size. */
  lemma SettleAcceptsExactly(db: Db, a: Art, actual: nat)
    requires DbInv(db) && a in db.ledgers && db.ledgers[a].state == Active
    ensures Settle(db, a, actual).1.None? <==> Settles(db, a, actual)
  {
    var ledger := db.ledgers[a];
    ActiveLedger(db, a);
    LedgersAreReadable(db.rows, ledger);
    hide Readable, Contiguous, LedgerInv;
    RemainingIs(ledger.extents, |ledger.extents|, actual);
    NoExtents(ledger.extents);
  }

  lemma NoExtents(extents: map<nat, Extent>)
    ensures |extents| == 0 <==> extents == map[]
  {
  }

  function SettledLedger(ledger: Ledger, actual: nat): Ledger {
    ledger.(state := Settled, settled := actual)
  }

  /** Row by row reserved equals consumed, they sum to the actual size, and no other row is touched. */
  lemma SettledLedgerInv(db: Db, a: Art, actual: nat)
    requires DbInv(db) && a in db.ledgers && db.ledgers[a].state == Active && actual <= db.ledgers[a].reserved
    ensures var ledger := db.ledgers[a]; var rows := SettledRows(db.rows, ledger.extents, |ledger.extents|, actual);
            && LedgerInv(rows, SettledLedger(ledger, actual)) && rows.Keys == db.rows.Keys
            && (forall id :: id in db.rows && !Holds(ledger, id) ==> rows[id] == db.rows[id])
            && (forall id :: id in rows ==> rows[id].consumed <= rows[id].reserved)
  {
    var ledger := db.ledgers[a];
    var n := |ledger.extents|;
    var rows := SettledRows(db.rows, ledger.extents, n, actual);
    ActiveLedger(db, a);
    SettledRowsAre(db.rows, ledger.extents, n, actual);
    SharesAddUp(rows, ledger.extents, n, actual);
    RemainingIs(ledger.extents, n, actual);
    RowsInOrder(db);
    hide DbInv, SettledRows, Share, Remaining, Consumed;
    forall i | i in ledger.extents ensures ExtentInv(rows, SettledLedger(ledger, actual), i) {
      assert SettledAt(rows, ledger.extents, i, actual);
    }
    forall id | id in rows ensures rows[id].consumed <= rows[id].reserved {
      if Among(ledger.extents, n, id) {
        var i :| 0 <= i < n && i in ledger.extents && ledger.extents[i].reservation == id;
        assert SettledAt(rows, ledger.extents, i, actual);
      }
    }
  }

  lemma RowsInOrder(db: Db)
    requires DbInv(db)
    ensures forall id :: id in db.rows ==> db.rows[id].consumed <= db.rows[id].reserved
  {
  }

  /** A successful settle keeps the database consistent and frees exactly the reserved bytes. */
  lemma SettleKeeps(db: Db, a: Art, actual: nat)
    requires DbInv(db)
    ensures var (after, error) := Settle(db, a, actual);
            DbInv(after) && (error.Some? ==> after == db)
  {
    hide Readable, DbInv;
    var (after, error) := Settle(db, a, actual);
    if after != db {
      SettledDbInv(db, a, actual);
    }
  }

  lemma SettledDbInv(db: Db, a: Art, actual: nat)
    requires DbInv(db) && a in db.ledgers && db.ledgers[a].state == Active && actual <= db.ledgers[a].reserved
    ensures var ledger := db.ledgers[a];
            DbInv(db.(rows := SettledRows(db.rows, ledger.extents, |ledger.extents|, actual),
                      ledgers := db.ledgers[a := SettledLedger(ledger, actual)]))
  {
    hide LedgerInv, AllApart, SettledRows;
    var ledger := db.ledgers[a];
    var rows := SettledRows(db.rows, ledger.extents, |ledger.extents|, actual);
    var after := db.(rows := rows, ledgers := db.ledgers[a := SettledLedger(ledger, actual)]);
    SettledLedgerInv(db, a, actual);
    OtherLedgersUnmoved(db, a, rows);
    ApartSame(db.ledgers, a, SettledLedger(ledger, actual));
    if InitialIsFree(after) {
      UnboundBy(db.ledgers, a, db.initial.value);
    }
  }

  lemma UnboundBy(ledgers: map<Art, Ledger>, a: Art, id: Rid)
    requires a in ledgers && !Bound(ledgers, id)
    ensures !Holds(ledgers[a], id)
  {
  }

  // ---------------------------------------------------------------- abort

  lemma OutstandingRemoves(rows: map<Rid, Amount>, id: Rid)
    requires id in rows
    ensures Outstanding(rows - {id}) == Outstanding(rows) - (rows[id].reserved - rows[id].consumed)
  {
    assert (rows - {id})[id := rows[id]] == rows;
    OutstandingAdds(rows - {id}, id, rows[id]);
  }

  function RowsTo(extents: map<nat, Extent>, k: nat): set<Rid> {
    set i | 0 <= i < k && i in extents :: extents[i].reservation
  }

  lemma RowsToSteps(extents: map<nat, Extent>, k: nat)
    requires k in extents && Distinct(extents, k + 1)
    ensures RowsTo(extents, k + 1) == RowsTo(extents, k) + {extents[k].reservation} && extents[k].reservation !in RowsTo(extents, k)
  {
  }

  /** Deleting the rows of k untouched extents takes exactly their bytes off what is outstanding. */
  lemma {:induction false} DeletingFrees(rows: map<Rid, Amount>, extents: map<nat, Extent>, k: nat)
    requires Whole(extents, k) && Distinct(extents, k)
    requires forall i :: 0 <= i < k ==> extents[i].reservation in rows && rows[extents[i].reservation] == Amount(EXTENT, 0)
    ensures Outstanding(rows - RowsTo(extents, k)) == Outstanding(rows) - EXTENT * k
  {
    if k == 0 {
      assert rows - RowsTo(extents, k) == rows;
    } else {
      DeletingFrees(rows, extents, k - 1);
      RowsToSteps(extents, k - 1);
      hide Outstanding;
      var id := extents[k - 1].reservation;
      assert rows - RowsTo(extents, k) == rows - RowsTo(extents, k - 1) - {id};
      OutstandingRemoves(rows - RowsTo(extents, k - 1), id);
    }
  }

  /** A refused or repeated abort changes nothing; a successful one leaves the other artifacts' rows alone. */
  lemma AbortKeeps(db: Db, a: Art)
    requires DbInv(db)
    ensures var (after, error) := Abort(db, a);
            DbInv(after) && (error.Some? ==> after == db) && forall b :: b != a && b in db.ledgers ==> b in after.ledgers && after.ledgers[b] == db.ledgers[b]
  {
    hide Readable, DbInv, Release;
    var (after, error) := Abort(db, a);
    if after != db {
      if a !in db.ledgers {
        EmptyLedgerKeeps(db, a);
      } else {
        ReleaseKeeps(db, a);
      }
    }
  }

  lemma EmptyLedgerKeeps(db: Db, a: Art)
    requires DbInv(db) && a !in db.ledgers
    ensures DbInv(db.(ledgers := db.ledgers[a := Ledger(Aborted, "", 0, 0, map[])]))
  {
    var after := db.(ledgers := db.ledgers[a := Ledger(Aborted, "", 0, 0, map[])]);
    ReleasedApart(db.ledgers, a, after.ledgers[a]);
    AbortedLedger(db.rows, after.ledgers[a]);
    hide LedgerInv, AllApart;
    if InitialIsFree(after) && Bound(db.ledgers, db.initial.value) {
      BoundGrows(db.ledgers, a, after.ledgers[a], db.initial.value);
    }
  }

  lemma ReleaseKeeps(db: Db, a: Art)
    requires DbInv(db) && a in db.ledgers && db.ledgers[a].state == Active
    ensures DbInv(Release(db, a)) && Release(db, a).ledgers.Keys == db.ledgers.Keys
    ensures forall b :: b in db.ledgers && b != a ==> Release(db, a).ledgers[b] == db.ledgers[b]
  {
    hide LedgerInv, AllApart, Bound, Holds, RowsOf;
    var ledger, after := db.ledgers[a], Release(db, a);
    var gone := RowsOf(ledger.extents);
    RowsAreHeld(ledger);
    DbInvParts(db);
    OtherLedgersUnmoved(db, a, after.rows);
    ReleasedApart(db.ledgers, a, after.ledgers[a]);
    AbortedLedger(after.rows, after.ledgers[a]);
    if InitialIsFree(after) && Bound(db.ledgers, db.initial.value) {
      StillBound(db.ledgers, a, after.ledgers[a], db.initial.value);
    }
  }

  lemma RowsAreHeld(ledger: Ledger)
    ensures forall id :: id in RowsOf(ledger.extents) <==> Holds(ledger, id)
  {
  }

  lemma AbortedLedger(rows: map<Rid, Amount>, ledger: Ledger)
    requires ledger.state == Aborted && ledger.extents == map[]
    ensures LedgerInv(rows, ledger)
  {
  }

  lemma ReleasedApart(ledgers: map<Art, Ledger>, a: Art, ledger: Ledger)
    requires AllApart(ledgers) && ledger.extents == map[]
    ensures AllApart(ledgers[a := ledger])
  {
    var after := ledgers[a := ledger];
    forall x, i, y, j | x in after && y in after && i in after[x].extents && j in after[y].extents ensures Apart(after, x, i, y, j) {
      assert Apart(ledgers, x, i, y, j);
    }
  }

  lemma StillBound(ledgers: map<Art, Ledger>, a: Art, ledger: Ledger, id: Rid)
    requires a in ledgers && Bound(ledgers, id) && id !in RowsOf(ledgers[a].extents)
    ensures Bound(ledgers[a := ledger], id)
  {
    var x :| x in ledgers && Holds(ledgers[x], id);
    var i :| i in ledgers[x].extents && ledgers[x].extents[i].reservation == id;
    BoundBy(ledgers[a := ledger], x, i);
  }

  // ---------------------------------------------------------------- every interleaving

  lemma RestRows(db: Db, id: Rid, rows': map<Rid, Amount>)
    requires DbInv(db) && !Bound(db.ledgers, id) && db.initial != Some(id)
    requires rows' == db.rows - {id} || (id in rows' && rows' == db.rows[id := rows'[id]] && rows'[id].consumed <= rows'[id].reserved)
    ensures DbInv(db.(rows := rows'))
  {
    var after := db.(rows := rows');
    forall a | a in db.ledgers ensures LedgerInv(rows', db.ledgers[a]) {
      forall i | i in db.ledgers[a].extents ensures SameRow(db.rows, rows', db.ledgers[a].extents[i].reservation) {
        assert ExtentInv(db.rows, db.ledgers[a], i);
        UnboundElsewhere(db.ledgers, id, a, i);
      }
      OwnRowsKeep(db.rows, db.ledgers[a], rows');
    }
    hide LedgerInv, AllApart;
    assert InitialIsFree(after) ==> InitialIsFree(db);
  }

  lemma FragmentsDoNotMatter(db: Db, fragments: map<Art, Fragment>)
    requires DbInv(db)
    ensures DbInv(db.(fragments := fragments))
  {
    hide LedgerInv, AllApart;
    assert InitialIsFree(db.(fragments := fragments)) ==> InitialIsFree(db);
  }

  lemma NextDb(s: Sys, act: Action)
    requires DbInv(s.db)
    ensures DbInv(Next(s, act).db)
  {
    hide DbInv, Reserve, Settle, Abort, Bound;
    match act
    case SetFragment(a, f) => FragmentsDoNotMatter(s.db, s.db.fragments[a := f]);
    case NewWriter(_) =>
    case ReserveNext(a, newAttempt, free, capacity, newRow) =>
      if a in s.writers {
        var attempt := if a in s.attempts then s.attempts[a] else Attempt(newAttempt, 0);
        var req := Request(a, attempt.id, attempt.ordinal, attempt.ordinal == 0, EXTENT, free, capacity);
        ReserveKeeps(s.db, req, newRow);
      }
    case WriteBytes(_, _, _) =>
    case FinishWriter(a) => if a in s.writers { SettleKeeps(s.db, a, s.writers[a].written); }
    case AbortArtifact(a) => AbortKeeps(s.db, a);
    case OtherJob(id, amount) =>
      if !Bound(s.db.ledgers, id) && s.db.initial != Some(id) && !(amount.Some? && amount.value.consumed > amount.value.reserved) {
        RestRows(s.db, id, if amount.Some? then s.db.rows[id := amount.value] else s.db.rows - {id});
      }
    case Restart =>
  }

  /** The attempt and the writer of x depend on the ledger of x alone. */
  lemma CoveredBy(s: Sys, after: Sys, x: Art)
    requires Covered(s, x)
    requires (x in after.attempts ==> x in s.attempts && after.attempts[x] == s.attempts[x])
             && (x in after.writers ==> x in s.writers && after.writers[x] == s.writers[x])
    requires x in s.attempts && x in s.writers ==> (x in after.writers ==> x in after.attempts)
    requires x in after.attempts && x in s.db.ledgers ==> x in after.db.ledgers && after.db.ledgers[x] == s.db.ledgers[x]
    ensures Covered(after, x)
  {
  }

  lemma SettleLeavesOthers(db: Db, a: Art, actual: nat, x: Art)
    requires x != a && x in db.ledgers
    ensures x in Settle(db, a, actual).0.ledgers && Settle(db, a, actual).0.ledgers[x] == db.ledgers[x]
  {
  }

  lemma NextCovered(s: Sys, act: Action, x: Art)
    requires DbInv(s.db) && Covered(s, x)
    ensures Covered(Next(s, act), x)
  {
    hide DbInv, Reserve, Settle, Abort, Bound;
    match act
    case SetFragment(_, _) =>
    case NewWriter(_) =>
    case ReserveNext(a, newAttempt, free, capacity, newRow) => ReserveCovers(s, a, newAttempt, free, capacity, newRow, x);
    case WriteBytes(_, _, _) =>
    case FinishWriter(a) =>
      if a in s.writers {
        if x in s.db.ledgers && x != a { SettleLeavesOthers(s.db, a, s.writers[a].written, x); }
        CoveredBy(s, Next(s, act), x);
      }
    case AbortArtifact(a) =>
      AbortKeeps(s.db, a);
      CoveredBy(s, Next(s, act), x);
    case OtherJob(_, _) =>
    case Restart =>
  }

  lemma ReserveCovers(s: Sys, a: Art, newAttempt: string, free: int, capacity: int, newRow: Rid, x: Art)
    requires DbInv(s.db) && Covered(s, x)
    ensures Covered(Next(s, ReserveNext(a, newAttempt, free, capacity, newRow)), x)
  {
    hide DbInv, Reserve;
    if a in s.writers {
      var attempt := if a in s.attempts then s.attempts[a] else Attempt(newAttempt, 0);
      var req := Request(a, attempt.id, attempt.ordinal, attempt.ordinal == 0, EXTENT, free, capacity);
      ReserveKeeps(s.db, req, newRow);
    }
  }

  lemma NextKeeps(s: Sys, act: Action)
    requires Inv(s)
    ensures Inv(Next(s, act))
  {
    hide DbInv, Covered, Next;
    NextDb(s, act);
    forall x ensures Covered(Next(s, act), x) { NextCovered(s, act, x); }
  }

  lemma {:induction false} AfterInv(s: Sys, actions: seq<Action>)
    requires Started(s)
    ensures Inv(After(s, actions))
  {
    if actions != [] {
      AfterInv(s, actions[..|actions| - 1]);
      NextKeeps(After(s, actions[..|actions| - 1]), actions[|actions| - 1]);
    }
  }

  // ---------------------------------------------------------------- theorems

  /** After any interleaving an ACTIVE artifact has extents 0..n-1 on distinct untouched rows that sum to reserved_bytes. */
  lemma ActiveExtents(s: Sys, actions: seq<Action>, a: Art)
    requires Started(s) && a in After(s, actions).db.ledgers && After(s, actions).db.ledgers[a].state == Active
    ensures var db := After(s, actions).db; var ledger := db.ledgers[a]; var n := |ledger.extents|;
            && (forall i: nat :: i in ledger.extents <==> i < n) && SumTo(ledger.extents, n) == ledger.reserved
            && (forall i :: 0 <= i < n ==> ReadableExtent(db.rows, ledger, i))
            && (forall i, j :: 0 <= i < j < n ==> ledger.extents[i].reservation != ledger.extents[j].reservation)
  {
    var db := After(s, actions).db;
    AfterInv(s, actions);
    hide After, Started;
    ActiveLedger(db, a);
    LedgersAreReadable(db.rows, db.ledgers[a]);
    hide DbInv, LedgerInv;
    assert Summed(db.ledgers[a]);
  }

  /** After any interleaving a SETTLED artifact has used up every row it reserved, and the rows sum to its actual size. */
  lemma SettledExtents(s: Sys, actions: seq<Action>, a: Art)
    requires Started(s) && a in After(s, actions).db.ledgers && After(s, actions).db.ledgers[a].state == Settled
    ensures var db := After(s, actions).db; var ledger := db.ledgers[a];
            && (forall i :: i in ledger.extents ==> ledger.extents[i].reservation in db.rows
                                                    && db.rows[ledger.extents[i].reservation].reserved == db.rows[ledger.extents[i].reservation].consumed)
            && Consumed(db.rows, ledger.extents, |ledger.extents|) == ledger.settled
  {
    var db := After(s, actions).db;
    AfterInv(s, actions);
    hide After, Started;
    forall i | i in db.ledgers[a].extents
      ensures db.ledgers[a].extents[i].reservation in db.rows
              && db.rows[db.ledgers[a].extents[i].reservation].reserved == db.rows[db.ledgers[a].extents[i].reservation].consumed {
      assert ExtentInv(db.rows, db.ledgers[a], i);
    }
  }

  /** Reserve before write: when a writer that reserved at least one extent has completed its file, the settlement is
      never refused, whatever happened before. */
  lemma CompletedWriterSettles(s: Sys, actions: seq<Action>, a: Art)
    requires Started(s) && a in After(s, actions).writers && After(s, actions).writers[a].reserved > 0
    requires a in After(s, actions).db.fragments && After(s, actions).db.fragments[a] == Complete(After(s, actions).writers[a].written)
    ensures var t := After(s, actions);
            && a in t.db.ledgers && t.writers[a].written <= t.db.ledgers[a].reserved
            && Settle(t.db, a, t.writers[a].written).1.None?
            && Outstanding(Settle(t.db, a, t.writers[a].written).0.rows) == Outstanding(t.db.rows) - t.db.ledgers[a].reserved
  {
    var t := After(s, actions);
    AfterInv(s, actions);
    hide After, Started;
    assert Covered(t, a);
    SettlesCovered(t, a);
    SettleFrees(t.db, a, t.writers[a].written);
  }

  lemma SettlesCovered(t: Sys, a: Art)
    requires DbInv(t.db) && Covered(t, a) && a in t.writers && t.writers[a].reserved > 0
    requires a in t.db.fragments && t.db.fragments[a] == Complete(t.writers[a].written)
    ensures a in t.db.ledgers && t.db.ledgers[a].state == Active && t.writers[a].written <= t.db.ledgers[a].reserved
    ensures Settle(t.db, a, t.writers[a].written).1.None?
  {
    hide Settle;
    ActiveLedger(t.db, a);
    NoExtents(t.db.ledgers[a].extents);
    SettleAcceptsExactly(t.db, a, t.writers[a].written);
  }

  lemma SettleFrees(db: Db, a: Art, actual: nat)
    requires DbInv(db) && a in db.ledgers && db.ledgers[a].state == Active && Settle(db, a, actual).1.None?
    ensures Outstanding(Settle(db, a, actual).0.rows) == Outstanding(db.rows) - db.ledgers[a].reserved
  {
    hide Outstanding, Readable, DbInv;
    ActiveLedger(db, a);
    SettlingFrees(db.rows, db.ledgers[a].extents, |db.ledgers[a].extents|, actual);
  }

  /** Releasing gives back exactly what was reserved. */
  lemma AbortFrees(db: Db, a: Art)
    requires DbInv(db) && a in db.ledgers && db.ledgers[a].state == Active && Abort(db, a).1.None?
    ensures Outstanding(Abort(db, a).0.rows) == Outstanding(db.rows) - db.ledgers[a].reserved
  {
    hide Outstanding, Readable, DbInv;
    var ledger := db.ledgers[a];
    ActiveLedger(db, a);
    assert RowsTo(ledger.extents, |ledger.extents|) == RowsOf(ledger.extents);
    DeletingFrees(db.rows, ledger.extents, |ledger.extents|);
  }

  /** Reserving adds one extent to what is outstanding when it inserts a row, and nothing when it reuses one. */
  lemma ReserveAdds(db: Db, req: Request, newRow: Rid)
    requires Reserve(db, req, newRow).1.None?
    ensures var after := Reserve(db, req, newRow).0;
            Outstanding(after.rows) == Outstanding(db.rows) + if after.rows == db.rows then 0 else EXTENT
  {
    hide Outstanding, Open, FoundReadable, Summed, VolumeReadable, HasHeadroom;
    if newRow !in db.rows { OutstandingAdds(db.rows, newRow, Amount(EXTENT, 0)); }
  }
}
