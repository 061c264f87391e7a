/** What every interleaving of reserving, writing, taking over, settling and aborting keeps. */
module ReservationSafety {
  import opened Wrappers
  import opened ArtifactReservation

  // ---------------------------------------------------------------- invariants

  predicate Contiguous(extents: map<nat, Extent>) {
    (forall i :: 0 <= i < |extents| ==> i in extents) && (forall i :: i in extents ==> i < |extents|)
  }

  function Consumed(rows: map<Rid, Amount>, extents: map<nat, Extent>, n: nat): nat {
    if n == 0 then 0
    else Consumed(rows, extents, n - 1)
         + if n - 1 in extents && extents[n - 1].reservation in rows then rows[extents[n - 1].reservation].consumed else 0
  }

  predicate ExtentInv(rows: map<Rid, Amount>, ledger: Ledger, i: nat)
    requires i in ledger.extents
  {
    var id := ledger.extents[i].reservation;
    && ledger.extents[i].bytes == EXTENT && id in rows
    && (ledger.state == Active ==> rows[id] == Amount(EXTENT, 0))
    && (ledger.state == Settled ==> rows[id].reserved == rows[id].consumed)
  }

  /** ACTIVE: extents 0..n-1 with untouched rows that sum to reserved_bytes. SETTLED: reserved equals consumed row by row,
      and they sum to the actual size. ABORTED: nothing is left. */
  predicate LedgerInv(rows: map<Rid, Amount>, ledger: Ledger) {
    && Contiguous(ledger.extents)
    && (forall i :: i in ledger.extents ==> ExtentInv(rows, ledger, i))
    && (ledger.state == Active ==> ledger.reserved == EXTENT * |ledger.extents|)
    && (ledger.state == Settled ==> Consumed(rows, ledger.extents, |ledger.extents|) == ledger.settled)
    && (ledger.state == Aborted ==> ledger.extents == map[])
  }

  /** No reservation row stands behind two extents. */
  predicate Apart(ledgers: map<Art, Ledger>, a: Art, i: nat, b: Art, j: nat)
    requires a in ledgers && b in ledgers && i in ledgers[a].extents && j in ledgers[b].extents
  {
    ledgers[a].extents[i].reservation == ledgers[b].extents[j].reservation ==> a == b && i == j
  }

  ghost predicate AllApart(ledgers: map<Art, Ledger>) {
    forall a, i, b, j :: a in ledgers && b in ledgers && i in ledgers[a].extents && j in ledgers[b].extents ==> Apart(ledgers, a, i, b, j)
  }

  ghost predicate DbInv(db: Db) {
    && (forall a :: a in db.ledgers ==> LedgerInv(db.rows, db.ledgers[a]))
    && AllApart(db.ledgers)
    && (InitialIsFree(db) ==> db.rows[db.initial.value] == Amount(EXTENT, 0))
    && (forall id :: id in db.rows ==> db.rows[id].consumed <= db.rows[id].reserved)
  }

  /** The attempt is not ahead of the extents, and the writer is not ahead of the attempt. */
  predicate Covered(s: Sys, a: Art) {
    && (a in s.attempts && s.attempts[a].ordinal > 0 ==>
          a in s.db.ledgers && s.db.ledgers[a].state == Active && s.attempts[a].ordinal <= |s.db.ledgers[a].extents|)
    && (a in s.writers ==> s.writers[a].written <= s.writers[a].reserved)
    && (a in s.writers && s.writers[a].reserved > 0 ==>
          a in s.attempts && s.writers[a].reserved <= EXTENT * s.attempts[a].ordinal)
  }

  ghost predicate Inv(s: Sys) {
    DbInv(s.db) && forall a :: Covered(s, a)
  }

  // ---------------------------------------------------------------- reserving

  lemma {:induction false} SumOfExtents(extents: map<nat, Extent>, n: nat)
    requires forall i :: 0 <= i < n ==> i in extents && extents[i].bytes == EXTENT
    ensures SumTo(extents, n) == EXTENT * n
  {
    if n > 0 {
      SumOfExtents(extents, n - 1);
    }
  }

  /** The reader's accounting checks never refuse a ledger. */
  lemma LedgersAreReadable(rows: map<Rid, Amount>, ledger: Ledger)
    requires LedgerInv(rows, ledger)
    ensures Readable(rows, ledger) && (ledger.state == Active ==> Summed(ledger))
  {
    forall i | i in ledger.extents ensures ReadableExtent(rows, ledger, i) && ledger.extents[i].bytes == EXTENT {
      assert ExtentInv(rows, ledger, i);
    }
    SumOfExtents(ledger.extents, |ledger.extents|);
  }

  lemma OpenKeeps(rows: map<Rid, Amount>, found: Option<Ledger>, req: Request)
    requires (found.Some? ==> LedgerInv(rows, found.value)) && Open(found, req).Some?
    ensures LedgerInv(rows, Open(found, req).value) && Open(found, req).value.state == Active
    ensures found.Some? ==> Open(found, req).value.extents == found.value.extents
    ensures found.None? ==> Open(found, req).value.extents == map[]
  {
    if found.Some? {
      forall i | i in found.value.extents ensures ExtentInv(rows, Open(found, req).value, i) {
        assert ExtentInv(rows, found.value, i);
      }
    }
  }

  /** Renaming the attempt of one extent. */
  lemma RenameKeeps(rows: map<Rid, Amount>, ledger: Ledger, i: nat, attempt: string)
    requires LedgerInv(rows, ledger) && ledger.state == Active && i in ledger.extents
    ensures LedgerInv(rows, ledger.(extents := ledger.extents[i := ledger.extents[i].(attempt := attempt)]))
    ensures |ledger.extents[i := ledger.extents[i].(attempt := attempt)]| == |ledger.extents|
  {
    var extents := ledger.extents[i := ledger.extents[i].(attempt := attempt)];
    var after := ledger.(extents := extents);
    assert extents.Keys == ledger.extents.Keys;
    SameSize(extents, ledger.extents);
    forall j | j in extents ensures ExtentInv(rows, after, j) {
      assert ExtentInv(rows, ledger, j);
    }
  }

  lemma SameSize<T>(a: map<nat, T>, b: map<nat, T>)
    requires a.Keys == b.Keys
    ensures |a| == |b|
  {
    assert |a| == |a.Keys| && |b| == |b.Keys|;
  }

  lemma OneLarger<T>(a: map<nat, T>, k: nat, v: T)
    requires k !in a
    ensures |a[k := v]| == |a| + 1
  {
    assert a[k := v].Keys == a.Keys + {k};
    assert |a[k := v]| == |a[k := v].Keys| && |a| == |a.Keys|;
  }

  /** One more extent at the end, on row `id`. */
  function Grown(ledger: Ledger, id: Rid, attempt: string): Ledger {
    ledger.(extents := ledger.extents[|ledger.extents| := Extent(id, EXTENT, attempt)], reserved := ledger.reserved + EXTENT)
  }

  lemma AppendKeeps(rows: map<Rid, Amount>, ledger: Ledger, id: Rid, attempt: string, rows': map<Rid, Amount>)
    requires LedgerInv(rows, ledger) && ledger.state == Active
    requires id in rows' && rows'[id] == Amount(EXTENT, 0)
    requires forall x :: x in rows ==> x in rows' && rows'[x] == rows[x]
    ensures var after := Grown(ledger, id, attempt);
            LedgerInv(rows', after) && |after.extents| == |ledger.extents| + 1 && after.state == Active
  {
    var n, after := |ledger.extents|, Grown(ledger, id, attempt);
    ContiguousGrows(ledger.extents, Extent(id, EXTENT, attempt));
    assert after.extents.Keys == ledger.extents.Keys + {n};
    hide Contiguous;
    forall i | i in after.extents ensures ExtentInv(rows', after, i) {
      if i != n {
        assert ExtentInv(rows, ledger, i);
      } else {
        assert after.extents[n] == Extent(id, EXTENT, attempt);
      }
    }
  }

  lemma ContiguousGrows(extents: map<nat, Extent>, extent: Extent)
    requires Contiguous(extents)
    ensures Contiguous(extents[|extents| := extent]) && |extents[|extents| := extent]| == |extents| + 1
  {
    OneLarger(extents, |extents|, extent);
  }

  /** A ledger does not notice rows that come to exist beside its own. */
  lemma MoreRowsKeep(rows: map<Rid, Amount>, ledger: Ledger, rows': map<Rid, Amount>)
    requires LedgerInv(rows, ledger) && forall x :: x in rows ==> x in rows' && rows'[x] == rows[x]
    ensures LedgerInv(rows', ledger)
  {
    forall i | i in ledger.extents ensures ExtentInv(rows', ledger, i) {
      assert ExtentInv(rows, ledger, i);
    }
    SameConsumed(rows, ledger.extents, |ledger.extents|, rows');
  }

  lemma {:induction false} SameConsumed(rows: map<Rid, Amount>, extents: map<nat, Extent>, n: nat, rows': map<Rid, Amount>)
    requires forall i :: i in extents ==> extents[i].reservation in rows && extents[i].reservation in rows'
                                          && rows'[extents[i].reservation] == rows[extents[i].reservation]
    ensures Consumed(rows', extents, n) == Consumed(rows, extents, n)
  {
    if n > 0 {
      SameConsumed(rows, extents, n - 1, rows');
    }
  }

  /** A row that nothing is bound to can be bound once more. */
  lemma ApartGrows(ledgers: map<Art, Ledger>, a: Art, ledger: Ledger, id: Rid, attempt: string)
    requires AllApart(ledgers) && !Bound(ledgers, id) && |ledger.extents| !in ledger.extents
    requires (a in ledgers ==> ledger.extents == ledgers[a].extents) && (a !in ledgers ==> ledger.extents == map[])
    ensures AllApart(ledgers[a := Grown(ledger, id, attempt)])
  {
    var n, after := |ledger.extents|, ledgers[a := Grown(ledger, id, attempt)];
    forall x, i, y, j | x in after && y in after && i in after[x].extents && j in after[y].extents ensures Apart(after, x, i, y, j) {
      if (x == a && i == n) || (y == a && j == n) {
        UnboundElsewhere(ledgers, id, x, i);
        UnboundElsewhere(ledgers, id, y, j);
      } else {
        assert Apart(ledgers, x, i, y, j);
      }
    }
  }

  lemma BoundBy(ledgers: map<Art, Ledger>, a: Art, i: nat)
    requires a in ledgers && i in ledgers[a].extents
    ensures Bound(ledgers, ledgers[a].extents[i].reservation)
  {
    assert Holds(ledgers[a], ledgers[a].extents[i].reservation);
  }

  lemma UnboundElsewhere(ledgers: map<Art, Ledger>, id: Rid, a: Art, i: nat)
    requires !Bound(ledgers, id)
    ensures a in ledgers && i in ledgers[a].extents ==> ledgers[a].extents[i].reservation != id
  {
    if a in ledgers && i in ledgers[a].extents {
      BoundBy(ledgers, a, i);
    }
  }

  /** More extents bind no fewer rows. */
  lemma BoundGrows(ledgers: map<Art, Ledger>, a: Art, ledger: Ledger, id: Rid)
    requires Bound(ledgers, id) && (a in ledgers ==> forall i :: i in ledgers[a].extents ==>
               (i in ledger.extents && ledger.extents[i].reservation == ledgers[a].extents[i].reservation))
    ensures Bound(ledgers[a := ledger], id)
  {
    var x :| x in ledgers && Holds(ledgers[x], id);
    var i :| i in ledgers[x].extents && ledgers[x].extents[i].reservation == id;
    BoundBy(ledgers[a := ledger], x, i);
  }

  /** The same rows stay bound when a ledger changes without changing the rows behind its extents. */
  lemma ApartSame(ledgers: map<Art, Ledger>, a: Art, ledger: Ledger)
    requires AllApart(ledgers) && a in ledgers && ledger.extents.Keys == ledgers[a].extents.Keys
    requires forall i :: i in ledger.extents ==> ledger.extents[i].reservation == ledgers[a].extents[i].reservation
    ensures AllApart(ledgers[a := ledger])
    ensures forall id :: Bound(ledgers[a := ledger], id) <==> Bound(ledgers, id)
  {
    var after := ledgers[a := ledger];
    forall x, i, y, j | x in after && y in after && i in after[x].extents && j in after[y].extents ensures Apart(after, x, i, y, j) {
      assert Apart(ledgers, x, i, y, j);
    }
    forall id ensures Bound(after, id) <==> Bound(ledgers, id) {
      if Bound(after, id) {
        var x :| x in after && Holds(after[x], id);
        assert Holds(ledgers[x], id);
      }
      if Bound(ledgers, id) {
        var x :| x in ledgers && Holds(ledgers[x], id);
        assert Holds(after[x], id);
      }
    }
  }

  /** What a successful reservation does to the artifact's ledger. */
  ghost predicate Extended(db: Db, req: Request, after: Db) {
    && DbInv(after) && req.artifact in after.ledgers && after.ledgers == db.ledgers[req.artifact := after.ledgers[req.artifact]]
    && after.ledgers[req.artifact].state == Active && req.ordinal < |after.ledgers[req.artifact].extents|
    && (req.artifact in db.ledgers ==> |db.ledgers[req.artifact].extents| <= |after.ledgers[req.artifact].extents|)
  }

  lemma AttachShape(db: Db, req: Request, ledger: Ledger, id: Rid, rows: map<Rid, Amount>)
    requires req.bytes == EXTENT && req.ordinal == |ledger.extents|
    ensures Attach(db, req, ledger, id, rows)
            == Db(db.ledgers[req.artifact := Grown(ledger, id, req.attempt)], rows, db.initial, db.fragments)
  {
  }

  lemma AttachKeeps(db: Db, req: Request, ledger: Ledger, id: Rid, rows: map<Rid, Amount>)
    requires DbInv(db) && req.bytes == EXTENT && LedgerInv(db.rows, ledger) && ledger.state == Active
    requires req.ordinal == |ledger.extents| && !Bound(db.ledgers, id)
    requires id in rows && rows[id] == Amount(EXTENT, 0) && rows.Keys == db.rows.Keys + {id}
    requires forall x :: x in db.rows ==> rows[x] == db.rows[x]
    requires (req.artifact in db.ledgers ==> ledger.extents == db.ledgers[req.artifact].extents)
             && (req.artifact !in db.ledgers ==> ledger.extents == map[])
    ensures Extended(db, req, Attach(db, req, ledger, id, rows))
  {
    hide AllApart, LedgerInv, Bound, DbInv, InitialIsFree, Attach, Grown;
    AttachShape(db, req, ledger, id, rows);
    var grown := Grown(ledger, id, req.attempt);
    var after := Db(db.ledgers[req.artifact := grown], rows, db.initial, db.fragments);
    DbInvParts(db);
    AppendKeeps(db.rows, ledger, id, req.attempt, rows);
    EndIsNew(db.rows, ledger);
    ApartGrows(db.ledgers, req.artifact, ledger, id, req.attempt);
    OtherLedgersKeep(db, after, req.artifact);
    AttachInitial(db, after, req.artifact, ledger, id, req.attempt);
    InvariantGrows(db, after);
  }

  lemma DbInvParts(db: Db)
    requires DbInv(db)
    ensures AllApart(db.ledgers) && forall x :: x in db.ledgers ==> LedgerInv(db.rows, db.ledgers[x])
  {
  }

  lemma InvariantGrows(db: Db, after: Db)
    requires DbInv(db) && AllApart(after.ledgers) && forall x :: x in after.ledgers ==> LedgerInv(after.rows, after.ledgers[x])
    requires InitialIsFree(after) ==> InitialIsFree(db)
    requires after.initial == db.initial
    requires forall x :: x in db.rows ==> x in after.rows && after.rows[x] == db.rows[x]
    requires forall x :: x in after.rows && x !in db.rows ==> after.rows[x] == Amount(EXTENT, 0)
    ensures DbInv(after)
  {
    hide AllApart, LedgerInv, Bound;
  }

  lemma EndIsNew(rows: map<Rid, Amount>, ledger: Ledger)
    requires LedgerInv(rows, ledger)
    ensures |ledger.extents| !in ledger.extents
  {
  }

  /** Binding a row leaves the initial reservation free only if it was free and is another row. */
  lemma AttachInitial(db: Db, after: Db, a: Art, ledger: Ledger, id: Rid, attempt: string)
    requires |ledger.extents| !in ledger.extents && (a in db.ledgers ==> ledger.extents == db.ledgers[a].extents)
    requires after.ledgers == db.ledgers[a := Grown(ledger, id, attempt)] && after.initial == db.initial
    requires after.rows.Keys == db.rows.Keys + {id}
    ensures InitialIsFree(after) ==> InitialIsFree(db)
  {
    BoundBy(after.ledgers, a, |ledger.extents|);
    if InitialIsFree(after) && Bound(db.ledgers, db.initial.value) {
      BoundGrows(db.ledgers, a, after.ledgers[a], db.initial.value);
    }
  }

  lemma OtherLedgersKeep(db: Db, after: Db, a: Art)
    requires forall x :: x in db.ledgers ==> LedgerInv(db.rows, db.ledgers[x])
    requires a in after.ledgers && after.ledgers == db.ledgers[a := after.ledgers[a]] && LedgerInv(after.rows, after.ledgers[a])
    requires forall x :: x in db.rows ==> x in after.rows && after.rows[x] == db.rows[x]
    ensures forall x :: x in after.ledgers ==> LedgerInv(after.rows, after.ledgers[x])
  {
    hide LedgerInv;
    forall x | x in after.ledgers ensures LedgerInv(after.rows, after.ledgers[x]) {
      if x != a { MoreRowsKeep(db.rows, db.ledgers[x], after.rows); }
    }
  }

  lemma FreshIsUnbound(db: Db, id: Rid)
    requires DbInv(db) && id !in db.rows
    ensures !Bound(db.ledgers, id)
  {
    forall a | a in db.ledgers ensures !Holds(db.ledgers[a], id) {
      forall i | i in db.ledgers[a].extents ensures db.ledgers[a].extents[i].reservation != id {
        assert ExtentInv(db.rows, db.ledgers[a], i);
      }
    }
  }

  /** A refused reservation changes nothing; a successful one keeps the ledgers in order and leaves the artifact with more
      extents than the ordinal. */
  lemma ReserveKeeps(db: Db, req: Request, newRow: Rid)
    requires DbInv(db)
    ensures var (after, error) := Reserve(db, req, newRow);
            if error.Some? then after == db else Extended(db, req, after)
  {
    var (after, error) := Reserve(db, req, newRow);
    if error.None? {
      var found := Find(db.ledgers, req.artifact);
      OpenKeeps(db.rows, found, req);
      ReserveExtends(db, req, newRow, Open(found, req).value);
    }
  }

  /** The three ways to succeed: the extent is there already, the job's initial reservation is free, or a row is inserted. */
  lemma ReserveShape(db: Db, req: Request, newRow: Rid, ledger: Ledger)
    requires Reserve(db, req, newRow).1.None? && Open(Find(db.ledgers, req.artifact), req) == Some(ledger)
    ensures req.bytes == EXTENT
    ensures var after := Reserve(db, req, newRow).0;
            if req.ordinal in ledger.extents then after == Renamed(db, req, ledger)
            else req.ordinal == |ledger.extents|
                 && if InitialIsFree(db) then after == Attach(db, req, ledger, db.initial.value, db.rows)
                    else newRow !in db.rows && after == Attach(db, req, ledger, newRow, db.rows[newRow := Amount(req.bytes, 0)])
  {
    hide Open, HasHeadroom, Outstanding, FoundReadable, Summed, VolumeReadable, Attach, Bound;
  }

  function Renamed(db: Db, req: Request, ledger: Ledger): Db
    requires req.ordinal in ledger.extents
  {
    var extents := ledger.extents[req.ordinal := ledger.extents[req.ordinal].(attempt := req.attempt)];
    db.(ledgers := db.ledgers[req.artifact := ledger.(extents := extents)])
  }

  lemma ReserveExtends(db: Db, req: Request, newRow: Rid, ledger: Ledger)
    requires DbInv(db) && Reserve(db, req, newRow).1.None? && Open(Find(db.ledgers, req.artifact), req) == Some(ledger)
    requires LedgerInv(db.rows, ledger) && ledger.state == Active && OwnExtents(db, req, ledger)
    ensures Extended(db, req, Reserve(db, req, newRow).0)
  {
    hide Reserve, Open, Find, LedgerInv, DbInv, Bound, Attach, Extended, InitialIsFree, Renamed;
    ReserveShape(db, req, newRow, ledger);
    if req.ordinal in ledger.extents {
      assert ledger.extents != map[];
      RenameExtent(db, req, ledger);
    } else if InitialIsFree(db) {
      AttachInitialRow(db, req, ledger);
    } else {
      AttachNewRow(db, req, newRow, ledger);
    }
  }

  predicate OwnExtents(db: Db, req: Request, ledger: Ledger) {
    (req.artifact in db.ledgers ==> ledger.extents == db.ledgers[req.artifact].extents)
    && (req.artifact !in db.ledgers ==> ledger.extents == map[])
  }

  lemma AttachInitialRow(db: Db, req: Request, ledger: Ledger)
    requires DbInv(db) && InitialIsFree(db) && req.bytes == EXTENT && LedgerInv(db.rows, ledger) && ledger.state == Active
    requires req.ordinal == |ledger.extents| && OwnExtents(db, req, ledger)
    ensures db.initial.Some? && Extended(db, req, Attach(db, req, ledger, db.initial.value, db.rows))
  {
    hide LedgerInv, DbInv, Bound, Attach, Extended, InitialIsFree;
    InitialRow(db);
    AttachKeeps(db, req, ledger, db.initial.value, db.rows);
  }

  lemma AttachNewRow(db: Db, req: Request, newRow: Rid, ledger: Ledger)
    requires DbInv(db) && newRow !in db.rows && req.bytes == EXTENT && LedgerInv(db.rows, ledger) && ledger.state == Active
    requires req.ordinal == |ledger.extents| && OwnExtents(db, req, ledger)
    ensures Extended(db, req, Attach(db, req, ledger, newRow, db.rows[newRow := Amount(req.bytes, 0)]))
  {
    hide LedgerInv, DbInv, Bound, Attach, Extended;
    FreshIsUnbound(db, newRow);
    var rows := db.rows[newRow := Amount(EXTENT, 0)];
    RowAdded(db.rows, newRow, Amount(EXTENT, 0));
    AttachKeeps(db, req, ledger, newRow, rows);
  }

  lemma RowAdded(rows: map<Rid, Amount>, id: Rid, amount: Amount)
    requires id !in rows
    ensures rows[id := amount].Keys == rows.Keys + {id} && id in rows[id := amount] && rows[id := amount][id] == amount
    ensures forall x :: x in rows ==> rows[id := amount][x] == rows[x]
  {
  }

  lemma InitialRow(db: Db)
    requires DbInv(db) && InitialIsFree(db)
    ensures db.initial.Some? && db.initial.value in db.rows && !Bound(db.ledgers, db.initial.value)
    ensures db.rows[db.initial.value] == Amount(EXTENT, 0) && db.rows.Keys == db.rows.Keys + {db.initial.value}
  {
  }

  lemma RenameExtent(db: Db, req: Request, ledger: Ledger)
    requires DbInv(db) && LedgerInv(db.rows, ledger) && ledger.state == Active && req.ordinal in ledger.extents
    requires req.artifact in db.ledgers && ledger.extents == db.ledgers[req.artifact].extents
    ensures Extended(db, req, Renamed(db, req, ledger))
  {
    var after := Renamed(db, req, ledger);
    RenameKeeps(db.rows, ledger, req.ordinal, req.attempt);
    RenamedBounds(db.rows, ledger, req.ordinal);
    hide LedgerInv;
    ApartSame(db.ledgers, req.artifact, after.ledgers[req.artifact]);
    hide AllApart;
    assert InitialIsFree(after) ==> InitialIsFree(db);
  }

  lemma RenamedBounds(rows: map<Rid, Amount>, ledger: Ledger, i: nat)
    requires LedgerInv(rows, ledger) && i in ledger.extents
    ensures i < |ledger.extents|
  {
  }

  /** After every successful reservation what is outstanding on the volume still leaves its floor free. */
  lemma ReserveLeavesFloor(db: Db, req: Request, newRow: Rid)
    requires Reserve(db, req, newRow).1.None?
    ensures Outstanding(Reserve(db, req, newRow).0.rows) + ReserveFloor(req.capacity) <= req.free
  {
    hide Outstanding, Open, FoundReadable, Summed, VolumeReadable;
    if newRow !in db.rows { OutstandingAdds(db.rows, newRow, Amount(EXTENT, 0)); }
  }
}
