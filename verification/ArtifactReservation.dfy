/** Disk space of one export job on its target volume: extents are reserved before an artifact grows into them, and
    turned into consumed bytes, or released, when the artifact is settled or aborted (exportjob.Repository). */
module ArtifactReservation {
  import opened Bytes
  import opened Wrappers

  const EXTENT: nat := 67_108_864

  type Art = string
  type Rid = string

  datatype Extent = Extent(reservation: Rid, bytes: nat, attempt: string)

  datatype LedgerState = Active | Settled | Aborted

  datatype Ledger = Ledger(state: LedgerState, attempt: string, reserved: nat, settled: nat, extents: map<nat, Extent>)

  /** A transfer_reservations row of this volume. */
  datatype Amount = Amount(reserved: nat, consumed: nat)

  datatype Fragment = Writing | Finalizing | Complete(size: nat) | Corrupt(partGone: bool)

  datatype Db = Db(ledgers: map<Art, Ledger>, rows: map<Rid, Amount>, initial: Option<Rid>, fragments: map<Art, Fragment>)

  datatype Error = InvalidRequest | Reservation | LowSpace | PartPresent | UniqueConstraint

  datatype Request = Request(artifact: Art, attempt: string, ordinal: nat, takeover: bool, bytes: int, free: int, capacity: int)

  // ---------------------------------------------------------------- amounts

  /** Reserved but not yet consumed, over a set of rows. */
  ghost function OutstandingOf(rows: map<Rid, Amount>, ids: set<Rid>): int
    requires ids <= rows.Keys
  {
    if ids == {} then 0
    else
      var id :| id in ids;
      rows[id].reserved - rows[id].consumed + OutstandingOf(rows, ids - {id})
  }

  ghost function Outstanding(rows: map<Rid, Amount>): int {
    OutstandingOf(rows, rows.Keys)
  }

  /** Whichever row is counted first. */
  lemma {:induction false} OutstandingSplits(rows: map<Rid, Amount>, ids: set<Rid>, id: Rid)
    requires ids <= rows.Keys && id in ids
    ensures OutstandingOf(rows, ids) == rows[id].reserved - rows[id].consumed + OutstandingOf(rows, ids - {id})
  {
    var first :| first in ids && OutstandingOf(rows, ids) == rows[first].reserved - rows[first].consumed + OutstandingOf(rows, ids - {first});
    if first != id {
      OutstandingSplits(rows, ids - {first}, id);
      OutstandingSplits(rows, ids - {id}, first);
      assert ids - {first} - {id} == ids - {id} - {first};
    }
  }

  lemma {:induction false} OutstandingSame(rows: map<Rid, Amount>, other: map<Rid, Amount>, ids: set<Rid>)
    requires ids <= rows.Keys && ids <= other.Keys && forall id :: id in ids ==> rows[id] == other[id]
    ensures OutstandingOf(rows, ids) == OutstandingOf(other, ids)
  {
    if ids != {} {
      var id :| id in ids;
      OutstandingSplits(rows, ids, id);
      OutstandingSplits(other, ids, id);
      OutstandingSame(rows, other, ids - {id});
    }
  }

  lemma OutstandingAdds(rows: map<Rid, Amount>, id: Rid, amount: Amount)
    requires id !in rows
    ensures Outstanding(rows[id := amount]) == Outstanding(rows) + amount.reserved - amount.consumed
  {
    var after := rows[id := amount];
    OutstandingSplits(after, after.Keys, id);
    assert after.Keys - {id} == rows.Keys;
    OutstandingSame(after, rows, rows.Keys);
  }

  const TWO_GIB := 2 * 1024 * 1024 * 1024
  const TEN_GIB := 10 * 1024 * 1024 * 1024

  function ReserveFloor(capacity: int): int
    requires capacity >= 0
  {
    if capacity / 20 < TWO_GIB then TWO_GIB else if capacity / 20 > TEN_GIB then TEN_GIB else capacity / 20
  }

  predicate HasHeadroom(free: int, capacity: int, outstanding: int, additional: int) {
    free >= 0 && capacity > 0 && outstanding >= 0 && additional >= 0 && outstanding <= free
    && additional <= free - outstanding && free - outstanding - additional >= ReserveFloor(capacity)
  }

  function SumTo(extents: map<nat, Extent>, n: nat): nat {
    if n == 0 then 0 else SumTo(extents, n - 1) + if n - 1 in extents then extents[n - 1].bytes else 0
  }

  // ---------------------------------------------------------------- reserve

  predicate ValidRequest(req: Request) {
    req.bytes == EXTENT && req.free >= 0 && req.capacity > 0 && req.ordinal <= MAX_UINT32 && (req.takeover ==> req.ordinal == 0)
  }

  /** The ledger as the attempt finds it: new, reactivated, its own, or taken over at ordinal zero. */
  function Open(found: Option<Ledger>, req: Request): Option<Ledger> {
    match found
    case None => Some(Ledger(Active, req.attempt, 0, 0, map[]))
    case Some(ledger) =>
      match ledger.state
      case Settled => None
      case Aborted =>
        if ledger.extents != map[] || req.ordinal != 0 then None else Some(ledger.(state := Active, attempt := req.attempt, reserved := 0, settled := 0))
      case Active =>
        if ledger.attempt == req.attempt then Some(ledger)
        else if !req.takeover || req.ordinal != 0 then None
        else Some(ledger.(attempt := req.attempt))
  }

  /** What reading a ledger insists on: the rows behind an active extent are untouched. */
  predicate Readable(rows: map<Rid, Amount>, ledger: Ledger) {
    forall i :: i in ledger.extents ==> ReadableExtent(rows, ledger, i)
  }

  predicate ReadableExtent(rows: map<Rid, Amount>, ledger: Ledger, i: nat)
    requires i in ledger.extents
  {
    var id := ledger.extents[i].reservation;
    && id in rows && rows[id].consumed <= rows[id].reserved
    && (ledger.state == Active ==> rows[id] == Amount(ledger.extents[i].bytes, 0))
  }

  predicate FoundReadable(rows: map<Rid, Amount>, found: Option<Ledger>) {
    found.Some? ==> Readable(rows, found.value)
  }

  predicate Summed(ledger: Ledger) {
    SumTo(ledger.extents, |ledger.extents|) == ledger.reserved
  }

  /** The volume's rows can be added up in an int64. */
  ghost predicate VolumeReadable(rows: map<Rid, Amount>) {
    (forall id :: id in rows ==> rows[id].consumed <= rows[id].reserved) && Outstanding(rows) <= MAX_INT64
  }

  /** Some extent of some artifact holds this row. */
  predicate Bound(ledgers: map<Art, Ledger>, id: Rid) {
    exists a :: a in ledgers && Holds(ledgers[a], id)
  }

  predicate Holds(ledger: Ledger, id: Rid) {
    exists i :: i in ledger.extents && ledger.extents[i].reservation == id
  }

  function Find(ledgers: map<Art, Ledger>, a: Art): Option<Ledger> {
    if a in ledgers then Some(ledgers[a]) else None
  }

  predicate InitialIsFree(db: Db) {
    db.initial.Some? && db.initial.value in db.rows && !Bound(db.ledgers, db.initial.value)
  }

  function Attach(db: Db, req: Request, ledger: Ledger, id: Rid, rows: map<Rid, Amount>): Db
    requires req.bytes >= 0
  {
    var extents := ledger.extents[req.ordinal := Extent(id, req.bytes, req.attempt)];
    db.(ledgers := db.ledgers[req.artifact := ledger.(extents := extents, reserved := ledger.reserved + req.bytes)], rows := rows)
  }

  ghost function Reserve(db: Db, req: Request, newRow: Rid): (Db, Option<Error>) {
    if !ValidRequest(req) then (db, Some(InvalidRequest))
    else if req.artifact !in db.fragments || db.fragments[req.artifact] != Writing then (db, Some(Reservation))
    else if Open(Find(db.ledgers, req.artifact), req).None? then (db, Some(Reservation))
    else
      var ledger := Open(Find(db.ledgers, req.artifact), req).value;
      var outstanding := Outstanding(db.rows);
      if !FoundReadable(db.rows, Find(db.ledgers, req.artifact)) || !Summed(ledger) || !VolumeReadable(db.rows) then (db, Some(Reservation))
      else if req.ordinal in ledger.extents then
        if ledger.extents[req.ordinal].bytes != req.bytes then (db, Some(Reservation))
        else if !HasHeadroom(req.free, req.capacity, outstanding, 0) then (db, Some(LowSpace))
        else
          var extents := ledger.extents[req.ordinal := ledger.extents[req.ordinal].(attempt := req.attempt)];
          (db.(ledgers := db.ledgers[req.artifact := ledger.(extents := extents)]), None)
      else if |ledger.extents| != req.ordinal then (db, Some(Reservation))
      else if InitialIsFree(db) then
        if db.rows[db.initial.value] != Amount(req.bytes, 0) then (db, Some(Reservation))
        else if !HasHeadroom(req.free, req.capacity, outstanding, 0) then (db, Some(LowSpace))
        else if ledger.reserved > MAX_INT64 - req.bytes then (db, Some(Reservation))
        else (Attach(db, req, ledger, db.initial.value, db.rows), None)
      else if !HasHeadroom(req.free, req.capacity, outstanding, req.bytes) then (db, Some(LowSpace))
      else if newRow in db.rows then (db, Some(UniqueConstraint))
      else if ledger.reserved > MAX_INT64 - req.bytes then (db, Some(Reservation))
      else (Attach(db, req, ledger, newRow, db.rows[newRow := Amount(req.bytes, 0)]), None)
  }

  // ---------------------------------------------------------------- settle and abort

  function Min(a: nat, b: nat): nat {
    if a < b then a else b
  }

  /** What is left of the actual size after the first k extents took their share. */
  function Remaining(extents: map<nat, Extent>, k: nat, actual: nat): nat {
    if k == 0 then actual
    else
      var before := Remaining(extents, k - 1, actual);
      before - if k - 1 in extents then Min(extents[k - 1].bytes, before) else 0
  }

  /** The rows after the first k extents were settled. */
  function SettledRows(rows: map<Rid, Amount>, extents: map<nat, Extent>, k: nat, actual: nat): map<Rid, Amount> {
    if k == 0 then rows
    else if k - 1 !in extents then SettledRows(rows, extents, k - 1, actual)
    else
      var share := Min(extents[k - 1].bytes, Remaining(extents, k - 1, actual));
      SettledRows(rows, extents, k - 1, actual)[extents[k - 1].reservation := Amount(share, share)]
  }

  function Settle(db: Db, a: Art, actual: nat): (Db, Option<Error>) {
    if a !in db.fragments || db.fragments[a] != Complete(actual) || a !in db.ledgers then (db, Some(Reservation))
    else
      var ledger := db.ledgers[a];
      var n := |ledger.extents|;
      if !Readable(db.rows, ledger) then (db, Some(Reservation))
      else if ledger.state == Settled then (db, if ledger.settled != actual then Some(Reservation) else None)
      else if ledger.state != Active || n == 0 || actual > ledger.reserved then (db, Some(Reservation))
      else if Remaining(ledger.extents, n, actual) != 0 then (db, Some(Reservation))
      else (db.(rows := SettledRows(db.rows, ledger.extents, n, actual),
                ledgers := db.ledgers[a := ledger.(state := Settled, settled := actual)]), None)
  }

  function RowsOf(extents: map<nat, Extent>): set<Rid> {
    set i | i in extents :: extents[i].reservation
  }

  /** Deleting the reservation rows deletes the extents and the job's reference with them. */
  function Release(db: Db, a: Art): Db
    requires a in db.ledgers
  {
    var gone := RowsOf(db.ledgers[a].extents);
    Db(db.ledgers[a := db.ledgers[a].(state := Aborted, settled := 0, extents := map[])], db.rows - gone,
       if db.initial.Some? && db.initial.value in gone then None else db.initial, db.fragments)
  }

  function Abort(db: Db, a: Art): (Db, Option<Error>) {
    if a !in db.fragments || !db.fragments[a].Corrupt? then (db, Some(Reservation))
    else if !db.fragments[a].partGone then (db, Some(PartPresent))
    else if a !in db.ledgers then (db.(ledgers := db.ledgers[a := Ledger(Aborted, "", 0, 0, map[])]), None)
    else if !Readable(db.rows, db.ledgers[a]) then (db, Some(Reservation))
    else if db.ledgers[a].state == Aborted then (db, None)
    else if db.ledgers[a].state != Active then (db, Some(Reservation))
    else (Release(db, a), None)
  }

  // ---------------------------------------------------------------- the writers

  /** exportservice's attempt of one artifact: its id and the next ordinal. */
  datatype Attempt = Attempt(id: string, ordinal: nat)

  /** extentWriter's counters. */
  datatype Writer = Writer(written: nat, reserved: nat)

  datatype Sys = Sys(db: Db, attempts: map<Art, Attempt>, writers: map<Art, Writer>)

  datatype Action =
    | SetFragment(artifact: Art, fragment: Fragment)
    | NewWriter(artifact: Art)
    | ReserveNext(artifact: Art, newAttempt: string, free: int, capacity: int, newRow: Rid)
    | WriteBytes(artifact: Art, length: nat, stored: nat)
    | FinishWriter(artifact: Art)
    | AbortArtifact(artifact: Art)
    | OtherJob(row: Rid, amount: Option<Amount>)
    | Restart

  /** Service.reserve for one extent: the attempt advances when the repository agrees. */
  ghost function ReserveVia(s: Sys, a: Art, newAttempt: string, free: int, capacity: int, newRow: Rid): (Sys, Option<Error>) {
    var attempt := if a in s.attempts then s.attempts[a] else Attempt(newAttempt, 0);
    var (db, error) := Reserve(s.db, Request(a, attempt.id, attempt.ordinal, attempt.ordinal == 0, EXTENT, free, capacity), newRow);
    (s.(db := db, attempts := s.attempts[a := if error.None? then attempt.(ordinal := attempt.ordinal + 1) else attempt]), error)
  }

  ghost function Next(s: Sys, act: Action): Sys {
    match act
    case SetFragment(a, f) => s.(db := s.db.(fragments := s.db.fragments[a := f]))
    case NewWriter(a) => s.(writers := s.writers[a := Writer(0, 0)])
    case ReserveNext(a, id, free, capacity, newRow) =>
      if a !in s.writers then s
      else
        var (next, error) := ReserveVia(s, a, id, free, capacity, newRow);
        if error.None? then next.(writers := s.writers[a := s.writers[a].(reserved := s.writers[a].reserved + EXTENT)]) else next
    case WriteBytes(a, length, stored) =>
      // the bytes go to the file only when the reservation covers them; a short write stores fewer
      if a !in s.writers || s.writers[a].written + length > s.writers[a].reserved || stored > length then s
      else s.(writers := s.writers[a := s.writers[a].(written := s.writers[a].written + stored)])
    case FinishWriter(a) =>
      if a !in s.writers then s
      else Sys(Settle(s.db, a, s.writers[a].written).0, s.attempts - {a}, s.writers - {a})
    case AbortArtifact(a) => Sys(Abort(s.db, a).0, s.attempts - {a}, s.writers - {a})
    case OtherJob(id, amount) =>
      // another job of the volume writes, or deletes, a row of its own
      if Bound(s.db.ledgers, id) || s.db.initial == Some(id) || (amount.Some? && amount.value.consumed > amount.value.reserved) then s
      else s.(db := s.db.(rows := if amount.Some? then s.db.rows[id := amount.value] else s.db.rows - {id}))
    case Restart => Sys(s.db, map[], map[])
  }

  /** A job starts with its initial target reservation of one extent, or with none. */
  predicate Started(s: Sys) {
    && s.attempts == map[] && s.writers == map[] && s.db.ledgers == map[]
    && (forall id :: id in s.db.rows ==> s.db.rows[id].consumed <= s.db.rows[id].reserved)
    && (s.db.initial.Some? && s.db.initial.value in s.db.rows ==> s.db.rows[s.db.initial.value] == Amount(EXTENT, 0))
  }

  ghost function After(s: Sys, actions: seq<Action>): Sys {
    if actions == [] then s else Next(After(s, actions[..|actions| - 1]), actions[|actions| - 1])
  }
}
