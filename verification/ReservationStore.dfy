/** The repository, the service's attempts and the writer's counters, updated in place. */
module ReservationStore {
  import opened Bytes
  import opened Wrappers
  import opened ArtifactReservation

  lemma {:induction false} OutstandingNonNegative(rows: map<Rid, Amount>, ids: set<Rid>)
    requires ids <= rows.Keys && forall id :: id in ids ==> rows[id].consumed <= rows[id].reserved
    ensures OutstandingOf(rows, ids) >= 0
  {
    if ids != {} {
      var id :| id in ids;
      OutstandingSplits(rows, ids, id);
      OutstandingNonNegative(rows, ids - {id});
    }
  }

  lemma AfterSnoc(s: Sys, actions: seq<Action>, last: Action)
    ensures After(s, actions + [last]) == Next(After(s, actions), last)
  {
    hide Next;
    assert (actions + [last])[..|actions + [last]| - 1] == actions;
  }

  class Store {
    var ledgers: map<Art, Ledger>
    var rows: map<Rid, Amount>
    var initial: Option<Rid>
    var fragments: map<Art, Fragment>

    ghost function State(): Db
      reads this
    {
      Db(ledgers, rows, initial, fragments)
    }

    constructor (rows: map<Rid, Amount>, initial: Option<Rid>)
      ensures State() == Db(map[], rows, initial, map[])
    {
      this.ledgers, this.rows, this.initial, this.fragments := map[], rows, initial, map[];
    }

    /** getArtifactReservationInTx: the ledger, checked row by row. */
    method Get(a: Art) returns (found: Option<Ledger>, ok: bool)
      ensures found == Find(ledgers, a) && ok == FoundReadable(rows, found)
    {
      found := Find(ledgers, a);
      ok := true;
      if found.Some? {
        var left := found.value.extents.Keys;
        while left != {}
          invariant left <= found.value.extents.Keys
          invariant forall i :: i in found.value.extents && i !in left ==> ReadableExtent(rows, found.value, i)
        {
          var i :| i in left;
          if !ReadableExtent(rows, found.value, i) {
            return found, false;
          }
          left := left - {i};
        }
      }
    }

    /** targetVolumeOutstandingInTx. */
    method VolumeOutstanding() returns (total: nat, ok: bool)
      ensures ok <==> VolumeReadable(rows)
      ensures ok ==> total == Outstanding(rows)
    {
      total, ok := 0, true;
      var left := rows.Keys;
      while left != {}
        invariant left <= rows.Keys && total <= MAX_INT64
        invariant forall id :: id in rows && id !in left ==> rows[id].consumed <= rows[id].reserved
        invariant total + OutstandingOf(rows, left) == Outstanding(rows)
      {
        var id :| id in left;
        OutstandingSplits(rows, left, id);
        if rows[id].consumed > rows[id].reserved {
          return 0, false;
        }
        var outstanding := rows[id].reserved - rows[id].consumed;
        if outstanding > MAX_INT64 - total {
          if VolumeReadable(rows) {
            OutstandingNonNegative(rows, left - {id});
          }
          return 0, false;
        }
        total, left := total + outstanding, left - {id};
      }
    }

    method Mapped(ledger: Ledger) returns (sum: nat)
      ensures sum == SumTo(ledger.extents, |ledger.extents|)
    {
      sum := 0;
      for k := 0 to |ledger.extents|
        invariant sum == SumTo(ledger.extents, k)
      {
        if k in ledger.extents { sum := sum + ledger.extents[k].bytes; }
      }
    }

    /** ReserveArtifactExtent; newRow is the id a fresh UUID would give. */
    method Reserve(req: Request, newRow: Rid) returns (error: Option<Error>)
      modifies this
      ensures (State(), error) == ArtifactReservation.Reserve(old(State()), req, newRow)
    {
      if !ValidRequest(req) { return Some(InvalidRequest); }
      if req.artifact !in fragments || fragments[req.artifact] != Writing { return Some(Reservation); }
      var found, readable := Get(req.artifact);
      if !readable { return Some(Reservation); }
      var own := Open(found, req);
      if own.None? { return Some(Reservation); }
      var ledger := own.value;
      var mapped := Mapped(ledger);
      if mapped != ledger.reserved { return Some(Reservation); }
      var outstanding, summable := VolumeOutstanding();
      if !summable { return Some(Reservation); }
      error := Extend(req, newRow, ledger, outstanding);
    }

    method Extend(req: Request, newRow: Rid, ledger: Ledger, outstanding: nat) returns (error: Option<Error>)
      requires ValidRequest(req) && req.artifact in fragments && fragments[req.artifact] == Writing
      requires Open(Find(ledgers, req.artifact), req) == Some(ledger) && FoundReadable(rows, Find(ledgers, req.artifact))
      requires Summed(ledger) && VolumeReadable(rows) && outstanding == Outstanding(rows)
      modifies this
      ensures (State(), error) == ArtifactReservation.Reserve(old(State()), req, newRow)
    {
      hide Open, FoundReadable, Summed, VolumeReadable, Outstanding, HasHeadroom;
      if req.ordinal in ledger.extents {
        if ledger.extents[req.ordinal].bytes != req.bytes { return Some(Reservation); }
        if !HasHeadroom(req.free, req.capacity, outstanding, 0) { return Some(LowSpace); }
        var extent := ledger.extents[req.ordinal].(attempt := req.attempt);
        ledgers := ledgers[req.artifact := ledger.(extents := ledger.extents[req.ordinal := extent])];
        return None;
      }
      if |ledger.extents| != req.ordinal { return Some(Reservation); }
      var id, updated := newRow, rows;
      if InitialIsFree(Db(ledgers, rows, initial, fragments)) {
        id := initial.value;
        if rows[id] != Amount(req.bytes, 0) { return Some(Reservation); }
        if !HasHeadroom(req.free, req.capacity, outstanding, 0) { return Some(LowSpace); }
      } else {
        if !HasHeadroom(req.free, req.capacity, outstanding, req.bytes) { return Some(LowSpace); }
        if newRow in rows { return Some(UniqueConstraint); }
        updated := rows[newRow := Amount(req.bytes, 0)];
      }
      if ledger.reserved > MAX_INT64 - req.bytes { return Some(Reservation); }
      var extents := ledger.extents[req.ordinal := Extent(id, req.bytes, req.attempt)];
      ledgers := ledgers[req.artifact := ledger.(extents := extents, reserved := ledger.reserved + req.bytes)];
      rows := updated;
      return None;
    }

    /** SettleArtifactReservation: the loop hands each extent what is left, up to its size; the transaction is dropped when
        something remains. */
    method Settle(a: Art, actual: nat) returns (error: Option<Error>)
      modifies this
      ensures (State(), error) == ArtifactReservation.Settle(old(State()), a, actual)
    {
      if a !in fragments || fragments[a] != Complete(actual) { return Some(Reservation); }
      var found, readable := Get(a);
      if found.None? || !readable { return Some(Reservation); }
      var ledger := found.value;
      if ledger.state == Settled { return if ledger.settled != actual then Some(Reservation) else None; }
      if ledger.state != Active || |ledger.extents| == 0 || actual > ledger.reserved { return Some(Reservation); }
      var remaining, updated := actual, rows;
      for k := 0 to |ledger.extents|
        invariant remaining == Remaining(ledger.extents, k, actual) && updated == SettledRows(rows, ledger.extents, k, actual)
        invariant State() == old(State())
      {
        if k in ledger.extents {
          var consumed := Min(ledger.extents[k].bytes, remaining);
          updated := updated[ledger.extents[k].reservation := Amount(consumed, consumed)];
          remaining := remaining - consumed;
        }
      }
      if remaining != 0 { return Some(Reservation); }
      rows := updated;
      ledgers := ledgers[a := ledger.(state := Settled, settled := actual)];
      return None;
    }

    /** AbortArtifactReservation: row by row, with the extents and the job's reference following their row. */
    method Abort(a: Art) returns (error: Option<Error>)
      modifies this
      ensures (State(), error) == ArtifactReservation.Abort(old(State()), a)
    {
      if a !in fragments || !fragments[a].Corrupt? { return Some(Reservation); }
      if !fragments[a].partGone { return Some(PartPresent); }
      var found, readable := Get(a);
      if !readable { return Some(Reservation); }
      if found.None? {
        ledgers := ledgers[a := Ledger(Aborted, "", 0, 0, map[])];
        return None;
      }
      var ledger := found.value;
      if ledger.state == Aborted { return None; }
      if ledger.state != Active { return Some(Reservation); }
      var left, gone := ledger.extents.Keys, {};
      while left != {}
        invariant left <= ledger.extents.Keys
        invariant gone == set i | i in ledger.extents && i !in left :: ledger.extents[i].reservation
      {
        var i :| i in left;
        left, gone := left - {i}, gone + {ledger.extents[i].reservation};
      }
      assert gone == RowsOf(ledger.extents);
      rows := rows - gone;
      if initial.Some? && initial.value in gone { initial := None; }
      ledgers := ledgers[a := ledger.(state := Aborted, settled := 0, extents := map[])];
      return None;
    }
  }

  /** What the volume answers to one request, and the id a fresh UUID would give. */
  datatype Volume = Volume(free: int, capacity: int, newRow: Rid)

  /** exportservice.Service, reduced to its attempts. */
  class Service {
    const store: Store
    var attempts: map<Art, Attempt>

    constructor (store: Store)
      ensures this.store == store && attempts == map[]
    {
      this.store, attempts := store, map[];
    }

    method Reserve(a: Art, newAttempt: string, volume: Volume, ghost writers: map<Art, Writer>) returns (error: Option<Error>)
      modifies this, store
      ensures (Sys(store.State(), attempts, writers), error)
              == ReserveVia(old(Sys(store.State(), attempts, writers)), a, newAttempt, volume.free, volume.capacity, volume.newRow)
    {
      hide ArtifactReservation.Reserve;
      if a !in attempts { attempts := attempts[a := Attempt(newAttempt, 0)]; }
      var attempt := attempts[a];
      assert attempts == old(attempts)[a := attempt];
      var req := Request(a, attempt.id, attempt.ordinal, attempt.ordinal == 0, EXTENT, volume.free, volume.capacity);
      error := store.Reserve(req, volume.newRow);
      if error.None? { attempts := attempts[a := attempt.(ordinal := attempt.ordinal + 1)]; }
      assert attempts == old(attempts)[a := if error.None? then attempt.(ordinal := attempt.ordinal + 1) else attempt];
    }

    method Settle(a: Art, actual: nat) returns (error: Option<Error>)
      modifies this, store
      ensures (store.State(), error) == ArtifactReservation.Settle(old(store.State()), a, actual) && attempts == old(attempts) - {a}
    {
      error := store.Settle(a, actual);
      attempts := attempts - {a};
    }

    method Abort(a: Art) returns (error: Option<Error>)
      modifies this, store
      ensures (store.State(), error) == ArtifactReservation.Abort(old(store.State()), a) && attempts == old(attempts) - {a}
    {
      error := store.Abort(a);
      attempts := attempts - {a};
    }
  }

  /** extentWriter. */
  class ExtentWriter {
    const service: Service
    const artifact: Art
    var written: nat
    var reserved: nat

    constructor (service: Service, artifact: Art)
      ensures this.service == service && this.artifact == artifact && written == 0 && reserved == 0
    {
      this.service, this.artifact, written, reserved := service, artifact, 0, 0;
    }

    ghost function View(others: map<Art, Writer>): Sys
      reads this, service, service.store
    {
      Sys(service.store.State(), service.attempts, others[artifact := Writer(written, reserved)])
    }

    method ReserveOne(newAttempt: string, volume: Volume, ghost others: map<Art, Writer>) returns (error: Option<Error>)
      modifies this`reserved, service, service.store
      ensures View(others) == Next(old(View(others)), ReserveNext(artifact, newAttempt, volume.free, volume.capacity, volume.newRow))
      ensures error.None? ==> reserved == old(reserved) + EXTENT
    {
      hide ReserveVia;
      error := service.Reserve(artifact, newAttempt, volume, others[artifact := Writer(written, reserved)]);
      if error.None? {
        reserved := reserved + EXTENT;
      }
    }

    /** Write: extents are reserved until the whole slice is covered, and only then does the file see a byte of it. */
    method Write(length: nat, stored: nat, newAttempt: string, volumes: nat -> Volume, ghost others: map<Art, Writer>)
      returns (error: Option<Error>, ghost actions: seq<Action>)
      requires stored <= length
      modifies this, service, service.store
      ensures View(others) == After(old(View(others)), actions)
      ensures forall i :: 0 <= i < |actions| ==> if error.None? && i == |actions| - 1 then actions[i] == WriteBytes(artifact, length, stored)
                                                 else actions[i].ReserveNext? && actions[i].artifact == artifact
      ensures error.None? ==> actions != [] && old(written) + length <= reserved && written == old(written) + stored
      ensures error.Some? ==> written == old(written)
    {
      hide Next, After;
      actions := [];
      AfterNothing(View(others));
      var needed := written + length;
      var round := 0;
      while needed > reserved
        invariant written == old(written) && needed == written + length
        invariant View(others) == After(old(View(others)), actions)
        invariant forall i :: 0 <= i < |actions| ==> actions[i].ReserveNext? && actions[i].artifact == artifact
        invariant round == |actions|
        decreases needed - reserved
      {
        ghost var step := ReserveNext(artifact, newAttempt, volumes(round).free, volumes(round).capacity, volumes(round).newRow);
        AfterSnoc(old(View(others)), actions, step);
        actions := actions + [step];
        error := ReserveOne(newAttempt, volumes(round), others);
        if error.Some? {
          return;
        }
        round := round + 1;
      }
      AfterSnoc(old(View(others)), actions, WriteBytes(artifact, length, stored));
      actions := actions + [WriteBytes(artifact, length, stored)];
      WriteStep(View(others), artifact, length, stored, Writer(written, reserved));
      written := written + stored;
      error := None;
    }
  }

  lemma WriteStep(s: Sys, a: Art, length: nat, stored: nat, writer: Writer)
    requires a in s.writers && s.writers[a] == writer && writer.written + length <= writer.reserved && stored <= length
    ensures Next(s, WriteBytes(a, length, stored)) == s.(writers := s.writers[a := writer.(written := writer.written + stored)])
  {
  }

  lemma AfterNothing(s: Sys)
    ensures After(s, []) == s
  {
  }
}
