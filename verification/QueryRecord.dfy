/** query.Service's record of one session: commands and the end of the execution change it in place, and a page is read from
    the live store. */
module QueryRecord {
  import opened QuerySession
  import opened ResultPaging
  import opened ResultStore
  import opened Wrappers

  class Record {
    const generation: string
    var state: State
    var terminal: bool
    var revision: nat
    var closed: bool
    var available: bool
    var store: Store?
    var series: set<SeriesKey>

    ghost predicate Valid()
      reads this, store
    {
      (store != null ==> store.Valid()) && QuerySession.Inv(View())
    }

    ghost function View(): Session
      reads this, store
    {
      Session(state, terminal, revision, generation, closed, available,
              if store == null then None else Some(ResultSet(store.log, series)))
    }

    constructor (generation: string, startNow: bool)
      ensures Valid() && View() == Start(generation, startNow) && this.generation == generation && store == null
    {
      this.generation := generation;
      state, terminal, revision := Queued, false, 1;
      closed, available, store, series := false, false, null, {};
      new;
      if startNow {
        state, revision := Running, 2;
      }
    }

    method Transition(next: State, end: bool)
      modifies this`state, this`terminal, this`revision
      ensures state == next && terminal == end && revision == old(revision) + 1
    {
      state, terminal, revision := next, end, revision + 1;
    }

    method Cancel(expected: nat) returns (error: Option<QuerySession.Error>)
      requires Valid()
      modifies this
      ensures Valid() && (View(), error) == QuerySession.Cancel(old(View()), expected)
    {
      if terminal || state == CancelRequested { return None; }
      if revision != expected { return Some(RevisionConflict); }
      if state == Queued {
        Transition(Canceled, true);
      } else if state == Running {
        Transition(CancelRequested, false);
      } else {
        assert false;
      }
      return None;
    }

    /** The caller removes the files of the store that is handed back. */
    method Close(expected: nat) returns (error: Option<QuerySession.Error>, gone: Store?)
      requires Valid()
      modifies this
      ensures Valid() && (View(), error) == QuerySession.Close(old(View()), expected)
      ensures gone == if old(closed) || error.Some? then null else old(store)
    {
      if closed { return None, null; }
      if revision != expected { return Some(RevisionConflict), null; }
      closed, available := true, false;
      gone, store := store, null;
      if state == Queued {
        Transition(Canceled, true);
      } else if state == Running {
        Transition(CancelRequested, false);
      } else {
        revision := revision + 1;
      }
      return None, gone;
    }

    /** The decoded response becomes readable in the step that ends the session, or is discarded. */
    method Finish(end: State, decoded: Store?, declared: set<SeriesKey>) returns (discarded: Store?)
      requires Valid() && IsEnd(end) && (decoded != null ==> decoded.Valid())
      modifies this
      ensures Valid()
      ensures View() == QuerySession.Finish(old(View()), end, if decoded == null then None else Some(ResultSet(old(decoded.log), declared)))
      ensures discarded == if old(terminal) || old(closed) then decoded else null
    {
      if terminal { return decoded; }
      Transition(end, true);
      if closed { return decoded; }
      store, series := decoded, declared;
      if decoded != null { available := true; }
      return null;
    }

    method Detach() returns (gone: Store?)
      requires Valid()
      modifies this
      ensures Valid() && View() == QuerySession.Detach(old(View())) && gone == old(store)
    {
      gone := store;
      if store != null { store, available := null, false; }
    }

    /** GetResultPage: the row count and the rows come from the store, wherever it keeps them. */
    method GetResultPage(key: SeriesKey, cursor: Option<Cursor>, limit: nat, now: int, readable: bool, ttl: int)
      returns (page: Result<Page, ResultPaging.Error>)
      requires Valid()
      ensures page == GetPage(View(), key, cursor, limit, now, readable, ttl)
    {
      hide RowsOf, PageFrom;
      var offset := if cursor.Some? then cursor.value.nextRow else 0;
      if cursor.Some? && (cursor.value.expires <= now || cursor.value.generation != generation) { return Err(InvalidCursor); }
      if store == null { return Err(Unavailable); }
      var rowCount := store.RowCount(key);
      if key !in series || offset > rowCount { return Err(SeriesNotFound); }
      var rows, total := store.ReadRows(key, offset, limit);
      if rows.None? || !readable { return Err(StorageFailed); }
      return Ok(PageAt(cursor, offset, rows.value, total, now, ttl));
    }

    function PageAt(cursor: Option<Cursor>, offset: nat, rows: seq<Row>, total: nat, now: int, ttl: int): (page: Page)
      reads this, store
      ensures page == PageFrom(View(), cursor, offset, rows, total, now, ttl)
    {
      var end := offset + |rows|;
      if terminal && end == total then Page(rows, None, true)
      else if rows == [] && cursor.Some? then Page(rows, cursor, false)
      else Page(rows, Some(Cursor(end, generation, now + ttl)), false)
    }
  }
}
