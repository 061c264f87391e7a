/** Walking a retained result: query.GetResultPage hands out signed cursors over one series of the store, and WriteResultCSV
    follows them while the session lives on. */
module ResultPaging {
  import opened QuerySession
  import opened ResultStore
  import opened Wrappers

  const PAGE_LIMIT: nat := 5000

  /** An authenticated cursor; only the fields a later page depends on. */
  datatype Cursor = Cursor(nextRow: nat, generation: string, expires: int)

  datatype Page = Page(rows: seq<Row>, next: Option<Cursor>, eof: bool)

  datatype Error =
    | InvalidCursor | Unavailable | SeriesNotFound | StorageFailed
    | InvalidSelection | EmptySelection | Stalled | Missing

  /** GetResultPage for one series; `ttl` is the cursor's lifetime and `readable` says whether the spill file can be read. */
  function GetPage(s: Session, key: SeriesKey, cursor: Option<Cursor>, limit: nat, now: int, readable: bool, ttl: int): Result<Page, Error> {
    var offset := if cursor.Some? then cursor.value.nextRow else 0;
    if cursor.Some? && (cursor.value.expires <= now || cursor.value.generation != s.generation) then Err(InvalidCursor)
    else if s.result.None? then Err(Unavailable)
    else
      var log := s.result.value.log;
      if key !in s.result.value.series || offset > |RowsOf(log, key)| then Err(SeriesNotFound)
      else
        match StoredSlice(log, key, offset, limit)
        case None => Err(StorageFailed)
        case Some(rows) => if !readable then Err(StorageFailed) else Ok(PageFrom(s, cursor, offset, rows, |RowsOf(log, key)|, now, ttl))
  }

  function PageFrom(s: Session, cursor: Option<Cursor>, offset: nat, rows: seq<Row>, total: nat, now: int, ttl: int): Page {
    var end := offset + |rows|;
    if s.terminal && end == total then Page(rows, None, true)
    else if rows == [] && cursor.Some? then Page(rows, cursor, false)
    else Page(rows, Some(Cursor(end, s.generation, now + ttl)), false)
  }

  // ---------------------------------------------------------------- one page

  /** Whatever the session is: asking again gives back the same cursor exactly at the end of a result whose session has not
      ended. */
  lemma StallsExactlyAtTheLiveEnd(s: Session, key: SeriesKey, cursor: Cursor, limit: nat, now: int, readable: bool, ttl: int)
    requires limit > 0 && GetPage(s, key, Some(cursor), limit, now, readable, ttl).Ok?
    ensures GetPage(s, key, Some(cursor), limit, now, readable, ttl).value.next == Some(cursor)
            <==> !s.terminal && cursor.nextRow == |RowsOf(s.result.value.log, key)|
  {
    hide RowsOf;
  }

  /** No session gets there: every page of a session that can exist is the last one, or its cursor is strictly further. */
  lemma PageProgresses(s: Session, key: SeriesKey, cursor: Option<Cursor>, limit: nat, now: int, readable: bool, ttl: int)
    requires Inv(s) && limit > 0 && GetPage(s, key, cursor, limit, now, readable, ttl).Ok?
    ensures var page := GetPage(s, key, cursor, limit, now, readable, ttl).value;
            var offset := if cursor.Some? then cursor.value.nextRow else 0;
            var rows := RowsOf(s.result.value.log, key);
            var end := offset + |page.rows|;
            && s.terminal && end <= |rows| && page.rows == rows[offset..end]
            && (page.eof <==> end == |rows|) && (page.eof <==> page.next.None?)
            && (!page.eof ==> page.next == Some(Cursor(end, s.generation, now + ttl)) && end > offset && page.next != cursor)
  {
    hide RowsOf;
  }

  /** A first page is given exactly when the session has a result with this series in it, the file can be read, and the
      series has a row: a series that was declared without rows is answered with a storage error. */
  lemma FirstPageExactly(s: Session, key: SeriesKey, now: int, readable: bool, ttl: int)
    ensures GetPage(s, key, None, PAGE_LIMIT, now, readable, ttl).Ok?
            <==> s.result.Some? && key in s.result.value.series && readable && RowsOf(s.result.value.log, key) != []
    ensures s.result.Some? && key in s.result.value.series && RowsOf(s.result.value.log, key) == [] ==>
              GetPage(s, key, None, PAGE_LIMIT, now, readable, ttl) == Err(StorageFailed)
  {
    hide RowsOf;
  }

  /** Such a series exists: a response with columns and no values. */
  lemma EmptySeriesFails(generation: string, key: SeriesKey, now: int, ttl: int)
    ensures var s := After(Start(generation, true), [Finished(Succeeded, Some(ResultSet([], {key})))]);
            && s.terminal && s.available && s.result == Some(ResultSet([], {key}))
            && GetPage(s, key, None, PAGE_LIMIT, now, true, ttl) == Err(StorageFailed)
  {
    var events := [Finished(Succeeded, Some(ResultSet([], {key})))];
    assert events[..|events| - 1] == [];
    assert RowsOf([], key) == [];
  }

  // ---------------------------------------------------------------- selections

  /** The rows at the selected indexes below `n`, in order. */
  function Selected(rows: seq<Row>, n: nat, all: bool, indexes: set<nat>): seq<Row>
    requires n <= |rows|
  {
    if n == 0 then []
    else Selected(rows, n - 1, all, indexes) + if all || n - 1 in indexes then [rows[n - 1]] else []
  }

  lemma NothingSelected(rows: seq<Row>, all: bool, indexes: set<nat>)
    ensures Selected(rows, 0, all, indexes) == []
  {
  }

  /** Asked for everything, the walk delivers the series, whatever else the request lists. */
  lemma {:induction false} AllRowsOnce(rows: seq<Row>, n: nat, indexes: set<nat>)
    requires n <= |rows|
    ensures Selected(rows, n, true, indexes) == rows[..n]
  {
    if n > 0 {
      AllRowsOnce(rows, n - 1, indexes);
      assert rows[..n] == rows[..n - 1] + [rows[n - 1]];
    }
  }

  /** The selected indexes below `n`. */
  function Below(indexes: set<nat>, n: nat): set<nat> {
    set i | i in indexes && i < n
  }

  lemma {:induction false} SelectedCount(rows: seq<Row>, n: nat, indexes: set<nat>)
    requires n <= |rows|
    ensures |Selected(rows, n, false, indexes)| == |Below(indexes, n)|
  {
    if n == 0 {
      assert Below(indexes, 0) == {};
    } else {
      SelectedCount(rows, n - 1, indexes);
      if n - 1 in indexes {
        assert Below(indexes, n) == Below(indexes, n - 1) + {n - 1};
      } else {
        assert Below(indexes, n) == Below(indexes, n - 1);
      }
    }
  }

  /** Everything selected lies below the row count that was listed, so once all are found the rest adds nothing. */
  lemma {:induction false} SelectedDone(rows: seq<Row>, n: nat, m: nat, indexes: set<nat>)
    requires n <= m <= |rows| && |Selected(rows, n, false, indexes)| == |indexes|
    ensures Selected(rows, m, false, indexes) == Selected(rows, n, false, indexes)
  {
    if n < m {
      SelectedDone(rows, n, m - 1, indexes);
      SelectedCount(rows, n, indexes);
      SelectedAllBelow(indexes, n);
    }
  }

  lemma SelectedAllBelow(indexes: set<nat>, n: nat)
    requires |Below(indexes, n)| == |indexes|
    ensures forall i :: i in indexes ==> i < n
  {
    if i :| i in indexes && i >= n {
      assert Below(indexes, n) <= indexes - {i};
      SubsetSize(Below(indexes, n), indexes - {i});
    }
  }

  lemma {:induction false} SubsetSize(a: set<nat>, b: set<nat>)
    requires a <= b
    ensures |a| <= |b|
  {
    if a != {} {
      var x :| x in a;
      SubsetSize(a - {x}, b - {x});
    }
  }

  /** At the end of the series, or once as many rows are written as were asked for, exactly the selected rows of the whole
      series are written. */
  lemma SelectionComplete(rows: seq<Row>, offset: nat, all: bool, selected: set<nat>)
    requires offset <= |rows| && (all || forall i :: i in selected ==> i < |rows|)
    requires offset == |rows| || (!all && |Selected(rows, offset, all, selected)| == |selected|)
    ensures Selected(rows, offset, all, selected) == Selected(rows, |rows|, all, selected)
    ensures !all ==> |Selected(rows, offset, all, selected)| == |selected|
  {
    if !all {
      if offset == |rows| {
        SelectedCount(rows, offset, selected);
        assert Below(selected, offset) == selected;
      } else {
        SelectedDone(rows, offset, |rows|, selected);
      }
    }
  }

  datatype Request = Request(all: bool, indexes: seq<nat>)

  function AsSet(indexes: seq<nat>): set<nat> {
    set i | i in indexes
  }

  predicate ValidSelection(req: Request, totalRows: nat) {
    req.all || (&& (forall k :: 0 <= k < |req.indexes| ==> req.indexes[k] < totalRows)
                && (forall j, k :: 0 <= j < k < |req.indexes| ==> req.indexes[j] != req.indexes[k]))
  }

  // ---------------------------------------------------------------- the walk over pages

  /** What happens to the session before one request, when the request is made, and whether the file can be read. */
  datatype Visit = Visit(events: seq<Event>, now: int, readable: bool)

  /** The session as the k-th request finds it; when the script is over nothing happens any more. */
  function At(s: Session, visits: seq<Visit>, k: nat): Session {
    var before := if k == 0 then s else At(s, visits, k - 1);
    if k < |visits| then After(before, visits[k].events) else before
  }

  function NowAt(visits: seq<Visit>, k: nat): int {
    if k < |visits| then visits[k].now else if visits == [] then 0 else visits[|visits| - 1].now
  }

  predicate ReadableAt(visits: seq<Visit>, k: nat) {
    k < |visits| ==> visits[k].readable
  }

  lemma {:induction false} AtKeeps(s: Session, visits: seq<Visit>, j: nat, k: nat)
    requires Inv(s) && j <= k
    ensures Inv(At(s, visits, j)) && Inv(At(s, visits, k)) && Follows(At(s, visits, j), At(s, visits, k))
    decreases k
  {
    var before := if k == 0 then s else At(s, visits, k - 1);
    if k > 0 {
      AtKeeps(s, visits, if j < k then j else k - 1, k - 1);
    }
    if k < |visits| { AfterKeeps(before, visits[k].events); }
  }

  /** The result, the file and the last cursor are still there at the k-th request. */
  predicate Undisturbed(s: Session, visits: seq<Visit>, k: nat, ttl: int) {
    At(s, visits, k).result.Some? && ReadableAt(visits, k) && (k > 1 ==> NowAt(visits, k) < NowAt(visits, k - 1) + ttl)
  }

  predicate Listed(s: Session, key: SeriesKey, visits: seq<Visit>) {
    At(s, visits, 0).result.Some? && key in At(s, visits, 0).result.value.series
  }

  /** What is asked for is there when the walk begins. */
  predicate Writable(s: Session, key: SeriesKey, req: Request, visits: seq<Visit>) {
    && (req.all || req.indexes != []) && Listed(s, key, visits) && RowsOf(At(s, visits, 0).result.value.log, key) != []
    && ValidSelection(req, |RowsOf(At(s, visits, 0).result.value.log, key)|)
  }

  /** The chosen rows of one page go to the output. */
  method WriteChosen(page: seq<Row>, offset: nat, all: bool, selected: set<nat>, ghost rows: seq<Row>, before: seq<Row>)
    returns (output: seq<Row>)
    requires offset + |page| <= |rows| && page == rows[offset..offset + |page|]
    requires before == Selected(rows, offset, all, selected)
    ensures output == Selected(rows, offset + |page|, all, selected)
  {
    output := before;
    for i := 0 to |page|
      invariant output == Selected(rows, offset + i, all, selected)
    {
      if all || offset + i in selected {
        output := output + [page[i]];
      }
    }
  }

  /** Why one request of the walk fails: only because something happened to the session, the file or the cursor, or because
      the series has no rows. */
  lemma PageOfWalk(s: Session, visits: seq<Visit>, key: SeriesKey, cursor: Option<Cursor>, k: nat, ttl: int, listed: ResultSet)
    requires Inv(s) && k > 0 && At(s, visits, 0).result == Some(listed) && key in listed.series
    requires cursor.Some? ==> && cursor.value.nextRow <= |RowsOf(listed.log, key)| && cursor.value.generation == s.generation
                              && k > 1 && cursor.value.expires == NowAt(visits, k - 1) + ttl
    ensures var page := GetPage(At(s, visits, k), key, cursor, PAGE_LIMIT, NowAt(visits, k), ReadableAt(visits, k), ttl);
            && (page.Ok? ==> At(s, visits, k).result == Some(listed))
            && (page.Err? ==> page.error in {InvalidCursor, Unavailable, StorageFailed})
            && (page.Err? ==> !Undisturbed(s, visits, k, ttl) || RowsOf(listed.log, key) == [])
  {
    AtKeeps(s, visits, 0, k);
    AtKeeps(s, visits, 0, 0);
    FollowsStart(s, visits, k);
    hide At, RowsOf;
  }

  lemma FollowsStart(s: Session, visits: seq<Visit>, k: nat)
    requires Inv(s)
    ensures At(s, visits, k).generation == s.generation
  {
    AtKeeps(s, visits, 0, k);
    if 0 < |visits| { AfterKeeps(s, visits[0].events); }
  }

  /** WriteResultCSV's listing and its loop over pages, up to the text of a row, on any session that can exist. */
  method WriteRows(s: Session, key: SeriesKey, req: Request, visits: seq<Visit>, ttl: int)
    returns (result: Result<nat, Error>, output: seq<Row>)
    requires Inv(s)
    ensures result == Err(EmptySelection) <==> !req.all && req.indexes == []
    ensures result.Ok? ==>
              && At(s, visits, 0).result.Some?
              && var rows := RowsOf(At(s, visits, 0).result.value.log, key);
                 && output == Selected(rows, |rows|, req.all, AsSet(req.indexes)) && result.value == |output|
    ensures result.Err? ==> result.error !in {Stalled, Missing}
    ensures Writable(s, key, req, visits) && (forall k: nat :: Undisturbed(s, visits, k, ttl)) ==> result.Ok?
    ensures result == Err(InvalidSelection) <==>
              && (req.all || req.indexes != []) && Listed(s, key, visits)
              && !ValidSelection(req, |RowsOf(At(s, visits, 0).result.value.log, key)|)
    ensures result == Err(SeriesNotFound) <==>
              (req.all || req.indexes != []) && At(s, visits, 0).result.Some? && !Listed(s, key, visits)
    ensures result.Ok? ==> Writable(s, key, req, visits)
  {
    hide GetPage, Selected, At, RowsOf, StoredSlice;
    output := [];
    if !req.all && req.indexes == [] { return Err(EmptySelection), []; }
    var listing := At(s, visits, 0);
    if listing.result.None? { return Err(Unavailable), []; }
    if key !in listing.result.value.series { return Err(SeriesNotFound), []; }
    var totalRows := |RowsOf(listing.result.value.log, key)|;
    if !ValidSelection(req, totalRows) { return Err(InvalidSelection), []; }
    ghost var rows := RowsOf(listing.result.value.log, key);
    var selected := AsSet(req.indexes);
    var cursor: Option<Cursor>, offset, k := None, 0, 1;
    NothingSelected(rows, req.all, selected);
    while true
      invariant k > 0 && offset <= |rows| && (if cursor.Some? then cursor.value.nextRow == offset else offset == 0)
      invariant cursor.Some? ==> && cursor.value.generation == s.generation && k > 1
                                 && cursor.value.expires == NowAt(visits, k - 1) + ttl && rows != []
      invariant output == Selected(rows, offset, req.all, selected)
      decreases |rows| - offset
    {
      var page := GetPage(At(s, visits, k), key, cursor, PAGE_LIMIT, NowAt(visits, k), ReadableAt(visits, k), ttl);
      PageOfWalk(s, visits, key, cursor, k, ttl, listing.result.value);
      if page.Err? { return Err(page.error), output; }
      AtKeeps(s, visits, 0, k);
      FollowsStart(s, visits, k);
      PageProgresses(At(s, visits, k), key, cursor, PAGE_LIMIT, NowAt(visits, k), ReadableAt(visits, k), ttl);
      if cursor.None? { FirstPageExactly(At(s, visits, k), key, NowAt(visits, k), ReadableAt(visits, k), ttl); }
      output := WriteChosen(page.value.rows, offset, req.all, selected, rows, output);
      offset := offset + |page.value.rows|;
      if (!req.all && |output| == |selected|) || page.value.eof {
        SelectionComplete(rows, offset, req.all, selected);
        if !req.all && |output| != |selected| { return Err(Missing), output; }
        return Ok(|output|), output;
      }
      if page.value.next.None? || page.value.next == cursor { return Err(Stalled), output; }
      cursor, k := page.value.next, k + 1;
    }
  }
}
