/** frontend TaskEventSynchronizer: pushes, gap detection, catch-up and the full-snapshot fallback. Whatever happens
    while a call is awaited is a script; the backend only appends events, and what it answers is true. */
module TaskSync {
  import opened Decimal
  import opened TaskEvents
  import opened Wrappers

  /** What happens during one await: events are committed, some are pushed, the owner may stop the synchronizer, and
      the awaited call answers (`ok` false: it throws). */
  datatype Tick = Tick(commits: seq<Event>, pushes: seq<Event>, stop: bool, ok: bool, head: string, changes: seq<Event>)

  /** A read delivered to the callbacks, with the number of events committed when it was issued. */
  datatype Read = Full(at: nat) | One(key: string, at: nat)

  predicate ValidEvent(e: Event) {
    e.schemaVersion == SCHEMA_VERSION && Canonical(e.seqText) && Canonical(e.revision) && e.id != ""
  }

  predicate IsTransfer(kind: string) {
    kind == "IMPORT" || kind == "EXPORT"
  }

  function Key(kind: string, id: string): string {
    kind + ":" + id
  }

  /** Splitting a key at its first colon gives back the kind and the id, whatever the id contains. */
  lemma KeySplits(kind: string, id: string)
    requires IsTransfer(kind)
    ensures Key(kind, id)[|kind|] == ':' && ':' !in Key(kind, id)[..|kind|]
    ensures Key(kind, id)[..|kind|] == kind && Key(kind, id)[|kind| + 1..] == id
  {
    assert Key(kind, id)[..|kind|] == kind;
  }

  // ---------------------------------------------------------------- an honest backend

  predicate Good(rows: seq<Event>) {
    Numbered(rows) && forall i :: 0 <= i < |rows| ==> ValidEvent(rows[i])
  }

  /** An event that looks valid is the backend's event of that number; anything else may be garbage. */
  predicate Honest(e: Event, rows: seq<Event>) {
    ValidEvent(e) ==> 1 <= Value(e.seqText) <= |rows| && rows[Value(e.seqText) - 1] == e
  }

  predicate AllHonest(es: seq<Event>, rows: seq<Event>) {
    forall k :: 0 <= k < |es| ==> Honest(es[k], rows)
  }

  /** A head may lag behind but never runs ahead of the committed events. */
  predicate HonestTick(rows: seq<Event>, tick: Tick) {
    && Good(rows + tick.commits)
    && AllHonest(tick.pushes, rows + tick.commits) && AllHonest(tick.changes, rows + tick.commits)
    && (Canonical(tick.head) ==> Value(tick.head) <= |rows + tick.commits|)
  }

  predicate HonestFuture(rows: seq<Event>, future: seq<Tick>)
    decreases |future|
  {
    future == [] || (HonestTick(rows, future[0]) && HonestFuture(rows + future[0].commits, future[1..]))
  }

  lemma StillHonest(es: seq<Event>, rows: seq<Event>, more: seq<Event>)
    requires AllHonest(es, rows)
    ensures AllHonest(es, rows + more)
  {
    forall k | 0 <= k < |es| ensures Honest(es[k], rows + more) {
      assert Honest(es[k], rows);
    }
  }

  /** The quiet answer when the script is over: the truth, and nothing else happens. */
  function Quiet(rows: seq<Event>, last: nat): Tick
    requires last <= |rows|
  {
    Tick([], [], false, true, Format(|rows|), rows[last..Min(|rows|, last + MAX_CHANGES)])
  }

  lemma QuietIsHonest(rows: seq<Event>, last: nat)
    requires Good(rows) && last <= |rows|
    ensures HonestTick(rows, Quiet(rows, last))
  {
    assert rows + [] == rows;
    forall i | last <= i < |rows| ensures Honest(rows[i], rows) {
      assert RowAt(rows, i);
    }
  }

  /** What the next await meets: the head of the script, or quiet. */
  function NextTick(rows: seq<Event>, last: nat, future: seq<Tick>): Tick
    requires last <= |rows|
  {
    if future == [] then Quiet(rows, last) else future[0]
  }

  /** The script after n awaits. */
  function Rest(future: seq<Tick>, n: nat): seq<Tick> {
    if n <= |future| then future[n..] else []
  }

  /** The call that is awaited as the k-th from now answers. */
  predicate Answers(future: seq<Tick>, k: nat) {
    k < |future| ==> future[k].ok
  }

  /** The call answers and nothing else happens. */
  predicate Calm(tick: Tick) {
    tick.commits == [] && tick.pushes == [] && !tick.stop && tick.ok
  }

  // ---------------------------------------------------------------- coverage

  predicate Covers(r: Read, e: Event, i: nat) {
    match r
    case Full(at) => i < at
    case One(key, at) => i < at && key == Key(e.kind, e.id)
  }

  /** A read that was delivered was issued after the i-th event was committed. */
  ghost predicate WasRead(rows: seq<Event>, delivered: seq<Read>, i: nat)
    requires i < |rows|
  {
    exists r :: 0 <= r < |delivered| && Covers(delivered[r], rows[i], i)
  }

  /** The i-th event changed an import or export, and nothing that was delivered can show it. */
  ghost predicate Missed(rows: seq<Event>, delivered: seq<Read>, i: nat)
    requires i < |rows|
  {
    IsTransfer(rows[i].kind) && !WasRead(rows, delivered, i)
  }

  /** The missed events among the first n whose resource is one of the keys. */
  ghost function MissedOf(rows: seq<Event>, delivered: seq<Read>, n: nat, keys: set<string>): set<nat>
    requires n <= |rows|
  {
    set i: nat | i < n && Missed(rows, delivered, i) && Key(rows[i].kind, rows[i].id) in keys
  }

  /** Of the first n events exactly the owed ones are missed, apart from those whose resource is waiting to be read. */
  ghost predicate Accounted(rows: seq<Event>, delivered: seq<Read>, n: nat, waiting: set<string>, owed: set<nat>) {
    && n <= |rows|
    && (forall i: nat :: i < n && Missed(rows, delivered, i) ==> i in owed || Key(rows[i].kind, rows[i].id) in waiting)
    && (forall i: nat :: i in owed ==> i < n && Missed(rows, delivered, i))
  }

  lemma AccountedGrows(rows: seq<Event>, delivered: seq<Read>, n: nat, waiting: set<string>, owed: set<nat>, rows': seq<Event>,
                       waiting': set<string>)
    requires Accounted(rows, delivered, n, waiting, owed) && rows <= rows' && waiting <= waiting'
    ensures Accounted(rows', delivered, n, waiting', owed)
  {
    forall i: nat | i < n ensures Missed(rows', delivered, i) <==> Missed(rows, delivered, i) {
      MissedStays(rows, delivered, i, rows');
    }
  }

  lemma MissedStays(rows: seq<Event>, delivered: seq<Read>, i: nat, rows': seq<Event>)
    requires i < |rows| && rows <= rows'
    ensures Missed(rows', delivered, i) <==> Missed(rows, delivered, i)
  {
    assert rows'[i] == rows[i];
  }

  /** A snapshot of everything covers every event committed before it was issued, whatever was owed. */
  lemma FullSnapshotCovers(rows: seq<Event>, delivered: seq<Read>, at: nat, n: nat)
    requires n <= at && n <= |rows|
    ensures Accounted(rows, delivered + [Full(at)], n, {}, {})
  {
    forall i: nat | i < n ensures WasRead(rows, delivered + [Full(at)], i) {
      assert Covers((delivered + [Full(at)])[|delivered|], rows[i], i);
    }
  }

  /** A full load that fails leaves the waiting events unread: they are owed from now on. */
  lemma FailedLoadOwes(rows: seq<Event>, delivered: seq<Read>, n: nat, waiting: set<string>, owed: set<nat>)
    requires Accounted(rows, delivered, n, waiting, owed)
    ensures Accounted(rows, delivered, n, {}, owed + MissedOf(rows, delivered, n, waiting))
  {
  }

  function OneReads(keys: seq<string>, at: nat): seq<Read> {
    seq(|keys|, i requires 0 <= i < |keys| => One(keys[i], at))
  }

  /** The owed events that reading these resources does not settle. */
  function StillOwed(rows: seq<Event>, owed: set<nat>, keys: set<string>): set<nat> {
    set i | i in owed && i < |rows| && Key(rows[i].kind, rows[i].id) !in keys
  }

  /** Reading every waiting resource covers what waited, and what was owed of these resources. */
  lemma ResourceReadsCover(rows: seq<Event>, delivered: seq<Read>, n: nat, waiting: set<string>, owed: set<nat>, keys: seq<string>, at: nat)
    requires Accounted(rows, delivered, n, waiting, owed) && n <= at && forall k :: k in waiting <==> k in keys
    ensures Accounted(rows, delivered + OneReads(keys, at), n, {}, StillOwed(rows, owed, waiting))
  {
    var all := delivered + OneReads(keys, at);
    forall i: nat | i < n ensures Missed(rows, all, i) <==> Missed(rows, delivered, i) && Key(rows[i].kind, rows[i].id) !in waiting {
      ReadThroughKeys(rows, delivered, keys, at, i);
    }
  }

  lemma ReadThroughKeys(rows: seq<Event>, delivered: seq<Read>, keys: seq<string>, at: nat, i: nat)
    requires i < |rows| && i < at
    ensures WasRead(rows, delivered + OneReads(keys, at), i) <==> WasRead(rows, delivered, i) || Key(rows[i].kind, rows[i].id) in keys
  {
    var all, key := delivered + OneReads(keys, at), Key(rows[i].kind, rows[i].id);
    if r :| 0 <= r < |delivered| && Covers(delivered[r], rows[i], i) {
      assert Covers(all[r], rows[i], i);
    }
    if key in keys {
      var k :| 0 <= k < |keys| && keys[k] == key;
      assert Covers(all[|delivered| + k], rows[i], i);
    }
    if r :| 0 <= r < |all| && Covers(all[r], rows[i], i) {
      if r < |delivered| {
        assert Covers(delivered[r], rows[i], i);
      } else {
        assert keys[r - |delivered|] == key;
      }
    }
  }

  /** The next event is the backend's next one, so its resource joins the waiting ones. */
  lemma NextEventWaits(rows: seq<Event>, delivered: seq<Read>, n: nat, waiting: set<string>, owed: set<nat>, e: Event, waiting': set<string>)
    requires Accounted(rows, delivered, n, waiting, owed) && ValidEvent(e) && Honest(e, rows) && Value(e.seqText) == n + 1
    requires waiting' == waiting + (if IsTransfer(e.kind) then {Key(e.kind, e.id)} else {})
    ensures Accounted(rows, delivered, n + 1, waiting', owed)
  {
    assert Missed(rows, delivered, n) ==> Key(rows[n].kind, rows[n].id) in waiting';
  }

  // ---------------------------------------------------------------- sorting a batch

  function Insert(e: Event, es: seq<Event>): seq<Event> {
    if es == [] then [e]
    else if Compare(e.seqText, es[0].seqText) == Some(1) then [es[0]] + Insert(e, es[1..])
    else [e] + es
  }

  /** Array.prototype.sort with compareDecimal. */
  function SortBySeq(es: seq<Event>): seq<Event> {
    if es == [] then [] else Insert(es[0], SortBySeq(es[1..]))
  }

  predicate AllValid(es: seq<Event>) {
    forall k :: 0 <= k < |es| ==> ValidEvent(es[k])
  }

  predicate NotAfter(a: Event, b: Event) {
    Compare(a.seqText, b.seqText) != Some(1)
  }

  predicate Ascending(es: seq<Event>) {
    forall i, j :: 0 <= i < j < |es| ==> NotAfter(es[i], es[j])
  }

  lemma NotAfterIsOrder(a: Event, b: Event)
    requires ValidEvent(a) && ValidEvent(b)
    ensures NotAfter(a, b) <==> Value(a.seqText) <= Value(b.seqText)
  {
    CompareIsIntegerOrder(a.seqText, b.seqText);
  }

  lemma NotAfterIsTransitive(a: Event, b: Event, c: Event)
    requires ValidEvent(a) && ValidEvent(b) && ValidEvent(c) && NotAfter(a, b) && NotAfter(b, c)
    ensures NotAfter(a, c)
  {
    NotAfterIsOrder(a, b);
    NotAfterIsOrder(b, c);
    NotAfterIsOrder(a, c);
  }

  lemma NotAfterIsTotal(a: Event, b: Event)
    requires ValidEvent(a) && ValidEvent(b) && !NotAfter(a, b)
    ensures NotAfter(b, a)
  {
    NotAfterIsOrder(a, b);
    NotAfterIsOrder(b, a);
  }

  lemma FirstAscends(e: Event, es: seq<Event>)
    requires Ascending(es) && forall k :: 0 <= k < |es| ==> NotAfter(e, es[k])
    ensures Ascending([e] + es)
  {
    hide NotAfter;
  }

  /** Inserting changes nothing but the position of the new event. */
  lemma {:induction false} InsertAdds(e: Event, es: seq<Event>)
    ensures multiset(Insert(e, es)) == multiset(es) + multiset{e}
  {
    hide Compare;
    if es != [] && Compare(e.seqText, es[0].seqText) == Some(1) {
      InsertAdds(e, es[1..]);
      assert es == [es[0]] + es[1..];
    }
  }

  lemma {:induction false} InsertSorts(e: Event, es: seq<Event>)
    requires ValidEvent(e) && AllValid(es) && Ascending(es)
    ensures AllValid(Insert(e, es)) && Ascending(Insert(e, es))
  {
    if es == [] {
    } else if NotAfter(e, es[0]) {
      forall k | 0 <= k < |es| ensures NotAfter(e, es[k]) {
        if k > 0 { NotAfterIsTransitive(e, es[0], es[k]); }
      }
      FirstAscends(e, es);
    } else {
      var rest := Insert(e, es[1..]);
      InsertSorts(e, es[1..]);
      InsertAdds(e, es[1..]);
      NotAfterIsTotal(e, es[0]);
      hide Compare, NotAfter, ValidEvent;
      forall k | 0 <= k < |rest| ensures NotAfter(es[0], rest[k]) {
        assert rest[k] in multiset(rest);
        if rest[k] != e {
          assert rest[k] in es[1..];
        }
      }
      FirstAscends(es[0], rest);
    }
  }

  lemma {:induction false} SortSorts(es: seq<Event>)
    requires AllValid(es)
    ensures AllValid(SortBySeq(es)) && Ascending(SortBySeq(es)) && multiset(SortBySeq(es)) == multiset(es)
  {
    if es != [] {
      SortSorts(es[1..]);
      InsertSorts(es[0], SortBySeq(es[1..]));
      InsertAdds(es[0], SortBySeq(es[1..]));
      assert es == [es[0]] + es[1..];
    }
  }

  lemma SortKeepsHonesty(es: seq<Event>, rows: seq<Event>)
    requires AllValid(es) && AllHonest(es, rows)
    ensures AllHonest(SortBySeq(es), rows)
  {
    SortSorts(es);
    var sorted := SortBySeq(es);
    forall k | 0 <= k < |sorted| ensures Honest(sorted[k], rows) {
      assert sorted[k] in multiset(sorted);
      assert sorted[k] in es;
    }
  }

  /** Some event of the batch has this number. */
  predicate HasSeq(es: seq<Event>, n: nat) {
    exists k :: 0 <= k < |es| && Canonical(es[k].seqText) && Value(es[k].seqText) == n
  }

  /** No event of the batch lies beyond `n`. */
  predicate Reached(es: seq<Event>, n: nat)
    requires AllValid(es)
  {
    forall k :: 0 <= k < |es| ==> Value(es[k].seqText) <= n
  }

  lemma SortKeepsReach(es: seq<Event>, n: nat)
    requires AllValid(es) && AllValid(SortBySeq(es)) && Reached(SortBySeq(es), n)
    ensures Reached(es, n)
  {
    SortSorts(es);
    var sorted := SortBySeq(es);
    forall k | 0 <= k < |es| ensures Value(es[k].seqText) <= n {
      assert es[k] in multiset(es);
      assert es[k] in sorted;
    }
  }

  /** How far one pass over an ascending batch has come after `i` events: `last` is the end of the unbroken run that
      starts after `first`, `target` the highest number seen beyond it. */
  ghost predicate Cursor(es: seq<Event>, i: nat, first: nat, last: nat, target: nat)
    requires i <= |es| && AllValid(es)
  {
    && first <= last
    && (forall n :: first < n <= last ==> HasSeq(es, n))
    && (target > last ==> i > 0 && target == Value(es[i - 1].seqText) && target > last + 1)
    && (forall k :: 0 <= k < i ==> Value(es[k].seqText) <= last || (last + 1 < Value(es[k].seqText) <= target))
  }

  lemma CursorStarts(es: seq<Event>, first: nat)
    requires AllValid(es)
    ensures Cursor(es, 0, first, first, first)
  {
  }

  lemma CursorStep(es: seq<Event>, i: nat, first: nat, last: nat, target: nat)
    requires i < |es| && AllValid(es) && Ascending(es) && Cursor(es, i, first, last, target)
    ensures var n := Value(es[i].seqText);
            && (n <= last ==> Cursor(es, i + 1, first, last, target))
            && (n == last + 1 ==> target <= last && Cursor(es, i + 1, first, last + 1, target))
            && (n > last + 1 ==> n >= target && Cursor(es, i + 1, first, last, n))
  {
    var n := Value(es[i].seqText);
    if i > 0 {
      assert NotAfter(es[i - 1], es[i]);
      NotAfterIsOrder(es[i - 1], es[i]);
    }
    forall k | 0 <= k < i ensures Value(es[k].seqText) <= n {
      assert NotAfter(es[k], es[i]);
      NotAfterIsOrder(es[k], es[i]);
    }
    if n == last + 1 {
      assert HasSeq(es, n);
    }
  }

  /** At the end of the pass nothing directly continues the run, and the target says whether anything lies beyond. */
  lemma CursorEnds(es: seq<Event>, first: nat, last: nat, target: nat)
    requires AllValid(es) && Cursor(es, |es|, first, last, target)
    ensures first <= last && !HasSeq(es, last + 1) && forall n :: first < n <= last ==> HasSeq(es, n)
    ensures Reached(es, if target > last then target else last)
    ensures target > last <==> exists k :: 0 <= k < |es| && Value(es[k].seqText) > last
  {
    if target > last {
      assert Value(es[|es| - 1].seqText) > last;
    }
  }

  // ---------------------------------------------------------------- batches without a gap

  /** The batch runs from the event after `last` up to `n` without a gap, in any order and however often. */
  predicate Gapless(es: seq<Event>, last: nat, n: nat) {
    AllValid(es) && last < n && Reached(es, n) && forall m :: last < m <= n ==> HasSeq(es, m)
  }

  ghost predicate SomeMissed(rows: seq<Event>, delivered: seq<Read>, from: nat, to: nat) {
    exists i: nat :: from <= i < to && i < |rows| && Missed(rows, delivered, i)
  }

  lemma SameNumbers(es: seq<Event>, other: seq<Event>, n: nat)
    requires multiset(es) == multiset(other)
    ensures HasSeq(es, n) <==> HasSeq(other, n)
  {
    if HasSeq(es, n) { NumberIn(es, other, n); }
    if HasSeq(other, n) { NumberIn(other, es, n); }
  }

  lemma NumberIn(es: seq<Event>, other: seq<Event>, n: nat)
    requires multiset(es) == multiset(other) && HasSeq(es, n)
    ensures HasSeq(other, n)
  {
    var k :| 0 <= k < |es| && Canonical(es[k].seqText) && Value(es[k].seqText) == n;
    assert es[k] in multiset(other);
    var j :| 0 <= j < |other| && other[j] == es[k];
  }
}
