/** tasks.Repository's event log: one gap-free sequence of decimal numbers, read back by (length, text). */
module TaskEvents {
  import opened Decimal
  import opened Wrappers

  const SCHEMA_VERSION := 1
  const MAX_CHANGES: nat := 1000

  datatype Event = Event(schemaVersion: int, seqText: string, kind: string, id: string, revision: string)

  datatype Change = Change(kind: string, id: string, revision: string)

  predicate IsChange(e: Event, c: Change) {
    e.kind == c.kind && e.id == c.id && e.revision == c.revision
  }

  /** task_events and the singleton task_event_head. */
  datatype Log = Log(rows: seq<Event>, head: string)

  /** The i-th event carries the number i + 1, and the head is the number of the last. */
  predicate Numbered(rows: seq<Event>) {
    forall i :: 0 <= i < |rows| ==> RowAt(rows, i)
  }

  predicate RowAt(rows: seq<Event>, i: nat)
    requires i < |rows|
  {
    Canonical(rows[i].seqText) && Value(rows[i].seqText) == i + 1
  }

  predicate Valid(log: Log) {
    Numbered(log.rows) && Canonical(log.head) && Value(log.head) == |log.rows|
  }

  function Empty(): Log {
    Log([], "0")
  }

  lemma EmptyIsValid()
    ensures Valid(Empty())
  {
    assert "0"[..0] == "";
  }

  /** appendEventInTx: the next number after the head, then the head itself. */
  function Append(log: Log, kind: string, id: string, revision: string): (r: Option<Log>) {
    match GoIncrement(log.head)
    case None => None
    case Some(next) => Some(Log(log.rows + [Event(SCHEMA_VERSION, next, kind, id, revision)], next))
  }

  /** Appending never fails and never leaves a gap. */
  lemma AppendKeepsNumbers(log: Log, kind: string, id: string, revision: string)
    requires Valid(log)
    ensures var r := Append(log, kind, id, revision);
            && r.Some? && Valid(r.value) && log.rows <= r.value.rows && |r.value.rows| == |log.rows| + 1
            && IsChange(r.value.rows[|log.rows|], Change(kind, id, revision))
  {
    NextTextIsNextInteger(log.head, log.head);
    var rows := Append(log, kind, id, revision).value.rows;
    forall i | 0 <= i < |rows| ensures RowAt(rows, i) {
      if i < |log.rows| {
        assert RowAt(log.rows, i);
      }
    }
  }

  /** The log that a fresh database holds after these changes. */
  function History(changes: seq<Change>): Option<Log> {
    if changes == [] then Some(Empty())
    else
      var c := changes[|changes| - 1];
      match History(changes[..|changes| - 1])
      case None => None
      case Some(log) => Append(log, c.kind, c.id, c.revision)
  }

  /** However many changes there were, each one is in the log, under its position's number. */
  lemma {:induction false} HistoryIsNumbered(changes: seq<Change>)
    ensures History(changes).Some? && Valid(History(changes).value) && |History(changes).value.rows| == |changes|
    ensures forall i :: 0 <= i < |changes| ==> IsChange(History(changes).value.rows[i], changes[i])
  {
    hide Append, Valid, IsChange;
    if changes == [] {
      EmptyIsValid();
    } else {
      var before := changes[..|changes| - 1];
      var c := changes[|changes| - 1];
      HistoryIsNumbered(before);
      var log := History(before).value;
      AppendKeepsNumbers(log, c.kind, c.id, c.revision);
      forall i | 0 <= i < |changes| ensures IsChange(History(changes).value.rows[i], changes[i]) {
        if i < |before| {
          assert IsChange(log.rows[i], before[i]);
        }
      }
    }
  }

  // ---------------------------------------------------------------- Changes

  /** What SELECT ... WHERE seq after ? ORDER BY length(seq), seq LIMIT ? may return: matching rows, strictly ordered,
      and no matching row left out before the limit. */
  predicate SqlAnswer(rows: seq<Event>, after: string, limit: nat, out: seq<Event>) {
    && (forall k :: 0 <= k < |out| ==> out[k] in rows && SqlAfter(out[k].seqText, after))
    && (forall k :: 0 < k < |out| ==> SqlAfter(out[k].seqText, out[k - 1].seqText))
    && |out| <= limit
    && (forall e :: e in rows && SqlAfter(e.seqText, after) && e !in out ==>
          |out| == limit && (out == [] || SqlAfter(e.seqText, out[|out| - 1].seqText)))
  }

  function Min(a: nat, b: nat): nat {
    if a < b then a else b
  }

  lemma RowOf(rows: seq<Event>, e: Event) returns (i: nat)
    requires Numbered(rows) && e in rows
    ensures i < |rows| && rows[i] == e && Canonical(e.seqText) && Value(e.seqText) == i + 1
  {
    i :| 0 <= i < |rows| && rows[i] == e;
    assert RowAt(rows, i);
  }

  lemma RowsDiffer(rows: seq<Event>, i: nat, j: nat)
    requires Numbered(rows) && i < |rows| && j < |rows| && i != j
    ensures rows[i] != rows[j]
  {
    assert RowAt(rows, i) && RowAt(rows, j);
  }

  /** A matching row before some returned row is returned too. */
  lemma NotSkipped(rows: seq<Event>, after: string, limit: nat, out: seq<Event>, m: nat, k: nat)
    requires Numbered(rows) && Canonical(after) && SqlAnswer(rows, after, limit, out) && k < |out|
    requires Value(after) <= m < |rows| && Canonical(out[k].seqText) && m + 1 < Value(out[k].seqText)
    ensures rows[m] in out
  {
    assert RowAt(rows, m);
    SqlAfterIsIntegerOrder(rows[m].seqText, after);
    AnswerIncreases(rows, after, limit, out, k, |out| - 1);
    SqlAfterIsIntegerOrder(rows[m].seqText, out[|out| - 1].seqText);
  }

  lemma {:induction false} AnswerAt(rows: seq<Event>, after: string, limit: nat, out: seq<Event>, k: nat)
    requires Numbered(rows) && Canonical(after) && SqlAnswer(rows, after, limit, out) && k < |out|
    ensures Value(after) + k < |rows| && out[k] == rows[Value(after) + k]
  {
    hide Value, SqlAfter;
    var v := Value(after);
    var i := RowOf(rows, out[k]);
    SqlAfterIsIntegerOrder(out[k].seqText, after);
    if k > 0 {
      AnswerAt(rows, after, limit, out, k - 1);
      assert RowAt(rows, v + k - 1);
      SqlAfterIsIntegerOrder(out[k].seqText, out[k - 1].seqText);
    }
    if i > v + k {
      NotSkipped(rows, after, limit, out, v + k, k);
      var j :| 0 <= j < |out| && out[j] == rows[v + k];
      assert RowAt(rows, v + k);
      AnswerIncreases(rows, after, limit, out, j, k);
      RowsDiffer(rows, v + j, v + k);
      AnswerAt(rows, after, limit, out, j);
    }
  }

  lemma {:induction false} AnswerIncreases(rows: seq<Event>, after: string, limit: nat, out: seq<Event>, j: nat, k: nat)
    requires Numbered(rows) && Canonical(after) && SqlAnswer(rows, after, limit, out) && j < |out| && k < |out|
    ensures Canonical(out[j].seqText) && Canonical(out[k].seqText)
    ensures j < k ==> Value(out[j].seqText) < Value(out[k].seqText)
    ensures j > k ==> Value(out[j].seqText) > Value(out[k].seqText)
    decreases if j < k then k - j else j - k
  {
    hide Value, Canonical, SqlAfter;
    var a := RowOf(rows, out[j]);
    var b := RowOf(rows, out[k]);
    if j < k {
      AnswerIncreases(rows, after, limit, out, j, k - 1);
      SqlAfterIsIntegerOrder(out[k].seqText, out[k - 1].seqText);
    } else if k < j {
      AnswerIncreases(rows, after, limit, out, j - 1, k);
      SqlAfterIsIntegerOrder(out[j].seqText, out[j - 1].seqText);
    }
  }

  /** The order by (length, text) is integer order: Changes returns the next events, in order, without a gap. */
  lemma ChangesAreNext(rows: seq<Event>, after: string, limit: nat, out: seq<Event>)
    requires Numbered(rows) && Canonical(after) && SqlAnswer(rows, after, limit, out) && Value(after) <= |rows|
    ensures out == rows[Value(after)..Min(|rows|, Value(after) + limit)]
  {
    var v := Value(after);
    forall k | 0 <= k < |out| ensures v + k < |rows| && out[k] == rows[v + k] {
      AnswerAt(rows, after, limit, out, k);
    }
    if out != [] {
      AnswerAt(rows, after, limit, out, |out| - 1);
    }
    if v + |out| < |rows| {
      NothingMissed(rows, after, limit, out);
    }
    assert |out| == Min(|rows|, v + limit) - v;
  }

  lemma NothingMissed(rows: seq<Event>, after: string, limit: nat, out: seq<Event>)
    requires Numbered(rows) && Canonical(after) && SqlAnswer(rows, after, limit, out) && Value(after) + |out| < |rows|
    requires forall k :: 0 <= k < |out| ==> out[k] == rows[Value(after) + k]
    ensures |out| == limit
  {
    var v := Value(after);
    var next := rows[v + |out|];
    assert RowAt(rows, v + |out|);
    SqlAfterIsIntegerOrder(next.seqText, after);
    forall j | 0 <= j < |out| ensures out[j] != next {
      assert RowAt(rows, v + j);
    }
  }
}
