/** The synchronizer object. At rest, every import and export event up to lastSeq has had its resource read, or everything
    loaded, after it was committed, except exactly the events that are owed: they were waiting to be read when a full load
    failed, and since then neither a full load nor a read of their resource has succeeded. */
module TaskSynchronizer {
  import opened Decimal
  import opened TaskEvents
  import opened TaskSync
  import opened Wrappers

  datatype Work = Initialize | Drain | CheckHead | Resync

  class Synchronizer {
    // the outside: the backend's events, the script, what the callbacks were given
    var rows: seq<Event>
    var future: seq<Tick>
    var delivered: seq<Read>
    // fields of the source
    var stopped: bool
    var initialized: bool
    var lastSeq: string
    var pending: seq<Event>
    /** The numbers, less one, of the events that a failed full load left unread. */
    ghost var owed: set<nat>
    ghost var failedLoads: nat

    ghost predicate World()
      reads this
    {
      && Good(rows) && HonestFuture(rows, future) && AllHonest(pending, rows)
      && Canonical(lastSeq) && Value(lastSeq) <= |rows|
    }

    /** Up to lastSeq exactly the owed events are missed, apart from those whose resource is in `waiting`; nothing is owed
        as long as no full load fails. */
    ghost predicate Fresh(waiting: set<string>)
      reads this
      requires World()
    {
      && (initialized && !stopped ==> Accounted(rows, delivered, Value(lastSeq), waiting, owed))
      && (failedLoads == 0 ==> owed == {})
    }

    /** Time only adds: events, reads, and the script gets shorter; a quiet await pushes nothing. */
    twostate predicate Later()
      reads this
    {
      && old(rows) <= rows && old(delivered) <= delivered && (old(stopped) ==> stopped)
      && (|future| < |old(future)| || (future == old(future) && pending == old(pending)))
    }

    /** One await went by. */
    twostate predicate Awaited()
      requires old(World())
      reads this
    {
      var tick := NextTick(old(rows), Value(old(lastSeq)), old(future));
      && rows == old(rows) + tick.commits && future == Rest(old(future), 1) && (stopped <==> old(stopped) || tick.stop)
      && pending == if tick.stop then [] else if old(stopped) then old(pending) else old(pending) + tick.pushes
    }

    /** Work that succeeded owes no more than before. */
    twostate predicate Pays(ok: bool)
      reads this
    {
      && failedLoads >= old(failedLoads) && (ok && !stopped ==> owed <= old(owed))
    }

    constructor (rows: seq<Event>, future: seq<Tick>)
      requires Good(rows) && HonestFuture(rows, future)
      ensures World() && Fresh({}) && !initialized && !stopped && owed == {}
      ensures this.rows == rows && this.future == future && lastSeq == "0" && delivered == [] && pending == []
    {
      this.rows, this.future, delivered := rows, future, [];
      stopped, initialized, lastSeq, pending := false, false, "0", [];
      owed, failedLoads := {}, 0;
      assert "0"[..0] == "";
    }

    /** Everything that happens while one call is out. */
    method Await() returns (tick: Tick)
      requires World()
      modifies this`rows, this`future, this`pending, this`stopped
      ensures World() && Later() && Awaited()
      ensures HonestTick(old(rows), tick) && tick == NextTick(old(rows), Value(lastSeq), old(future))
      ensures tick.ok <==> Answers(old(future), 0)
      ensures Still(old(future), 1) ==> rows == old(rows) && stopped == old(stopped)
    {
      QuietIsHonest(rows, Value(lastSeq));
      tick := Quiet(rows, Value(lastSeq));
      if future == [] {
        assert rows + [] == rows;
        return;
      }
      tick := future[0];
      StillHonest(pending, rows, tick.commits);
      rows, future := rows + tick.commits, future[1..];
      if !stopped {
        pending := pending + tick.pushes;
      }
      if tick.stop {
        stopped, pending := true, [];
      }
    }

    method GetHead() returns (head: Option<string>)
      requires World()
      modifies this`rows, this`future, this`pending, this`stopped
      ensures World() && Later() && Awaited()
      ensures head.Some? ==> Canonical(head.value) && Value(head.value) <= |rows|
      ensures var tick := NextTick(old(rows), Value(lastSeq), old(future));
              head == if tick.ok && Canonical(tick.head) then Some(tick.head) else None
    {
      var tick := Await();
      if !tick.ok || !Canonical(tick.head) { return None; }
      return Some(tick.head);
    }

    /** The result is the number of events committed when the load was issued. */
    method LoadAll() returns (loaded: Option<nat>)
      requires World()
      modifies this`rows, this`future, this`pending, this`stopped, this`failedLoads
      ensures World() && Later() && Awaited()
      ensures loaded == if Answers(old(future), 0) then Some(|old(rows)|) else None
      ensures failedLoads == old(failedLoads) + if loaded.None? then 1 else 0
    {
      var at := |rows|;
      var tick := Await();
      if !tick.ok { failedLoads := failedLoads + 1; }
      return if tick.ok then Some(at) else None;
    }

    function Maximum(left: string, right: string): string
      requires Canonical(left) && Canonical(right)
    {
      if Compare(left, right) != Some(-1) then left else right
    }

    method HighestPending(head: string) returns (highest: string)
      requires World() && Canonical(head) && Value(head) <= |rows|
      ensures Canonical(highest) && Value(head) <= Value(highest) <= |rows|
      ensures forall k :: 0 <= k < |pending| && ValidEvent(pending[k]) ==> Value(pending[k].seqText) <= Value(highest)
      ensures pending == [] ==> highest == head
    {
      highest := head;
      for i := 0 to |pending|
        invariant Canonical(highest) && Value(head) <= Value(highest) <= |rows|
        invariant forall k :: 0 <= k < i && ValidEvent(pending[k]) ==> Value(pending[k].seqText) <= Value(highest)
        invariant i == 0 ==> highest == head
      {
        assert Honest(pending[i], rows);
        if ValidEvent(pending[i]) {
          CompareIsIntegerOrder(highest, pending[i].seqText);
          highest := Maximum(highest, pending[i].seqText);
        }
      }
    }

    /** The highest of the known head, the head that is read, if it can be, and the pending events. */
    method HighestKnown(knownHead: string) returns (head: string)
      requires World() && Canonical(knownHead) && Value(knownHead) <= |rows|
      modifies this`rows, this`future, this`pending, this`stopped
      ensures World() && Later() && Awaited()
      ensures Canonical(head) && Value(knownHead) <= Value(head) <= |rows|
      ensures var tick := NextTick(old(rows), Value(lastSeq), old(future));
              pending == [] && tick.ok && Canonical(tick.head) ==>
                Value(head) == if Value(knownHead) < Value(tick.head) then Value(tick.head) else Value(knownHead)
    {
      hide Good, HonestFuture, Compare, Format, Value;
      head := knownHead;
      var answer := GetHead();
      if answer.Some? {
        CompareIsIntegerOrder(head, answer.value);
        head := Maximum(head, answer.value);
      }
      head := HighestPending(head);
    }

    /** The snapshot replaces whatever waits or is owed; when its load fails, what waits is owed instead and nothing else has
        changed. The known head is also the cursor that the code falls back to when the head cannot be read. */
    method RecoverWithFullSnapshot(knownHead: string, ghost waiting: set<string>) returns (ok: bool)
      requires World() && Fresh(waiting) && Canonical(knownHead) && Value(knownHead) <= |rows|
      modifies this`rows, this`future, this`pending, this`stopped, this`delivered, this`lastSeq, this`owed, this`failedLoads
      ensures World() && Later()
      ensures Fresh({}) && future == Rest(old(future), 2) && (ok <==> Answers(old(future), 1))
      ensures failedLoads == old(failedLoads) + if ok then 0 else 1
      ensures Still(old(future), 2) ==> rows == old(rows) && stopped == old(stopped)
      ensures ok && !stopped ==> Value(lastSeq) >= Value(knownHead) && |delivered| > |old(delivered)| && delivered[|delivered| - 1].Full?
      ensures ok && !stopped ==> owed == {}
      ensures stopped ==> lastSeq == old(lastSeq)
      ensures !ok ==> lastSeq == old(lastSeq) && delivered == old(delivered)
                      && owed == old(owed) + MissedOf(rows, delivered, Value(lastSeq), waiting)
      ensures old(pending) == [] && !old(stopped) && CalmFor(old(future), 2) && Canonical(old(future)[0].head) ==>
                && ok && !stopped && pending == [] && rows == old(rows)
                && Value(lastSeq) == if Value(knownHead) < Value(old(future)[0].head) then Value(old(future)[0].head) else Value(knownHead)
    {
      hide Good, HonestFuture, Compare, Format, Accounted, Value, Missed, MissedOf, Rest, Still, CalmFor, NextTick, Answers;
      ghost var rows0 := rows;
      TickIs(old(future), 2, rows, Value(lastSeq));
      RestIsStill(old(future), 1);
      RestIsCalm(old(future), 1);
      RestOnce(old(future), 0);
      RestOnce(old(future), 1);
      var head := HighestKnown(knownHead);
      TickIs(future, 1, rows, Value(lastSeq));
      if initialized && !stopped { AccountedGrows(rows0, delivered, Value(lastSeq), waiting, owed, rows, waiting); }
      ok := Replace(head, waiting);
    }

    /** The load of a snapshot: what it has read replaces everything up to the head. */
    method Replace(head: string, ghost waiting: set<string>) returns (ok: bool)
      requires World() && Fresh(waiting) && Canonical(head) && Value(head) <= |rows|
      modifies this`rows, this`future, this`pending, this`stopped, this`delivered, this`lastSeq, this`owed, this`failedLoads
      ensures World() && Fresh({}) && Later() && Awaited() && (ok <==> Answers(old(future), 0))
      ensures failedLoads == old(failedLoads) + if ok then 0 else 1
      ensures ok && !stopped ==> lastSeq == head && delivered == old(delivered) + [Full(|old(rows)|)] && owed == {}
      ensures ok && stopped ==> lastSeq == old(lastSeq) && delivered == old(delivered) && owed == old(owed)
      ensures !ok ==> lastSeq == old(lastSeq) && delivered == old(delivered)
                      && owed == old(owed) + MissedOf(rows, delivered, Value(lastSeq), waiting)
    {
      hide Good, HonestFuture, Compare, Format, Accounted, Value, Missed, MissedOf, Answers, Rest, NextTick;
      ghost var rows0 := rows;
      var loaded := LoadAll();
      if loaded.None? {
        if initialized && !stopped {
          AccountedGrows(rows0, delivered, Value(lastSeq), waiting, owed, rows, waiting);
          FailedLoadOwes(rows, delivered, Value(lastSeq), waiting, owed);
        }
        owed := owed + MissedOf(rows, delivered, Value(lastSeq), waiting);
        return false;
      }
      if stopped { return true; }
      FullSnapshotCovers(rows, delivered, loaded.value, Value(head));
      delivered := delivered + [Full(loaded.value)];
      lastSeq, owed := head, {};
      return true;
    }

    static method KeysOf(waiting: set<string>) returns (keys: seq<string>)
      ensures forall k :: k in waiting <==> k in keys
    {
      keys := [];
      var left := waiting;
      while left != {}
        invariant left <= waiting && forall k :: k in waiting <==> k in left || k in keys
        decreases |left|
      {
        var key :| key in left;
        keys, left := keys + [key], left - {key};
      }
    }

    /** loadOne for every waiting resource; one rejection turns into a full snapshot. */
    method RefreshResources(waiting: set<string>) returns (ok: bool)
      requires World() && Fresh(waiting)
      modifies this`rows, this`future, this`pending, this`stopped, this`delivered, this`lastSeq, this`owed, this`failedLoads
      ensures World() && Later() && Fresh({}) && Pays(ok) && (!ok ==> failedLoads > old(failedLoads))
      ensures waiting != {} && !old(stopped) ==> (ok <==> Answers(old(future), 0) || Answers(old(future), 2))
      ensures !ok && Still(old(future), 3) ==> rows == old(rows) && stopped == old(stopped)
      ensures !ok ==> lastSeq == old(lastSeq) && delivered == old(delivered)
                      && owed == old(owed) + MissedOf(rows, delivered, Value(lastSeq), waiting)
      ensures Value(lastSeq) >= old(Value(lastSeq))
    {
      hide Good, HonestFuture, Compare, Format, Accounted, NextTick, Value, Missed, Still, Answers, Rest;
      if waiting == {} || stopped { return true; }
      var keys := KeysOf(waiting);
      var at := |rows|;
      label Issued:
      var tick := Await();
      if initialized && !stopped { AccountedGrows(old@Issued(rows), delivered, Value(lastSeq), waiting, owed, rows, waiting); }
      RestOnce(old(future), 1);
      RestIsStill(old(future), 2);
      if !tick.ok {
        ok := RecoverWithFullSnapshot(lastSeq, waiting);
        return;
      }
      if stopped { return true; }
      if initialized { ResourceReadsCover(rows, delivered, Value(lastSeq), waiting, owed, keys, at); }
      delivered, owed := delivered + OneReads(keys, at), StillOwed(rows, owed, waiting);
      return true;
    }

    // -------------------------------------------------------------- gap detection

    static function Joined(waiting: set<string>, e: Event): set<string> {
      waiting + if IsTransfer(e.kind) then {Key(e.kind, e.id)} else {}
    }

    static predicate Numbers(e: Event, n: nat) {
      ValidEvent(e) && Value(e.seqText) == n
    }

    /** One pass over a sorted batch: it runs through the numbers that follow lastSeq without a gap, and asks for a
        catch-up exactly when some event lies beyond them. */
    method Absorb(events: seq<Event>) returns (waiting: set<string>, target: string)
      requires World() && AllValid(events) && AllHonest(events, rows) && Ascending(events) && Fresh({})
      modifies this`lastSeq
      ensures World() && Fresh(waiting) && Value(lastSeq) >= old(Value(lastSeq))
      ensures forall n :: old(Value(lastSeq)) < n <= Value(lastSeq) ==> HasSeq(events, n)
      ensures !HasSeq(events, Value(lastSeq) + 1)
      ensures Canonical(target) && Value(target) <= |rows|
      ensures Reached(events, if Value(target) > Value(lastSeq) then Value(target) else Value(lastSeq))
      ensures Value(target) > Value(lastSeq) <==>
                exists k :: 0 <= k < |events| && Value(events[k].seqText) > Value(lastSeq)
    {
      hide Value, Format, Compare, AllDigits, Good, HonestFuture, Accounted, Cursor;
      CursorStarts(events, Value(lastSeq));
      waiting, target := {}, lastSeq;
      var last := lastSeq;
      ghost var first, watching := Value(lastSeq), initialized && !stopped;
      for i := 0 to |events|
        invariant Canonical(last) && Value(last) <= |rows| && Canonical(target) && Value(target) <= |rows|
        invariant watching ==> Accounted(rows, delivered, Value(last), waiting, owed)
        invariant Cursor(events, i, first, Value(last), Value(target))
      {
        var e := events[i];
        CursorStep(events, i, first, Value(last), Value(target));
        assert ValidEvent(e) && Honest(e, rows);
        CompareIsIntegerOrder(e.seqText, last);
        CompareIsIntegerOrder(target, e.seqText);
        if Compare(e.seqText, last) == Some(1) {
          var next := IncrementDecimal(last);
          if e.seqText == next.value {
            if watching { NextEventWaits(rows, delivered, Value(last), waiting, owed, e, Joined(waiting, e)); }
            last, waiting := e.seqText, Joined(waiting, e);
          } else {
            NextTextIsNextInteger(e.seqText, last);
            target := Maximum(target, e.seqText);
          }
        }
      }
      CursorEnds(events, first, Value(last), Value(target));
      lastSeq := last;
    }

    /** Follows getChanges up to the target; anything unexpected turns into a full snapshot. */
    method CatchUp(target: string, waiting: set<string>) returns (ok: bool, recovered: bool, all: set<string>)
      requires World() && Fresh(waiting) && Canonical(target) && Value(target) <= |rows|
      modifies this`rows, this`future, this`pending, this`stopped, this`delivered, this`lastSeq, this`owed, this`failedLoads
      ensures World() && Later()
      ensures !ok || recovered ==> Fresh({})
      ensures ok && !recovered ==> Fresh(all) && delivered == old(delivered) && owed == old(owed)
      ensures Pays(ok) && (!ok ==> failedLoads > old(failedLoads) && delivered == old(delivered))
      ensures Value(old(lastSeq)) >= Value(target) ==>
                ok && !recovered && all == waiting && unchanged(this)
      ensures Value(lastSeq) >= old(Value(lastSeq)) && (ok && !stopped ==> Value(lastSeq) >= Value(target))
    {
      hide Value, Format, Compare, AllDigits, Accounted, Good, HonestFuture, NextTick, Still, CalmFor, Answers, MissedOf;
      all := waiting;
      while Compare(lastSeq, target) == Some(-1)
        invariant World() && Fresh(all) && Later() && Value(target) <= |rows|
        invariant Value(lastSeq) >= old(Value(lastSeq)) && delivered == old(delivered)
        invariant failedLoads == old(failedLoads) && owed == old(owed)
        invariant Value(old(lastSeq)) >= Value(target) ==> all == waiting && unchanged(this)
        decreases Value(target) - Value(lastSeq)
      {
        CompareIsIntegerOrder(lastSeq, target);
        var fine: bool;
        fine, all := FollowAnswer(all);
        if !fine {
          ok := RecoverWithFullSnapshot(target, all);
          return ok, true, {};
        }
      }
      CompareIsIntegerOrder(lastSeq, target);
      return true, false, all;
    }

    /** One call of getChanges; no answer and an empty one are not fine. */
    method FollowAnswer(waiting: set<string>) returns (fine: bool, all: set<string>)
      requires World() && Fresh(waiting)
      modifies this`rows, this`future, this`pending, this`stopped, this`lastSeq
      ensures World() && Fresh(all) && Later()
      ensures Value(lastSeq) >= old(Value(lastSeq)) && (fine ==> Value(lastSeq) > old(Value(lastSeq)))
    {
      hide Value, Format, Compare, AllDigits, Accounted, Good, HonestFuture, NextTick, Still, CalmFor, Answers, MissedOf;
      all := waiting;
      ghost var rows0, last := rows, Value(lastSeq);
      var tick := Await();
      if initialized && !stopped { AccountedGrows(rows0, delivered, last, all, owed, rows, all); }
      if !tick.ok || tick.changes == [] { return false, all; }
      fine, all := Follow(tick.changes, all);
    }

    /** One answer of getChanges, up to its first invalid or misnumbered event. */
    method Follow(changes: seq<Event>, waiting: set<string>) returns (fine: bool, all: set<string>)
      requires World() && Fresh(waiting) && AllHonest(changes, rows)
      modifies this`lastSeq
      ensures World() && Fresh(all)
      ensures fine <==> forall k :: 0 <= k < |changes| ==> Numbers(changes[k], old(Value(lastSeq)) + k + 1)
      ensures fine ==> Value(lastSeq) == old(Value(lastSeq)) + |changes|
      ensures Value(lastSeq) >= old(Value(lastSeq))
    {
      hide Value, Format, Compare, AllDigits, Good, HonestFuture, Accounted;
      all := waiting;
      var last := lastSeq;
      ghost var first, watching := Value(lastSeq), initialized && !stopped;
      for i := 0 to |changes|
        invariant Canonical(last) && Value(last) == first + i <= |rows|
        invariant watching ==> Accounted(rows, delivered, Value(last), all, owed)
        invariant forall k :: 0 <= k < i ==> Numbers(changes[k], first + k + 1)
      {
        var e := changes[i];
        assert Honest(e, rows);
        var next := IncrementDecimal(last);
        if !ValidEvent(e) || e.seqText != next.value {
          if ValidEvent(e) { NextTextIsNextInteger(e.seqText, last); }
          assert !Numbers(changes[i], first + i + 1);
          lastSeq := last;
          return false, all;
        }
        if watching { NextEventWaits(rows, delivered, Value(last), all, owed, e, Joined(all, e)); }
        last, all := e.seqText, Joined(all, e);
      }
      lastSeq := last;
      return true, all;
    }

    // -------------------------------------------------------------- work items

    /** One spliced batch of valid events. When it continues lastSeq without a gap and changes something not yet read, the
        outcome is settled by two answers: its events stay missed exactly when both the reads and the full load fail. */
    method DrainBatch(events: seq<Event>) returns (ok: bool, recovered: bool)
      requires World() && Fresh({}) && AllValid(events) && AllHonest(events, rows)
      modifies this`rows, this`future, this`pending, this`stopped, this`delivered, this`lastSeq, this`owed, this`failedLoads
      ensures World() && Later() && Fresh({}) && Pays(ok)
      ensures !ok ==> failedLoads > old(failedLoads) && delivered == old(delivered)
      ensures Value(lastSeq) >= old(Value(lastSeq))
      ensures ok && !stopped ==> Reached(events, Value(lastSeq))
      ensures forall n :: Unread(old(rows), old(delivered), old(Value(lastSeq)), n, events) && old(initialized && !stopped) ==>
                && (ok <==> Answers(old(future), 0) || Answers(old(future), 2))
                && (!ok ==> Value(lastSeq) == n && SomeMissed(rows, delivered, old(Value(lastSeq)), n))
                && (!ok && Still(old(future), 3) ==> rows == old(rows) && !stopped)
    {
      hide Value, Format, Compare, AllDigits, Accounted, AllHonest, Good, HonestFuture, SortBySeq, Ascending, Cursor, Missed, NextTick;
      SortSorts(events);
      SortKeepsHonesty(events, rows);
      if initialized && !stopped { OwedIsPast(rows, delivered, Value(lastSeq), {}, owed); }
      var waiting, target := Absorb(SortBySeq(events));
      SortKeepsReach(events, if Value(target) > Value(lastSeq) then Value(target) else Value(lastSeq));
      CompareIsIntegerOrder(target, lastSeq);
      forall n | Unread(old(rows), old(delivered), old(Value(lastSeq)), n, events) && initialized && !stopped
        ensures Value(lastSeq) == n && Value(target) <= n && waiting != {} {
        GaplessStops(events, SortBySeq(events), old(Value(lastSeq)), n, Value(lastSeq), Value(target));
        MissedWaits(rows, delivered, old(Value(lastSeq)), n, waiting, old(owed));
      }
      recovered := false;
      label Absorbed:
      if Compare(target, lastSeq) == Some(1) {
        ok, recovered, waiting := CatchUp(target, waiting);
        if !ok || recovered { return; }
      }
      ok := RefreshResources(waiting);
      if !ok {
        forall n | Unread(old(rows), old(delivered), old(Value(lastSeq)), n, events) && old(initialized && !stopped)
          ensures SomeMissed(rows, delivered, old(Value(lastSeq)), n) {
          StillMissed(old(rows), delivered, old(Value(lastSeq)), n, rows);
        }
      }
    }

    method DrainPending() returns (ok: bool)
      requires World() && Fresh({})
      modifies this`rows, this`future, this`pending, this`stopped, this`delivered, this`lastSeq, this`owed, this`failedLoads
      ensures World() && old(rows) <= rows && old(delivered) <= delivered && |future| <= |old(future)|
      ensures Fresh({}) && Pays(ok) && (!ok ==> failedLoads > old(failedLoads)) && (old(stopped) ==> stopped)
      ensures old(pending) == [] ==> ok && unchanged(this)
      ensures Value(lastSeq) >= old(Value(lastSeq))
      ensures ok && old(initialized) && !stopped && AllValid(old(pending)) ==> Reached(old(pending), Value(lastSeq))
      ensures forall n :: Unread(old(rows), old(delivered), old(Value(lastSeq)), n, old(pending)) && old(initialized && !stopped)
                          && !Answers(old(future), 0) && !Answers(old(future), 2) ==>
                && !ok && delivered == old(delivered) && Value(lastSeq) == n && SomeMissed(rows, delivered, old(Value(lastSeq)), n)
                && (Still(old(future), 3) ==> rows == old(rows) && !stopped)
      decreases |future|
    {
      hide Value, Format, Compare, AllDigits, Accounted, Good, HonestFuture, Missed;
      if !initialized || pending == [] || stopped {
        forall n | Unread(rows, delivered, Value(lastSeq), n, pending) ensures pending != [] {
          assert HasSeq(pending, n);
        }
        return true;
      }
      var events := pending;
      pending := [];
      if exists k :: 0 <= k < |events| && !ValidEvent(events[k]) {
        ok := RecoverWithFullSnapshot(lastSeq, {});
        return;
      }
      var recovered: bool;
      ok, recovered := DrainBatch(events);
      if !ok || recovered { return; }
      if pending != [] {
        ok := DrainPending();
      }
    }

    method Begin() returns (ok: bool)
      requires World() && Fresh({})
      modifies this
      ensures World() && Fresh({}) && old(rows) <= rows && old(delivered) <= delivered && (old(stopped) ==> stopped)
      ensures ok ==> initialized || stopped
      ensures initialized && !old(initialized) ==> delivered != old(delivered)
      ensures old(!initialized && !stopped && pending == []) && CalmFor(old(future), 2) && Canonical(old(future)[0].head) ==>
                && ok && initialized && !stopped && lastSeq == old(future)[0].head && pending == [] && owed == {}
                && rows == old(rows) && delivered == old(delivered) + [Full(|old(rows)|)] && future == old(future)[2..]
    {
      hide Value, Format, Compare, AllDigits, Accounted, Good, HonestFuture;
      if initialized || stopped { return true; }
      var head := GetHead();
      if head.None? { return false; }
      if stopped { return true; }
      var loaded := LoadAll();
      if loaded.None? { return false; }
      if stopped { return true; }
      FullSnapshotCovers(rows, delivered, loaded.value, Value(head.value));
      delivered := delivered + [Full(loaded.value)];
      lastSeq, owed := head.value, {};
      initialized := true;
      ok := DrainPending();
    }

    /** `seen` is the head that was read; afterwards lastSeq is not behind it. A head below lastSeq is the one thing that can
        move lastSeq back. */
    method ReconcileHead() returns (ok: bool, seen: Option<string>)
      requires World() && Fresh({})
      modifies this
      ensures World() && Fresh({}) && old(rows) <= rows && old(delivered) <= delivered && (old(stopped) ==> stopped)
      ensures old(initialized) ==> Pays(ok)
      ensures seen.Some? ==> Canonical(seen.value)
      ensures ok && old(initialized) ==> seen.Some? && (!stopped ==> Value(lastSeq) >= Value(seen.value))
      ensures old(initialized) && Value(lastSeq) < old(Value(lastSeq)) ==>
                seen.Some? && Value(seen.value) < old(Value(lastSeq))
      ensures old(initialized) ==> initialized
      ensures old(initialized && !stopped && pending == []) && CalmFor(old(future), 3) && Canonical(old(future)[0].head)
              && Canonical(old(future)[1].head) && Value(old(future)[0].head) < old(Value(lastSeq)) ==>
                ok && !stopped && rows == old(rows) && owed == {}
                && (Value(lastSeq) == Value(old(future)[0].head) || Value(lastSeq) == Value(old(future)[1].head))
      ensures old(initialized && !stopped && pending == []) && CalmFor(old(future), 3)
              && Canonical(old(future)[0].head) && Canonical(old(future)[1].head) ==>
                (Value(lastSeq) < old(Value(lastSeq)) <==>
                   Value(old(future)[0].head) < old(Value(lastSeq)) && Value(old(future)[1].head) < old(Value(lastSeq)))
    {
      hide Value, Format, Compare, AllDigits, Accounted, Good, HonestFuture, Still, Answers, MissedOf;
      if !initialized {
        ok := Begin();
        return ok, None;
      }
      ghost var rows0 := rows;
      seen := GetHead();
      if !stopped { AccountedGrows(rows0, delivered, Value(lastSeq), {}, owed, rows, {}); }
      if seen.None? { return false, None; }
      CompareIsIntegerOrder(seen.value, lastSeq);
      var comparison := Compare(seen.value, lastSeq);
      if comparison == Some(-1) {
        RestIsCalm(old(future), 2);
        ok := RecoverWithFullSnapshot(seen.value, {});
        return;
      }
      if comparison == Some(0) { return true, seen; }
      ok := Reach(seen.value);
    }

    /** Forward to a head that was read. */
    method Reach(head: string) returns (ok: bool)
      requires World() && Fresh({}) && Canonical(head) && Value(head) <= |rows|
      modifies this`rows, this`future, this`pending, this`stopped, this`delivered, this`lastSeq, this`owed, this`failedLoads
      ensures World() && Fresh({}) && Later() && Pays(ok)
      ensures Value(lastSeq) >= old(Value(lastSeq)) && (ok && !stopped ==> Value(lastSeq) >= Value(head))
    {
      hide Value, Format, Compare, AllDigits, Accounted, Good, HonestFuture, Still, Answers, MissedOf, CalmFor, NextTick, Rest;
      var recovered: bool;
      var waiting: set<string>;
      ok, recovered, waiting := CatchUp(head, {});
      if ok && !recovered {
        ok := RefreshResources(waiting);
      }
    }

    method ForceSnapshot() returns (ok: bool)
      requires World() && Fresh({})
      modifies this
      ensures World() && Fresh({}) && old(rows) <= rows && old(delivered) <= delivered && (old(stopped) ==> stopped)
      ensures ok && !stopped ==> |delivered| > |old(delivered)|
      ensures old(initialized) ==> Value(lastSeq) >= old(Value(lastSeq))
      ensures ok && !stopped && old(initialized) ==> owed == {}
    {
      hide Accounted, Good, HonestFuture;
      if !initialized {
        if stopped { return true; }
        ok := Begin();
        return;
      }
      ok := RecoverWithFullSnapshot(lastSeq, {});
      if !ok { return; }
      ok := DrainPending();
    }

    /** The serial queue: whatever work is queued, in any order and with anything happening in between, at rest the missed
        events up to lastSeq are exactly the owed ones, and there are none as long as no full load fails. An error ends its
        work item and the queue goes on. */
    method Serve(works: seq<Work>)
      requires World() && Fresh({})
      modifies this
      ensures World() && Fresh({}) && old(rows) <= rows && old(delivered) <= delivered
      ensures initialized && !stopped ==> forall i: nat :: i < Value(lastSeq) ==> (Missed(rows, delivered, i) <==> i in owed)
      ensures initialized && !stopped && failedLoads == 0 ==> forall i: nat :: i < Value(lastSeq) ==> !Missed(rows, delivered, i)
    {
      hide Missed, Good, HonestFuture;
      for i := 0 to |works|
        invariant World() && Fresh({}) && old(rows) <= rows && old(delivered) <= delivered
      {
        ghost var rows0 := rows;
        var _ := Await();
        if initialized && !stopped { AccountedGrows(rows0, delivered, Value(lastSeq), {}, owed, rows, {}); }
        if !stopped {
          match works[i]
          case Initialize => var _ := Begin();
          case Drain => var _ := DrainPending();
          case CheckHead => var _, _ := ReconcileHead();
          case Resync => var _ := ForceSnapshot();
        }
      }
    }
  }

  /** The next n awaits are calm. */
  predicate CalmFor(future: seq<Tick>, n: nat) {
    n <= |future| && forall k :: 0 <= k < n ==> Calm(future[k])
  }

  /** During the next n awaits nothing is committed and nobody stops the synchronizer. */
  predicate Still(future: seq<Tick>, n: nat) {
    n <= |future| && forall k :: 0 <= k < n ==> future[k].commits == [] && !future[k].stop
  }

  lemma RestIsStill(future: seq<Tick>, n: nat)
    ensures Still(future, n + 1) ==> Still(Rest(future, 1), n) && Still(future, 1)
  {
    if Still(future, n + 1) {
      assert forall k :: 0 <= k < n ==> Rest(future, 1)[k] == future[k + 1];
    }
  }

  /** The batch continues without a gap and brings an import or export event that nothing delivered shows. */
  ghost predicate Unread(rows: seq<Event>, delivered: seq<Read>, last: nat, n: nat, events: seq<Event>) {
    Gapless(events, last, n) && SomeMissed(rows, delivered, last, n)
  }

  lemma GaplessStops(events: seq<Event>, sorted: seq<Event>, first: nat, n: nat, last: nat, target: nat)
    requires Gapless(events, first, n) && AllValid(sorted) && multiset(sorted) == multiset(events) && first <= last
    requires !HasSeq(sorted, last + 1) && forall m :: first < m <= last ==> HasSeq(sorted, m)
    requires target > last <==> exists k :: 0 <= k < |sorted| && Value(sorted[k].seqText) > last
    ensures last == n && target <= n
  {
    hide Value;
    if last < n { SameNumbers(events, sorted, last + 1); }
    if last > n {
      SameNumbers(events, sorted, last);
    }
    if k :| 0 <= k < |sorted| && Value(sorted[k].seqText) > last {
      assert ValidEvent(sorted[k]);
      assert HasSeq(sorted, Value(sorted[k].seqText));
      SameNumbers(events, sorted, Value(sorted[k].seqText));
    }
  }

  lemma OwedIsPast(rows: seq<Event>, delivered: seq<Read>, n: nat, waiting: set<string>, owed: set<nat>)
    requires Accounted(rows, delivered, n, waiting, owed)
    ensures forall i :: i in owed ==> i < n
  {
  }

  /** The script one await later. */
  lemma RestOnce(future: seq<Tick>, k: nat)
    ensures Answers(Rest(future, 1), k) <==> Answers(future, k + 1)
    ensures Rest(Rest(future, 1), k) == Rest(future, k + 1)
  {
  }

  lemma TickIs(future: seq<Tick>, n: nat, rows: seq<Event>, last: nat)
    requires last <= |rows| && n > 0
    ensures CalmFor(future, n) ==> future != [] && Calm(future[0]) && NextTick(rows, last, future) == future[0]
    ensures CalmFor(future, n) ==> Answers(future, n - 1)
    ensures Still(future, n) ==> NextTick(rows, last, future).commits == [] && !NextTick(rows, last, future).stop
  {
  }

  lemma RestIsCalm(future: seq<Tick>, n: nat)
    ensures CalmFor(future, n + 1) ==> CalmFor(Rest(future, 1), n) && Calm(future[0])
    ensures CalmFor(future, n + 1) && n > 0 ==> Rest(future, 1)[0] == future[1]
  {
    if CalmFor(future, n + 1) {
      assert forall k :: 0 <= k < n ==> Rest(future, 1)[k] == future[k + 1];
    }
  }

  lemma MissedWaits(rows: seq<Event>, delivered: seq<Read>, first: nat, n: nat, waiting: set<string>, owed: set<nat>)
    requires Accounted(rows, delivered, n, waiting, owed) && SomeMissed(rows, delivered, first, n) && forall i :: i in owed ==> i < first
    ensures waiting != {}
  {
    hide Missed;
    var i: nat :| first <= i < n && i < |rows| && Missed(rows, delivered, i);
  }

  lemma StillMissed(rows: seq<Event>, delivered: seq<Read>, from: nat, to: nat, rows': seq<Event>)
    requires SomeMissed(rows, delivered, from, to) && rows <= rows'
    ensures SomeMissed(rows', delivered, from, to)
  {
    var i: nat :| from <= i < to && i < |rows| && Missed(rows, delivered, i);
    MissedStays(rows, delivered, i, rows');
  }

  // ---------------------------------------------------------------- two scripts

  function Answer(ok: bool, head: string, events: seq<Event>): Tick {
    Tick(events, events, false, ok, head, [])
  }

  /** The first event changes an import or export and is pushed; its resource cannot be loaded, and neither can everything:
      lastSeq stands at 1 and the event is missed. */
  method LosesAnEvent(e: Event) returns (s: Synchronizer)
    requires ValidEvent(e) && Value(e.seqText) == 1 && IsTransfer(e.kind)
    ensures s.World() && s.Fresh({}) && s.initialized && !s.stopped
    ensures s.rows == [e] && Value(s.lastSeq) == 1 && Missed(s.rows, s.delivered, 0) && s.owed == {0}
  {
    hide Missed, Good, HonestFuture, Value, Accounted, Unread, Format, Compare, AllHonest, Still, CalmFor;
    var calm, refusal := Answer(true, "0", []), Answer(false, "0", []);
    var script := [calm, calm, Answer(true, "0", [e]), refusal, calm, refusal];
    ScriptIsHonest(e, script);
    ScriptIsCalm(e, script);
    s := new Synchronizer([], script);
    var ok := s.Begin();
    var _ := s.Await();
    AccountedGrows([], s.delivered, 0, {}, {}, s.rows, {});
    assert s.rows == [e] && s.pending == [e] && s.delivered == [Full(0)];
    PushedIsUnread(e);
    ok := s.DrainPending();
    OneMissed(s.rows, s.delivered, s.owed);
  }

  lemma ScriptIsCalm(e: Event, script: seq<Tick>)
    requires script == [Answer(true, "0", []), Answer(true, "0", []), Answer(true, "0", [e]),
                        Answer(false, "0", []), Answer(true, "0", []), Answer(false, "0", [])]
    ensures CalmFor(script, 2) && Canonical("0") && Value("0") == 0
    ensures Rest(script[2..], 1) == script[3..] && Still(script[3..], 3) && !Answers(script[3..], 0) && !Answers(script[3..], 2)
    ensures NextTick([], 0, script[2..]) == Answer(true, "0", [e])
  {
    OneIsOne();
  }

  lemma ScriptIsHonest(e: Event, script: seq<Tick>)
    requires ValidEvent(e) && Value(e.seqText) == 1
    requires script == [Answer(true, "0", []), Answer(true, "0", []), Answer(true, "0", [e]),
                        Answer(false, "0", []), Answer(true, "0", []), Answer(false, "0", [])]
    ensures Good([]) && HonestFuture([], script)
  {
    var rest := script[3..];
    QuietTail([e], rest);
    assert [] + [e] == [e] && script[2..][1..] == rest && Good([e]);
    assert HonestTick([], script[2]) by { assert AllHonest([e], [e]); }
    assert HonestFuture([], script[2..]);
    var none: seq<Event> := [];
    assert none + none == none && script[1..][1..] == script[2..];
    assert HonestTick([], script[1]) && HonestFuture([], script[1..]);
    assert HonestTick([], script[0]);
  }

  /** Answers without events and with the head 0 are always honest. */
  lemma {:induction false} QuietTail(rows: seq<Event>, script: seq<Tick>)
    requires Good(rows) && forall k :: 0 <= k < |script| ==> script[k].commits == [] && script[k].pushes == [] && script[k].changes == []
                                                             && script[k].head == "0"
    ensures HonestFuture(rows, script)
  {
    if script != [] {
      OneIsOne();
      assert rows + script[0].commits == rows;
      QuietTail(rows, script[1..]);
    }
  }

  lemma PushedIsUnread(e: Event)
    requires ValidEvent(e) && Value(e.seqText) == 1 && IsTransfer(e.kind)
    ensures Unread([e], [Full(0)], 0, 1, [e])
  {
    assert [e][0] == e;
    assert HasSeq([e], 1);
    assert Missed([e], [Full(0)], 0);
  }

  lemma OneMissed(rows: seq<Event>, delivered: seq<Read>, owed: set<nat>)
    requires SomeMissed(rows, delivered, 0, 1) && Accounted(rows, delivered, 1, {}, owed)
    ensures Missed(rows, delivered, 0) && owed == {0}
  {
  }

  /** The head that is read lags behind: lastSeq goes back from 1 to 0. */
  method MovesBack(e: Event) returns (s: Synchronizer)
    requires ValidEvent(e) && Value(e.seqText) == 1
    ensures s.World() && s.Fresh({}) && s.initialized && !s.stopped && s.rows == [e]
    ensures Value(s.lastSeq) == 0 && s.owed == {}
  {
    var calm := Answer(true, "0", []);
    var script := [Answer(true, "1", []), calm, calm, calm, calm];
    BackScriptIsHonest(e, script);
    s := new Synchronizer([e], script);
    var ok := s.Begin();
    assert s.lastSeq == "1" && s.future == script[2..];
    OneIsOne();
    var _, _ := s.ReconcileHead();
  }

  lemma OneIsOne()
    ensures Canonical("0") && Canonical("1") && Value("0") == 0 && Value("1") == 1
  {
    assert "0"[..0] == "" && "1"[..0] == "";
  }

  lemma BackScriptIsHonest(e: Event, script: seq<Tick>)
    requires ValidEvent(e) && Value(e.seqText) == 1
    requires |script| == 5 && script[0] == Answer(true, "1", []) && forall k :: 1 <= k < 5 ==> script[k] == Answer(true, "0", [])
    ensures Good([e]) && HonestFuture([e], script)
  {
    OneIsOne();
    assert [e] + [] == [e];
    QuietTail([e], script[1..]);
  }
}
