/** importworker.readVerifiedBatch: one pass over the immutable staging file checks its hash and record
    structure and cuts the next batch. Proved equal to a specification over the list of records. */
module StagedBatch {
  import opened Bytes
  import opened Wrappers

  const NEWLINE: Byte := 10
  const MAX_BATCH_POINTS: nat := 5000
  const MAX_BATCH_BYTES: nat := 5 * 1024 * 1024
  const CANONICAL_POINT_LIMIT: nat := 5 * 1024 * 1024

  type Line = seq<Byte>

  datatype Error = StagingOffset | StagingIntegrity | InvalidRequest | CheckpointConflict

  datatype Batch = Batch(payload: seq<Byte>, start: nat, end: nat, stagingSize: nat, points: nat)

  /** The open incident of an exact replay: its range and payload digest fix the batch. */
  datatype Replay = Replay(parentIsCurrent: bool, start: nat, end: nat, payload: Sha256<seq<Byte>>)

  /** A file as newline-terminated records (without their newlines) and what follows the last newline. */
  datatype Records = Records(lines: seq<Line>, tail: seq<Byte>)

  /** What the job's checkpoint and open incident ask of the file. */
  datatype Request = Request(expected: Sha256<seq<Byte>>, start: nat, points: nat, bytes: nat, replay: Option<Replay>)

  // ---------------------------------------------------------------- records of a file

  function Split(file: seq<Byte>): (r: Records)
  {
    if file == [] then Records([], [])
    else
      var r := Split(file[1..]);
      if file[0] == NEWLINE then Records([[]] + r.lines, r.tail)
      else if r.lines == [] then Records([], [file[0]] + r.tail)
      else Records([[file[0]] + r.lines[0]] + r.lines[1..], r.tail)
  }

  /** Offset just after the first k records. */
  function End(lines: seq<Line>, k: nat): nat
    requires k <= |lines|
  {
    if k == 0 then 0 else End(lines, k - 1) + |lines[k - 1]| + 1
  }

  /** The records lie in the file one after another, each up to its newline. */
  ghost predicate Parsed(file: seq<Byte>, r: Records) {
    && End(r.lines, |r.lines|) + |r.tail| == |file|
    && (forall k :: 0 <= k < |r.lines| ==> RecordAt(file, r.lines, k))
    && file[|file| - |r.tail|..] == r.tail && NEWLINE !in r.tail
  }

  predicate RecordAt(file: seq<Byte>, lines: seq<Line>, k: nat)
    requires k < |lines|
  {
    && End(lines, k) + |lines[k]| + 1 <= |file|
    && file[End(lines, k)..End(lines, k) + |lines[k]| + 1] == lines[k] + [NEWLINE] && NEWLINE !in lines[k]
  }

  /** Split finds the decomposition of every file. */
  lemma {:induction false} SplitParses(file: seq<Byte>)
    ensures Parsed(file, Split(file))
  {
    hide Parsed;
    if file == [] {
      NothingParses();
    } else {
      var s := Split(file[1..]);
      SplitParses(file[1..]);
      if file[0] == NEWLINE {
        PrependRecord(file, s);
      } else if s.lines != [] {
        PrependByte(file, s);
      } else {
        PrependToTail(file, s);
      }
    }
  }

  lemma NothingParses()
    ensures Parsed([], Records([], []))
  {
  }

  lemma PrependToTail(file: seq<Byte>, s: Records)
    requires file != [] && file[0] != NEWLINE && s.lines == [] && Parsed(file[1..], s)
    ensures Parsed(file, Records([], [file[0]] + s.tail))
  {
    assert file[1..] == s.tail;
    assert file == [file[0]] + file[1..];
  }

  lemma PrependRecord(file: seq<Byte>, s: Records)
    requires file != [] && file[0] == NEWLINE && Parsed(file[1..], s)
    ensures Parsed(file, Records([[]] + s.lines, s.tail))
  {
    var lines := [[]] + s.lines;
    forall k | 0 <= k <= |s.lines| ensures End(lines, k + 1) == End(s.lines, k) + 1 {
      EndOfPrepended(s.lines, k);
    }
    forall k | 0 <= k < |lines| ensures RecordAt(file, lines, k) {
      if k > 0 {
        assert RecordAt(file[1..], s.lines, k - 1);
        SliceShift(file, End(s.lines, k - 1), |lines[k]| + 1);
      }
    }
    assert file[|file| - |s.tail|..] == file[1..][|file| - 1 - |s.tail|..];
  }

  lemma {:induction false} EndOfPrepended(lines: seq<Line>, k: nat)
    requires k <= |lines|
    ensures End([[]] + lines, k + 1) == End(lines, k) + 1
  {
    if k > 0 {
      EndOfPrepended(lines, k - 1);
    } else {
      assert End([[]] + lines, 1) == End([[]] + lines, 0) + 1;
    }
  }

  lemma SliceShift(file: seq<Byte>, from: nat, n: nat)
    requires file != [] && from + n <= |file| - 1
    ensures file[1..][from..from + n] == file[from + 1..from + 1 + n]
  {
  }

  lemma SlicePrepend(file: seq<Byte>, n: nat)
    requires file != [] && n <= |file| - 1
    ensures file[0..n + 1] == [file[0]] + file[1..][0..n]
  {
  }

  lemma PrependByte(file: seq<Byte>, s: Records)
    requires file != [] && file[0] != NEWLINE && s.lines != [] && Parsed(file[1..], s)
    ensures Parsed(file, Records([[file[0]] + s.lines[0]] + s.lines[1..], s.tail))
  {
    var lines := [[file[0]] + s.lines[0]] + s.lines[1..];
    forall k | 1 <= k <= |s.lines| ensures End(lines, k) == End(s.lines, k) + 1 {
      EndOfExtended(s.lines, file[0], k);
    }
    forall k | 0 <= k < |lines| ensures RecordAt(file, lines, k) {
      assert RecordAt(file[1..], s.lines, k);
      if k > 0 {
        SliceShift(file, End(s.lines, k), |lines[k]| + 1);
      } else {
        SlicePrepend(file, |s.lines[0]| + 1);
      }
    }
    assert file[|file| - |s.tail|..] == file[1..][|file| - 1 - |s.tail|..];
  }

  lemma {:induction false} EndOfExtended(lines: seq<Line>, b: Byte, k: nat)
    requires 1 <= k <= |lines|
    ensures End([[b] + lines[0]] + lines[1..], k) == End(lines, k) + 1
  {
    var extended := [[b] + lines[0]] + lines[1..];
    if k > 1 {
      EndOfExtended(lines, b, k - 1);
      assert extended[k - 1] == lines[k - 1];
    } else {
      assert End(extended, 1) == End(extended, 0) + |extended[0]| + 1;
      assert End(lines, 1) == End(lines, 0) + |lines[0]| + 1;
    }
  }

  /** Bytes of n records from the k-th, with newlines between them but not after them. */
  function Size(lines: seq<Line>, k: nat, n: nat): int
    requires k + n <= |lines|
  {
    End(lines, k + n) - End(lines, k) - 1
  }

  predicate ValidLine(line: Line) {
    1 <= |line| <= CANONICAL_POINT_LIMIT
  }

  predicate WellFormed(r: Records) {
    r.tail == [] && forall i :: 0 <= i < |r.lines| ==> ValidLine(r.lines[i])
  }

  /** Number of leading records that are valid. */
  function GoodPrefix(lines: seq<Line>): (g: nat)
    ensures g <= |lines|
    ensures forall i :: 0 <= i < g ==> ValidLine(lines[i])
    ensures g < |lines| ==> !ValidLine(lines[g])
  {
    if lines == [] || !ValidLine(lines[0]) then 0 else 1 + GoodPrefix(lines[1..])
  }

  // ---------------------------------------------------------------- the specification

  predicate Fits(lines: seq<Line>, k: nat, n: nat, maxPoints: nat, maxBytes: nat)
    requires k + n <= |lines|
  {
    n <= 1 || (n <= maxPoints && Size(lines, k, n) <= maxBytes)
  }

  /** The longest run from record k that fits; empty only at the end of the file. */
  predicate LongestRun(lines: seq<Line>, k: nat, n: nat, maxPoints: nat, maxBytes: nat) {
    && k + n <= |lines|
    && (n == 0 <==> k == |lines|)
    && Fits(lines, k, n, maxPoints, maxBytes)
    && (k + n < |lines| ==> !Fits(lines, k, n + 1, maxPoints, maxBytes))
  }

  predicate Straddles(lines: seq<Line>, j: nat, start: nat)
    requires j < |lines|
  {
    End(lines, j) < start < End(lines, j + 1)
  }

  function Clamp(value: nat, maximum: nat): nat {
    if value > maximum then maximum else value
  }

  function MaxPoints(q: Request): nat {
    Clamp(q.points, MAX_BATCH_POINTS)
  }

  function MaxBytes(q: Request): nat {
    Clamp(q.bytes, MAX_BATCH_BYTES)
  }

  /** The payload is the file's bytes from start to end, without the last newline; a batch of no records is empty. */
  predicate IsRange(file: seq<Byte>, b: Batch) {
    if b.points == 0 then b.payload == [] && b.end == b.start
    else b.start < b.end <= |file| && file[b.end - 1] == NEWLINE && b.payload == file[b.start..b.end - 1]
  }

  /** Everything a successful read of a normal batch promises, over the records of the file. */
  predicate NormalBatch(file: seq<Byte>, r: Records, q: Request, k: nat, b: Batch) {
    && WellFormed(r) && |file| <= MAX_INT64 && q.expected == Sha256(file) && q.points > 0 && q.bytes > 0
    && k <= |r.lines| && End(r.lines, k) == q.start
    && LongestRun(r.lines, k, b.points, MaxPoints(q), MaxBytes(q))
    && b.start == q.start && b.end == End(r.lines, k + b.points) && b.stagingSize == |file|
    && IsRange(file, b)
  }

  /** An exact replay re-reads the incident's range and nothing else. */
  predicate ReplayBatch(file: seq<Byte>, r: Records, q: Request, replay: Replay, k: nat, b: Batch) {
    && WellFormed(r) && |file| <= MAX_INT64 && q.expected == Sha256(file) && q.points > 0 && q.bytes > 0
    && replay.parentIsCurrent && replay.start == q.start < replay.end
    && k + b.points <= |r.lines| && End(r.lines, k) == q.start && End(r.lines, k + b.points) == replay.end
    && b.start == q.start && b.end == replay.end && b.stagingSize == |file| && IsRange(file, b)
    && |b.payload| <= MAX_BATCH_BYTES && b.points <= MAX_BATCH_POINTS
    && replay.payload == Sha256(b.payload)
  }

  ghost predicate Accepted(file: seq<Byte>, r: Records, q: Request, b: Batch) {
    match q.replay
    case None => exists k: nat :: NormalBatch(file, r, q, k, b)
    case Some(replay) => exists k: nat :: ReplayBatch(file, r, q, replay, k, b)
  }

  ghost predicate Refused(file: seq<Byte>, r: Records, q: Request) {
    !exists b :: Accepted(file, r, q, b)
  }

  /** A normal batch is refused as misaligned exactly when a record of the valid leading part of the file
      straddles the start offset, or the offset lies past the end of a valid file. */
  ghost predicate OffsetFault(file: seq<Byte>, r: Records, start: nat) {
    || (exists j: nat :: j < GoodPrefix(r.lines) && Straddles(r.lines, j, start))
    || (WellFormed(r) && start > |file|)
  }

  /** What a refusal says: no batch is acceptable, and for a normal request the error names an offset
      fault exactly when there is one. */
  ghost predicate RightRefusal(file: seq<Byte>, r: Records, q: Request, e: Error) {
    && Refused(file, r, q)
    && (q.replay.None? && |file| <= MAX_INT64 ==> (e == StagingOffset <==> OffsetFault(file, r, q.start)))
  }

  // ---------------------------------------------------------------- facts about records

  lemma {:induction false} EndMonotone(lines: seq<Line>, i: nat, j: nat)
    requires i <= j <= |lines|
    ensures End(lines, i) + (j - i) <= End(lines, j)
    decreases j - i
  {
    if i < j {
      EndMonotone(lines, i, j - 1);
    }
  }

  lemma BoundaryUnique(lines: seq<Line>, i: nat, j: nat)
    requires i <= |lines| && j <= |lines| && End(lines, i) == End(lines, j)
    ensures i == j
  {
    if i < j {
      EndMonotone(lines, i, j);
    } else {
      EndMonotone(lines, j, i);
    }
  }

  /** The batch length is fixed by the limits: two longest runs from one record are the same run. */
  lemma LongestRunUnique(lines: seq<Line>, k: nat, m: nat, n: nat, maxPoints: nat, maxBytes: nat)
    requires LongestRun(lines, k, m, maxPoints, maxBytes)
    requires LongestRun(lines, k, n, maxPoints, maxBytes)
    ensures m == n
  {
    if m < n {
      EndMonotone(lines, k + m + 1, k + n);
    } else if n < m {
      EndMonotone(lines, k + n + 1, k + m);
    }
  }

  /** The specification is a function: an accepted read has one possible result. */
  lemma NormalBatchUnique(file: seq<Byte>, r: Records, q: Request, i: nat, b: Batch, j: nat, c: Batch)
    requires NormalBatch(file, r, q, i, b) && NormalBatch(file, r, q, j, c)
    ensures b == c
  {
    BoundaryUnique(r.lines, i, j);
    LongestRunUnique(r.lines, i, b.points, c.points, MaxPoints(q), MaxBytes(q));
  }

  lemma ReplayBatchUnique(file: seq<Byte>, r: Records, q: Request, replay: Replay, i: nat, b: Batch, j: nat, c: Batch)
    requires ReplayBatch(file, r, q, replay, i, b) && ReplayBatch(file, r, q, replay, j, c)
    ensures b == c
  {
    BoundaryUnique(r.lines, i, j);
    BoundaryUnique(r.lines, i + b.points, j + c.points);
  }

  lemma AcceptedUnique(file: seq<Byte>, r: Records, q: Request, b: Batch, c: Batch)
    requires Accepted(file, r, q, b) && Accepted(file, r, q, c)
    ensures b == c
  {
    match q.replay
    case None =>
      var i: nat :| NormalBatch(file, r, q, i, b);
      var j: nat :| NormalBatch(file, r, q, j, c);
      NormalBatchUnique(file, r, q, i, b, j, c);
    case Some(replay) =>
      var i: nat :| ReplayBatch(file, r, q, replay, i, b);
      var j: nat :| ReplayBatch(file, r, q, replay, j, c);
      ReplayBatchUnique(file, r, q, replay, i, b, j, c);
  }

  /** Every accepted batch: payload length is end - start - 1, and payload and newline are the range's bytes. */
  lemma BatchCoversRange(file: seq<Byte>, r: Records, q: Request, b: Batch)
    requires Accepted(file, r, q, b) && b.points > 0
    ensures b.start == q.start < b.end <= |file|
    ensures |b.payload| == b.end - b.start - 1
    ensures b.payload + [NEWLINE] == file[b.start..b.end]
  {
    assert file[b.start..b.end] == file[b.start..b.end - 1] + [file[b.end - 1]];
  }

  // ---------------------------------------------------------------- why a refusal is right

  lemma RefusePast(file: seq<Byte>, r: Records, q: Request, offset: nat)
    requires Parsed(file, r)
    requires || (offset == q.start && (offset > |file| || offset > MAX_INT64))
             || (q.replay.Some? && offset == q.replay.value.end
                 && (q.replay.value.start != q.start || offset <= q.start || offset > |file| || offset > MAX_INT64))
    ensures Refused(file, r, q)
  {
    forall k: nat | k <= |r.lines| ensures End(r.lines, k) <= |file| {
      EndMonotone(r.lines, k, |r.lines|);
    }
  }

  lemma RefuseMalformed(file: seq<Byte>, r: Records, q: Request, j: nat)
    requires j <= |r.lines| && Clean(r.lines, j, q.start)
    requires if j == |r.lines| then r.tail != [] else !ValidLine(r.lines[j])
    ensures RightRefusal(file, r, q, StagingIntegrity)
  {
    CleanFacts(r.lines, j, q.start);
  }

  lemma RefuseOversize(file: seq<Byte>, r: Records, q: Request, j: nat)
    requires Parsed(file, r) && j <= |r.lines| && End(r.lines, j) > MAX_INT64
    ensures |file| > MAX_INT64 && RightRefusal(file, r, q, StagingIntegrity)
  {
    EndMonotone(r.lines, j, |r.lines|);
  }

  lemma RefuseStraddle(file: seq<Byte>, r: Records, q: Request, j: nat, offset: nat)
    requires j < |r.lines| && Straddles(r.lines, j, offset)
    requires offset == q.start || (q.replay.Some? && offset == q.replay.value.end)
    requires Clean(r.lines, j, q.start) && ValidLine(r.lines[j])
    ensures Refused(file, r, q)
    ensures offset == q.start ==> RightRefusal(file, r, q, StagingOffset)
  {
    CleanFacts(r.lines, j, q.start);
    GoodUpTo(r.lines, j);
    forall k: nat | k <= |r.lines| ensures End(r.lines, k) != offset {
      if k <= j {
        EndMonotone(r.lines, k, j);
      } else {
        EndMonotone(r.lines, j + 1, k);
      }
    }
  }

  lemma {:induction false} GoodUpTo(lines: seq<Line>, j: nat)
    requires j < |lines| && forall i :: 0 <= i <= j ==> ValidLine(lines[i])
    ensures j < GoodPrefix(lines)
  {
    if j > 0 {
      GoodUpTo(lines[1..], j - 1);
    }
  }

  /** An accepted replay starts at the scanned record, and covers every run that ends inside its range. */
  lemma ReplayPinned(file: seq<Byte>, r: Records, q: Request, replay: Replay, k: nat, n: nat)
    requires k + n <= |r.lines| && End(r.lines, k) == q.start
    requires End(r.lines, k + n) <= replay.end
    ensures forall i: nat, b :: ReplayBatch(file, r, q, replay, i, b) ==>
              i == k && n <= b.points && (n > 0 ==> Size(r.lines, k, n) <= |b.payload|)
  {
    forall i: nat, b | ReplayBatch(file, r, q, replay, i, b)
      ensures i == k && n <= b.points && (n > 0 ==> Size(r.lines, k, n) <= |b.payload|)
    {
      BoundaryUnique(r.lines, i, k);
      if b.points < n {
        EndMonotone(r.lines, k + b.points, k + n);
      }
      EndMonotone(r.lines, k + n, k + b.points);
    }
  }

  lemma RefuseReplay(file: seq<Byte>, r: Records, q: Request, replay: Replay, j: nat, k: nat)
    requires q.replay == Some(replay)
    requires k <= j < |r.lines| && End(r.lines, k) == q.start
    requires Clean(r.lines, j, q.start) && ValidLine(r.lines[j])
    requires || Straddles(r.lines, j, replay.end)
             || (End(r.lines, j + 1) <= replay.end
                 && (Size(r.lines, k, j + 1 - k) > MAX_BATCH_BYTES || j + 1 - k > MAX_BATCH_POINTS))
    ensures forall e :: RightRefusal(file, r, q, e)
  {
    if Straddles(r.lines, j, replay.end) {
      RefuseStraddle(file, r, q, j, replay.end);
    } else {
      ReplayPinned(file, r, q, replay, k, j + 1 - k);
    }
  }

  // ---------------------------------------------------------------- the one-pass reader

  /** Every record before the j-th is valid and none straddles the start offset. */
  ghost predicate Clean(lines: seq<Line>, j: nat, start: nat) {
    j <= |lines| && forall i: nat :: i < j ==> CleanLine(lines, i, start)
  }

  predicate CleanLine(lines: seq<Line>, i: nat, start: nat)
    requires i < |lines|
  {
    ValidLine(lines[i]) && !Straddles(lines, i, start)
  }

  lemma CleanFacts(lines: seq<Line>, j: nat, start: nat)
    requires Clean(lines, j, start)
    ensures forall i: nat :: i < j ==> ValidLine(lines[i])
    ensures forall i: nat :: i < j ==> !Straddles(lines, i, start)
  {
    forall i: nat | i < j ensures ValidLine(lines[i]) && !Straddles(lines, i, start) {
      assert CleanLine(lines, i, start);
    }
  }

  lemma CleanStep(lines: seq<Line>, j: nat, start: nat)
    requires Clean(lines, j, start) && j < |lines| && ValidLine(lines[j]) && !Straddles(lines, j, start)
    ensures Clean(lines, j + 1, start)
  {
  }

  /** State of the selection after the first j records: the batch is records k up to the scan position,
      or was closed earlier because the next record did not belong to it. */
  ghost predicate Selected(file: seq<Byte>, lines: seq<Line>, j: nat, q: Request, k: nat, b: Batch, closed: bool) {
    && j <= |lines| && b.start == q.start && b.stagingSize == 0
    && IsRange(file, b) && (b.points == 0 ==> !closed && End(lines, j) <= q.start)
    && (b.points > 0 ==>
          && k + b.points <= j && End(lines, k) == q.start
          && b.end == End(lines, k + b.points)
          && |b.payload| <= MAX_BATCH_BYTES && b.points <= MAX_BATCH_POINTS
          && (!closed ==> k + b.points == j))
    && (b.points > 0 && q.replay.None? ==>
          && Fits(lines, k, b.points, MaxPoints(q), MaxBytes(q))
          && (closed ==> k + b.points < j && !Fits(lines, k, b.points + 1, MaxPoints(q), MaxBytes(q))))
    && (b.points > 0 && q.replay.Some? ==>
          b.end <= q.replay.value.end && (closed <==> b.end == q.replay.value.end))
  }

  ghost predicate Scannable(q: Request) {
    && q.start <= MAX_INT64 && q.points > 0 && q.bytes > 0
    && (q.replay.Some? ==> q.replay.value.start == q.start < q.replay.value.end)
  }

  lemma RecordBytes(file: seq<Byte>, line: Line, recordStart: nat)
    requires recordStart + |line| + 1 <= |file|
    requires file[recordStart..recordStart + |line| + 1] == line + [NEWLINE]
    ensures file[recordStart..recordStart + |line|] == line && file[recordStart + |line|] == NEWLINE
  {
    var record := file[recordStart..recordStart + |line| + 1];
    assert record[..|line|] == file[recordStart..recordStart + |line|];
    assert record[|line|] == file[recordStart + |line|];
  }

  lemma SliceFree(file: seq<Byte>, from: nat, text: seq<Byte>)
    requires from + |text| <= |file| && file[from..from + |text|] == text && NEWLINE !in text
    ensures forall i :: from <= i < from + |text| ==> file[i] != NEWLINE
  {
    forall i | from <= i < from + |text| ensures file[i] != NEWLINE {
      assert file[from..from + |text|][i - from] == file[i];
    }
  }

  /** The bytes from record j to its newline, or of the tail, hold no newline. */
  lemma RecordExtent(file: seq<Byte>, r: Records, j: nat)
    requires Parsed(file, r) && j < |r.lines|
    ensures var c := End(r.lines, j); var e := c + |r.lines[j]|;
            && e < |file| && file[e] == NEWLINE && file[c..e] == r.lines[j]
            && (forall i :: c <= i < e ==> file[i] != NEWLINE)
  {
    assert RecordAt(file, r.lines, j);
    RecordBytes(file, r.lines[j], End(r.lines, j));
    SliceFree(file, End(r.lines, j), r.lines[j]);
  }

  lemma TailExtent(file: seq<Byte>, r: Records)
    requires Parsed(file, r)
    ensures var c := End(r.lines, |r.lines|);
            c <= |file| && file[c..] == r.tail && (forall i :: c <= i < |file| ==> file[i] != NEWLINE)
  {
    SliceFree(file, |file| - |r.tail|, r.tail);
  }

  /** bufio's ReadBytes: up to and including the next newline, or the rest of the file. */
  method ReadBytes(file: seq<Byte>, cursor: nat, ghost r: Records, ghost j: nat)
    returns (record: seq<Byte>, atEof: bool)
    requires Parsed(file, r) && j <= |r.lines| && cursor == End(r.lines, j) <= |file|
    ensures atEof ==> j == |r.lines| && record == r.tail && NEWLINE !in record
    ensures !atEof ==> j < |r.lines| && record == r.lines[j] + [NEWLINE]
    ensures cursor + |record| <= |file| && file[..cursor] + record == file[..cursor + |record|]
  {
    var newline := cursor;
    while newline < |file| && file[newline] != NEWLINE
      invariant cursor <= newline <= |file|
      invariant forall i :: cursor <= i < newline ==> file[i] != NEWLINE
    {
      newline := newline + 1;
    }
    if j < |r.lines| {
      RecordExtent(file, r, j);
    } else {
      TailExtent(file, r);
    }
    if newline == |file| {
      return file[cursor..], true;
    }
    record, atEof := file[cursor..newline + 1], false;
  }

  lemma SlicesMeet(file: seq<Byte>, a: nat, b: nat, c: nat)
    requires a < b <= c <= |file|
    ensures file[a..b - 1] + [file[b - 1]] + file[b..c] == file[a..c]
  {
  }

  lemma PayloadGrows(file: seq<Byte>, b: Batch, next: Batch, line: Line, recordStart: nat)
    requires IsRange(file, b) && recordStart + |line| + 1 <= |file|
    requires file[recordStart..recordStart + |line| + 1] == line + [NEWLINE]
    requires if b.points == 0 then b.start == recordStart else b.end == recordStart
    requires next.start == b.start && next.end == recordStart + |line| + 1 && next.points == b.points + 1
    requires next.payload == if b.points == 0 then line else b.payload + [NEWLINE] + line
    ensures IsRange(file, next) && |next.payload| == next.end - next.start - 1
  {
    RecordBytes(file, line, recordStart);
    if b.points > 0 {
      SlicesMeet(file, b.start, b.end, next.end - 1);
      assert file[b.end..next.end - 1] == line && [file[b.end - 1]] == [NEWLINE];
      assert next.payload == file[b.start..b.end - 1] + [file[b.end - 1]] + file[b.end..next.end - 1];
    }
  }

  /** The record belongs to the batch: it starts at the offset, or continues an open batch. */
  predicate Joins(lines: seq<Line>, j: nat, q: Request, b: Batch, closed: bool)
    requires j < |lines|
  {
    End(lines, j) == q.start || (End(lines, j) > q.start && b.points > 0 && !closed)
  }

  predicate Allowed(line: Line, q: Request, b: Batch) {
    q.replay.Some? || b.points == 0 || (b.points < MaxPoints(q) && |b.payload| + 1 + |line| <= MaxBytes(q))
  }

  function Append(b: Batch, line: Line, end: nat): Batch {
    b.(payload := if b.points > 0 then b.payload + [NEWLINE] + line else b.payload + line, points := b.points + 1, end := end)
  }

  lemma SelectSkips(file: seq<Byte>, lines: seq<Line>, j: nat, q: Request, k: nat, b: Batch, closed: bool)
    requires Selected(file, lines, j, q, k, b, closed) && j < |lines| && !Straddles(lines, j, q.start) && !Joins(lines, j, q, b, closed)
    ensures Selected(file, lines, j + 1, q, k, b, closed)
  {
    if b.points > 0 { EndMonotone(lines, k, j); }
  }

  lemma SelectCloses(file: seq<Byte>, lines: seq<Line>, j: nat, q: Request, k: nat, b: Batch, closed: bool)
    requires Scannable(q) && Selected(file, lines, j, q, k, b, closed) && j < |lines| && Joins(lines, j, q, b, closed)
    requires !Allowed(lines[j], q, b)
    ensures Selected(file, lines, j + 1, q, k, b, true)
  {
    EndMonotone(lines, k, j);
  }

  lemma AppendedRun(file: seq<Byte>, lines: seq<Line>, j: nat, q: Request, k: nat, b: Batch, closed: bool)
    requires Selected(file, lines, j, q, k, b, closed) && j < |lines| && RecordAt(file, lines, j) && Joins(lines, j, q, b, closed)
    ensures var first, next := if b.points == 0 then j else k, Append(b, lines[j], End(lines, j + 1));
            && !closed && first <= j && End(lines, first) == q.start && next.points == j + 1 - first && next.start == q.start
            && IsRange(file, next) && |next.payload| == Size(lines, first, j + 1 - first)
  {
    hide IsRange, RecordAt, Fits, MaxPoints, MaxBytes;
    if b.points > 0 { EndMonotone(lines, k, j); }
    AppendedRange(file, lines, j, b);
  }

  lemma AppendedRange(file: seq<Byte>, lines: seq<Line>, j: nat, b: Batch)
    requires j < |lines| && RecordAt(file, lines, j) && IsRange(file, b)
    requires End(lines, j) == if b.points == 0 then b.start else b.end
    ensures var next := Append(b, lines[j], End(lines, j + 1));
            IsRange(file, next) && |next.payload| == next.end - next.start - 1
  {
    var next := Append(b, lines[j], End(lines, j + 1));
    AppendedPayload(file, b, lines[j], next.end);
    hide Append;
    PayloadGrows(file, b, next, lines[j], End(lines, j));
  }

  lemma AppendedPayload(file: seq<Byte>, b: Batch, line: Line, end: nat)
    requires IsRange(file, b)
    ensures var next := Append(b, line, end);
            && next.start == b.start && next.end == end && next.points == b.points + 1
            && next.payload == if b.points == 0 then line else b.payload + [NEWLINE] + line
  {
  }

  lemma SelectAppends(file: seq<Byte>, lines: seq<Line>, j: nat, q: Request, k: nat, b: Batch, closed: bool)
    requires Scannable(q) && Selected(file, lines, j, q, k, b, closed) && j < |lines| && RecordAt(file, lines, j) && ValidLine(lines[j])
    requires Joins(lines, j, q, b, closed) && Allowed(lines[j], q, b)
    requires q.replay.Some? ==> End(lines, j + 1) <= q.replay.value.end
    ensures var first, next := if b.points == 0 then j else k, Append(b, lines[j], End(lines, j + 1));
            |next.payload| <= MAX_BATCH_BYTES && next.points <= MAX_BATCH_POINTS ==>
              Selected(file, lines, j + 1, q, first, next, q.replay.Some? && End(lines, j + 1) == q.replay.value.end)
  {
    AppendedRun(file, lines, j, q, k, b, closed);
    if b.points > 0 { EndMonotone(lines, k, j); }
    hide IsRange, RecordAt;
  }

  lemma ReplayOverrun(file: seq<Byte>, lines: seq<Line>, j: nat, q: Request, k: nat, b: Batch, closed: bool)
    requires Scannable(q) && Selected(file, lines, j, q, k, b, closed) && j < |lines| && Joins(lines, j, q, b, closed)
    requires q.replay.Some? && End(lines, j + 1) > q.replay.value.end
    ensures Straddles(lines, j, q.replay.value.end)
  {
    if b.points > 0 { EndMonotone(lines, k, j); }
  }

  /** The limits of a normal request are at most the hard ones. */
  lemma WithinLimits(line: Line, q: Request, b: Batch, end: nat)
    requires ValidLine(line) && Allowed(line, q, b) && q.replay.None?
    ensures |b.payload| == 0 || b.points > 0 ==> |Append(b, line, end).payload| <= MAX_BATCH_BYTES
    ensures Append(b, line, end).points <= MAX_BATCH_POINTS
  {
  }

  lemma EmptyBatch(file: seq<Byte>, lines: seq<Line>, j: nat, q: Request, k: nat, b: Batch, closed: bool)
    requires Selected(file, lines, j, q, k, b, closed)
    ensures b.points == 0 ==> b.payload == []
  {
  }

  /** One record's turn in the selection: skipped, appended to the batch, or the close of it. */
  method Select(ghost file: seq<Byte>, ghost lines: seq<Line>, ghost j: nat, line: Line, recordStart: nat, cursor: nat, q: Request,
                batch: Batch, closed: bool, ghost k: nat)
    returns (error: Option<Error>, next: Batch, nextClosed: bool, ghost first: nat)
    requires Scannable(q) && Selected(file, lines, j, q, k, batch, closed)
    requires j < |lines| && RecordAt(file, lines, j) && line == lines[j] && ValidLine(line) && !Straddles(lines, j, q.start)
    requires recordStart == End(lines, j) && cursor == End(lines, j + 1)
    ensures error.None? ==> Selected(file, lines, j + 1, q, first, next, nextClosed)
    ensures error.Some? ==> q.replay.Some? && first <= j && End(lines, first) == q.start
    ensures error == Some(StagingOffset) ==> Straddles(lines, j, q.replay.value.end)
    ensures error.Some? && error.value != StagingOffset ==>
              && error.value == StagingIntegrity && cursor <= q.replay.value.end
              && (Size(lines, first, j + 1 - first) > MAX_BATCH_BYTES || j + 1 - first > MAX_BATCH_POINTS)
  {
    hide Selected, Scannable, RecordAt, IsRange, MaxPoints, MaxBytes, ValidLine;
    error, next, nextClosed, first := None, batch, closed, k;
    if recordStart == q.start || (recordStart > q.start && batch.points > 0 && !closed) {
      AppendedRun(file, lines, j, q, k, batch, closed);
      if batch.points == 0 {
        first := j;
      }
      var candidateSize := |line|;
      if batch.points > 0 {
        candidateSize := candidateSize + |batch.payload| + 1;
      }
      var allowed := q.replay.Some? || batch.points == 0 || (batch.points < MaxPoints(q) && candidateSize <= MaxBytes(q));
      if q.replay.Some? && cursor > q.replay.value.end {
        ReplayOverrun(file, lines, j, q, k, batch, closed);
        return Some(StagingOffset), batch, closed, first;
      }
      if !allowed {
        SelectCloses(file, lines, j, q, k, batch, closed);
        nextClosed := true;
      } else {
        SelectAppends(file, lines, j, q, k, batch, closed);
        if batch.points > 0 {
          next := next.(payload := next.payload + [NEWLINE]);
        }
        next := next.(payload := next.payload + line, points := batch.points + 1, end := cursor);
        if |next.payload| > MAX_BATCH_BYTES || next.points > MAX_BATCH_POINTS {
          EmptyBatch(file, lines, j, q, k, batch, closed);
          if q.replay.None? { WithinLimits(line, q, batch, cursor); }
          return Some(StagingIntegrity), batch, closed, first;
        }
        if q.replay.Some? && cursor == q.replay.value.end {
          nextClosed := true;
        }
      }
    } else {
      SelectSkips(file, lines, j, q, k, batch, closed);
    }
  }

  /** One record: its structure, the int64 cursor, alignment with the start offset, then the selection. */
  method Accept(ghost file: seq<Byte>, ghost r: Records, record: seq<Byte>, recordStart: nat, q: Request,
                batch: Batch, closed: bool, ghost j: nat, ghost k: nat)
    returns (failed: Option<Error>, next: Batch, nextClosed: bool, ghost first: nat)
    requires Parsed(file, r) && Scannable(q) && Clean(r.lines, j, q.start)
    requires recordStart == End(r.lines, j) <= MAX_INT64 && Selected(file, r.lines, j, q, k, batch, closed)
    requires record != []
    requires || (NEWLINE !in record && j == |r.lines| && r.tail == record)
             || (j < |r.lines| && record == r.lines[j] + [NEWLINE])
    ensures failed.Some? ==> RightRefusal(file, r, q, failed.value)
    ensures failed.None? ==>
              && j < |r.lines| && recordStart + |record| <= MAX_INT64
              && Clean(r.lines, j + 1, q.start) && Selected(file, r.lines, j + 1, q, first, next, nextClosed)
  {
    hide Selected, RightRefusal, Clean, Scannable;
    failed, next, nextClosed, first := None, batch, closed, k;
    if record[|record| - 1] != NEWLINE || |record| == 1 || |record| - 1 > CANONICAL_POINT_LIMIT {
      RefuseMalformed(file, r, q, j);
      failed := Some(StagingIntegrity);
      return;
    }
    var line := record[..|record| - 1];
    assert line == r.lines[j];
    if |record| > MAX_INT64 - recordStart {
      RefuseOversize(file, r, q, j + 1);
      failed := Some(StagingIntegrity);
      return;
    }
    var cursor := recordStart + |record|;
    if recordStart < q.start && cursor > q.start {
      RefuseStraddle(file, r, q, j, q.start);
      failed := Some(StagingOffset);
      return;
    }
    CleanStep(r.lines, j, q.start);
    assert RecordAt(file, r.lines, j);
    failed, next, nextClosed, first := Select(file, r.lines, j, line, recordStart, cursor, q, batch, closed, k);
    if failed.Some? {
      RefuseReplay(file, r, q, q.replay.value, j, first);
    }
  }

  /** The loop over the file's records: hash, structure and selection in one pass. */
  method Scan(file: seq<Byte>, ghost r: Records, q: Request)
    returns (failed: Option<Error>, batch: Batch, hashed: seq<Byte>, ghost k: nat, ghost closed: bool)
    requires Parsed(file, r) && Scannable(q)
    ensures failed.Some? ==> RightRefusal(file, r, q, failed.value)
    ensures failed.None? ==>
              && hashed == file && |file| <= MAX_INT64 && r.tail == [] && Clean(r.lines, |r.lines|, q.start)
              && Selected(file, r.lines, |r.lines|, q, k, batch, closed)
  {
    hide Selected, RightRefusal, Clean, Scannable, Parsed;
    ScanStarts(file, r, q);
    failed := None;
    hashed, batch, k, closed := [], Batch([], q.start, q.start, 0, 0), 0, false;
    var cursor: nat := 0;
    var selectionClosed := false;
    ghost var j: nat := 0;
    var atEof := false;
    while !atEof
      invariant failed == None && j <= |r.lines|
      invariant Clean(r.lines, j, q.start) && Selected(file, r.lines, j, q, k, batch, selectionClosed)
      invariant cursor == End(r.lines, j) <= |file| && cursor <= MAX_INT64 && hashed == file[..cursor]
      invariant atEof ==> j == |r.lines| && r.tail == []
      decreases !atEof, |file| - cursor
    {
      var record;
      record, atEof := ReadBytes(file, cursor, r, j);
      if |record| != 0 {
        failed, batch, selectionClosed, k := Accept(file, r, record, cursor, q, batch, selectionClosed, j, k);
        if failed.Some? {
          return;
        }
        hashed, cursor, j := hashed + record, cursor + |record|, j + 1;
      }
    }
    closed := selectionClosed;
    WholeFile(file, r);
  }

  lemma ScanStarts(file: seq<Byte>, r: Records, q: Request)
    ensures Clean(r.lines, 0, q.start) && Selected(file, r.lines, 0, q, 0, Batch([], q.start, q.start, 0, 0), false)
  {
  }

  lemma WholeFile(file: seq<Byte>, r: Records)
    requires Parsed(file, r) && r.tail == []
    ensures End(r.lines, |r.lines|) == |file| && file[..|file|] == file
  {
  }

  method ReadVerifiedBatch(file: seq<Byte>, q: Request) returns (result: Result<Batch, Error>)
    ensures result.Ok? ==> Accepted(file, Split(file), q, result.value)
    ensures result.Err? ==> Refused(file, Split(file), q)
    ensures result.Err? && q.start <= MAX_INT64 && q.points > 0 && q.bytes > 0 ==>
              RightRefusal(file, Split(file), q, result.error)
  {
    hide Parsed, Clean, Accepted, Split, WellFormed, MaxPoints, MaxBytes;
    ghost var r := Split(file);
    SplitParses(file);
    if q.start > MAX_INT64 {
      RefusePast(file, r, q, q.start);
      return Err(StagingOffset);
    }
    if q.points == 0 || q.bytes == 0 {
      RefuseStale(file, r, q);
      return Err(InvalidRequest);
    }
    if q.replay.Some? {
      if !q.replay.value.parentIsCurrent {
        RefuseStale(file, r, q);
        return Err(CheckpointConflict);
      }
      if q.replay.value.start != q.start || q.replay.value.end > MAX_INT64 || q.replay.value.end <= q.start {
        RefusePast(file, r, q, q.replay.value.end);
        return Err(StagingOffset);
      }
    }
    var failed, batch, hashed; ghost var k: nat, closed: bool;
    failed, batch, hashed, k, closed := Scan(file, r, q);
    if failed.Some? {
      return Err(failed.value);
    }
    var cursor := |hashed|;
    WholeFile(file, r);
    batch := batch.(stagingSize := cursor);
    if q.start > cursor || (q.start < cursor && batch.points == 0) {
      RefuseBeyond(file, r, q);
      return Err(StagingOffset);
    }
    if q.replay.Some? && batch.end != q.replay.value.end {
      RefusePast(file, r, q, q.replay.value.end);
      return Err(StagingOffset);
    }
    if Sha256(hashed) != q.expected {
      RefuseHash(file, r, q);
      return Err(StagingIntegrity);
    }
    if batch.points == 0 {
      k := |r.lines|;
    }
    if batch.points != 0 && q.replay.Some? && q.replay.value.payload != Sha256(batch.payload) {
      RefusePayload(file, r, q, k, batch);
      return Err(CheckpointConflict);
    }
    Conclude(file, r, q, k, closed, batch);
    result := Ok(batch);
  }

  lemma RefuseStale(file: seq<Byte>, r: Records, q: Request)
    requires q.points == 0 || q.bytes == 0 || (q.replay.Some? && !q.replay.value.parentIsCurrent)
    ensures Refused(file, r, q)
  {
  }

  /** The range of an exact replay fixes the batch; its payload is not the one on record. */
  lemma RefusePayload(file: seq<Byte>, r: Records, q: Request, k: nat, b: Batch)
    requires q.replay.Some? && b.points > 0 && k + b.points <= |r.lines| && End(r.lines, k) == q.start == b.start
    requires End(r.lines, k + b.points) == q.replay.value.end == b.end && IsRange(file, b)
    requires q.replay.value.payload != Sha256(b.payload)
    ensures Refused(file, r, q)
  {
    ReplayPinned(file, r, q, q.replay.value, k, b.points);
  }

  lemma RefuseHash(file: seq<Byte>, r: Records, q: Request)
    requires q.expected != Sha256(file) && q.start <= |file| && Clean(r.lines, |r.lines|, q.start)
    ensures RightRefusal(file, r, q, StagingIntegrity)
  {
    CleanFacts(r.lines, |r.lines|, q.start);
  }

  lemma RefuseBeyond(file: seq<Byte>, r: Records, q: Request)
    requires Parsed(file, r) && r.tail == [] && Clean(r.lines, |r.lines|, q.start) && q.start > |file|
    ensures RightRefusal(file, r, q, StagingOffset)
  {
    CleanFacts(r.lines, |r.lines|, q.start);
    RefusePast(file, r, q, q.start);
  }

  /** A completed scan that passed the final checks selected the specified batch. */
  lemma Conclude(file: seq<Byte>, r: Records, q: Request, k: nat, closed: bool, b: Batch)
    requires Parsed(file, r) && Scannable(q) && Clean(r.lines, |r.lines|, q.start) && r.tail == []
    requires |file| <= MAX_INT64 && q.expected == Sha256(file)
    requires Selected(file, r.lines, |r.lines|, q, k, b.(stagingSize := 0), closed) && b.stagingSize == |file|
    requires b.points == 0 ==> q.start == |file| && k == |r.lines| && q.replay.None?
    requires q.replay.Some? ==> q.replay.value.parentIsCurrent && b.end == q.replay.value.end
                                && q.replay.value.payload == Sha256(b.payload)
    ensures Accepted(file, r, q, b)
  {
    CleanFacts(r.lines, |r.lines|, q.start);
    if q.replay.Some? {
      assert ReplayBatch(file, r, q, q.replay.value, k, b);
    } else {
      assert NormalBatch(file, r, q, k, b);
    }
  }
}
