/** query.resultStore: retained rows live in memory until a byte limit and then in one encrypted spill file. Seen from
    outside it is the plain list of the rows accepted so far, cut by series. */
module ResultStore {
  import opened Bytes
  import opened RowCodec
  import opened Wrappers

  datatype SeriesKey = SeriesKey(statement: nat, series: string)

  type Row = seq<TypedScalar>

  datatype Accepted = Accepted(key: SeriesKey, row: Row)

  // ---------------------------------------------------------------- the plain list

  /** The rows of one series, in the order they were accepted. */
  function RowsOf(log: seq<Accepted>, key: SeriesKey): seq<Row> {
    if log == [] then []
    else RowsOf(log[..|log| - 1], key) + if log[|log| - 1].key == key then [log[|log| - 1].row] else []
  }

  /** What the store answers for one series: its slice, and nothing for a series without rows or an offset past the end. */
  function StoredSlice(log: seq<Accepted>, key: SeriesKey, offset: nat, limit: nat): Option<seq<Row>> {
    var rows := RowsOf(log, key);
    if rows == [] || offset > |rows| then None
    else Some(rows[offset..if offset + limit > |rows| then |rows| else offset + limit])
  }

  /** Their positions in the log. */
  function OrdinalsOf(log: seq<Accepted>, key: SeriesKey): seq<nat> {
    if log == [] then []
    else OrdinalsOf(log[..|log| - 1], key) + if log[|log| - 1].key == key then [|log| - 1] else []
  }

  function ByteCount(log: seq<Accepted>, numeric: Numeric): nat {
    if log == [] then 0
    else ByteCount(log[..|log| - 1], numeric) + Size(log[|log| - 1].row, numeric)
  }

  function Size(row: Row, numeric: Numeric): nat {
    match EncodeRow(row, numeric) case None => 0 case Some(b) => |b|
  }

  lemma {:induction false} OrdinalsPointAtRows(log: seq<Accepted>, key: SeriesKey)
    ensures |OrdinalsOf(log, key)| == |RowsOf(log, key)|
    ensures forall j :: 0 <= j < |OrdinalsOf(log, key)| ==>
              OrdinalsOf(log, key)[j] < |log| && log[OrdinalsOf(log, key)[j]] == Accepted(key, RowsOf(log, key)[j])
  {
    if log != [] {
      OrdinalsPointAtRows(log[..|log| - 1], key);
    }
  }

  lemma BytesGrow(log: seq<Accepted>, a: Accepted, numeric: Numeric)
    ensures ByteCount(log + [a], numeric) == ByteCount(log, numeric) + Size(a.row, numeric)
  {
    assert (log + [a])[..|log|] == log;
  }

  // ---------------------------------------------------------------- frames of the spill file

  const NONCE_SIZE := 12

  /** AES-GCM with the row's ordinal as associated data: whatever was sealed opens again under the same ordinal. */
  datatype Aead = Aead(seal: (Text, Text, nat) -> Text, open: (Text, Text, nat) -> Option<Text>) {
    ghost predicate Inverse() {
      forall nonce, payload, ordinal :: open(nonce, seal(nonce, payload, ordinal), ordinal) == Some(payload)
    }
  }

  function Frame(aead: Aead, nonce: Text, payload: Text, ordinal: nat): Text
    requires |aead.seal(nonce, payload, ordinal)| <= MAX_UINT32
  {
    U32(|aead.seal(nonce, payload, ordinal)|) + nonce + aead.seal(nonce, payload, ordinal)
  }

  /** readStoredRow on the bytes of one frame. */
  function OpenFrame(aead: Aead, frame: Text, ordinal: nat): Option<Text> {
    if |frame| < 4 + NONCE_SIZE || FromU32(frame[..4]) != |frame| - 4 - NONCE_SIZE then None
    else aead.open(frame[4..4 + NONCE_SIZE], frame[4 + NONCE_SIZE..], ordinal)
  }

  lemma FrameOpens(aead: Aead, nonce: Text, payload: Text, ordinal: nat)
    requires aead.Inverse() && |nonce| == NONCE_SIZE && |aead.seal(nonce, payload, ordinal)| <= MAX_UINT32
    ensures OpenFrame(aead, Frame(aead, nonce, payload, ordinal), ordinal) == Some(payload)
  {
    var sealed := aead.seal(nonce, payload, ordinal);
    var frame := Frame(aead, nonce, payload, ordinal);
    U32RoundTrip(|sealed|);
    assert frame[..4] == U32(|sealed|) && frame[4..4 + NONCE_SIZE] == nonce && frame[4 + NONCE_SIZE..] == sealed;
  }

  /** What one row reference points at: bytes in memory, or a frame of the spill file. */
  datatype Ref = Ref(memory: Option<Text>, offset: nat, length: nat)

  function ReadRef(aead: Aead, ref: Ref, ordinal: nat, spill: Option<Text>): Option<Text> {
    if ref.memory.Some? then ref.memory
    else if spill.None? || ref.length < 4 + NONCE_SIZE || ref.offset + ref.length > |spill.value| then None
    else OpenFrame(aead, spill.value[ref.offset..ref.offset + ref.length], ordinal)
  }

  /** Bytes appended to the file leave every earlier frame where it was. */
  lemma AppendKeepsFrames(aead: Aead, ref: Ref, ordinal: nat, spill: Text, more: Text)
    requires ReadRef(aead, ref, ordinal, Some(spill)).Some?
    ensures ReadRef(aead, ref, ordinal, Some(spill + more)) == ReadRef(aead, ref, ordinal, Some(spill))
  {
    if ref.memory.None? {
      assert (spill + more)[ref.offset..ref.offset + ref.length] == spill[ref.offset..ref.offset + ref.length];
    }
  }

  lemma NewFrameReads(aead: Aead, ordinal: nat, spill: Text, nonce: Text, payload: Text)
    requires aead.Inverse() && |nonce| == NONCE_SIZE && |aead.seal(nonce, payload, ordinal)| <= MAX_UINT32
    ensures var frame := Frame(aead, nonce, payload, ordinal);
            ReadRef(aead, Ref(None, |spill|, |frame|), ordinal, Some(spill + frame)) == Some(payload)
  {
    var frame := Frame(aead, nonce, payload, ordinal);
    FrameOpens(aead, nonce, payload, ordinal);
    assert (spill + frame)[|spill|..|spill| + |frame|] == frame;
  }

  // ---------------------------------------------------------------- the store

  /** One write to the spill file: a nonce, and None or the number of bytes after which it fails. */
  datatype Write = Write(nonce: Text, fault: Option<nat>)

  datatype Options = Options(directory: bool, memoryBytes: nat, maxBytes: nat, maxRows: nat)

  datatype AppendResult = Stored(full: bool) | LimitReached | StoreFailed

  const SPILL_MAGIC: Text := [73, 68, 81, 83, 80, 76, 1, 10]

  /** Every reference reads back its payload. */
  ghost predicate Held(aead: Aead, arena: seq<Ref>, payloads: seq<Text>, spill: Option<Text>) {
    |arena| == |payloads| && forall i :: 0 <= i < |arena| ==> HeldAt(aead, arena, payloads, spill, i)
  }

  predicate HeldAt(aead: Aead, arena: seq<Ref>, payloads: seq<Text>, spill: Option<Text>, i: nat)
    requires i < |arena| && i < |payloads|
  {
    ReadRef(aead, arena[i], i, spill) == Some(payloads[i])
  }

  lemma HeldThroughAppend(aead: Aead, arena: seq<Ref>, payloads: seq<Text>, spill: Text, more: Text)
    requires Held(aead, arena, payloads, Some(spill))
    ensures Held(aead, arena, payloads, Some(spill + more))
  {
    forall i | 0 <= i < |arena| ensures HeldAt(aead, arena, payloads, Some(spill + more), i) {
      assert HeldAt(aead, arena, payloads, Some(spill), i);
      AppendKeepsFrames(aead, arena[i], i, spill, more);
    }
  }

  lemma HeldThroughUpdate(aead: Aead, arena: seq<Ref>, payloads: seq<Text>, spill: Option<Text>, i: nat, ref: Ref)
    requires Held(aead, arena, payloads, spill) && i < |arena| && ReadRef(aead, ref, i, spill) == Some(payloads[i])
    ensures Held(aead, arena[i := ref], payloads, spill)
  {
    var after := arena[i := ref];
    forall j | 0 <= j < |arena| ensures HeldAt(aead, after, payloads, spill, j) {
      assert HeldAt(aead, arena, payloads, spill, j);
    }
  }

  lemma HeldGrows(aead: Aead, arena: seq<Ref>, payloads: seq<Text>, spill: Option<Text>, ref: Ref, payload: Text)
    requires Held(aead, arena, payloads, spill) && ReadRef(aead, ref, |arena|, spill) == Some(payload)
    ensures Held(aead, arena + [ref], payloads + [payload], spill)
  {
    forall j | 0 <= j < |arena| + 1 ensures HeldAt(aead, arena + [ref], payloads + [payload], spill, j) {
      if j < |arena| {
        assert HeldAt(aead, arena, payloads, spill, j);
      }
    }
  }

  /** A file that comes into being changes nothing for rows in memory. */
  lemma HeldInMemory(aead: Aead, arena: seq<Ref>, payloads: seq<Text>, spill: Option<Text>, other: Option<Text>)
    requires Held(aead, arena, payloads, spill) && forall i :: 0 <= i < |arena| ==> arena[i].memory.Some?
    ensures Held(aead, arena, payloads, other)
  {
    forall i | 0 <= i < |arena| ensures HeldAt(aead, arena, payloads, other, i) {
      assert HeldAt(aead, arena, payloads, spill, i);
    }
  }

  predicate Encoded(log: seq<Accepted>, payloads: seq<Text>, numeric: Numeric) {
    |log| == |payloads| && forall i :: 0 <= i < |log| ==> EncodeRow(log[i].row, numeric) == Some(payloads[i])
  }

  lemma EncodedGrows(log: seq<Accepted>, payloads: seq<Text>, numeric: Numeric, a: Accepted, payload: Text)
    requires Encoded(log, payloads, numeric) && EncodeRow(a.row, numeric) == Some(payload)
    ensures Encoded(log + [a], payloads + [payload], numeric) && Size(a.row, numeric) == |payload|
  {
    hide EncodeRow;
  }

  lemma HeldLength(aead: Aead, arena: seq<Ref>, payloads: seq<Text>, spill: Option<Text>, log: seq<Accepted>, numeric: Numeric)
    requires Held(aead, arena, payloads, spill) && Encoded(log, payloads, numeric)
    ensures |arena| == |payloads| == |log|
  {
  }

  lemma HeldMemory(aead: Aead, arena: seq<Ref>, payloads: seq<Text>, spill: Option<Text>, i: nat)
    requires Held(aead, arena, payloads, spill) && i < |arena| && arena[i].memory.Some?
    ensures |arena| == |payloads| && arena[i].memory.value == payloads[i]
  {
    assert HeldAt(aead, arena, payloads, spill, i);
  }

  function Reference(rows: map<SeriesKey, seq<nat>>, key: SeriesKey): seq<nat> {
    if key in rows then rows[key] else []
  }

  /** The index by series is the log's. */
  ghost predicate Indexed(rows: map<SeriesKey, seq<nat>>, log: seq<Accepted>) {
    forall key :: Reference(rows, key) == OrdinalsOf(log, key) && (key in rows ==> rows[key] != [])
  }

  lemma IndexGrows(rows: map<SeriesKey, seq<nat>>, log: seq<Accepted>, a: Accepted)
    requires Indexed(rows, log)
    ensures Indexed(rows[a.key := Reference(rows, a.key) + [|log|]], log + [a])
  {
    var after := rows[a.key := Reference(rows, a.key) + [|log|]];
    forall key ensures Reference(after, key) == OrdinalsOf(log + [a], key) {
      assert (log + [a])[..|log|] == log;
      assert Reference(rows, key) == OrdinalsOf(log, key);
    }
  }

  lemma IndexAt(rows: map<SeriesKey, seq<nat>>, log: seq<Accepted>, key: SeriesKey)
    requires Indexed(rows, log)
    ensures key in rows <==> RowsOf(log, key) != []
    ensures |Reference(rows, key)| == |RowsOf(log, key)|
    ensures forall j :: 0 <= j < |Reference(rows, key)| ==>
              Reference(rows, key)[j] < |log| && log[Reference(rows, key)[j]] == Accepted(key, RowsOf(log, key)[j])
  {
    assert Reference(rows, key) == OrdinalsOf(log, key);
    OrdinalsPointAtRows(log, key);
  }

  function Upto(n: nat): seq<nat> {
    seq(n, i => i)
  }

  class Store {
    const options: Options
    const aead: Aead
    const numeric: Numeric
    var rows: map<SeriesKey, seq<nat>>
    var arena: seq<Ref>
    var memoryRows: seq<nat>
    var totalRows: nat
    var totalBytes: nat
    var spill: Option<Text>
    /** What the file system will do. */
    var writes: seq<Write>
    ghost var log: seq<Accepted>
    ghost var payloads: seq<Text>

    ghost predicate Valid()
      reads this
    {
      && aead.Inverse() && (forall i :: 0 <= i < |writes| ==> |writes[i].nonce| == NONCE_SIZE)
      && Encoded(log, payloads, numeric) && Held(aead, arena, payloads, spill) && Indexed(rows, log)
      && totalRows == |log| <= options.maxRows && totalBytes == ByteCount(log, numeric) <= options.maxBytes
      && (spill.None? ==> InMemory())
    }

    /** Until the spill file exists everything is in memory, below the memory limit. */
    ghost predicate InMemory()
      reads this
    {
      && memoryRows == Upto(|arena|) && (forall i :: 0 <= i < |arena| ==> arena[i].memory.Some?)
      && (arena == [] || totalBytes < options.memoryBytes)
    }

    constructor (options: Options, aead: Aead, numeric: Numeric, writes: seq<Write>)
      requires aead.Inverse() && forall i :: 0 <= i < |writes| ==> |writes[i].nonce| == NONCE_SIZE
      ensures Valid() && log == []
      ensures this.options == options && this.numeric == numeric
    {
      this.options, this.aead, this.numeric, this.writes := options, aead, numeric, writes;
      rows, arena, memoryRows, totalRows, totalBytes, spill := map[], [], [], 0, 0, None;
      log, payloads := [], [];
    }

    /** Appends one frame; a fault leaves a torn frame behind that nothing refers to. */
    method WriteSpillRow(ordinal: nat, payload: Text) returns (ref: Option<Ref>)
      requires aead.Inverse() && (forall i :: 0 <= i < |writes| ==> |writes[i].nonce| == NONCE_SIZE)
      requires spill.Some? && Held(aead, arena, payloads, spill)
      modifies this`spill, this`writes
      ensures forall i :: 0 <= i < |writes| ==> |writes[i].nonce| == NONCE_SIZE
      ensures spill.Some? && Held(aead, arena, payloads, spill)
      ensures ref.Some? ==> ref.value.memory.None? && ReadRef(aead, ref.value, ordinal, spill) == Some(payload)
    {
      if writes == [] { return None; }
      var write := writes[0];
      writes := writes[1..];
      if |aead.seal(write.nonce, payload, ordinal)| > MAX_UINT32 { return None; }
      var frame := Frame(aead, write.nonce, payload, ordinal);
      var offset := |spill.value|;
      if write.fault.Some? && write.fault.value <= |frame| {
        HeldThroughAppend(aead, arena, payloads, spill.value, frame[..write.fault.value]);
        spill := Some(spill.value + frame[..write.fault.value]);
        return None;
      }
      HeldThroughAppend(aead, arena, payloads, spill.value, frame);
      NewFrameReads(aead, ordinal, spill.value, write.nonce, payload);
      spill := Some(spill.value + frame);
      return Some(Ref(None, offset, |frame|));
    }

    /** Creates the file and moves every row from memory into it, one after another; a fault in the middle leaves the
        rest readable from memory. */
    method EnsureSpill() returns (ok: bool)
      requires Valid()
      modifies this`spill, this`writes, this`arena, this`memoryRows
      ensures Valid() && |arena| == |old(arena)|
      ensures ok ==> spill.Some?
      ensures ok && old(spill).None? ==> forall i :: 0 <= i < |arena| ==> arena[i].memory.None?
    {
      hide ReadRef, Held, Indexed, ByteCount, Encoded;
      HeldLength(aead, arena, payloads, spill, log, numeric);
      if spill.Some? { return true; }
      if !options.directory || writes == [] { return false; }
      var header := writes[0];
      writes := writes[1..];
      if header.fault.Some? { return false; }
      HeldInMemory(aead, arena, payloads, spill, Some(SPILL_MAGIC));
      spill := Some(SPILL_MAGIC);
      for i := 0 to |memoryRows|
        invariant Valid() && spill.Some? && memoryRows == old(memoryRows) && |arena| == |old(arena)|
        invariant forall k :: i <= k < |arena| ==> arena[k].memory.Some?
        invariant forall k :: 0 <= k < i ==> arena[k].memory.None?
      {
        var ordinal := memoryRows[i];
        HeldMemory(aead, arena, payloads, spill, ordinal);
        var ref := WriteSpillRow(ordinal, arena[ordinal].memory.value);
        if ref.None? { return false; }
        HeldThroughUpdate(aead, arena, payloads, spill, ordinal, ref.value);
        arena := arena[ordinal := ref.value];
      }
      memoryRows := [];
      return true;
    }

    /** A row is accepted when it encodes, fits both limits and could be stored; otherwise nothing is added. */
    method AppendDecodedRow(key: SeriesKey, row: Row) returns (result: AppendResult)
      requires Valid()
      modifies this
      ensures Valid()
      ensures result.Stored? ==>
                && log == old(log) + [Accepted(key, row)]
                && (result.full <==> totalRows == options.maxRows || totalBytes == options.maxBytes)
      ensures !result.Stored? ==> log == old(log)
      ensures (EncodeRow(row, numeric).Some? && old(totalRows) < options.maxRows
               && old(totalBytes) + Size(row, numeric) <= options.maxBytes
               && old(spill).None? && old(totalBytes) + Size(row, numeric) < options.memoryBytes) ==> result.Stored?
      ensures result.LimitReached? <==>
                EncodeRow(row, numeric).Some?
                && (old(totalRows) == options.maxRows || old(totalBytes) + Size(row, numeric) > options.maxBytes)
    {
      var encoded := EncodeTypedRow(row, numeric);
      if encoded.None? { return StoreFailed; }
      var payload := encoded.value;
      if totalRows >= options.maxRows || |payload| > options.maxBytes - totalBytes { return LimitReached; }
      var ref := Place(payload);
      if ref.None? { return StoreFailed; }
      Commit(key, row, payload, ref.value);
      return Stored(totalRows >= options.maxRows || totalBytes >= options.maxBytes);
    }

    /** Where the next row goes: into the file as soon as there is one or memory would reach its limit. */
    method Place(payload: Text) returns (ref: Option<Ref>)
      requires Valid()
      modifies this`spill, this`writes, this`arena, this`memoryRows
      ensures ref.None? ==> Valid()
      ensures ref.Some? ==> Ready(payload, ref.value)
      ensures old(spill).None? && totalBytes + |payload| < options.memoryBytes ==> ref.Some?
    {
      if spill.None? && totalBytes + |payload| < options.memoryBytes {
        memoryRows := memoryRows + [|arena|];
        return Some(Ref(Some(payload), 0, 0));
      }
      var ready := EnsureSpill();
      if !ready { return None; }
      ref := WriteSpillRow(|arena|, payload);
    }

    /** The payload is stored but not yet counted or indexed. */
    ghost predicate Ready(payload: Text, ref: Ref)
      reads this
    {
      && aead.Inverse() && (forall i :: 0 <= i < |writes| ==> |writes[i].nonce| == NONCE_SIZE)
      && Encoded(log, payloads, numeric) && Held(aead, arena, payloads, spill) && Indexed(rows, log)
      && totalRows == |log| <= options.maxRows && totalBytes == ByteCount(log, numeric) <= options.maxBytes
      && ReadRef(aead, ref, |arena|, spill) == Some(payload)
      && (spill.None? ==>
            && memoryRows == Upto(|arena|) + [|arena|] && ref.memory.Some?
            && (forall i :: 0 <= i < |arena| ==> arena[i].memory.Some?)
            && totalBytes + |payload| < options.memoryBytes)
    }

    method Commit(key: SeriesKey, row: Row, payload: Text, ref: Ref)
      requires Ready(payload, ref) && EncodeRow(row, numeric) == Some(payload)
      requires totalRows < options.maxRows && totalBytes + |payload| <= options.maxBytes
      modifies this`rows, this`arena, this`totalRows, this`totalBytes, this`log, this`payloads
      ensures Valid() && log == old(log) + [Accepted(key, row)]
    {
      hide ReadRef, Held, Indexed, ByteCount, EncodeRow, RowsOf, OrdinalsOf, Encoded;
      HeldGrows(aead, arena, payloads, spill, ref, payload);
      IndexGrows(rows, log, Accepted(key, row));
      BytesGrow(log, Accepted(key, row), numeric);
      EncodedGrows(log, payloads, numeric, Accepted(key, row), payload);
      HeldLength(aead, arena, payloads, spill, log, numeric);
      rows := rows[key := Reference(rows, key) + [|arena|]];
      arena, log, payloads := arena + [ref], log + [Accepted(key, row)], payloads + [payload];
      totalRows := totalRows + 1;
      totalBytes := totalBytes + |payload|;
    }

    method ReadRow(ordinal: nat) returns (row: Row)
      requires Valid() && ordinal < |log|
      ensures row == log[ordinal].row
    {
      assert HeldAt(aead, arena, payloads, spill, ordinal);
      RowRoundTrip(log[ordinal].row, numeric);
      var payload := ReadRef(aead, arena[ordinal], ordinal, spill);
      var decoded := DecodeTypedRow(payload.value, numeric);
      row := decoded.value;
    }

    method RowCount(key: SeriesKey) returns (count: nat)
      requires Valid()
      ensures count == |RowsOf(log, key)|
    {
      IndexAt(rows, log, key);
      return |Reference(rows, key)|;
    }

    /** Wherever its rows are, a series reads as the slice of its plain list. */
    method ReadRows(key: SeriesKey, offset: nat, limit: nat) returns (result: Option<seq<Row>>, total: nat)
      requires Valid()
      ensures result == StoredSlice(log, key, offset, limit)
      ensures result.Some? ==> total == |RowsOf(log, key)|
    {
      hide Held, Encoded, RowsOf, OrdinalsOf;
      IndexAt(rows, log, key);
      if key !in rows || offset > |rows[key]| { return None, 0; }
      var refs := rows[key];
      var end := if offset + limit > |refs| then |refs| else offset + limit;
      var out := [];
      for i := offset to end
        invariant out == RowsOf(log, key)[offset..i]
      {
        var row := ReadRow(refs[i]);
        out := out + [row];
      }
      return Some(out), |refs|;
    }
  }
}
