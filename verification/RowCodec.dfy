/** The binary row format of retained query results: encodeTypedRowV1 and decodeTypedRowV1. */
module RowCodec {
  import opened Bytes
  import opened Wrappers

  type Text = seq<Byte>

  const MAGIC: Text := [73, 68, 82, 1]

  datatype Kind = Null | String | Boolean | TimestampNs | Int64 | Uint64 | Float64 | NumericText

  datatype TypedScalar = TypedScalar(kind: Kind, decimalText: Text, stringValue: Text, booleanValue: Option<bool>)

  /** `numeric(kind, text)`: the text is the canonical form of a number of that kind (for numeric_text, a JSON number). */
  type Numeric = (Kind, Text) -> bool

  // ---------------------------------------------------------------- big-endian lengths

  function U32(n: nat): (r: Text)
    requires n <= MAX_UINT32
    ensures |r| == 4
  {
    [n / 256 / 256 / 256, n / 256 / 256 % 256, n / 256 % 256, n % 256]
  }

  function FromU32(b: Text): (n: nat)
    requires |b| == 4
    ensures n <= MAX_UINT32
  {
    var b0: int, b1: int, b2: int, b3: int := b[0], b[1], b[2], b[3];
    ((b0 * 256 + b1) * 256 + b2) * 256 + b3
  }

  lemma U32RoundTrip(n: nat)
    requires n <= MAX_UINT32
    ensures FromU32(U32(n)) == n
  {
    var q := n / 256;
    assert n == q * 256 + n % 256 && q == q / 256 * 256 + q % 256;
  }

  lemma FromU32RoundTrip(b: Text)
    requires |b| == 4
    ensures U32(FromU32(b)) == b
  {
    var b0: int, b1: int, b2: int, b3: int := b[0], b[1], b[2], b[3];
    var n := FromU32(b);
    var high := b0 * 256 + b1;
    assert n / 256 == high * 256 + b2 && n % 256 == b3;
    assert n / 256 / 256 == high && n / 256 % 256 == b2;
    assert high / 256 == b0 && high % 256 == b1;
  }

  // ---------------------------------------------------------------- scalars

  function Code(kind: Kind): (c: Byte) {
    match kind
    case Null => 1
    case String => 2
    case Boolean => 3
    case TimestampNs => 4
    case Int64 => 5
    case Uint64 => 6
    case Float64 => 7
    case NumericText => 8
  }

  function KindOf(code: Byte): Option<Kind> {
    match code
    case 1 => Some(Null)
    case 2 => Some(String)
    case 3 => Some(Boolean)
    case 4 => Some(TimestampNs)
    case 5 => Some(Int64)
    case 6 => Some(Uint64)
    case 7 => Some(Float64)
    case 8 => Some(NumericText)
    case _ => None
  }

  /** encodeScalarV1: the payload behind the code byte, refusing a scalar with a value in a foreign field. */
  function Payload(s: TypedScalar, numeric: Numeric): Option<Text> {
    match s.kind
    case Null => if s.decimalText == [] && s.stringValue == [] && s.booleanValue.None? then Some([]) else None
    case String => if s.decimalText == [] && s.booleanValue.None? then Some(s.stringValue) else None
    case Boolean =>
      if s.booleanValue.None? || s.decimalText != [] || s.stringValue != [] then None
      else Some(if s.booleanValue.value then [1] else [0])
    case _ =>
      if s.stringValue == [] && s.booleanValue.None? && numeric(s.kind, s.decimalText) then Some(s.decimalText) else None
  }

  predicate LengthPrefixed(kind: Kind) {
    kind != Null && kind != Boolean
  }

  function EncodeScalar(s: TypedScalar, numeric: Numeric): Option<Text> {
    match Payload(s, numeric)
    case None => None
    case Some(payload) =>
      if !LengthPrefixed(s.kind) then Some([Code(s.kind)] + payload)
      else if |payload| > MAX_UINT32 then None
      else Some([Code(s.kind)] + U32(|payload|) + payload)
  }

  function Scalar(kind: Kind, payload: Text): TypedScalar {
    if kind == String then TypedScalar(String, [], payload, None) else TypedScalar(kind, payload, [], None)
  }

  /** The first scalar of a non-empty text, and how many bytes it takes. */
  function DecodeScalar(b: Text, numeric: Numeric): (r: Option<(TypedScalar, nat)>)
    ensures r.Some? ==> 0 < r.value.1 <= |b|
  {
    if b == [] then None
    else
      match KindOf(b[0])
      case None => None
      case Some(Null) => Some((TypedScalar(Null, [], [], None), 1))
      case Some(Boolean) =>
        if |b| < 2 || b[1] > 1 then None else Some((TypedScalar(Boolean, [], [], Some(b[1] == 1)), 2))
      case Some(kind) =>
        if |b| < 5 then None
        else
          var length := FromU32(b[1..5]);
          if length > |b| - 5 then None
          else
            var payload := b[5..5 + length];
            if kind != String && !numeric(kind, payload) then None else Some((Scalar(kind, payload), 5 + length))
  }

  lemma ScalarRoundTrip(s: TypedScalar, tail: Text, numeric: Numeric)
    requires EncodeScalar(s, numeric).Some?
    ensures var b := EncodeScalar(s, numeric).value; DecodeScalar(b + tail, numeric) == Some((s, |b|))
  {
    var payload := Payload(s, numeric).value;
    var b := EncodeScalar(s, numeric).value + tail;
    if LengthPrefixed(s.kind) {
      U32RoundTrip(|payload|);
      assert b[1..5] == U32(|payload|);
      assert b[5..5 + |payload|] == payload;
    }
  }

  lemma ScalarCanonical(b: Text, numeric: Numeric)
    requires DecodeScalar(b, numeric).Some?
    ensures var (s, n) := DecodeScalar(b, numeric).value; EncodeScalar(s, numeric) == Some(b[..n])
  {
    var (s, n) := DecodeScalar(b, numeric).value;
    if LengthPrefixed(s.kind) {
      FromU32RoundTrip(b[1..5]);
      assert b[..n] == [b[0]] + b[1..5] + b[5..n];
    } else if s.kind == Boolean {
      assert b[..n] == [b[0]] + [b[1]];
      assert Payload(s, numeric) == Some([b[1]]);
    } else {
      assert b[..n] == [b[0]] + [];
    }
  }

  // ---------------------------------------------------------------- rows

  function EncodeScalars(row: seq<TypedScalar>, numeric: Numeric): Option<Text> {
    if row == [] then Some([])
    else
      match (EncodeScalars(row[..|row| - 1], numeric), EncodeScalar(row[|row| - 1], numeric))
      case (Some(front), Some(last)) => Some(front + last)
      case _ => None
  }

  function EncodeRow(row: seq<TypedScalar>, numeric: Numeric): Option<Text> {
    if |row| > MAX_UINT32 then None
    else match EncodeScalars(row, numeric)
      case None => None
      case Some(body) => Some(MAGIC + U32(|row|) + body)
  }

  function DecodeScalars(b: Text, count: nat, numeric: Numeric): Option<seq<TypedScalar>> {
    if count == 0 then if b == [] then Some([]) else None
    else
      match DecodeScalar(b, numeric)
      case None => None
      case Some((scalar, n)) =>
        match DecodeScalars(b[n..], count - 1, numeric)
        case None => None
        case Some(rest) => Some([scalar] + rest)
  }

  function DecodeRow(payload: Text, numeric: Numeric): Option<seq<TypedScalar>> {
    if |payload| < 8 || payload[..4] != MAGIC then None
    else DecodeScalars(payload[8..], FromU32(payload[4..8]), numeric)
  }

  /** The encoding of a row starts with the encoding of its first scalar. */
  lemma {:induction false} EncodeFirst(row: seq<TypedScalar>, numeric: Numeric)
    requires row != []
    ensures EncodeScalars(row, numeric) ==
            match (EncodeScalar(row[0], numeric), EncodeScalars(row[1..], numeric))
            case (Some(first), Some(rest)) => Some(first + rest)
            case _ => None
  {
    hide EncodeScalar, DecodeScalar, U32, FromU32;
    var init := row[..|row| - 1];
    if |row| == 1 {
      assert row[1..] == [] && init == [];
      if EncodeScalar(row[0], numeric).Some? {
        assert [] + EncodeScalar(row[0], numeric).value == EncodeScalar(row[0], numeric).value + [];
      }
    } else {
      EncodeFirst(init, numeric);
      assert init[1..] == row[1..][..|row| - 2] && init[0] == row[0];
      if EncodeScalar(row[0], numeric).Some? && EncodeScalars(init[1..], numeric).Some? && EncodeScalar(row[|row| - 1], numeric).Some? {
        assert (EncodeScalar(row[0], numeric).value + EncodeScalars(init[1..], numeric).value) + EncodeScalar(row[|row| - 1], numeric).value
            == EncodeScalar(row[0], numeric).value + (EncodeScalars(init[1..], numeric).value + EncodeScalar(row[|row| - 1], numeric).value);
      }
    }
  }

  lemma {:induction false} ScalarsRoundTrip(row: seq<TypedScalar>, numeric: Numeric)
    requires EncodeScalars(row, numeric).Some?
    ensures DecodeScalars(EncodeScalars(row, numeric).value, |row|, numeric) == Some(row)
  {
    hide EncodeScalar, DecodeScalar, U32, FromU32;
    if row != [] {
      EncodeFirst(row, numeric);
      var first, rest := EncodeScalar(row[0], numeric).value, EncodeScalars(row[1..], numeric).value;
      ScalarRoundTrip(row[0], rest, numeric);
      assert (first + rest)[|first|..] == rest;
      ScalarsRoundTrip(row[1..], numeric);
      assert row == [row[0]] + row[1..];
    }
  }

  lemma {:induction false} ScalarsCanonical(b: Text, count: nat, numeric: Numeric)
    requires DecodeScalars(b, count, numeric).Some?
    ensures var row := DecodeScalars(b, count, numeric).value; |row| == count && EncodeScalars(row, numeric) == Some(b)
  {
    hide EncodeScalar, DecodeScalar, U32, FromU32;
    if count > 0 {
      var (scalar, n) := DecodeScalar(b, numeric).value;
      ScalarCanonical(b, numeric);
      ScalarsCanonical(b[n..], count - 1, numeric);
      var row := DecodeScalars(b, count, numeric).value;
      assert row[1..] == DecodeScalars(b[n..], count - 1, numeric).value;
      EncodeFirst(row, numeric);
      assert b == b[..n] + b[n..];
    }
  }

  /** Every row the encoder accepts decodes to itself. */
  lemma RowRoundTrip(row: seq<TypedScalar>, numeric: Numeric)
    requires EncodeRow(row, numeric).Some?
    ensures DecodeRow(EncodeRow(row, numeric).value, numeric) == Some(row)
  {
    hide EncodeScalar, DecodeScalar, U32, FromU32;
    var body := EncodeScalars(row, numeric).value;
    var b := EncodeRow(row, numeric).value;
    U32RoundTrip(|row|);
    assert b[..4] == MAGIC && b[4..8] == U32(|row|) && b[8..] == body;
    ScalarsRoundTrip(row, numeric);
  }

  /** Every byte string the decoder accepts is the encoding of what it decodes to: there is no second spelling. */
  lemma RowCanonical(b: Text, numeric: Numeric)
    requires DecodeRow(b, numeric).Some?
    ensures EncodeRow(DecodeRow(b, numeric).value, numeric) == Some(b)
  {
    hide EncodeScalar, DecodeScalar, U32, FromU32;
    ScalarsCanonical(b[8..], FromU32(b[4..8]), numeric);
    FromU32RoundTrip(b[4..8]);
    assert b == b[..4] + b[4..8] + b[8..];
  }

  // ---------------------------------------------------------------- the loops

  /** The code byte, the length where there is one, and the payload go to the end of the buffer. */
  method WriteScalar(before: Text, scalar: TypedScalar, numeric: Numeric) returns (result: Option<Text>)
    ensures result == match EncodeScalar(scalar, numeric) case None => None case Some(b) => Some(before + b)
  {
    hide U32;
    var payload := Payload(scalar, numeric);
    if payload.None? { return None; }
    var buffer := before + [Code(scalar.kind)];
    if scalar.kind == Boolean {
      buffer := buffer + payload.value;
    } else if scalar.kind != Null {
      if |payload.value| > MAX_UINT32 { return None; }
      buffer := buffer + U32(|payload.value|);
      buffer := buffer + payload.value;
    }
    assert buffer == before + EncodeScalar(scalar, numeric).value;
    return Some(buffer);
  }

  /** encodeTypedRowV1: the buffer grows scalar by scalar. */
  method EncodeTypedRow(row: seq<TypedScalar>, numeric: Numeric) returns (result: Option<Text>)
    ensures result == EncodeRow(row, numeric)
  {
    hide EncodeScalar, U32;
    if |row| > MAX_UINT32 { return None; }
    var buffer := MAGIC + U32(|row|);
    for i := 0 to |row|
      invariant EncodeScalars(row[..i], numeric).Some?
      invariant buffer == MAGIC + U32(|row|) + EncodeScalars(row[..i], numeric).value
    {
      assert row[..i + 1][..i] == row[..i];
      var more := WriteScalar(buffer, row[i], numeric);
      if more.None? {
        RefusedPrefix(row, i, numeric);
        return None;
      }
      buffer := more.value;
    }
    assert row[..|row|] == row;
    return Some(buffer);
  }

  lemma {:induction false} RefusedPrefix(row: seq<TypedScalar>, i: nat, numeric: Numeric)
    requires i < |row| && EncodeScalar(row[i], numeric).None?
    ensures EncodeScalars(row, numeric).None?
  {
    hide EncodeScalar, DecodeScalar, U32, FromU32;
    if i < |row| - 1 {
      RefusedPrefix(row[..|row| - 1], i, numeric);
    }
  }

  lemma NothingBefore(rest: Option<seq<TypedScalar>>)
    ensures Prepend([], rest) == rest
  {
    if rest.Some? {
      assert [] + rest.value == rest.value;
    }
  }

  function Prepend(row: seq<TypedScalar>, rest: Option<seq<TypedScalar>>): Option<seq<TypedScalar>> {
    if rest.None? then None else Some(row + rest.value)
  }

  /** readLengthPrefixed at an offset; the result is the value and the offset behind it. */
  method ReadLengthPrefixed(payload: Text, offset: nat) returns (value: Option<Text>, next: nat)
    requires offset <= |payload|
    ensures value.Some? <==> |payload| - offset >= 4 && FromU32(payload[offset..offset + 4]) <= |payload| - offset - 4
    ensures value.Some? ==> next == offset + 4 + FromU32(payload[offset..offset + 4]) && value.value == payload[offset + 4..next]
  {
    next := offset;
    if |payload| - offset < 4 { return None, next; }
    var length := FromU32(payload[offset..offset + 4]);
    next := offset + 4;
    if length > |payload| - next { return None, next; }
    value, next := Some(payload[next..next + length]), next + length;
  }

  /** One round of the decoder's loop. */
  method DecodeAt(payload: Text, offset: nat, numeric: Numeric) returns (scalar: Option<TypedScalar>, next: nat)
    requires offset <= |payload|
    ensures scalar.Some? ==> offset < next <= |payload|
    ensures DecodeScalar(payload[offset..], numeric) == if scalar.None? then None else Some((scalar.value, next - offset))
  {
    hide FromU32;
    next := offset;
    if offset >= |payload| { return None, next; }
    var code := payload[offset];
    ghost var b := payload[offset..];
    assert b[0] == code;
    next := offset + 1;
    var kind := KindOf(code);
    if kind.None? { return None, next; }
    if kind.value == Null {
      return Some(TypedScalar(Null, [], [], None)), next;
    }
    if kind.value == Boolean {
      if next >= |payload| || payload[next] > 1 { return None, next; }
      assert b[1] == payload[next];
      return Some(TypedScalar(Boolean, [], [], Some(payload[next] == 1))), next + 1;
    }
    var value: Option<Text>;
    value, next := ReadLengthPrefixed(payload, next);
    PrefixAt(payload, offset);
    if value.None? { return None, next; }
    assert b[5..next - offset] == value.value;
    if kind.value != String && !numeric(kind.value, value.value) { return None, next; }
    return Some(Scalar(kind.value, value.value)), next;
  }

  lemma PrefixAt(payload: Text, offset: nat)
    requires offset < |payload|
    ensures |payload| - offset >= 5 ==> payload[offset..][1..5] == payload[offset + 1..offset + 1 + 4]
  {
  }

  /** One round peels one scalar off what is left to decode. */
  lemma DecodeStep(payload: Text, offset: nat, count: nat, numeric: Numeric, row: seq<TypedScalar>, scalar: TypedScalar, next: nat)
    requires offset < next <= |payload| && count > 0 && DecodeScalar(payload[offset..], numeric) == Some((scalar, next - offset))
    ensures Prepend(row, DecodeScalars(payload[offset..], count, numeric))
         == Prepend(row + [scalar], DecodeScalars(payload[next..], count - 1, numeric))
  {
    hide DecodeScalar;
    assert payload[offset..][next - offset..] == payload[next..];
    var rest := DecodeScalars(payload[next..], count - 1, numeric);
    if rest.Some? {
      assert row + ([scalar] + rest.value) == (row + [scalar]) + rest.value;
    }
  }

  lemma DecodeStops(payload: Text, offset: nat, count: nat, numeric: Numeric, row: seq<TypedScalar>)
    requires offset <= |payload|
    ensures count > 0 && DecodeScalar(payload[offset..], numeric).None? ==>
              Prepend(row, DecodeScalars(payload[offset..], count, numeric)).None?
    ensures Prepend(row, DecodeScalars(payload[offset..], 0, numeric)) == if offset == |payload| then Some(row) else None
  {
    hide DecodeScalar;
    assert row + [] == row;
  }

  /** decodeTypedRowV1: the offset advances scalar by scalar and must end at the end. */
  method DecodeTypedRow(payload: Text, numeric: Numeric) returns (result: Option<seq<TypedScalar>>)
    ensures result == DecodeRow(payload, numeric)
  {
    hide DecodeScalar, DecodeScalars, Prepend, FromU32;
    if |payload| < 8 || payload[..4] != MAGIC { return None; }
    var offset := 4;
    var count := FromU32(payload[offset..offset + 4]);
    offset := offset + 4;
    var row := [];
    NothingBefore(DecodeScalars(payload[offset..], count, numeric));
    for i := 0 to count
      invariant 8 <= offset <= |payload|
      invariant DecodeRow(payload, numeric) == Prepend(row, DecodeScalars(payload[offset..], count - i, numeric))
    {
      var scalar, next := DecodeAt(payload, offset, numeric);
      DecodeStops(payload, offset, count - i, numeric, row);
      if scalar.None? { return None; }
      DecodeStep(payload, offset, count - i, numeric, row, scalar.value, next);
      row, offset := row + [scalar.value], next;
    }
    DecodeStops(payload, offset, 0, numeric, row);
    if offset != |payload| { return None; }
    return Some(row);
  }
}
