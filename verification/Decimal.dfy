/** Arbitrary-length decimal strings: revisions, event sequence numbers and offsets cross the
    Go/TypeScript boundary as text and must behave as exact integers on both sides. */
module Decimal {
  import opened Wrappers

  predicate IsDigit(c: char) {
    '0' <= c <= '9'
  }

  predicate AllDigits(s: string) {
    forall i :: 0 <= i < |s| ==> IsDigit(s[i])
  }

  function Digit(c: char): int {
    c as int - '0' as int
  }

  function Symbol(d: int): char
    requires 0 <= d < 10
  {
    '0' + d as char
  }

  /** The frontend's pattern: zero, or digits without a leading zero. */
  predicate Canonical(s: string) {
    s != "" && AllDigits(s) && (|s| == 1 || s[0] != '0')
  }

  function Value(s: string): (n: nat)
    requires AllDigits(s)
  {
    if s == "" then 0 else 10 * Value(s[..|s| - 1]) + Digit(s[|s| - 1])
  }

  function Format(n: nat): (s: string)
    ensures Canonical(s) && Value(s) == n
    ensures n > 0 ==> s[0] != '0'
  {
    if n < 10 then [Symbol(n)] else
      var front := Format(n / 10);
      var s := front + [Symbol(n % 10)];
      assert s[..|s| - 1] == front;
      s
  }

  // ---------------------------------------------------------------- ordering

  /** Text order of two strings, as `<` on JavaScript strings and SQLite TEXT computes it. */
  predicate TextLess(a: string, b: string) {
    if b == "" then false
    else if a == "" then true
    else if a[0] != b[0] then a[0] < b[0]
    else TextLess(a[1..], b[1..])
  }

  /** frontend compareDecimal: -1, 0 or 1, and an error for text that is not canonical. */
  function Compare(left: string, right: string): (r: Option<int>)
  {
    if !Canonical(left) || !Canonical(right) then None
    else if |left| != |right| then Some(if |left| < |right| then -1 else 1)
    else if left == right then Some(0)
    else Some(if TextLess(left, right) then -1 else 1)
  }

  lemma {:induction false} TextLessAppend(a: string, b: string, x: char, y: char)
    requires |a| == |b|
    ensures TextLess(a + [x], b + [y]) <==> TextLess(a, b) || (a == b && x < y)
  {
    if a == "" {
      assert a + [x] == [x] && b + [y] == [y];
      assert TextLess([x], [y]) <==> x < y;
    } else {
      assert (a + [x])[1..] == a[1..] + [x] && (b + [y])[1..] == b[1..] + [y];
      assert (a + [x])[0] == a[0] && (b + [y])[0] == b[0];
      TextLessAppend(a[1..], b[1..], x, y);
      assert a == [a[0]] + a[1..] && b == [b[0]] + b[1..];
    }
  }

  /** On digit strings of one length, text order is integer order and text equality is integer equality. */
  lemma {:induction false} EqualLengthOrder(a: string, b: string)
    requires AllDigits(a) && AllDigits(b) && |a| == |b|
    ensures TextLess(a, b) <==> Value(a) < Value(b)
    ensures a == b <==> Value(a) == Value(b)
  {
    if a != "" {
      var a', b' := a[..|a| - 1], b[..|b| - 1];
      EqualLengthOrder(a', b');
      assert a == a' + [a[|a| - 1]] && b == b' + [b[|b| - 1]];
      TextLessAppend(a', b', a[|a| - 1], b[|b| - 1]);
    }
  }

  lemma {:induction false} LongerIsLarger(a: string, b: string)
    requires AllDigits(a) && Canonical(b) && |a| < |b|
    requires b != "0"
    ensures Value(a) < Value(b)
  {
    if a == "" {
      LeadingDigitCounts(b);
    } else {
      LongerIsLarger(a[..|a| - 1], b[..|b| - 1]);
    }
  }

  lemma {:induction false} LeadingDigitCounts(b: string)
    requires Canonical(b) && b != "0"
    ensures Value(b) > 0
  {
    if |b| == 1 {
      assert b[0] != '0';
      assert b[..0] == "";
    } else {
      LeadingDigitCounts(b[..|b| - 1]);
    }
  }

  /** compareDecimal is exact integer comparison, at every length. */
  lemma CompareIsIntegerOrder(a: string, b: string)
    requires Canonical(a) && Canonical(b)
    ensures Compare(a, b) ==
            Some(if Value(a) < Value(b) then -1 else if Value(a) == Value(b) then 0 else 1)
  {
    if |a| == |b| {
      EqualLengthOrder(a, b);
    } else if |a| < |b| {
      LongerIsLarger(a, b);
    } else {
      LongerIsLarger(b, a);
    }
  }

  /** A canonical text is determined by its value, so `===` on event sequences is integer equality. */
  lemma ValueInjective(a: string, b: string)
    requires Canonical(a) && Canonical(b) && Value(a) == Value(b)
    ensures a == b
  {
    CompareIsIntegerOrder(a, b);
    EqualValuesEqualLengths(a, b);
    EqualLengthOrder(a, b);
  }

  lemma EqualValuesEqualLengths(a: string, b: string)
    requires Canonical(a) && Canonical(b) && Value(a) == Value(b)
    ensures |a| == |b|
  {
    if |a| < |b| {
      LongerIsLarger(a, b);
    } else if |b| < |a| {
      LongerIsLarger(b, a);
    }
  }

  lemma FormatOfValue(s: string)
    requires Canonical(s)
    ensures Format(Value(s)) == s
  {
    ValueInjective(s, Format(Value(s)));
  }

  /** The order by (length, text) of the SQL in Changes, and its WHERE clause. */
  predicate SqlAfter(seqText: string, after: string) {
    |seqText| > |after| || (|seqText| == |after| && TextLess(after, seqText))
  }

  lemma SqlAfterIsIntegerOrder(seqText: string, after: string)
    requires Canonical(seqText) && Canonical(after)
    ensures SqlAfter(seqText, after) <==> Value(seqText) > Value(after)
  {
    CompareIsIntegerOrder(after, seqText);
    if |seqText| == |after| {
      EqualLengthOrder(after, seqText);
    }
  }

  // ---------------------------------------------------------------- increment

  /** frontend incrementDecimal: a carry runs over the trailing nines of a digit array in place. */
  method IncrementDecimal(value: string) returns (r: Option<string>)
    ensures !Canonical(value) ==> r == None
    ensures Canonical(value) ==> r == Some(Format(Value(value) + 1))
  {
    if !Canonical(value) {
      return None;
    }
    var digits := new char[|value|](i requires 0 <= i < |value| => value[i]);
    var index := digits.Length - 1;
    while index >= 0
      invariant -1 <= index < digits.Length
      invariant digits[..index + 1] == value[..index + 1]
      invariant forall i :: index < i < |value| ==> digits[i] == '0' && value[i] == '9'
    {
      if digits[index] != '9' {
        ghost var before := digits[..];
        digits[index] := Symbol(Digit(digits[index]) + 1);
        CarryStops(value, digits[..], index);
        IncrementedIsCanonical(value, digits[..]);
        FormatOfValue(digits[..]);
        return Some(digits[..]);
      }
      digits[index] := '0';
      index := index - 1;
    }
    CarryOverflows(value, digits[..]);
    var text := "1" + digits[..];
    FormatOfValue(text);
    r := Some(text);
  }

  /** Bumping the digit before a run of nines and zeroing the run adds exactly one. */
  lemma {:induction false} CarryStops(old_: string, new_: string, index: nat)
    requires AllDigits(old_) && |old_| == |new_| && index < |old_|
    requires old_[index] != '9' && new_[index] == Symbol(Digit(old_[index]) + 1)
    requires new_[..index] == old_[..index]
    requires forall i :: index < i < |old_| ==> new_[i] == '0' && old_[i] == '9'
    ensures AllDigits(new_)
    ensures Value(new_) == Value(old_) + 1
  {
    forall i | 0 <= i < |new_| ensures IsDigit(new_[i]) {
      if i < index {
        assert new_[i] == new_[..index][i] == old_[..index][i];
      }
    }
    var n := |old_| - 1;
    if index == n {
      assert new_[..n] == old_[..n];
    } else {
      assert new_[..n][..index] == new_[..index];
      assert old_[..n][..index] == old_[..index];
      CarryStops(old_[..n], new_[..n], index);
    }
  }

  lemma {:induction false} CarryOverflows(old_: string, zeros: string)
    requires |zeros| == |old_|
    requires forall i :: 0 <= i < |old_| ==> zeros[i] == '0' && old_[i] == '9'
    ensures AllDigits(old_) && AllDigits("1" + zeros)
    ensures Value("1" + zeros) == Value(old_) + 1
  {
    var text := "1" + zeros;
    if old_ == "" {
      assert text == "1" && text[..0] == "";
    } else {
      var n := |old_| - 1;
      assert text[..|text| - 1] == "1" + zeros[..n];
      CarryOverflows(old_[..n], zeros[..n]);
    }
  }

  lemma IncrementedIsCanonical(old_: string, new_: string)
    requires Canonical(old_) && AllDigits(new_) && |new_| == |old_|
    requires Value(new_) == Value(old_) + 1
    ensures Canonical(new_)
  {
    if |new_| > 1 && new_[0] == '0' {
      LeadingZeroDrops(new_);
      LongerIsLarger(new_[1..], old_);
      EqualLengthOrder(new_, old_);
    }
  }

  lemma {:induction false} LeadingZeroDrops(s: string)
    requires AllDigits(s) && s != "" && s[0] == '0'
    ensures Value(s) == Value(s[1..])
  {
    if |s| == 1 {
      assert s[..0] == "";
    } else {
      var n := |s| - 1;
      assert s[1..][..|s[1..]| - 1] == s[..n][1..];
      LeadingZeroDrops(s[..n]);
    }
  }

  // ---------------------------------------------------------------- the Go side

  /** math/big SetString in base 10: an optional sign and at least one digit. */
  function ParseBig(s: string): (r: Option<int>)
  {
    var signed := s != "" && (s[0] == '-' || s[0] == '+');
    var digits := if signed then s[1..] else s;
    if digits == "" || !AllDigits(digits) then None
    else
      var n: int := Value(digits);
      Some(if signed && s[0] == '-' then -n else n)
  }

  /** tasks.canonicalDecimal and its copies in transfer, operation and protection. */
  function GoCanonical(s: string): (r: Option<string>)
  {
    if s == "" || s[0] == '+' || (|s| > 1 && s[0] == '0') then None
    else
      match ParseBig(s)
      case None => None
      case Some(n) => if n < 0 then None else Some(Format(n))
  }

  function GoIncrement(s: string): (r: Option<string>)
  {
    match GoCanonical(s)
    case None => None
    case Some(c) => Some(Format(Value(c) + 1))
  }

  predicate NegativeZero(s: string) {
    |s| > 1 && s[0] == '-' && forall i :: 1 <= i < |s| ==> s[i] == '0'
  }

  lemma {:induction false} ZeroDigits(s: string)
    requires AllDigits(s) && Value(s) == 0
    ensures forall i :: 0 <= i < |s| ==> s[i] == '0'
  {
    if s != "" {
      ZeroDigits(s[..|s| - 1]);
      assert s == s[..|s| - 1] + [s[|s| - 1]];
    }
  }

  lemma {:induction false} ZerosAreZero(s: string)
    requires forall i :: 0 <= i < |s| ==> s[i] == '0'
    ensures AllDigits(s) && Value(s) == 0
  {
    if s != "" {
      ZerosAreZero(s[..|s| - 1]);
    }
  }

  /** The backend accepts exactly the frontend's canonical texts, left unchanged, plus the texts
      "-0", "-00", ... which it rewrites to "0"; the two sides differ on nothing else. */
  lemma BackendAcceptsExactly(s: string)
    ensures GoCanonical(s) == (if Canonical(s) then Some(s) else if NegativeZero(s) then Some("0") else None)
  {
    if Canonical(s) {
      FormatOfValue(s);
    } else if s != "" && s[0] == '-' && s[1..] != "" && AllDigits(s[1..]) {
      if NegativeZero(s) {
        ZerosAreZero(s[1..]);
        FormatOfValue("0");
        assert Value("0") == 0 by { assert "0"[..0] == ""; }
      } else if Value(s[1..]) == 0 {
        ZeroDigits(s[1..]);
        assert false;
      }
    }
  }

  /** The gap test `seq === increment(lastSeq)` holds exactly for the next integer. */
  lemma NextTextIsNextInteger(seqText: string, last: string)
    requires Canonical(seqText) && Canonical(last)
    ensures seqText == Format(Value(last) + 1) <==> Value(seqText) == Value(last) + 1
    ensures GoIncrement(last) == Some(Format(Value(last) + 1))
  {
    BackendAcceptsExactly(last);
    if Value(seqText) == Value(last) + 1 {
      ValueInjective(seqText, Format(Value(last) + 1));
    }
  }
}
