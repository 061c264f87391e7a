/** JSON texts as sections 2 to 7 of RFC 8259 spell them: every value with every choice of whitespace, escapes and
    number form. */
module JsonText {
  import opened Bytes
  import opened Wrappers

  type Text = seq<Byte>

  const QUOTE: Byte := 34
  const BACKSLASH: Byte := 92
  const OPEN_BRACE: Byte := 123
  const CLOSE_BRACE: Byte := 125
  const OPEN_BRACKET: Byte := 91
  const CLOSE_BRACKET: Byte := 93
  const COMMA: Byte := 44
  const COLON: Byte := 58

  predicate IsSpace(b: Byte) {
    b == 32 || b == 9 || b == 10 || b == 13
  }

  predicate AllSpace(t: Text) {
    forall i :: 0 <= i < |t| ==> IsSpace(t[i])
  }

  predicate AllDigits(t: Text) {
    t != [] && forall i :: 0 <= i < |t| ==> 48 <= t[i] <= 57
  }

  predicate IsHex(b: Byte) {
    48 <= b <= 57 || 65 <= b <= 70 || 97 <= b <= 102
  }

  /** Section 7: an unescaped byte, a two-character escape, or a \u escape. */
  datatype Char = Plain(b: Byte) | Escape(b: Byte) | Unicode(h0: Byte, h1: Byte, h2: Byte, h3: Byte)

  predicate ValidChar(c: Char) {
    match c
    case Plain(b) => b >= 32 && b != QUOTE && b != BACKSLASH
    case Escape(b) => b == QUOTE || b == BACKSLASH || b == 47 || b == 98 || b == 102 || b == 110 || b == 114 || b == 116
    case Unicode(a, b, c, d) => IsHex(a) && IsHex(b) && IsHex(c) && IsHex(d)
  }

  function CharText(c: Char): Text {
    match c
    case Plain(b) => [b]
    case Escape(b) => [BACKSLASH, b]
    case Unicode(a, b, c, d) => [BACKSLASH, 117, a, b, c, d]
  }

  function CharsText(cs: seq<Char>): Text {
    if cs == [] then [] else CharText(cs[0]) + CharsText(cs[1..])
  }

  predicate ValidChars(cs: seq<Char>) {
    forall i :: 0 <= i < |cs| ==> ValidChar(cs[i])
  }

  function StringText(cs: seq<Char>): Text {
    [QUOTE] + CharsText(cs) + [QUOTE]
  }

  /** Section 6: minus, int, frac, exp. */
  datatype Number = Number(minus: bool, whole: Text, frac: Option<Text>, exp: Option<Exponent>)

  datatype Exponent = Exponent(letter: Byte, sign: Text, digits: Text)

  predicate ValidNumber(n: Number) {
    && AllDigits(n.whole) && (|n.whole| > 1 ==> n.whole[0] != 48)
    && (n.frac.Some? ==> AllDigits(n.frac.value))
    && (n.exp.Some? ==>
          && (n.exp.value.letter == 101 || n.exp.value.letter == 69)
          && (n.exp.value.sign == [] || n.exp.value.sign == [43] || n.exp.value.sign == [45])
          && AllDigits(n.exp.value.digits))
  }

  function NumberText(n: Number): Text {
    (if n.minus then [45] else []) + n.whole
    + (if n.frac.Some? then [46] + n.frac.value else [])
    + (if n.exp.Some? then [n.exp.value.letter] + n.exp.value.sign + n.exp.value.digits else [])
  }

  /** Section 3: null, true and false. */
  const NULL: Text := [110, 117, 108, 108]
  const TRUE: Text := [116, 114, 117, 101]
  const FALSE: Text := [102, 97, 108, 115, 101]

  datatype Value =
    | Literal(word: Text)
    | Num(number: Number)
    | Str(chars: seq<Char>)
    | EmptyArray(space: Text)
    | Array(items: Items)
    | EmptyObject(space: Text)
    | Object(members: Members)

  datatype Items = Last(before: Text, value: Value, after: Text) | More(before: Text, value: Value, after: Text, rest: Items)

  datatype Members =
    | LastMember(a: Text, key: seq<Char>, b: Text, c: Text, value: Value, d: Text)
    | MoreMembers(a: Text, key: seq<Char>, b: Text, c: Text, value: Value, d: Text, rest: Members)

  predicate Valid(v: Value) {
    match v
    case Literal(word) => word == NULL || word == TRUE || word == FALSE
    case Num(number) => ValidNumber(number)
    case Str(chars) => ValidChars(chars)
    case EmptyArray(space) => AllSpace(space)
    case Array(items) => ValidItems(items)
    case EmptyObject(space) => AllSpace(space)
    case Object(members) => ValidMembers(members)
  }

  predicate ValidItems(items: Items) {
    AllSpace(items.before) && Valid(items.value) && AllSpace(items.after) && (items.More? ==> ValidItems(items.rest))
  }

  predicate ValidMembers(m: Members) {
    && AllSpace(m.a) && ValidChars(m.key) && AllSpace(m.b) && AllSpace(m.c) && Valid(m.value) && AllSpace(m.d)
    && (m.MoreMembers? ==> ValidMembers(m.rest))
  }

  function Print(v: Value): Text {
    match v
    case Literal(word) => word
    case Num(number) => NumberText(number)
    case Str(chars) => StringText(chars)
    case EmptyArray(space) => [OPEN_BRACKET] + space + [CLOSE_BRACKET]
    case Array(items) => [OPEN_BRACKET] + PrintItems(items) + [CLOSE_BRACKET]
    case EmptyObject(space) => [OPEN_BRACE] + space + [CLOSE_BRACE]
    case Object(members) => [OPEN_BRACE] + PrintMembers(members) + [CLOSE_BRACE]
  }

  function PrintItems(items: Items): Text {
    items.before + Print(items.value) + items.after
    + if items.More? then [COMMA] + PrintItems(items.rest) else []
  }

  function PrintMembers(m: Members): Text {
    m.a + StringText(m.key) + m.b + [COLON] + m.c + Print(m.value) + m.d
    + if m.MoreMembers? then [COMMA] + PrintMembers(m.rest) else []
  }

  /** A JSON object in any spelling. */
  predicate IsObject(v: Value) {
    (v.EmptyObject? || v.Object?) && Valid(v)
  }
}
