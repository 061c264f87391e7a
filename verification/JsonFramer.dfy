/** query.readBoundedJSONObject: finds the end of one JSON object in a byte stream without parsing it. */
module JsonFramer {
  import opened Bytes
  import opened JsonText
  import opened Wrappers

  /** The scanner's variables. */
  datatype Scan = Scan(depth: int, inString: bool, escaped: bool)

  function Step(s: Scan, b: Byte): Scan {
    if s.inString then
      if s.escaped then s.(escaped := false)
      else if b == BACKSLASH then s.(escaped := true)
      else if b == QUOTE then s.(inString := false)
      else s
    else if b == QUOTE then s.(inString := true)
    else if b == OPEN_BRACE || b == OPEN_BRACKET then s.(depth := s.depth + 1)
    else if b == CLOSE_BRACE || b == CLOSE_BRACKET then s.(depth := s.depth - 1)
    else s
  }

  /** From state `s` the text is read through without ever reaching depth 0, and ends in state `e`. */
  predicate Through(s: Scan, t: Text, e: Scan)
    decreases |t|
  {
    if t == [] then s == e else s.depth > 0 && Step(s, t[0]).depth > 0 && Through(Step(s, t[0]), t[1..], e)
  }

  lemma {:induction false} ThroughBoth(s: Scan, a: Text, m: Scan, b: Text, e: Scan)
    requires Through(s, a, m) && Through(m, b, e)
    ensures Through(s, a + b, e)
    decreases |a|
  {
    if a == [] {
      assert a + b == b;
    } else {
      ThroughBoth(Step(s, a[0]), a[1..], m, b, e);
      assert (a + b)[1..] == a[1..] + b;
    }
  }

  function Code(depth: int): Scan {
    Scan(depth, false, false)
  }

  function InString(depth: int): Scan {
    Scan(depth, true, false)
  }

  /** Outside strings, bytes that are neither quotes nor brackets change nothing. */
  predicate Neutral(t: Text) {
    forall i :: 0 <= i < |t| ==> t[i] != QUOTE && t[i] != OPEN_BRACE && t[i] != OPEN_BRACKET && t[i] != CLOSE_BRACE && t[i] != CLOSE_BRACKET
  }

  lemma {:induction false} NeutralPasses(t: Text, depth: int)
    requires Neutral(t) && depth > 0
    ensures Through(Code(depth), t, Code(depth))
  {
    if t != [] {
      NeutralPasses(t[1..], depth);
    }
  }

  lemma {:induction false} PlainPasses(t: Text, depth: int)
    requires depth > 0 && forall i :: 0 <= i < |t| ==> t[i] != QUOTE && t[i] != BACKSLASH
    ensures Through(InString(depth), t, InString(depth))
  {
    if t != [] {
      PlainPasses(t[1..], depth);
    }
  }

  /** The byte behind a backslash never ends the string. */
  lemma EscapePasses(b: Byte, depth: int)
    requires depth > 0
    ensures Through(InString(depth), [BACKSLASH, b], InString(depth))
  {
    BytePasses(InString(depth), BACKSLASH);
    BytePasses(Scan(depth, true, true), b);
    ThroughBoth(InString(depth), [BACKSLASH], Scan(depth, true, true), [b], InString(depth));
    assert [BACKSLASH, b] == [BACKSLASH] + [b];
  }

  lemma CharPasses(c: Char, depth: int)
    requires ValidChar(c) && depth > 0
    ensures Through(InString(depth), CharText(c), InString(depth))
  {
    match c
    case Plain(b) => PlainPasses([b], depth);
    case Escape(b) => EscapePasses(b, depth);
    case Unicode(h0, h1, h2, h3) =>
      EscapePasses(117, depth);
      PlainPasses([h0, h1, h2, h3], depth);
      ThroughBoth(InString(depth), [BACKSLASH, 117], InString(depth), [h0, h1, h2, h3], InString(depth));
      assert CharText(c) == [BACKSLASH, 117] + [h0, h1, h2, h3];
  }

  lemma {:induction false} CharsPass(cs: seq<Char>, depth: int)
    requires ValidChars(cs) && depth > 0
    ensures Through(InString(depth), CharsText(cs), InString(depth))
  {
    if cs != [] {
      CharPasses(cs[0], depth);
      CharsPass(cs[1..], depth);
      ThroughBoth(InString(depth), CharText(cs[0]), InString(depth), CharsText(cs[1..]), InString(depth));
    }
  }

  lemma BytePasses(s: Scan, b: Byte)
    requires s.depth > 0 && Step(s, b).depth > 0
    ensures Through(s, [b], Step(s, b))
  {
    assert [b][1..] == [];
  }

  /** A string passes whatever brackets, quotes and backslashes it contains. */
  lemma StringPasses(cs: seq<Char>, depth: int)
    requires ValidChars(cs) && depth > 0
    ensures Through(Code(depth), StringText(cs), Code(depth))
  {
    BytePasses(Code(depth), QUOTE);
    CharsPass(cs, depth);
    BytePasses(InString(depth), QUOTE);
    ThroughBoth(Code(depth), [QUOTE], InString(depth), CharsText(cs), InString(depth));
    ThroughBoth(Code(depth), [QUOTE] + CharsText(cs), InString(depth), [QUOTE], Code(depth));
  }

  /** Inside something open, any value passes and leaves the depth as it was. */
  lemma {:induction false} ValuePasses(v: Value, depth: int)
    requires Valid(v) && depth > 0
    ensures Through(Code(depth), Print(v), Code(depth))
    decreases v
  {
    hide Through, StringText, PrintItems, PrintMembers;
    match v
    case Literal(word) => NeutralPasses(word, depth);
    case Num(number) => NeutralPasses(NumberText(number), depth);
    case Str(chars) => StringPasses(chars, depth);
    case EmptyArray(space) =>
      NeutralPasses(space, depth + 1);
      Bracketed(OPEN_BRACKET, space, CLOSE_BRACKET, depth);
    case Array(items) =>
      ItemsPass(items, depth + 1);
      Bracketed(OPEN_BRACKET, PrintItems(items), CLOSE_BRACKET, depth);
    case EmptyObject(space) =>
      NeutralPasses(space, depth + 1);
      Bracketed(OPEN_BRACE, space, CLOSE_BRACE, depth);
    case Object(members) =>
      MembersPass(members, depth + 1);
      Bracketed(OPEN_BRACE, PrintMembers(members), CLOSE_BRACE, depth);
  }

  lemma Bracketed(open: Byte, t: Text, close: Byte, depth: int)
    requires (open == OPEN_BRACE || open == OPEN_BRACKET) && (close == CLOSE_BRACE || close == CLOSE_BRACKET)
    requires depth > 0 && Through(Code(depth + 1), t, Code(depth + 1))
    ensures Through(Code(depth), [open] + t + [close], Code(depth))
  {
    BytePasses(Code(depth), open);
    BytePasses(Code(depth + 1), close);
    ThroughBoth(Code(depth), [open], Code(depth + 1), t, Code(depth + 1));
    ThroughBoth(Code(depth), [open] + t, Code(depth + 1), [close], Code(depth));
  }

  /** Two texts that keep the state keep it together. */
  lemma Together(a: Text, b: Text, depth: int)
    requires Through(Code(depth), a, Code(depth)) && Through(Code(depth), b, Code(depth))
    ensures Through(Code(depth), a + b, Code(depth))
  {
    ThroughBoth(Code(depth), a, Code(depth), b, Code(depth));
  }

  lemma {:induction false} ItemsPass(items: Items, depth: int)
    requires ValidItems(items) && depth > 0
    ensures Through(Code(depth), PrintItems(items), Code(depth))
    decreases items
  {
    NeutralPasses(items.before, depth);
    ValuePasses(items.value, depth);
    NeutralPasses(items.after, depth);
    Together(items.before, Print(items.value), depth);
    Together(items.before + Print(items.value), items.after, depth);
    var front := items.before + Print(items.value) + items.after;
    if items.More? {
      NeutralPasses([COMMA], depth);
      ItemsPass(items.rest, depth);
      Together([COMMA], PrintItems(items.rest), depth);
      Together(front, [COMMA] + PrintItems(items.rest), depth);
    } else {
      assert front + [] == front;
    }
  }

  lemma {:induction false} MembersPass(m: Members, depth: int)
    requires ValidMembers(m) && depth > 0
    ensures Through(Code(depth), PrintMembers(m), Code(depth))
    decreases m
  {
    NeutralPasses(m.a, depth);
    StringPasses(m.key, depth);
    NeutralPasses(m.b, depth);
    NeutralPasses([COLON], depth);
    NeutralPasses(m.c, depth);
    ValuePasses(m.value, depth);
    NeutralPasses(m.d, depth);
    var t1 := m.a + StringText(m.key);
    Together(m.a, StringText(m.key), depth);
    Together(t1, m.b, depth);
    Together(t1 + m.b, [COLON], depth);
    Together(t1 + m.b + [COLON], m.c, depth);
    Together(t1 + m.b + [COLON] + m.c, Print(m.value), depth);
    Together(t1 + m.b + [COLON] + m.c + Print(m.value), m.d, depth);
    var front := t1 + m.b + [COLON] + m.c + Print(m.value) + m.d;
    if m.MoreMembers? {
      NeutralPasses([COMMA], depth);
      MembersPass(m.rest, depth);
      Together([COMMA], PrintMembers(m.rest), depth);
      Together(front, [COMMA] + PrintMembers(m.rest), depth);
    } else {
      assert front + [] == front;
    }
  }

  // ---------------------------------------------------------------- reading a stream

  datatype Framed = Chunk(text: Text) | Eof | UnexpectedEof | TooLarge | NotAnObject

  function SkipSpace(input: Text, i: nat): (r: nat)
    requires i <= |input|
    ensures i <= r <= |input|
    decreases |input| - i
  {
    if i < |input| && IsSpace(input[i]) then SkipSpace(input, i + 1) else i
  }

  /** The position right behind the byte that closes what is open in state `s`. */
  function Close(input: Text, i: nat, s: Scan): (r: Option<nat>)
    requires i <= |input|
    ensures r.Some? ==> i <= r.value <= |input|
    decreases |input| - i
  {
    if s.depth <= 0 then Some(i)
    else if i == |input| then None
    else Close(input, i + 1, Step(s, input[i]))
  }

  /** What one call finds in a stream of which `from` bytes are consumed, and how far it reads. */
  function Frame(input: Text, from: nat, maximum: nat): (r: (Framed, nat))
    requires from <= |input|
    ensures from <= r.1 <= |input| && r.1 - from <= maximum + 1
    ensures r.0.Chunk? ==> r.1 > from
  {
    var start := SkipSpace(input, from);
    var beyond := (TooLarge, from + maximum + 1);
    if start - from > maximum then beyond
    else if start == |input| then (Eof, start)
    else if start - from == maximum then beyond
    else if input[start] != OPEN_BRACE then (NotAnObject, start + 1)
    else
      match Close(input, start + 1, Code(1))
      case Some(end) => if end - from <= maximum then (Chunk(input[start..end]), end) else beyond
      case None => if |input| - from > maximum then beyond else (UnexpectedEof, |input|)
  }

  /** readBoundedJSONObject, byte by byte. */
  method ReadBoundedJSONObject(input: Text, from: nat, maximum: nat) returns (result: Framed, next: nat)
    requires from <= |input|
    ensures (result, next) == Frame(input, from, maximum)
  {
    var consumed := 0;
    next := from;
    var first: Byte := 32;
    while IsSpace(first)
      invariant consumed == next - from <= maximum && next <= |input|
      invariant IsSpace(first) ==> SkipSpace(input, from) == SkipSpace(input, next)
      invariant !IsSpace(first) ==> next > from && first == input[next - 1] && SkipSpace(input, from) == next - 1
      decreases |input| - next, if IsSpace(first) then 1 else 0
    {
      if next == |input| { return Eof, next; }
      var value := input[next];
      next, consumed := next + 1, consumed + 1;
      if consumed > maximum { return TooLarge, next; }
      first := value;
    }
    if first != OPEN_BRACE { return NotAnObject, next; }
    var start := next - 1;
    var encoded := [first];
    var depth, inString, escaped := 1, false, false;
    while depth > 0
      invariant start < next <= |input| && consumed == next - from <= maximum
      invariant SkipSpace(input, from) == start && input[start] == OPEN_BRACE
      invariant encoded == input[start..next]
      invariant Close(input, next, Scan(depth, inString, escaped)) == Close(input, start + 1, Code(1))
      decreases |input| - next
    {
      if next == |input| { return UnexpectedEof, next; }
      var value := input[next];
      next, consumed := next + 1, consumed + 1;
      if consumed > maximum { return TooLarge, next; }
      encoded := encoded + [value];
      if inString {
        if escaped {
          escaped := false;
        } else if value == BACKSLASH {
          escaped := true;
        } else if value == QUOTE {
          inString := false;
        }
      } else {
        if value == QUOTE {
          inString := true;
        } else if value == OPEN_BRACE || value == OPEN_BRACKET {
          depth := depth + 1;
        } else if value == CLOSE_BRACE || value == CLOSE_BRACKET {
          depth := depth - 1;
        }
      }
    }
    return Chunk(encoded), next;
  }

  // ---------------------------------------------------------------- exactness

  lemma {:induction false} CloseThrough(input: Text, i: nat, s: Scan, t: Text, e: Scan)
    requires s.depth > 0 && Through(s, t, e) && i + |t| <= |input| && input[i..i + |t|] == t
    ensures Close(input, i, s) == Close(input, i + |t|, e)
    decreases |t|
  {
    if t != [] {
      assert input[i] == t[0] && input[i + 1..i + |t|] == t[1..];
      CloseThrough(input, i + 1, Step(s, t[0]), t[1..], e);
    }
  }

  lemma {:induction false} SpaceSkipped(input: Text, i: nat, space: Text)
    requires AllSpace(space) && i + |space| < |input| && input[i..i + |space|] == space && !IsSpace(input[i + |space|])
    ensures SkipSpace(input, i) == i + |space|
    decreases |space|
  {
    if space != [] {
      assert input[i] == space[0] && input[i + 1..i + |space|] == space[1..];
      SpaceSkipped(input, i + 1, space[1..]);
    }
  }

  /** An object's text is a brace, something that keeps the scanner at depth 1, and a brace. */
  lemma ObjectShape(v: Value) returns (inner: Text)
    requires IsObject(v)
    ensures Print(v) == [OPEN_BRACE] + inner + [CLOSE_BRACE] && Through(Code(1), inner, Code(1))
  {
    match v
    case EmptyObject(space) =>
      inner := space;
      NeutralPasses(space, 1);
    case Object(members) =>
      inner := PrintMembers(members);
      MembersPass(members, 1);
  }

  /** From the opening brace of a bracketed text the scanner finds its closing brace. */
  lemma ClosesAtEnd(input: Text, start: nat, inner: Text)
    requires Through(Code(1), inner, Code(1)) && start + |inner| + 2 <= |input|
    requires input[start..start + |inner| + 2] == [OPEN_BRACE] + inner + [CLOSE_BRACE]
    ensures input[start] == OPEN_BRACE && Close(input, start + 1, Code(1)) == Some(start + |inner| + 2)
  {
    hide Through;
    var last := start + |inner| + 1;
    BracketSlices(input[start..last + 1], inner);
    assert input[start..last + 1][1..|inner| + 1] == input[start + 1..last];
    CloseThrough(input, start + 1, Code(1), inner, Code(1));
    CloseBrace(input, last);
  }

  lemma BracketSlices(text: Text, inner: Text)
    requires text == [OPEN_BRACE] + inner + [CLOSE_BRACE]
    ensures text[0] == OPEN_BRACE && text[|inner| + 1] == CLOSE_BRACE && text[1..|inner| + 1] == inner
  {
  }

  lemma CloseBrace(input: Text, last: nat)
    requires last < |input| && input[last] == CLOSE_BRACE
    ensures Close(input, last, Code(1)) == Some(last + 1)
  {
    assert Close(input, last + 1, Code(0)) == Some(last + 1);
  }

  lemma SlicesOf(input: Text, from: nat, a: Text, b: Text)
    requires from + |a + b| <= |input| && input[from..from + |a + b|] == a + b
    ensures input[from..from + |a|] == a && input[from + |a|..from + |a + b|] == b
  {
    assert input[from..from + |a|] == (a + b)[..|a|];
    assert input[from + |a|..from + |a + b|] == (a + b)[|a|..];
  }

  /** On whitespace, then an object in any spelling, then anything at all, the call returns that object's text and
      stops right behind it if both fit the limit; otherwise it says that the chunk is too large. */
  lemma FramesExactly(input: Text, from: nat, maximum: nat, space: Text, v: Value)
    requires AllSpace(space) && IsObject(v) && from + |space + Print(v)| <= |input|
    requires input[from..from + |space + Print(v)|] == space + Print(v)
    ensures Frame(input, from, maximum) ==
            if |space + Print(v)| <= maximum then (Chunk(Print(v)), from + |space + Print(v)|)
            else (TooLarge, from + maximum + 1)
  {
    var inner := ObjectShape(v);
    hide Print, Through, Close, SkipSpace, Step, Valid, IsObject;
    var text := Print(v);
    var start, end := from + |space|, from + |space + text|;
    SlicesOf(input, from, space, text);
    ClosesAtEnd(input, start, inner);
    SpaceSkipped(input, from, space);
  }

  /** Calling again and again: the texts of the chunks, and what ended the stream. */
  function FrameAll(input: Text, from: nat, maximum: nat): (r: (seq<Text>, Framed))
    requires from <= |input|
    decreases |input| - from
  {
    var (result, next) := Frame(input, from, maximum);
    if !result.Chunk? then ([], result)
    else
      var (texts, last) := FrameAll(input, next, maximum);
      ([result.text] + texts, last)
  }

  datatype Spaced = Spaced(space: Text, value: Value)

  predicate ValidChunk(c: Spaced, maximum: nat) {
    AllSpace(c.space) && IsObject(c.value) && |c.space + Print(c.value)| <= maximum
  }

  function Join(cs: seq<Spaced>, tail: Text): Text {
    if cs == [] then tail else cs[0].space + Print(cs[0].value) + Join(cs[1..], tail)
  }

  function Texts(cs: seq<Spaced>): seq<Text> {
    if cs == [] then [] else [Print(cs[0].value)] + Texts(cs[1..])
  }

  lemma {:induction false} TailIsEof(input: Text, i: nat)
    requires i <= |input| && AllSpace(input[i..])
    ensures SkipSpace(input, i) == |input|
    decreases |input| - i
  {
    if i < |input| {
      assert input[i] == input[i..][0] && input[i + 1..] == input[i..][1..];
      TailIsEof(input, i + 1);
    }
  }

  lemma TailFrames(input: Text, i: nat, maximum: nat)
    requires i <= |input| && AllSpace(input[i..]) && |input| - i <= maximum
    ensures Frame(input, i, maximum) == (Eof, |input|)
  {
    TailIsEof(input, i);
  }

  lemma JoinSlices(cs: seq<Spaced>, tail: Text, input: Text, from: nat)
    requires cs != [] && from <= |input| && input[from..] == Join(cs, tail)
    ensures var first := cs[0].space + Print(cs[0].value);
            from + |first| <= |input| && input[from..from + |first|] == first && input[from + |first|..] == Join(cs[1..], tail)
  {
    hide Print;
    var first, joined := cs[0].space + Print(cs[0].value), Join(cs, tail);
    assert joined == first + Join(cs[1..], tail);
    assert input[from..from + |first|] == joined[..|first|] && input[from + |first|..] == joined[|first|..];
  }

  /** A stream of objects with any whitespace around them splits back into exactly those objects. */
  lemma {:induction false} StreamSplits(input: Text, from: nat, maximum: nat, cs: seq<Spaced>, tail: Text)
    requires from <= |input| && input[from..] == Join(cs, tail)
    requires (forall i :: 0 <= i < |cs| ==> ValidChunk(cs[i], maximum)) && AllSpace(tail) && |tail| <= maximum
    ensures FrameAll(input, from, maximum) == (Texts(cs), Eof)
    decreases |cs|
  {
    hide Print, Frame, IsObject;
    if cs == [] {
      TailFrames(input, from, maximum);
    } else {
      var c := cs[0];
      assert ValidChunk(c, maximum);
      var n := |c.space + Print(c.value)|;
      JoinSlices(cs, tail, input, from);
      FramesExactly(input, from, maximum, c.space, c.value);
      StreamSplits(input, from + n, maximum, cs[1..], tail);
    }
  }
}
