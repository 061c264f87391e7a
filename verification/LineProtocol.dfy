/** exportfmt.EncodeLPPoint: one canonical line-protocol line per point, and a decoder that gives the point back. */
module LineProtocol {
  import opened Decimal
  import opened Wrappers

  datatype Kind = Null | String | Boolean | TimestampNs | Int64 | Uint64 | Float64 | NumericText

  datatype Scalar = Scalar(kind: Kind, decimalText: string, stringValue: string, booleanValue: Option<bool>)

  datatype Error = InvalidPoint | AmbiguousNumeric

  /** What a field value means: its kind, with an integer's digits and a float's shortest text. */
  datatype Field = Text(value: string) | Bool(flag: bool) | Signed(digits: string) | Unsigned(digits: string) | Float(text: string)

  // ---------------------------------------------------------------- escaping

  const MEASUREMENT: set<char> := {'\\', ',', ' '}
  const TAG: set<char> := {'\\', ',', '=', ' '}
  const QUOTED: set<char> := {'\\', '"'}

  /** strings.NewReplacer with a backslash before each special character. */
  function Escape(s: string, special: set<char>): string {
    if s == "" then "" else (if s[0] in special then ['\\', s[0]] else [s[0]]) + Escape(s[1..], special)
  }

  /** Up to the first stop character that no backslash precedes; a backslash stands for the character behind it. */
  function ReadToken(line: string, stops: set<char>): (r: (string, string))
    ensures |r.1| <= |line|
  {
    if line == "" || line[0] in stops then ("", line)
    else if line[0] == '\\' && |line| > 1 then
      var (token, rest) := ReadToken(line[2..], stops);
      ([line[1]] + token, rest)
    else
      var (token, rest) := ReadToken(line[1..], stops);
      ([line[0]] + token, rest)
  }

  /** Any text at all survives escaping, as long as whatever ends the token is escaped inside it. */
  lemma {:induction false} TokenRoundTrip(s: string, special: set<char>, stops: set<char>, rest: string)
    requires stops <= special && '\\' in special && '\\' !in stops && (rest == "" || rest[0] in stops)
    ensures ReadToken(Escape(s, special) + rest, stops) == (s, rest)
  {
    if s == "" {
      assert Escape(s, special) + rest == rest;
    } else {
      TokenRoundTrip(s[1..], special, stops, rest);
      assert s == [s[0]] + s[1..];
      OneCharacter(if s[0] in special then ['\\', s[0]] else [s[0]], Escape(s[1..], special), rest);
    }
  }

  lemma OneCharacter(head: string, others: string, rest: string)
    requires head != ""
    ensures var line := head + others + rest;
            line != "" && line[0] == head[0] && line[|head|..] == others + rest && line[..|head|] == head
    ensures |head| == 2 ==> (head + others + rest)[1] == head[1]
  {
  }

  lemma {:induction false} PlainToken(s: string, stops: set<char>, rest: string)
    requires (forall i :: 0 <= i < |s| ==> s[i] != '\\' && s[i] !in stops) && (rest == "" || rest[0] in stops)
    ensures ReadToken(s + rest, stops) == (s, rest)
  {
    if s == "" {
      assert s + rest == rest;
    } else {
      PlainToken(s[1..], stops, rest);
      assert (s + rest)[1..] == s[1..] + rest && s == [s[0]] + s[1..];
    }
  }

  // ---------------------------------------------------------------- field values

  /** strconv.ParseInt(text, 10, 64) succeeds. */
  predicate ParsesInt64(text: string) {
    var signed := text != "" && (text[0] == '-' || text[0] == '+');
    var digits := if signed then text[1..] else text;
    digits != "" && AllDigits(digits)
    && Value(digits) <= if signed && text[0] == '-' then 0x8000_0000_0000_0000 else 0x7FFF_FFFF_FFFF_FFFF
  }

  predicate ParsesUint64(text: string) {
    text != "" && AllDigits(text) && Value(text) <= 0xFFFF_FFFF_FFFF_FFFF
  }

  /** Parsing a float and printing it in its shortest form. */
  type FloatPrinter = string -> Option<string>

  /** What FormatFloat(x, 'g', -1, 64) never prints. */
  predicate PlainFloat(text: string) {
    && text != "" && text != "true" && text != "false" && text[|text| - 1] != 'i' && text[|text| - 1] != 'u'
    && forall i :: 0 <= i < |text| ==> text[i] !in {'\\', ',', ' ', '=', '"'}
  }

  ghost predicate PlainPrinter(float: FloatPrinter) {
    forall text: string :: float(text).Some? ==> PlainFloat(float(text).value)
  }

  function Meaning(s: Scalar, float: FloatPrinter): Result<Field, Error> {
    match s.kind
    case String => Ok(Text(s.stringValue))
    case Boolean => if s.booleanValue.None? then Err(InvalidPoint) else Ok(Bool(s.booleanValue.value))
    case Int64 => if ParsesInt64(s.decimalText) then Ok(Signed(s.decimalText)) else Err(InvalidPoint)
    case Uint64 => if ParsesUint64(s.decimalText) then Ok(Unsigned(s.decimalText)) else Err(InvalidPoint)
    case Float64 => if float(s.decimalText).Some? then Ok(Float(float(s.decimalText).value)) else Err(InvalidPoint)
    case NumericText => Err(AmbiguousNumeric)
    case _ => Err(InvalidPoint)
  }

  function FieldText(f: Field): string {
    match f
    case Text(value) => "\"" + Escape(value, QUOTED) + "\""
    case Bool(value) => if value then "true" else "false"
    case Signed(digits) => digits + "i"
    case Unsigned(digits) => digits + "u"
    case Float(text) => text
  }

  predicate Printable(f: Field) {
    match f
    case Signed(digits) => ParsesInt64(digits)
    case Unsigned(digits) => ParsesUint64(digits)
    case Float(text) => PlainFloat(text)
    case _ => true
  }

  function DecodeBare(v: string): Field {
    if v == "true" then Bool(true)
    else if v == "false" then Bool(false)
    else if v != "" && v[|v| - 1] == 'i' then Signed(v[..|v| - 1])
    else if v != "" && v[|v| - 1] == 'u' then Unsigned(v[..|v| - 1])
    else Float(v)
  }

  function DecodeValue(line: string): (r: Option<(Field, string)>)
    ensures r.Some? ==> |r.value.1| <= |line|
  {
    if line != "" && line[0] == '"' then
      var (value, rest) := ReadToken(line[1..], {'"'});
      if rest == "" then None else Some((Text(value), rest[1..]))
    else
      var (v, rest) := ReadToken(line, {',', ' '});
      Some((DecodeBare(v), rest))
  }

  lemma BareText(f: Field)
    requires Printable(f) && !f.Text?
    ensures FieldText(f) != "" && FieldText(f)[0] != '"' && DecodeBare(FieldText(f)) == f
    ensures forall i :: 0 <= i < |FieldText(f)| ==> FieldText(f)[i] != '\\' && FieldText(f)[i] !in {',', ' '}
  {
    var t := FieldText(f);
    match f
    case Bool(_) =>
    case Signed(digits) =>
      assert t[..|t| - 1] == digits;
      DigitsAreBare(digits);
    case Unsigned(digits) =>
      assert t[..|t| - 1] == digits;
    case Float(_) =>
  }

  lemma DigitsAreBare(digits: string)
    requires ParsesInt64(digits)
    ensures digits != "" && forall i :: 0 <= i < |digits| ==> IsDigit(digits[i]) || digits[i] == '-' || digits[i] == '+'
  {
    if digits[0] == '-' || digits[0] == '+' {
      forall i | 1 <= i < |digits| ensures IsDigit(digits[i]) {
        assert digits[1..][i - 1] == digits[i];
      }
    }
  }

  lemma QuotedParts(escaped: string, rest: string)
    ensures var line := "\"" + escaped + "\"" + rest;
            line[0] == '"' && line[1..] == escaped + ("\"" + rest) && ("\"" + rest)[1..] == rest
  {
  }

  lemma ValueRoundTrip(f: Field, rest: string)
    requires Printable(f) && (rest == "" || rest[0] in {',', ' '})
    ensures DecodeValue(FieldText(f) + rest) == Some((f, rest))
  {
    hide ReadToken, Escape, Printable, DecodeBare;
    if f.Text? {
      TokenRoundTrip(f.value, QUOTED, {'"'}, "\"" + rest);
      QuotedParts(Escape(f.value, QUOTED), rest);
    } else {
      BareText(f);
      PlainToken(FieldText(f), {',', ' '}, rest);
      FirstOf(FieldText(f), rest);
    }
  }

  lemma FirstOf(a: string, b: string)
    requires a != ""
    ensures a + b != "" && (a + b)[0] == a[0]
  {
  }

  // ---------------------------------------------------------------- a line

  datatype Tag = Tag(key: string, value: string)

  datatype Entry = Entry(key: string, value: Field)

  datatype Point = Point(measurement: string, tags: seq<Tag>, fields: seq<Entry>, timestamp: string)

  function TagsText(tags: seq<Tag>): string {
    if tags == [] then "" else "," + Escape(tags[0].key, TAG) + "=" + Escape(tags[0].value, TAG) + TagsText(tags[1..])
  }

  function FieldsText(fields: seq<Entry>): string {
    if fields == [] then ""
    else Escape(fields[0].key, TAG) + "=" + FieldText(fields[0].value)
         + if |fields| == 1 then "" else "," + FieldsText(fields[1..])
  }

  function Line(p: Point): string {
    Escape(p.measurement, MEASUREMENT) + TagsText(p.tags) + " " + FieldsText(p.fields) + " " + p.timestamp
  }

  function DecodeTags(line: string): (r: Option<(seq<Tag>, string)>)
    ensures r.Some? ==> |r.value.1| <= |line|
    decreases |line|
  {
    if line == "" || line[0] != ',' then Some(([], line))
    else
      var (key, afterKey) := ReadToken(line[1..], {'='});
      if afterKey == "" then None
      else
        var (value, afterValue) := ReadToken(afterKey[1..], {',', ' '});
        match DecodeTags(afterValue)
        case None => None
        case Some((tags, rest)) => Some(([Tag(key, value)] + tags, rest))
  }

  function DecodeFields(line: string): (r: Option<(seq<Entry>, string)>)
    decreases |line|
  {
    var (key, afterKey) := ReadToken(line, {'='});
    if afterKey == "" then None
    else
      match DecodeValue(afterKey[1..])
      case None => None
      case Some((value, rest)) =>
        if rest == "" || rest[0] != ',' then Some(([Entry(key, value)], rest))
        else
          match DecodeFields(rest[1..])
          case None => None
          case Some((fields, last)) => Some(([Entry(key, value)] + fields, last))
  }

  function DecodeLine(line: string): Option<Point> {
    var (measurement, rest) := ReadToken(line, {',', ' '});
    match DecodeTags(rest)
    case None => None
    case Some((tags, afterTags)) =>
      if afterTags == "" || afterTags[0] != ' ' then None
      else
        match DecodeFields(afterTags[1..])
        case None => None
        case Some((fields, afterFields)) =>
          if afterFields == "" || afterFields[0] != ' ' then None
          else Some(Point(measurement, tags, fields, afterFields[1..]))
  }

  lemma TagParts(key: string, value: string, others: string, rest: string)
    ensures var line := "," + key + "=" + value + others + rest;
            var tail := others + rest;
            && line[0] == ',' && line[1..] == key + ("=" + (value + tail))
            && ("=" + (value + tail)) != "" && ("=" + (value + tail))[0] == '=' && ("=" + (value + tail))[1..] == value + tail
  {
  }

  lemma {:induction false} TagsRoundTrip(tags: seq<Tag>, rest: string)
    requires rest != "" && rest[0] == ' '
    ensures DecodeTags(TagsText(tags) + rest) == Some((tags, rest))
    ensures TagsText(tags) + rest != "" && (TagsText(tags) + rest)[0] in {',', ' '}
  {
    hide Escape, ReadToken;
    if tags == [] {
      assert TagsText(tags) + rest == rest;
    } else {
      TagsRoundTrip(tags[1..], rest);
      var key, value, tail := Escape(tags[0].key, TAG), Escape(tags[0].value, TAG), TagsText(tags[1..]) + rest;
      TagParts(key, value, TagsText(tags[1..]), rest);
      TokenRoundTrip(tags[0].key, TAG, {'='}, "=" + (value + tail));
      TokenRoundTrip(tags[0].value, TAG, {',', ' '}, tail);
      assert tags == [Tag(tags[0].key, tags[0].value)] + tags[1..];
    }
  }

  lemma FieldParts(key: string, value: string, others: string, rest: string)
    ensures var line := key + "=" + value + others + rest;
            var tail := others + rest;
            && line == key + ("=" + (value + tail))
            && ("=" + (value + tail)) != "" && ("=" + (value + tail))[0] == '=' && ("=" + (value + tail))[1..] == value + tail
  {
    var tail := others + rest;
    assert key + "=" + value + others + rest == key + ("=" + (value + tail));
  }

  lemma CommaParts(others: string, rest: string)
    ensures ("," + others + rest)[0] == ',' && ("," + others + rest)[1..] == others + rest
  {
  }

  lemma {:induction false} FieldsRoundTrip(fields: seq<Entry>, rest: string)
    requires fields != [] && rest != "" && rest[0] == ' '
    requires forall i :: 0 <= i < |fields| ==> Printable(fields[i].value)
    ensures DecodeFields(FieldsText(fields) + rest) == Some((fields, rest))
  {
    hide Escape, ReadToken, DecodeValue, FieldText, Printable;
    var e := fields[0];
    var key, value := Escape(e.key, TAG), FieldText(e.value);
    var others := if |fields| == 1 then "" else "," + FieldsText(fields[1..]);
    var tail := others + rest;
    FieldParts(key, value, others, rest);
    assert FieldsText(fields) + rest == key + ("=" + (value + tail));
    TokenRoundTrip(e.key, TAG, {'='}, "=" + (value + tail));
    if |fields| == 1 {
      assert tail == rest && fields == [Entry(e.key, e.value)];
      ValueRoundTrip(e.value, tail);
    } else {
      CommaParts(FieldsText(fields[1..]), rest);
      ValueRoundTrip(e.value, tail);
      FieldsRoundTrip(fields[1..], rest);
      assert fields == [Entry(e.key, e.value)] + fields[1..];
    }
  }

  lemma LineParts(measurement: string, tags: string, fields: string, timestamp: string)
    ensures var afterFields := " " + timestamp;
            var afterTags := " " + (fields + afterFields);
            && measurement + tags + " " + fields + " " + timestamp == measurement + (tags + afterTags)
            && afterTags[0] == ' ' && afterTags[1..] == fields + afterFields
            && afterFields[0] == ' ' && afterFields[1..] == timestamp
  {
    var afterFields := " " + timestamp;
    assert measurement + tags + " " + fields + " " + timestamp == measurement + (tags + (" " + (fields + afterFields)));
  }

  /** Every line decodes to the point it was printed from: measurement, tags, fields with their kinds, timestamp. */
  lemma LineRoundTrip(p: Point)
    requires p.fields != [] && forall i :: 0 <= i < |p.fields| ==> Printable(p.fields[i].value)
    ensures DecodeLine(Line(p)) == Some(p)
  {
    hide Escape, ReadToken, DecodeTags, DecodeFields, TagsText, FieldsText, Printable;
    var tags, fields := TagsText(p.tags), FieldsText(p.fields);
    var afterFields := " " + p.timestamp;
    var afterTags := " " + (fields + afterFields);
    LineParts(Escape(p.measurement, MEASUREMENT), tags, fields, p.timestamp);
    TagsRoundTrip(p.tags, afterTags);
    TokenRoundTrip(p.measurement, MEASUREMENT, {',', ' '}, tags + afterTags);
    FieldsRoundTrip(p.fields, afterFields);
  }

  // ---------------------------------------------------------------- points as maps

  /** The keys in strictly ascending text order: the one canonical enumeration of the set. */
  predicate Enumerates(keys: seq<string>, s: set<string>) {
    && (forall k :: k in keys ==> k in s) && (forall k :: k in s ==> k in keys)
    && (forall i, j :: 0 <= i < j < |keys| ==> TextLess(keys[i], keys[j]))
  }

  lemma {:induction false} TextLessTransitive(a: string, b: string, c: string)
    requires TextLess(a, b) && TextLess(b, c)
    ensures TextLess(a, c)
  {
    if a != "" && a[0] == b[0] == c[0] {
      TextLessTransitive(a[1..], b[1..], c[1..]);
    }
  }

  lemma {:induction false} TextLessTotal(a: string, b: string)
    ensures !(TextLess(a, b) && TextLess(b, a)) && !TextLess(a, a)
    ensures a != b ==> TextLess(a, b) || TextLess(b, a)
  {
    if a != "" {
      TextLessTotal(a[1..], if b != "" then b[1..] else "");
      if b != "" && a[0] == b[0] {
        assert a == [a[0]] + a[1..] && b == [b[0]] + b[1..];
      }
    }
  }

  lemma {:induction false} EnumerationIsUnique(a: seq<string>, b: seq<string>, s: set<string>)
    requires Enumerates(a, s) && Enumerates(b, s)
    ensures a == b
  {
    if s == {} {
      if a != [] { FirstIsMember(a, s); }
      if b != [] { FirstIsMember(b, s); }
    } else {
      SmallestFirst(a, s);
      SmallestFirst(b, s);
      TextLessTotal(a[0], b[0]);
      TextLessTotal(a[0], a[0]);
      var rest := s - {a[0]};
      TailEnumerates(a, s);
      TailEnumerates(b, s);
      EnumerationIsUnique(a[1..], b[1..], rest);
      assert a == [a[0]] + a[1..] && b == [b[0]] + b[1..];
    }
  }

  lemma FirstIsMember(keys: seq<string>, s: set<string>)
    requires Enumerates(keys, s) && keys != []
    ensures keys[0] in s
  {
    assert keys[0] in keys;
  }

  lemma SmallestFirst(keys: seq<string>, s: set<string>)
    requires Enumerates(keys, s) && s != {}
    ensures keys != [] && keys[0] in s && forall k :: k in s && k != keys[0] ==> TextLess(keys[0], k)
  {
    var k :| k in s;
    assert k in keys;
    forall k | k in s && k != keys[0] ensures TextLess(keys[0], k) {
      var j :| 0 <= j < |keys| && keys[j] == k;
    }
  }

  lemma TailEnumerates(keys: seq<string>, s: set<string>)
    requires Enumerates(keys, s) && keys != []
    ensures Enumerates(keys[1..], s - {keys[0]})
  {
    TextLessTotal(keys[0], keys[0]);
    forall k | k in keys[1..] ensures k in s - {keys[0]} {
      var j :| 0 < j < |keys| && keys[j] == k;
      assert TextLess(keys[0], keys[j]);
    }
    forall k | k in s - {keys[0]} ensures k in keys[1..] {
      var j :| 0 <= j < |keys| && keys[j] == k;
      assert keys[1..][j - 1] == k;
    }
  }

  /** sortedKeys: the smallest key that is left goes next. */
  method SortedKeys(s: set<string>) returns (keys: seq<string>)
    ensures Enumerates(keys, s)
  {
    keys := [];
    var left := s;
    while left != {}
      invariant left <= s && Enumerates(keys, s - left)
      invariant forall a, b :: a in keys && b in left ==> TextLess(a, b)
      decreases |left|
    {
      var smallest := Smallest(left);
      left := left - {smallest};
      keys := keys + [smallest];
    }
    assert s - left == s;
  }

  method Smallest(s: set<string>) returns (smallest: string)
    requires s != {}
    ensures smallest in s && forall k :: k in s && k != smallest ==> TextLess(smallest, k)
  {
    smallest :| smallest in s;
    var left := s - {smallest};
    while left != {}
      invariant left <= s && smallest in s && smallest !in left
      invariant forall k :: k in s && k !in left && k != smallest ==> TextLess(smallest, k)
      decreases |left|
    {
      var k :| k in left;
      left := left - {k};
      TextLessTotal(k, smallest);
      if TextLess(k, smallest) {
        forall x | x in s && x !in left && x != k ensures TextLess(k, x) {
          if x != smallest { TextLessTransitive(k, smallest, x); }
        }
        smallest := k;
      }
    }
  }

  function TagsOf(tags: map<string, string>, keys: seq<string>): (r: seq<Tag>)
    requires forall k :: k in keys ==> k in tags
  {
    seq(|keys|, i requires 0 <= i < |keys| => Tag(keys[i], tags[keys[i]]))
  }

  function EntriesOf(fields: map<string, Field>, keys: seq<string>): (r: seq<Entry>)
    requires forall k :: k in keys ==> k in fields
  {
    seq(|keys|, i requires 0 <= i < |keys| => Entry(keys[i], fields[keys[i]]))
  }

  ghost predicate Prints(line: string, measurement: string, tags: map<string, string>, fields: map<string, Field>, timestamp: string) {
    exists tagKeys, fieldKeys ::
      Enumerates(tagKeys, tags.Keys) && Enumerates(fieldKeys, fields.Keys)
      && line == Line(Point(measurement, TagsOf(tags, tagKeys), EntriesOf(fields, fieldKeys), timestamp))
  }

  /** Canonical: the maps alone determine the line. */
  lemma PrintIsCanonical(a: string, b: string, measurement: string, tags: map<string, string>, fields: map<string, Field>, timestamp: string)
    requires Prints(a, measurement, tags, fields, timestamp) && Prints(b, measurement, tags, fields, timestamp)
    ensures a == b
  {
    var tagKeys, fieldKeys :|
      Enumerates(tagKeys, tags.Keys) && Enumerates(fieldKeys, fields.Keys)
      && a == Line(Point(measurement, TagsOf(tags, tagKeys), EntriesOf(fields, fieldKeys), timestamp));
    var tagKeys', fieldKeys' :|
      Enumerates(tagKeys', tags.Keys) && Enumerates(fieldKeys', fields.Keys)
      && b == Line(Point(measurement, TagsOf(tags, tagKeys'), EntriesOf(fields, fieldKeys'), timestamp));
    EnumerationIsUnique(tagKeys, tagKeys', tags.Keys);
    EnumerationIsUnique(fieldKeys, fieldKeys', fields.Keys);
  }

  lemma SameTags(a: map<string, string>, b: map<string, string>, ka: seq<string>, kb: seq<string>)
    requires Enumerates(ka, a.Keys) && Enumerates(kb, b.Keys) && TagsOf(a, ka) == TagsOf(b, kb)
    ensures a == b
  {
    assert |ka| == |TagsOf(a, ka)| && |kb| == |TagsOf(b, kb)|;
    forall i | 0 <= i < |ka| ensures ka[i] == kb[i] && a[ka[i]] == b[ka[i]] {
      assert TagsOf(a, ka)[i] == TagsOf(b, kb)[i];
    }
    assert ka == kb;
    forall k ensures k in a <==> k in b {
      assert k in a ==> k in ka;
      assert k in b ==> k in kb;
    }
    forall k | k in a ensures a[k] == b[k] {
      var i :| 0 <= i < |ka| && ka[i] == k;
    }
  }

  lemma SameFields(a: map<string, Field>, b: map<string, Field>, ka: seq<string>, kb: seq<string>)
    requires Enumerates(ka, a.Keys) && Enumerates(kb, b.Keys) && EntriesOf(a, ka) == EntriesOf(b, kb)
    ensures a == b
  {
    assert |ka| == |EntriesOf(a, ka)| && |kb| == |EntriesOf(b, kb)|;
    forall i | 0 <= i < |ka| ensures ka[i] == kb[i] && a[ka[i]] == b[ka[i]] {
      assert EntriesOf(a, ka)[i] == EntriesOf(b, kb)[i];
    }
    assert ka == kb;
    forall k ensures k in a <==> k in b {
      assert k in a ==> k in ka;
      assert k in b ==> k in kb;
    }
    forall k | k in a ensures a[k] == b[k] {
      var i :| 0 <= i < |ka| && ka[i] == k;
    }
  }

  predicate AllPrintable(fields: map<string, Field>) {
    fields != map[] && forall k :: k in fields ==> Printable(fields[k])
  }

  /** Uniquely decodable: no two points that differ in measurement, tags, field meanings or timestamp share a line. */
  lemma LinesAreUnique(line: string, m1: string, tags1: map<string, string>, fields1: map<string, Field>, ts1: string,
                       m2: string, tags2: map<string, string>, fields2: map<string, Field>, ts2: string)
    requires AllPrintable(fields1) && AllPrintable(fields2)
    requires Prints(line, m1, tags1, fields1, ts1) && Prints(line, m2, tags2, fields2, ts2)
    ensures m1 == m2 && tags1 == tags2 && fields1 == fields2 && ts1 == ts2
  {
    hide Line, TagsOf, EntriesOf;
    var tk1, fk1 :| Enumerates(tk1, tags1.Keys) && Enumerates(fk1, fields1.Keys)
                    && line == Line(Point(m1, TagsOf(tags1, tk1), EntriesOf(fields1, fk1), ts1));
    var tk2, fk2 :| Enumerates(tk2, tags2.Keys) && Enumerates(fk2, fields2.Keys)
                    && line == Line(Point(m2, TagsOf(tags2, tk2), EntriesOf(fields2, fk2), ts2));
    PrintableEntries(fields1, fk1);
    PrintableEntries(fields2, fk2);
    LineRoundTrip(Point(m1, TagsOf(tags1, tk1), EntriesOf(fields1, fk1), ts1));
    LineRoundTrip(Point(m2, TagsOf(tags2, tk2), EntriesOf(fields2, fk2), ts2));
    SameTags(tags1, tags2, tk1, tk2);
    SameFields(fields1, fields2, fk1, fk2);
  }

  lemma PrintableEntries(fields: map<string, Field>, keys: seq<string>)
    requires AllPrintable(fields) && Enumerates(keys, fields.Keys)
    ensures EntriesOf(fields, keys) != []
    ensures forall i :: 0 <= i < |EntriesOf(fields, keys)| ==> Printable(EntriesOf(fields, keys)[i].value)
  {
    var k :| k in fields;
    assert k in keys;
  }

  // ---------------------------------------------------------------- EncodeLPPoint

  predicate OneLine(s: string) {
    forall i :: 0 <= i < |s| ==> s[i] != '\r' && s[i] != '\n'
  }

  predicate GoodTag(tags: map<string, string>, k: string)
    requires k in tags
  {
    k != "" && OneLine(k) && OneLine(tags[k])
  }

  predicate GoodField(fields: map<string, Scalar>, k: string, float: FloatPrinter)
    requires k in fields
  {
    k != "" && OneLine(k) && Meaning(fields[k], float).Ok?
  }

  predicate Encodable(measurement: string, tags: map<string, string>, fields: map<string, Scalar>, timestamp: Scalar,
                      float: FloatPrinter) {
    && measurement != "" && OneLine(measurement) && fields != map[]
    && timestamp.kind == TimestampNs && ParsesInt64(timestamp.decimalText)
    && (forall k :: k in tags ==> GoodTag(tags, k)) && (forall k :: k in fields ==> GoodField(fields, k, float))
  }

  function Meanings(fields: map<string, Scalar>, float: FloatPrinter): map<string, Field> {
    map k | k in fields && Meaning(fields[k], float).Ok? :: Meaning(fields[k], float).value
  }

  /** The tags in the order of the keys; None at the first tag that cannot be written. */
  method WriteTags(tags: map<string, string>, keys: seq<string>) returns (text: Option<string>)
    requires forall k :: k in keys ==> k in tags
    ensures text.Some? <==> forall k :: k in keys ==> GoodTag(tags, k)
    ensures text.Some? ==> text.value == TagsText(TagsOf(tags, keys))
  {
    var builder := "";
    for i := 0 to |keys|
      invariant forall j :: 0 <= j < i ==> GoodTag(tags, keys[j])
      invariant builder == TagsText(TagsOf(tags, keys[..i]))
    {
      var key := keys[i];
      assert key in keys;
      if key == "" || !OneLine(key) || !OneLine(tags[key]) {
        assert !GoodTag(tags, key);
        return None;
      }
      builder := builder + "," + Escape(key, TAG) + "=" + Escape(tags[key], TAG);
      assert TagsOf(tags, keys[..i + 1]) == TagsOf(tags, keys[..i]) + [Tag(key, tags[key])];
      TagsTextGrows(TagsOf(tags, keys[..i]), Tag(key, tags[key]));
    }
    assert keys[..|keys|] == keys;
    return Some(builder);
  }

  lemma {:induction false} TagsTextGrows(tags: seq<Tag>, tag: Tag)
    ensures TagsText(tags + [tag]) == TagsText(tags) + "," + Escape(tag.key, TAG) + "=" + Escape(tag.value, TAG)
  {
    hide Escape;
    if tags == [] {
      assert tags + [tag] == [tag];
    } else {
      TagsTextGrows(tags[1..], tag);
      assert (tags + [tag])[1..] == tags[1..] + [tag];
    }
  }

  method WriteFields(fields: map<string, Scalar>, keys: seq<string>, float: FloatPrinter) returns (text: Result<string, Error>)
    requires forall k :: k in keys ==> k in fields
    ensures text.Ok? <==> forall k :: k in keys ==> GoodField(fields, k, float)
    ensures text == Err(AmbiguousNumeric) ==> exists k :: k in keys && fields[k].kind == NumericText
    ensures text.Ok? ==> (forall k :: k in keys ==> k in Meanings(fields, float))
                         && text.value == FieldsText(EntriesOf(Meanings(fields, float), keys))
  {
    hide Escape, FieldText, FieldsText, OneLine, ParsesInt64, ParsesUint64;
    var builder := "";
    ghost var meanings := Meanings(fields, float);
    NoFields(EntriesOf(meanings, keys[..0]));
    for i := 0 to |keys|
      invariant forall j :: 0 <= j < i ==> GoodField(fields, keys[j], float) && keys[j] in meanings
      invariant builder == FieldsText(EntriesOf(meanings, keys[..i]))
    {
      var key := keys[i];
      var value := Meaning(fields[key], float);
      assert key in keys;
      if key == "" || !OneLine(key) {
        assert !GoodField(fields, key, float);
        return Err(InvalidPoint);
      }
      if value.Err? {
        assert !GoodField(fields, key, float);
        return Err(value.error);
      }
      if i > 0 {
        builder := builder + ",";
      }
      builder := builder + Escape(key, TAG) + "=" + FieldText(value.value);
      assert EntriesOf(meanings, keys[..i + 1]) == EntriesOf(meanings, keys[..i]) + [Entry(key, value.value)];
      FieldsTextGrows(EntriesOf(meanings, keys[..i]), Entry(key, value.value));
    }
    assert keys[..|keys|] == keys;
    return Ok(builder);
  }

  lemma NoFields(fields: seq<Entry>)
    ensures fields == [] ==> FieldsText(fields) == ""
  {
  }

  lemma {:induction false} FieldsTextGrows(fields: seq<Entry>, e: Entry)
    ensures FieldsText(fields + [e]) ==
            FieldsText(fields) + (if fields == [] then "" else ",") + Escape(e.key, TAG) + "=" + FieldText(e.value)
  {
    hide Escape, FieldText;
    var key, value := Escape(e.key, TAG), FieldText(e.value);
    if fields == [] {
      assert fields + [e] == [e];
      assert FieldsText([e]) == key + "=" + value + "";
    } else {
      FieldsTextGrows(fields[1..], e);
      assert (fields + [e])[1..] == fields[1..] + [e];
      var first := Escape(fields[0].key, TAG) + "=" + FieldText(fields[0].value);
      assert FieldsText(fields + [e]) == first + ("," + FieldsText(fields[1..] + [e]));
      if |fields| == 1 {
        assert fields[1..] == [];
        Regroup(first, "", "", key, value);
      } else {
        Regroup(first, FieldsText(fields[1..]), ",", key, value);
      }
    }
  }

  lemma Regroup(first: string, others: string, comma: string, key: string, value: string)
    ensures first + ("," + (others + comma + key + "=" + value)) == first + ("," + others) + comma + key + "=" + value
    ensures first + ("," + ("" + "" + key + "=" + value)) == first + "" + "," + key + "=" + value
  {
  }

  method EncodePoint(measurement: string, tags: map<string, string>, fields: map<string, Scalar>, timestamp: Scalar,
                     float: FloatPrinter) returns (line: Result<string, Error>)
    ensures line.Ok? <==> Encodable(measurement, tags, fields, timestamp, float)
    ensures line.Ok? ==> Prints(line.value, measurement, tags, Meanings(fields, float), timestamp.decimalText)
    ensures line == Err(AmbiguousNumeric) ==> exists k :: k in fields && fields[k].kind == NumericText
  {
    if measurement == "" || !OneLine(measurement) || fields == map[] { return Err(InvalidPoint); }
    if timestamp.kind != TimestampNs || timestamp.decimalText == "" { return Err(InvalidPoint); }
    if !ParsesInt64(timestamp.decimalText) { return Err(InvalidPoint); }
    var tagKeys := SortedKeys(tags.Keys);
    var tagsText := WriteTags(tags, tagKeys);
    if tagsText.None? { return Err(InvalidPoint); }
    var fieldKeys := SortedKeys(fields.Keys);
    var fieldsText := WriteFields(fields, fieldKeys, float);
    if fieldsText.Err? { return Err(fieldsText.error); }
    var builder := Escape(measurement, MEASUREMENT) + tagsText.value;
    builder := builder + " " + fieldsText.value;
    builder := builder + " " + timestamp.decimalText;
    assert Meanings(fields, float).Keys == fields.Keys;
    return Ok(builder);
  }

  /** What the printer accepts it prints so that nothing is lost, for any float printer with plain output. */
  lemma AcceptedIsPrintable(fields: map<string, Scalar>, float: FloatPrinter)
    requires PlainPrinter(float) && fields != map[] && forall k :: k in fields ==> GoodField(fields, k, float)
    ensures AllPrintable(Meanings(fields, float)) && Meanings(fields, float).Keys == fields.Keys
  {
    var k :| k in fields;
    assert GoodField(fields, k, float);
    assert k in Meanings(fields, float);
  }
}
