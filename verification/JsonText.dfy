/**
 * The JSON text itself (RFC 8259), as JSON.stringify writes it, against the sizes the caps compute:
 * strings are escaped so that they can be read back, and every size is the length of the text.
 */
module JsonText {
  import opened Budget
  import opened Utf8
  import opened JsonCaps
  import opened InsertionOrder

  const QUOTE: Code := 0x22
  const BACKSLASH: Code := 0x5C
  const LETTER_U: Code := 0x75

  // ----- Strings (section 7) -----

  /** A hexadecimal digit, in lower case. */
  function Hex(n: int): Code
    requires 0 <= n < 16
  {
    if n < 10 then 0x30 + n else 0x61 + n - 10
  }

  function HexValue(c: Code): Option<int> {
    if 0x30 <= c < 0x3A then Some(c - 0x30)
    else if 0x61 <= c < 0x67 then Some(c - 0x61 + 10)
    else None
  }

  /** The letter of a two-character escape. */
  function Short(c: Code): Option<Code> {
    if c == QUOTE || c == BACKSLASH then Some(c)
    else if c == 0x08 then Some(0x62)
    else if c == 0x09 then Some(0x74)
    else if c == 0x0A then Some(0x6E)
    else if c == 0x0C then Some(0x66)
    else if c == 0x0D then Some(0x72)
    else None
  }

  /** What a two-character escape stands for. */
  function Long(letter: Code): Option<Code> {
    if letter == QUOTE || letter == BACKSLASH then Some(letter)
    else if letter == 0x62 then Some(0x08)
    else if letter == 0x74 then Some(0x09)
    else if letter == 0x6E then Some(0x0A)
    else if letter == 0x66 then Some(0x0C)
    else if letter == 0x72 then Some(0x0D)
    else None
  }

  /** Quotes, backslashes and control characters are escaped, and so are lone surrogates. */
  function EscapeOne(c: Code): Text {
    if Short(c).Some? then [BACKSLASH, Short(c).value]
    else if c < 0x20 || Surrogate(c) then
      [BACKSLASH, LETTER_U, Hex(c / 4096), Hex(c / 256 % 16), Hex(c / 16 % 16), Hex(c % 16)]
    else [c]
  }

  function Escape(t: Text): Text {
    if t == [] then [] else EscapeOne(t[0]) + Escape(t[1..])
  }

  /** The first character of an escaped string and how much of the text it takes. */
  function UnescapeOne(t: Text): Option<(Code, nat)>
    requires t != []
  {
    if t[0] == QUOTE || t[0] < 0x20 then None
    else if t[0] != BACKSLASH then Some((t[0], 1))
    else if |t| < 2 then None
    else if t[1] != LETTER_U then
      if Long(t[1]).Some? then Some((Long(t[1]).value, 2)) else None
    else if |t| < 6 then None
    else
      var a, b, c, d := HexValue(t[2]), HexValue(t[3]), HexValue(t[4]), HexValue(t[5]);
      if a.Some? && b.Some? && c.Some? && d.Some?
      then Some((((a.value * 16 + b.value) * 16 + c.value) * 16 + d.value, 6)) else None
  }

  function Unescape(t: Text): Option<Text> {
    if t == [] then Some([])
    else
      var first := UnescapeOne(t);
      if first.None? then None
      else if first.value.1 == 0 || first.value.1 > |t| then None
      else
        var rest := Unescape(t[first.value.1..]);
        if rest.None? then None else Some([first.value.0] + rest.value)
  }

  lemma UnescapeFirst(c: Code, rest: Text)
    ensures |EscapeOne(c)| > 0 && UnescapeOne(EscapeOne(c) + rest) == Some((c, |EscapeOne(c)|))
  {
    var t := EscapeOne(c) + rest;
    assert forall i :: 0 <= i < |EscapeOne(c)| ==> t[i] == EscapeOne(c)[i];
    if Short(c).None? && (c < 0x20 || Surrogate(c)) {
      HexDigits(c);
    }
  }

  lemma HexDigits(c: int)
    requires 0 <= c < 0x10000
    ensures c == ((c / 4096 * 16 + c / 256 % 16) * 16 + c / 16 % 16) * 16 + c % 16
    ensures 0 <= c / 4096 < 16
  {
    assert c / 16 / 16 == c / 256 && c / 256 / 16 == c / 4096;
  }

  /** Reading back an escaped string gives the string, lone surrogates included. */
  lemma {:induction false} UnescapeEscape(t: Text)
    ensures Unescape(Escape(t)) == Some(t)
  {
    if t != [] {
      var e, rest := EscapeOne(t[0]), Escape(t[1..]);
      UnescapeFirst(t[0], rest);
      UnescapeEscape(t[1..]);
      assert (e + rest)[|e|..] == rest;
      assert t == [t[0]] + t[1..];
      hide EscapeOne, UnescapeOne;
    }
  }

  lemma {:induction false} Joined(a: Text, b: Text)
    ensures ByteLen(a + b) == ByteLen(a) + ByteLen(b)
  {
    EncodeSplit(a + b, |a|);
    assert (a + b)[..|a|] == a && (a + b)[|a|..] == b;
  }

  lemma EscapeOneBytes(c: Code)
    ensures ByteLen(EscapeOne(c)) == JsonCodeLen(c)
  {
    if Short(c).Some? {
      AsciiBytes(EscapeOne(c));
    } else if c < 0x20 || Surrogate(c) {
      AsciiBytes(EscapeOne(c));
    } else {
      assert Encode([c]) == EncodeOne(c) + Encode([c][1..]);
    }
  }

  lemma {:induction false} AsciiBytes(t: Text)
    requires forall c <- t :: c < 0x80
    ensures ByteLen(t) == |t|
  {
    if t != [] {
      assert t[0] in t && forall c <- t[1..] :: c in t;
      AsciiBytes(t[1..]);
    }
  }

  /** The size of a string is the length in bytes of its escaped form. */
  lemma {:induction false} EscapedIsLength(t: Text)
    ensures EscapedLen(t) == ByteLen(Escape(t))
  {
    if t != [] {
      EscapeOneBytes(t[0]);
      EscapedIsLength(t[1..]);
      Joined(EscapeOne(t[0]), Escape(t[1..]));
      hide EscapeOne, JsonCodeLen, Encode;
    }
  }

  function Quoted(t: Text): Text {
    [QUOTE] + Escape(t) + [QUOTE]
  }

  lemma QuotedIsLength(t: Text)
    ensures StringSize(t) == ByteLen(Quoted(t))
  {
    EscapedIsLength(t);
    AsciiBytes([QUOTE]);
    Joined([QUOTE], Escape(t));
    Joined([QUOTE] + Escape(t), [QUOTE]);
    hide Escape, Encode, EscapedLen;
  }

  // ----- Objects (sections 3 and 4) -----

  /** The text of a value; `other` gives that of the values known by their size only. */
  function ValueText(v: Value, other: Value -> Text): Text {
    match v
    case Str(t) => Quoted(t)
    case Flag(b) => Codes(if b then "true" else "false")
    case Null => Codes("null")
    case Other(_, _) => other(v)
  }

  /** What String() makes of a value is, for booleans and null, its JSON text. */
  lemma ShownAsText(o: Object, k: Text, other: Value -> Text)
    requires k in o
    ensures o[k].Flag? || o[k].Null? ==> Shown(o, k) == ValueText(o[k], other)
    ensures o[k].Str? ==> Shown(o, k) == o[k].text
    ensures o[k].Other? ==> Shown(o, k) == o[k].shows
  {
    hide Codes;
  }

  ghost predicate Renders(other: Value -> Text) {
    forall size, shows :: ByteLen(other(Other(size, shows))) == size
  }

  lemma ValueIsLength(v: Value, other: Value -> Text)
    requires Renders(other)
    ensures ValueSize(v) == ByteLen(ValueText(v, other))
  {
    match v
    case Str(t) => QuotedIsLength(t); hide Quoted, StringSize;
    case Flag(b) => AsciiBytes(Codes(if b then "true" else "false"));
    case Null => AsciiBytes(Codes("null"));
    case Other(_, _) =>
  }

  function FieldText(k: Text, v: Value, other: Value -> Text): Text {
    Quoted(k) + [0x3A] + ValueText(v, other)
  }

  lemma FieldIsLength(k: Text, v: Value, other: Value -> Text)
    requires Renders(other)
    ensures FieldSize(k, v) == ByteLen(FieldText(k, v, other))
  {
    QuotedIsLength(k);
    ValueIsLength(v, other);
    AsciiBytes([0x3A]);
    Joined(Quoted(k), [0x3A]);
    Joined(Quoted(k) + [0x3A], ValueText(v, other));
    hide Quoted, ValueText, ValueSize, StringSize, Encode, Renders;
  }

  /** The fields in the given order, separated by commas. */
  function FieldTexts(o: Object, order: seq<Text>, other: Value -> Text): Text
    requires forall k <- order :: k in o
  {
    if order == [] then []
    else
      var last := order[|order| - 1];
      FieldTexts(o, order[..|order| - 1], other) + (if |order| == 1 then [] else [0x2C]) +
      FieldText(last, o[last], other)
  }

  function ObjectText(o: Object, order: seq<Text>, other: Value -> Text): Text
    requires forall k <- order :: k in o
  {
    [0x7B] + FieldTexts(o, order, other) + [0x7D]
  }

  ghost function Elements(order: seq<Text>): set<Text> {
    set k | k in order
  }

  lemma {:induction false} FieldsAreLength(o: Object, order: seq<Text>, other: Value -> Text)
    requires Renders(other) && NoRepeats(order) && forall k <- order :: k in o
    ensures ByteLen(FieldTexts(o, order, other)) ==
            FieldsSize(Elements(order), o) + if order == [] then 0 else |order| - 1
    ensures |Elements(order)| == |order|
  {
    hide FieldText, FieldSize, FieldsSize, Encode, Renders;
    if order == [] {
      assert Elements(order) == {};
      NoFields(o);
    } else {
      var n := |order| - 1;
      var rest, last := order[..n], order[n];
      LastElement(order);
      hide NoRepeats, Elements;
      FieldsAreLength(o, rest, other);
      TakeField(Elements(order), o, last);
      FieldIsLength(last, o[last], other);
      var comma: Text := if n == 0 then [] else [0x2C];
      AsciiBytes(comma);
      Joined(FieldTexts(o, rest, other), comma);
      Joined(FieldTexts(o, rest, other) + comma, FieldText(last, o[last], other));
    }
  }

  lemma NoFields(o: Object)
    ensures FieldsSize({}, o) == 0 && ByteLen([]) == 0
  {
  }

  lemma LastElement(order: seq<Text>)
    requires order != [] && NoRepeats(order)
    ensures var rest, last := order[..|order| - 1], order[|order| - 1];
            && NoRepeats(rest) && Elements(order) - {last} == Elements(rest)
            && last in Elements(order) && |Elements(order)| == |Elements(rest)| + 1
    ensures forall k :: k in Elements(order) <==> k in order
    ensures forall k <- order[..|order| - 1] :: k in order
  {
    var rest, last := order[..|order| - 1], order[|order| - 1];
    assert order == rest + [last];
    assert Elements(order) == Elements(rest) + {last} && last !in Elements(rest);
  }

  /** The size of an object is the length in bytes of its JSON text, whatever the order of its fields. */
  lemma ObjectIsLength(o: Object, order: seq<Text>, other: Value -> Text)
    requires Renders(other) && NoRepeats(order) && forall k :: k in order <==> k in o
    ensures JsonBytes(o) == ByteLen(ObjectText(o, order, other))
  {
    assert Elements(order) == o.Keys;
    FieldsAreLength(o, order, other);
    assert |o| == |o.Keys|;
    AsciiBytes([0x7B]);
    AsciiBytes([0x7D]);
    Joined([0x7B], FieldTexts(o, order, other));
    Joined([0x7B] + FieldTexts(o, order, other), [0x7D]);
    hide FieldTexts, FieldsSize, Encode, Renders;
  }
}
