/**
 * The size of a message as JSON (section 7 of RFC 8259) and the cap on a result: jsonBytes and
 * capDataSize in AgentActor.ts.
 */
module JsonCaps {
  import opened Budget
  import opened Utf8

  /**
   * A JSON value, known by what the caps look at: its text when it is a string, else its size and
   * what String() shows.
   */
  datatype Value = Str(text: Text) | Flag(b: bool) | Null | Other(size: nat, shows: Text)

  /** The fields of an object; their order does not matter to any size or to a replay. */
  type Object = map<Text, Value>

  const MAX_PUBLISH_DATA_LEN := 65_536

  function Codes(s: string): (t: Text)
    ensures |t| == |s| && forall i :: 0 <= i < |s| ==> t[i] == s[i] as int
  {
    seq(|s|, i requires 0 <= i < |s| => s[i] as int)
  }

  const RESULT: Text := Codes("result")
  const TRUNCATED: Text := Codes("_truncated")

  /** A code point in a JSON string: an escape of two or six bytes, or its UTF-8 form. */
  function JsonCodeLen(c: Code): (n: nat)
    ensures 1 <= n <= 6 * Utf8Len(c) && n <= 6 && Utf8Len(c) <= n
  {
    if c == 0x22 || c == 0x5C || c == 0x08 || c == 0x09 || c == 0x0A || c == 0x0C || c == 0x0D then 2
    else if c < 0x20 || Surrogate(c) then 6
    else Utf8Len(c)
  }

  function EscapedLen(t: Text): nat {
    if t == [] then 0 else JsonCodeLen(t[0]) + EscapedLen(t[1..])
  }

  function StringSize(t: Text): nat {
    2 + EscapedLen(t)
  }

  function ValueSize(v: Value): nat {
    match v
    case Str(t) => StringSize(t)
    case Flag(b) => if b then 4 else 5
    case Null => 4
    case Other(size, _) => size
  }

  /** A field with its quotes and its colon. */
  function FieldSize(k: Text, v: Value): nat {
    StringSize(k) + 1 + ValueSize(v)
  }

  ghost function FieldsSize(keys: set<Text>, o: Object): nat
    requires keys <= o.Keys
    decreases keys
  {
    if keys == {} then 0
    else
      var k :| k in keys;
      FieldSize(k, o[k]) + FieldsSize(keys - {k}, o)
  }

  /** Braces, fields and the commas between them. */
  ghost function JsonBytes(o: Object): nat {
    2 + FieldsSize(o.Keys, o) + if |o| == 0 then 0 else |o| - 1
  }

  lemma {:induction false} TakeField(keys: set<Text>, o: Object, k: Text)
    requires k in keys && keys <= o.Keys
    ensures FieldsSize(keys, o) == FieldSize(k, o[k]) + FieldsSize(keys - {k}, o)
    decreases keys
  {
    var j :| j in keys && FieldsSize(keys, o) == FieldSize(j, o[j]) + FieldsSize(keys - {j}, o);
    if j != k {
      TakeField(keys - {j}, o, k);
      TakeField(keys - {k}, o, j);
      assert keys - {j} - {k} == keys - {k} - {j};
    }
  }

  lemma {:induction false} SameFields(keys: set<Text>, o: Object, p: Object)
    requires keys <= o.Keys && keys <= p.Keys && forall k <- keys :: o[k] == p[k]
    ensures FieldsSize(keys, o) == FieldsSize(keys, p)
    decreases keys
  {
    if keys != {} {
      var k :| k in keys;
      TakeField(keys, o, k);
      TakeField(keys, p, k);
      SameFields(keys - {k}, o, p);
    }
  }

  /** jsonBytes: the size, field by field. */
  method MeasureJson(o: Object) returns (size: nat)
    ensures size == JsonBytes(o)
  {
    var open, fields, n := o.Keys, 0, 0;
    while open != {}
      invariant open <= o.Keys && fields + FieldsSize(open, o) == FieldsSize(o.Keys, o)
      invariant n + |open| == |o.Keys|
      decreases open
    {
      var k :| k in open;
      TakeField(open, o, k);
      fields, n, open := fields + FieldSize(k, o[k]), n + 1, open - {k};
    }
    size := 2 + fields + if n == 0 then 0 else n - 1;
  }

  /** Replacing one field changes the size by the difference of the two values. */
  lemma ReplaceField(o: Object, k: Text, v: Value)
    requires k in o
    ensures JsonBytes(o[k := v]) + ValueSize(o[k]) == JsonBytes(o) + ValueSize(v)
  {
    TakeField(o.Keys, o, k);
    TakeField(o.Keys, o[k := v], k);
    SameFields(o.Keys - {k}, o, o[k := v]);
    assert o[k := v].Keys == o.Keys;
    assert |o[k := v]| == |o.Keys| == |o|;
  }

  /** A new field costs its size and a comma. */
  lemma AddField(o: Object, k: Text, v: Value)
    requires k !in o
    ensures JsonBytes(o[k := v]) <= JsonBytes(o) + FieldSize(k, v) + 1
  {
    var p := o[k := v];
    TakeField(p.Keys, p, k);
    assert p.Keys - {k} == o.Keys;
    SameFields(o.Keys, o, p);
    assert p.Keys == o.Keys + {k};
    assert |p| == |p.Keys| && |o| == |o.Keys| && |p.Keys| == |o.Keys| + 1;
  }

  // ----- Escaping -----

  lemma {:induction false} EscapedBounds(t: Text)
    ensures ByteLen(t) <= EscapedLen(t) <= 6 * ByteLen(t) && EscapedLen(t) <= 6 * |t|
  {
    if t != [] {
      EscapedBounds(t[1..]);
      assert Encode(t) == EncodeOne(t[0]) + Encode(t[1..]);
    }
  }

  /** No code point needs an escape. */
  predicate Plain(t: Text) {
    EscapedLen(t) == ByteLen(t)
  }

  lemma {:induction false} PlainPrefix(t: Text, k: nat)
    requires Plain(t) && k <= |t|
    ensures Plain(t[..k]) && Repaired(t[..k]) == t[..k]
  {
    if k > 0 {
      EscapedBounds(t[1..]);
      PlainPrefix(t[1..], k - 1);
      assert t[..k][1..] == t[1..][..k - 1];
      assert Repaired(t[..k]) == [Repair(t[0])] + Repaired(t[1..][..k - 1]);
    }
  }

  // ----- The cap on a result -----

  /** What String() makes of data["result"]. */
  function Shown(o: Object, k: Text): Text {
    if k !in o then Codes("undefined")
    else match o[k]
         case Str(t) => t
         case Flag(b) => if b then Codes("true") else Codes("false")
         case Null => Codes("null")
         case Other(_, shows) => shows
  }

  function Emptied(data: Object): Object {
    data[RESULT := Str([])][TRUNCATED := Flag(true)]
  }

  function Max(a: int, b: int): int {
    if a < b then b else a
  }

  /**
   * The shrinking loop: it ends because the raw limit strictly decreases, with a result whose JSON
   * form fits the budget whenever the budget is not negative, and which is a prefix of the original
   * in whole code points.  A text that needs no escapes loses fewer than four bytes of the budget.
   */
  method ShrinkResult(shown: Text, budget: int) returns (result: Text)
    ensures budget >= 0 ==> EscapedLen(result) <= budget
    ensures budget < 0 ==> result == []
    ensures Repaired(result) <= Repaired(shown)
    ensures EscapedLen(shown) <= budget ==> result == shown
    ensures Plain(shown) && 0 <= budget < EscapedLen(shown) ==> ByteLen(result) > budget - 4
  {
    result := shown;
    var rawLimit := Max(budget, 0);
    while true
      invariant 0 <= rawLimit <= Max(budget, 0)
      invariant Repaired(result) <= Repaired(shown)
      invariant EscapedLen(shown) <= budget ==> result == shown && rawLimit == budget
      invariant Plain(shown) ==> result == shown && rawLimit == Max(budget, 0)
      decreases rawLimit
    {
      EscapedBounds(result);
      TruncatedMeetsCap(result, rawLimit);
      if Plain(shown) {
        PlainPrefix(shown, Fit(shown, rawLimit));
        PlainPrefix(shown, |shown|);
        assert shown[..|shown|] == shown;
      }
      result := TruncateToBytes(result, rawLimit);
      EscapedBounds(result);
      var excess := StringSize(result) - 2 - budget;
      if excess <= 0 || rawLimit == 0 {
        if rawLimit == 0 { NoBytes(result); }
        return;
      }
      rawLimit := Max(ByteLen(result) - excess, 0);
    }
  }

  lemma NoBytes(t: Text)
    ensures ByteLen(t) == 0 ==> t == []
  {
  }

  /**
   * capDataSize: data within the limit passes unchanged; else only `result` is cut, the record is
   * marked, and the whole is within 65,536 bytes whenever the other fields with an empty result are.
   */
  method CapDataSize(data: Object) returns (capped: Object)
    ensures JsonBytes(data) <= 65_536 ==> capped == data
    ensures JsonBytes(data) > MAX_PUBLISH_DATA_LEN ==>
              && capped.Keys == data.Keys + {RESULT, TRUNCATED}
              && capped - {RESULT, TRUNCATED} == data - {RESULT, TRUNCATED}
              && RESULT in capped && capped[RESULT].Str? && capped[TRUNCATED] == Flag(true)
              && Repaired(capped[RESULT].text) <= Repaired(Shown(data, RESULT))
    ensures (&& JsonBytes(data) > MAX_PUBLISH_DATA_LEN >= JsonBytes(Emptied(data))
             && Plain(Shown(data, RESULT)) && capped[RESULT] != Str(Shown(data, RESULT))) ==>
              JsonBytes(capped) > MAX_PUBLISH_DATA_LEN - 4
    ensures JsonBytes(Emptied(data)) <= 65_536 ==> JsonBytes(capped) <= 65_536
    ensures JsonBytes(data) > MAX_PUBLISH_DATA_LEN && JsonBytes(Emptied(data)) > MAX_PUBLISH_DATA_LEN ==>
              capped == Emptied(data)
  {
    var size := MeasureJson(data);
    if size <= MAX_PUBLISH_DATA_LEN {
      return data;
    }
    assert RESULT != TRUNCATED by {
      assert |RESULT| == 6 && |TRUNCATED| == 10;
    }
    var emptied := MeasureJson(Emptied(data));
    var result := ShrinkResult(Shown(data, RESULT), MAX_PUBLISH_DATA_LEN - emptied);
    EscapedBounds(result);
    ReplaceField(Emptied(data), RESULT, Str(result));
    assert Emptied(data)[RESULT] == Str([]);
    capped := Emptied(data)[RESULT := Str(result)];
    assert result == [] ==> capped == Emptied(data);
  }
}
