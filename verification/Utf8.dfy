/**
 * Text and its bytes: UTF-8 as in sections 3 and 4 of RFC 3629, and the byte cap on free text
 * (truncateToBytes in AgentActor.ts and agent-state-publisher.ts).
 */
module Utf8 {
  import opened Budget

  /** A code point of a JavaScript string; one in the surrogate range stands for a lone surrogate. */
  type Code = c: int | 0 <= c < 0x110000
  type Text = seq<Code>
  type Byte = b: int | 0 <= b < 256
  type Bytes = seq<Byte>

  const REPLACEMENT: Code := 0xFFFD

  predicate Surrogate(c: int) {
    0xD800 <= c < 0xE000
  }

  /** A lone surrogate has no UTF-8 form and is written as U+FFFD. */
  function Repair(c: Code): Code {
    if Surrogate(c) then REPLACEMENT else c
  }

  function Repaired(t: Text): Text {
    seq(|t|, i requires 0 <= i < |t| => Repair(t[i]))
  }

  function Utf8Len(c: Code): nat {
    if c < 0x80 then 1 else if c < 0x800 then 2 else if c < 0x10000 then 3 else 4
  }

  function EncodeOne(c: Code): (b: Bytes)
    ensures |b| == Utf8Len(c) && !Continuation(b[0])
    ensures forall i :: 0 < i < |b| ==> Continuation(b[i])
  {
    var d := Repair(c);
    if d < 0x80 then [d]
    else if d < 0x800 then [0xC0 + d / 64, 0x80 + d % 64]
    else if d < 0x10000 then [0xE0 + d / 64 / 64, 0x80 + d / 64 % 64, 0x80 + d % 64]
    else [0xF0 + d / 64 / 64 / 64, 0x80 + d / 64 / 64 % 64, 0x80 + d / 64 % 64, 0x80 + d % 64]
  }

  function Encode(t: Text): Bytes {
    if t == [] then [] else EncodeOne(t[0]) + Encode(t[1..])
  }

  function ByteLen(t: Text): nat {
    |Encode(t)|
  }

  /** The two top bits are 10. */
  predicate Continuation(b: Byte) {
    b / 64 == 2
  }

  /** The six payload bits of a continuation byte. */
  function Low(b: Byte): int {
    b as int - 0x80
  }

  /** No overlong form, no surrogate, nothing past U+10FFFF. */
  function Checked(c: int, n: nat): Option<(Code, nat)> {
    if 0 <= c < 0x110000 && !Surrogate(c) && Utf8Len(c) == n then Some((c, n)) else None
  }

  /** The first code point and how many bytes it takes. */
  function DecodeOne(b: Bytes): Option<(Code, nat)>
    requires b != []
  {
    if b[0] < 0x80 then Some((b[0], 1))
    else if b[0] < 0xC0 || |b| < 2 || !Continuation(b[1]) then None
    else if b[0] < 0xE0 then Checked((b[0] as int - 0xC0) * 64 + Low(b[1]), 2)
    else if |b| < 3 || !Continuation(b[2]) then None
    else if b[0] < 0xF0 then Checked(((b[0] as int - 0xE0) * 64 + Low(b[1])) * 64 + Low(b[2]), 3)
    else if |b| < 4 || !Continuation(b[3]) || b[0] >= 0xF8 then None
    else Checked((((b[0] as int - 0xF0) * 64 + Low(b[1])) * 64 + Low(b[2])) * 64 + Low(b[3]), 4)
  }

  function Decode(b: Bytes): Option<Text> {
    if b == [] then Some([])
    else
      var first := DecodeOne(b);
      if first.None? then None
      else if first.value.1 == 0 then None
      else
        var rest := Decode(b[first.value.1..]);
        if rest.None? then None else Some([first.value.0] + rest.value)
  }

  lemma DecodeOneOfEncodeOne(c: Code, rest: Bytes)
    ensures DecodeOne(EncodeOne(c) + rest) == Some((Repair(c), Utf8Len(c)))
  {
    var b := EncodeOne(c) + rest;
    assert forall i :: 0 <= i < Utf8Len(c) ==> b[i] == EncodeOne(c)[i];
  }

  lemma DecodeStep(b: Bytes, c: Code, n: nat, rest: Text)
    requires b != [] && DecodeOne(b) == Some((c, n)) && 0 < n <= |b| && Decode(b[n..]) == Some(rest)
    ensures Decode(b) == Some([c] + rest)
  {
    hide DecodeOne;
  }

  lemma EncodeStep(c: Code, rest: Text)
    ensures Encode([c] + rest) == EncodeOne(c) + Encode(rest) && Repaired([c] + rest) == [Repair(c)] + Repaired(rest)
  {
    assert ([c] + rest)[1..] == rest;
    hide EncodeOne;
  }

  /** Round trip: the bytes of a text decode to that text, lone surrogates repaired. */
  lemma {:induction false} DecodeEncode(t: Text)
    ensures Decode(Encode(t)) == Some(Repaired(t))
  {
    if t == [] {
      assert Repaired(t) == [];
    } else {
      var c, tail := t[0], t[1..];
      hide EncodeOne, DecodeOne, Encode, Decode, Repaired;
      var rest := Encode(tail);
      EncodeStep(c, tail);
      assert t == [c] + tail;
      DecodeOneOfEncodeOne(c, rest);
      DecodeEncode(tail);
      assert (EncodeOne(c) + rest)[Utf8Len(c)..] == rest;
      DecodeStep(EncodeOne(c) + rest, Repair(c), Utf8Len(c), Repaired(tail));
    }
  }

  /**
   * Every code point outside D800 to DFFF has its own bytes; those inside, being half a pair, are
   * written as U+FFFD.
   */
  lemma ScalarRoundTrip(c: Code)
    ensures Decode(Encode([c])) == Some([if 0xD800 <= c <= 0xDFFF then 0xFFFD else c])
  {
    DecodeEncode([c]);
    assert Repaired([c]) == [Repair(c)];
    hide Encode, Decode;
  }

  lemma Unfold(b: Bytes)
    requires b != [] && Decode(b).Some?
    ensures DecodeOne(b).Some? && var n := DecodeOne(b).value.1; 0 < n <= |b| && Decode(b[n..]).Some?
  {
    DecodedOne(b);
    hide DecodeOne;
  }

  /** And the other way: bytes that decode are the encoding of what they decode to, so the form is unique. */
  lemma {:induction false} EncodeDecode(b: Bytes)
    requires Decode(b).Some?
    ensures Encode(Decode(b).value) == b && Repaired(Decode(b).value) == Decode(b).value
  {
    if b != [] {
      hide EncodeOne, DecodeOne, Encode, Decode, Repaired;
      Unfold(b);
      var (c, n) := DecodeOne(b).value;
      var rest := Decode(b[n..]).value;
      DecodedOne(b);
      DecodeStep(b, c, n, rest);
      EncodeDecode(b[n..]);
      EncodeStep(c, rest);
      assert b == b[..n] + b[n..];
    }
  }

  /** Division undoes the joining of a six-bit group. */
  lemma Regroup(high: int, b: Byte)
    requires Continuation(b)
    ensures (high * 64 + Low(b)) / 64 == high && 0x80 + (high * 64 + Low(b)) % 64 == b
  {
  }

  lemma Two(c: Code, b0: Byte, b1: Byte)
    requires Continuation(b1) && c == (b0 as int - 0xC0) * 64 + Low(b1) && !Surrogate(c) && Utf8Len(c) == 2
    ensures EncodeOne(c) == [b0, b1]
  {
    Regroup(b0 as int - 0xC0, b1);
  }

  lemma Three(c: Code, b0: Byte, b1: Byte, b2: Byte)
    requires Continuation(b1) && Continuation(b2) && !Surrogate(c) && Utf8Len(c) == 3
    requires c == ((b0 as int - 0xE0) * 64 + Low(b1)) * 64 + Low(b2)
    ensures EncodeOne(c) == [b0, b1, b2]
  {
    var c1 := (b0 as int - 0xE0) * 64 + Low(b1);
    Regroup(b0 as int - 0xE0, b1);
    Regroup(c1, b2);
    hide Low, Continuation;
    assert c / 64 == c1 && c1 / 64 == b0 as int - 0xE0;
  }

  lemma Four(c: Code, b0: Byte, b1: Byte, b2: Byte, b3: Byte)
    requires Continuation(b1) && Continuation(b2) && Continuation(b3) && !Surrogate(c) && Utf8Len(c) == 4
    requires c == (((b0 as int - 0xF0) * 64 + Low(b1)) * 64 + Low(b2)) * 64 + Low(b3)
    ensures EncodeOne(c) == [b0, b1, b2, b3]
  {
    var c1 := (b0 as int - 0xF0) * 64 + Low(b1);
    var c2 := c1 * 64 + Low(b2);
    Regroup(b0 as int - 0xF0, b1);
    Regroup(c1, b2);
    Regroup(c2, b3);
    hide Low, Continuation;
    assert c / 64 == c2 && c2 / 64 == c1 && c1 / 64 == b0 as int - 0xF0;
  }

  lemma DecodedOne(b: Bytes)
    requires b != [] && DecodeOne(b).Some?
    ensures var (c, n) := DecodeOne(b).value; 1 <= n <= |b| && !Surrogate(c) && EncodeOne(c) == b[..n]
  {
    var (c, n) := DecodeOne(b).value;
    if b[0] < 0x80 {
    } else if b[0] < 0xE0 {
      Two(c, b[0], b[1]);
    } else if b[0] < 0xF0 {
      Three(c, b[0], b[1], b[2]);
    } else {
      Four(c, b[0], b[1], b[2], b[3]);
    }
    hide EncodeOne;
    assert n == 2 ==> b[..n] == [b[0], b[1]];
    assert n == 3 ==> b[..n] == [b[0], b[1], b[2]];
    assert n == 4 ==> b[..n] == [b[0], b[1], b[2], b[3]];
  }

  lemma {:induction false} EncodeSplit(t: Text, k: nat)
    requires k <= |t|
    ensures Encode(t) == Encode(t[..k]) + Encode(t[k..])
  {
    if k > 0 {
      EncodeSplit(t[1..], k - 1);
      assert t[..k][1..] == t[1..][..k - 1] && t[1..][k - 1..] == t[k..];
    } else {
      assert t[k..] == t;
    }
  }

  // ----- The byte cap -----

  /** How many whole code points fit. */
  function Fit(t: Text, maxBytes: nat): (k: nat)
    ensures k <= |t|
  {
    if t == [] || Utf8Len(t[0]) > maxBytes then 0 else 1 + Fit(t[1..], maxBytes - Utf8Len(t[0]))
  }

  /**
   * A text that fits is kept as it is; of a longer one, the code points that fit, repaired by the
   * round trip through bytes.
   */
  function Truncated(t: Text, maxBytes: nat): Text {
    if ByteLen(t) <= maxBytes then t else Repaired(t)[..Fit(t, maxBytes)]
  }

  /** Backing up over continuation bytes from the cap ends exactly behind the code points that fit. */
  lemma {:induction false} BackUpFindsBoundary(t: Text, maxBytes: nat, end: nat)
    requires end <= maxBytes < |Encode(t)|
    requires forall i :: end < i <= maxBytes ==> Continuation(Encode(t)[i])
    requires end == 0 || !Continuation(Encode(t)[end])
    ensures end == |Encode(t[..Fit(t, maxBytes)])|
  {
    var n := Utf8Len(t[0]);
    var head, rest := EncodeOne(t[0]), Encode(t[1..]);
    assert Encode(t) == head + rest;
    if n > maxBytes {
      assert forall i :: 0 <= i < n ==> Encode(t)[i] == head[i];
    } else {
      assert Encode(t)[n] == rest[0] && rest[0] == EncodeOne(t[1])[0];
      assert forall i :: 0 <= i < |rest| ==> rest[i] == Encode(t)[i + n];
      BackUpFindsBoundary(t[1..], maxBytes - n, end - n);
      var k := Fit(t, maxBytes);
      assert t[..k][1..] == t[1..][..k - 1];
    }
  }

  /** truncateToBytes: encode, back up past the continuation bytes, decode the prefix. */
  method TruncateToBytes(str: Text, maxBytes: nat) returns (r: Text)
    ensures r == Truncated(str, maxBytes)
  {
    var buf := Encode(str);
    if |buf| <= maxBytes {
      return str;
    }
    var end := maxBytes;
    while end > 0 && Continuation(buf[end])
      invariant 0 <= end <= maxBytes
      invariant forall i :: end < i <= maxBytes ==> Continuation(buf[i])
    {
      end := end - 1;
    }
    BackUpFindsBoundary(str, maxBytes, end);
    var k := Fit(str, maxBytes);
    EncodeSplit(str, k);
    DecodeEncode(str[..k]);
    assert buf[..end] == Encode(str[..k]);
    assert Repaired(str[..k]) == Repaired(str)[..k];
    r := Decode(buf[..end]).value;
  }

  lemma {:induction false} RepairedLen(t: Text)
    ensures Encode(Repaired(t)) == Encode(t)
  {
    if t != [] {
      RepairedLen(t[1..]);
      assert Repaired(t)[1..] == Repaired(t[1..]);
    }
  }

  lemma {:induction false} FitBounds(t: Text, maxBytes: nat)
    ensures var k := Fit(t, maxBytes);
            ByteLen(t[..k]) <= maxBytes && (k < |t| ==> ByteLen(t[..k + 1]) > maxBytes)
  {
    if t != [] && Utf8Len(t[0]) <= maxBytes {
      FitBounds(t[1..], maxBytes - Utf8Len(t[0]));
      var k := Fit(t, maxBytes);
      assert t[..k][1..] == t[1..][..k - 1];
      if k < |t| {
        assert t[..k + 1][1..] == t[1..][..k];
      }
    } else if t != [] {
      assert t[..1][1..] == [];
    }
  }

  /**
   * The cap: the result is within the bound, it is a prefix in whole code points (up to repaired
   * surrogates), and when something was cut off it is the longest such prefix, less than four bytes
   * short of the bound.
   */
  lemma TruncatedMeetsCap(t: Text, maxBytes: nat)
    ensures var r := Truncated(t, maxBytes);
            && ByteLen(r) <= maxBytes && Repaired(r) <= Repaired(t)
            && (ByteLen(t) > maxBytes ==>
                  |r| < |t| && ByteLen(r) + Utf8Len(t[|r|]) > maxBytes && ByteLen(r) > maxBytes - 4)
  {
    var r, k := Truncated(t, maxBytes), Fit(t, maxBytes);
    if ByteLen(t) > maxBytes {
      FitBounds(t, maxBytes);
      assert t[..|t|] == t;
      RepairedLen(t[..k]);
      assert r == Repaired(t[..k]);
      assert Repaired(r) == r;
      EncodeSplit(t[..k + 1], k);
      assert t[..k + 1][..k] == t[..k] && t[..k + 1][k..] == [t[k]];
      assert Encode([t[k]]) == EncodeOne(t[k]) + Encode([t[k]][1..]);
    }
  }
}
