/** UTF-8 as RFC 3629 section 3 defines it, and cutting a text to a number of bytes without splitting a code point. */
module Utf8 {
  import opened Basics

  type Byte = b: int | 0 <= b < 256
  type Scalar = c: int | 0 <= c < 0xD800 || 0xE000 <= c < 0x110000
  type Text = seq<Scalar>

  /** Up to four bytes; all but the first carry six bits each. */
  function EncodeOne(c: Scalar): (b: seq<Byte>)
    ensures 1 <= |b| <= 4
  {
    if c < 0x80 then [c]
    else if c < 0x800 then [0xC0 + c / 64, Tail(c)]
    else if c < 0x10000 then [0xE0 + c / 64 / 64, Tail(c / 64), Tail(c)]
    else [0xF0 + c / 64 / 64 / 64, Tail(c / 64 / 64), Tail(c / 64), Tail(c)]
  }

  function Tail(c: nat): Byte {
    0x80 + c % 64
  }

  function Encode(t: Text): (b: seq<Byte>) {
    if t == [] then [] else EncodeOne(t[0]) + Encode(t[1..])
  }

  predicate Follows(b: Byte) {
    0x80 <= b < 0xC0
  }

  /** Six more bits behind what was read so far. */
  function More(high: int, b: Byte): int {
    high * 64 + (b - 0x80)
  }

  function AsScalar(c: int, least: nat): Option<Scalar> {
    if least <= c < 0xD800 || (0xE000 <= c < 0x110000 && least <= c) then var s: Scalar := c; Some(s) else None
  }

  /** The scalar value a byte string begins with; an overlong form, a surrogate or a value out of range is none. */
  function DecodeOne(b: seq<Byte>): Option<Scalar> {
    if b == [] then None
    else if b[0] < 0x80 then Some(b[0])
    else if 0xC0 <= b[0] < 0xE0 && |b| >= 2 && Follows(b[1]) then AsScalar(More(b[0] - 0xC0, b[1]), 0x80)
    else if 0xE0 <= b[0] < 0xF0 && |b| >= 3 && Follows(b[1]) && Follows(b[2]) then
      AsScalar(More(More(b[0] - 0xE0, b[1]), b[2]), 0x800)
    else if 0xF0 <= b[0] < 0xF8 && |b| >= 4 && Follows(b[1]) && Follows(b[2]) && Follows(b[3]) then
      AsScalar(More(More(More(b[0] - 0xF0, b[1]), b[2]), b[3]), 0x10000)
    else None
  }

  /** Reading six bits undoes writing them, and the other way round. */
  lemma SixBits(c: nat)
    ensures More(c / 64, Tail(c)) == c && Follows(Tail(c))
  {
  }

  lemma SixBitsBack(high: nat, b: Byte)
    requires Follows(b)
    ensures More(high, b) >= 0 && More(high, b) / 64 == high && Tail(More(high, b)) == b
  {
  }

  lemma TwoBack(h: nat, x: Byte)
    requires h < 0x20 && Follows(x) && AsScalar(More(h, x), 0x80).Some?
    ensures EncodeOne(More(h, x)) == [0xC0 + h, x]
  {
    SixBitsBack(h, x);
  }

  lemma ThreeBack(h: nat, x: Byte, y: Byte)
    requires h < 0x10 && Follows(x) && Follows(y) && AsScalar(More(More(h, x), y), 0x800).Some?
    ensures EncodeOne(More(More(h, x), y)) == [0xE0 + h, x, y]
  {
    SixBitsBack(h, x);
    SixBitsBack(More(h, x), y);
  }

  lemma FourBack(h: nat, x: Byte, y: Byte, z: Byte)
    requires h < 8 && Follows(x) && Follows(y) && Follows(z) && AsScalar(More(More(More(h, x), y), z), 0x10000).Some?
    ensures EncodeOne(More(More(More(h, x), y), z)) == [0xF0 + h, x, y, z]
  {
    SixBitsBack(h, x);
    SixBitsBack(More(h, x), y);
    SixBitsBack(More(More(h, x), y), z);
  }

  /** A decoded scalar's own encoding stands at the front. */
  lemma DecodedFront(b: seq<Byte>)
    requires DecodeOne(b).Some?
    ensures EncodeOne(DecodeOne(b).value) <= b
  {
    var c := DecodeOne(b).value;
    if b[0] < 0x80 {
      assert EncodeOne(c) == b[..1];
    } else if b[0] < 0xE0 {
      TwoBack(b[0] - 0xC0, b[1]);
      assert EncodeOne(c) == b[..2];
    } else if b[0] < 0xF0 {
      ThreeBack(b[0] - 0xE0, b[1], b[2]);
      assert EncodeOne(c) == b[..3];
    } else {
      FourBack(b[0] - 0xF0, b[1], b[2], b[3]);
      assert EncodeOne(c) == b[..4];
    }
  }

  lemma EncodedFront(c: Scalar, rest: seq<Byte>)
    ensures DecodeOne(EncodeOne(c) + rest) == Some(c)
  {
    var b := EncodeOne(c) + rest;
    if c < 0x80 {
      assert b[0] == c;
    } else if c < 0x800 {
      SixBits(c);
      assert b[0] == 0xC0 + c / 64 && b[1] == Tail(c);
    } else if c < 0x10000 {
      SixBits(c);
      SixBits(c / 64);
      assert b[0] == 0xE0 + c / 64 / 64 && b[1] == Tail(c / 64) && b[2] == Tail(c);
    } else {
      SixBits(c);
      SixBits(c / 64);
      SixBits(c / 64 / 64);
      assert b[0] == 0xF0 + c / 64 / 64 / 64 && b[1] == Tail(c / 64 / 64) && b[2] == Tail(c / 64) && b[3] == Tail(c);
    }
  }

  /** Strict decoding of a whole byte string. */
  function Decode(b: seq<Byte>): Option<Text>
    decreases |b|
  {
    if b == [] then Some([])
    else
      var first := DecodeOne(b);
      if first.None? then None
      else
        DecodedFront(b);
        var rest := Decode(b[|EncodeOne(first.value)|..]);
        if rest.None? then None else Some([first.value] + rest.value)
  }

  lemma {:induction false} DecodeEncode(t: Text)
    ensures Decode(Encode(t)) == Some(t)
  {
    if t != [] {
      EncodedFront(t[0], Encode(t[1..]));
      assert Encode(t)[|EncodeOne(t[0])|..] == Encode(t[1..]);
      DecodeEncode(t[1..]);
      assert [t[0]] + t[1..] == t;
    }
  }

  lemma EncodeCons(c: Scalar, t: Text)
    ensures Encode([c] + t) == EncodeOne(c) + Encode(t)
  {
    assert ([c] + t)[1..] == t;
  }

  /** The first step of a decoding. */
  lemma DecodeStep(b: seq<Byte>) returns (c: Scalar, rest: seq<Byte>)
    requires b != [] && Decode(b).Some?
    ensures b == EncodeOne(c) + rest && |rest| < |b| && Decode(rest).Some? && Decode(b).value == [c] + Decode(rest).value
  {
    c := DecodeOne(b).value;
    DecodedFront(b);
    rest := b[|EncodeOne(c)|..];
  }

  lemma {:induction false} Reencodes(b: seq<Byte>, t: Text)
    requires Decode(b) == Some(t)
    ensures Encode(t) == b
    decreases |b|
  {
    if b != [] {
      var c, rest := DecodeStep(b);
      Reencodes(rest, Decode(rest).value);
      EncodeCons(c, Decode(rest).value);
    }
  }

  lemma EncodeDecode(b: seq<Byte>)
    requires Decode(b).Some?
    ensures Encode(Decode(b).value) == b
  {
    Reencodes(b, Decode(b).value);
  }

  /** A byte string decodes exactly when it is the encoding of a text, and that text is the only one. */
  lemma DecodesExactlyEncodings(b: seq<Byte>)
    ensures Decode(b).Some? <==> exists t: Text :: Encode(t) == b
    ensures forall t: Text | Encode(t) == b :: Decode(b) == Some(t)
  {
    if Decode(b).Some? {
      EncodeDecode(b);
    }
    forall t: Text | Encode(t) == b
      ensures Decode(b) == Some(t)
    {
      DecodeEncode(t);
    }
  }

  lemma {:induction false} EncodeJoin(a: Text, b: Text)
    ensures Encode(a + b) == Encode(a) + Encode(b)
  {
    if a == [] {
      assert a + b == b;
    } else {
      assert (a + b)[0] == a[0] && (a + b)[1..] == a[1..] + b;
      EncodeJoin(a[1..], b);
    }
  }

  /** No text's encoding is the front of another's unless the text is. */
  lemma {:induction false} PrefixCode(s: Text, t: Text)
    requires Encode(s) <= Encode(t)
    ensures s <= t
  {
    if s != [] {
      assert t != [];
      EncodedFront(s[0], Encode(s[1..]) + Encode(t)[|Encode(s)|..]);
      assert EncodeOne(s[0]) + (Encode(s[1..]) + Encode(t)[|Encode(s)|..]) == Encode(t);
      EncodedFront(t[0], Encode(t[1..]));
      assert Encode(s[1..]) <= Encode(t[1..]) by {
        assert Encode(s)[|EncodeOne(s[0])|..] == Encode(s[1..]);
        assert Encode(t)[|EncodeOne(s[0])|..] == Encode(t[1..]);
      }
      PrefixCode(s[1..], t[1..]);
    }
  }

  lemma SizeGrows(t: Text, j: nat, k: nat)
    requires j <= k <= |t|
    ensures Encode(t[..j]) <= Encode(t[..k]) && |Encode(t[..j])| + (k - j) <= |Encode(t[..k])|
  {
    assert t[..k] == t[..j] + t[j..k];
    EncodeJoin(t[..j], t[j..k]);
    SizeAtLeast(t[j..k]);
  }

  lemma {:induction false} SizeAtLeast(t: Text)
    ensures |t| <= |Encode(t)|
  {
    if t != [] {
      SizeAtLeast(t[1..]);
    }
  }

  // ---------------------------------------------------------------- cutting

  /** `r` is the longest front of whole code points that fits. */
  ghost predicate IsCut(text: Text, cap: nat, r: Text) {
    r <= text && |Encode(r)| <= cap && forall k | 0 <= k <= |text| && |Encode(text[..k])| <= cap :: k <= |r|
  }

  lemma CutIsUnique(text: Text, cap: nat, r: Text, s: Text)
    requires IsCut(text, cap, r) && IsCut(text, cap, s)
    ensures r == s
  {
    assert text[..|r|] == r && text[..|s|] == s;
  }

  /** Drops bytes from the end until what is left decodes. */
  method Cut(text: Text, cap: nat) returns (r: Text)
    ensures IsCut(text, cap, r)
  {
    var raw := Encode(text);
    if |raw| <= cap {
      assert text[..|text|] == text;
      return text;
    }
    var cut := raw[..cap];
    var decoded := Decode(cut);
    while decoded.None?
      invariant cut <= raw && |cut| <= cap && decoded == Decode(cut)
      invariant forall k | 0 <= k <= |text| && |Encode(text[..k])| <= cap :: |Encode(text[..k])| <= |cut|
      decreases |cut|
    {
      forall k | 0 <= k <= |text|
        ensures |Encode(text[..k])| != |cut|
      {
        SizeGrows(text, k, |text|);
        assert text[..|text|] == text;
        if |Encode(text[..k])| == |cut| { EncodedDecodes(raw, cut, text[..k]); }
      }
      cut := cut[..|cut| - 1];
      decoded := Decode(cut);
    }
    EncodeDecode(cut);
    r := decoded.value;
    PrefixCode(r, text);
    forall k | 0 <= k <= |text| && |Encode(text[..k])| <= cap
      ensures k <= |r|
    {
      assert text[..|r|] == r;
      if k > |r| { SizeGrows(text, |r|, k); }
    }
  }

  lemma EncodedDecodes(raw: seq<Byte>, cut: seq<Byte>, t: Text)
    requires cut <= raw && Encode(t) <= raw && |Encode(t)| == |cut|
    ensures Decode(cut).Some?
  {
    assert cut == Encode(t);
    DecodeEncode(t);
  }

  // ---------------------------------------------------------------- the bits

  /** The payload of a byte below its mark. */
  function Low(b: Byte, mark: int): int {
    (b as int) - mark
  }

  /** Which bytes a code point has, and which of its bits each of them carries. */
  lemma EncodingIs(c: Scalar)
    ensures c < 0x80 ==> EncodeOne(c) == [c]
    ensures 0x80 <= c < 0x800 ==>
              var b := EncodeOne(c); |b| == 2 && 0xC2 <= b[0] <= 0xDF && 0x80 <= b[1] <= 0xBF && c == 64 * Low(b[0], 0xC0) + Low(b[1], 0x80)
    ensures 0x800 <= c < 0x10000 ==>
              var b := EncodeOne(c);
              && |b| == 3 && 0xE0 <= b[0] <= 0xEF && 0x80 <= b[1] <= 0xBF && 0x80 <= b[2] <= 0xBF
              && c == 4096 * Low(b[0], 0xE0) + 64 * Low(b[1], 0x80) + Low(b[2], 0x80)
    ensures 0x10000 <= c ==>
              var b := EncodeOne(c);
              && |b| == 4 && 0xF0 <= b[0] <= 0xF4 && 0x80 <= b[1] <= 0xBF && 0x80 <= b[2] <= 0xBF && 0x80 <= b[3] <= 0xBF
              && c == 262144 * Low(b[0], 0xF0) + 4096 * Low(b[1], 0x80) + 64 * Low(b[2], 0x80) + Low(b[3], 0x80)
  {
  }
}
