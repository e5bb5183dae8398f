// UTF-8 as RFC 3629 defines it: section 3 gives the encoding of one scalar
// value, section 4 the table of well-formed byte sequences. The byte filters
// of this project read the table; the lemmas tie the table to the encoding.

module Utf8 {

  type Byte = b: int | 0 <= b < 256
  type Bytes = seq<Byte>
  type Scalar = c: int | 0 <= c < 0x11_0000 && !(0xD800 <= c < 0xE000)

  predicate Cont(b: Byte) {
    128 <= b <= 191
  }

  predicate Head3(a: Byte, b: Byte) {
    || (a == 224 && 160 <= b <= 191)
    || ((225 <= a <= 236 || a == 238 || a == 239) && Cont(b))
    || (a == 237 && 128 <= b <= 159)
  }

  predicate Head4(a: Byte, b: Byte) {
    || (a == 240 && 144 <= b <= 191)
    || (241 <= a <= 243 && Cont(b))
    || (a == 244 && 128 <= b <= 143)
  }

  /** The length of the well-formed sequence at the head of `s`, or 0 when there is none. */
  function WfLen(s: Bytes): (k: nat)
    ensures k <= |s| && k <= 4
  {
    if |s| == 0 then 0
    else if s[0] < 128 then 1
    else if |s| >= 2 && 194 <= s[0] <= 223 && Cont(s[1]) then 2
    else if |s| >= 3 && Head3(s[0], s[1]) && Cont(s[2]) then 3
    else if |s| >= 4 && Head4(s[0], s[1]) && Cont(s[2]) && Cont(s[3]) then 4
    else 0
  }

  predicate WellFormed(s: Bytes)
    decreases |s|
  {
    s == [] || (WfLen(s) > 0 && WellFormed(s[WfLen(s)..]))
  }

  function Encode(c: Scalar): Bytes {
    if c < 0x80 then [c]
    else if c < 0x800 then [0xC0 + c / 64, 0x80 + c % 64]
    else if c < 0x1_0000 then [0xE0 + c / 4096, 0x80 + c / 64 % 64, 0x80 + c % 64]
    else [0xF0 + c / 262144, 0x80 + c / 4096 % 64, 0x80 + c / 64 % 64, 0x80 + c % 64]
  }

  function EncodeAll(cs: seq<Scalar>): Bytes {
    if cs == [] then [] else Encode(cs[0]) + EncodeAll(cs[1..])
  }

  /** A well-formed head does not depend on what follows it. */
  lemma WfLenPrefix(s: Bytes, t: Bytes)
    requires WfLen(s) > 0
    ensures WfLen(s + t) == WfLen(s)
  {
    assert forall i | 0 <= i < |s| :: (s + t)[i] == s[i];
  }

  lemma EncodeIsWellFormed(c: Scalar, t: Bytes)
    ensures WfLen(Encode(c) + t) == |Encode(c)|
    ensures (Encode(c) + t)[..|Encode(c)|] == Encode(c)
    ensures (Encode(c) + t)[|Encode(c)|..] == t
  {
    var e := Encode(c);
    if 0x800 <= c < 0x1_0000 {
      ThreeByteHead(c);
    } else if 0x1_0000 <= c {
      FourByteHead(c);
    }
    assert WfLen(e) == |e|;
    WfLenPrefix(e, t);
  }

  lemma ThreeByteHead(c: Scalar)
    requires 0x800 <= c < 0x1_0000
    ensures Head3(0xE0 + c / 4096, 0x80 + c / 64 % 64)
  {
    var z, y := c / 4096, c / 64 % 64;
    assert c / 64 == 64 * z + y;
  }

  lemma FourByteHead(c: Scalar)
    requires 0x1_0000 <= c
    ensures Head4(0xF0 + c / 262144, 0x80 + c / 4096 % 64)
  {
    var z, y := c / 262144, c / 4096 % 64;
    assert c / 4096 == 64 * z + y;
  }

  /** The scalar value a well-formed head stands for. */
  function DecodeHead(s: Bytes): (c: Scalar)
    requires WfLen(s) > 0
  {
    var v: seq<int> := s;
    match WfLen(s)
    case 1 => v[0]
    case 2 => (v[0] - 0xC0) * 64 + (v[1] - 0x80)
    case 3 => ((v[0] - 0xE0) * 64 + (v[1] - 0x80)) * 64 + (v[2] - 0x80)
    case _ => (((v[0] - 0xF0) * 64 + (v[1] - 0x80)) * 64 + (v[2] - 0x80)) * 64 + (v[3] - 0x80)
  }

  lemma DivMod64(q: nat, r: nat)
    requires r < 64
    ensures (q * 64 + r) / 64 == q && (q * 64 + r) % 64 == r
  {
  }

  lemma DivTwice(c: nat)
    ensures c / 64 / 64 == c / 4096 && c / 4096 / 64 == c / 262144
  {
  }

  lemma EncodeDecode2(a: nat, b: nat)
    requires 2 <= a < 32 && b < 64
    ensures 0x80 <= a * 64 + b < 0x800 && Encode(a * 64 + b) == [0xC0 + a, 0x80 + b]
  {
    DivMod64(a, b);
  }

  lemma EncodeDecode3(a: nat, b: nat, c: nat)
    requires a < 16 && b < 64 && c < 64 && Head3(0xE0 + a, 0x80 + b)
    ensures var q := a * 64 + b;
      && 0x800 <= q * 64 + c < 0x1_0000 && !(0xD800 <= q * 64 + c < 0xE000)
      && Encode(q * 64 + c) == [0xE0 + a, 0x80 + b, 0x80 + c]
  {
    var q := a * 64 + b;
    DivMod64(a, b);
    DivMod64(q, c);
    DivTwice(q * 64 + c);
  }

  lemma EncodeDecode4(a: nat, b: nat, c: nat, d: nat)
    requires a < 5 && b < 64 && c < 64 && d < 64 && Head4(0xF0 + a, 0x80 + b)
    ensures var q := (a * 64 + b) * 64 + c;
      0x1_0000 <= q * 64 + d < 0x11_0000 && Encode(q * 64 + d) == [0xF0 + a, 0x80 + b, 0x80 + c, 0x80 + d]
  {
    var p := a * 64 + b;
    var q := p * 64 + c;
    DivMod64(a, b);
    DivMod64(p, c);
    DivMod64(q, d);
    DivTwice(q * 64 + d);
  }

  lemma EncodeDecodeHead(s: Bytes)
    requires WfLen(s) > 0
    ensures Encode(DecodeHead(s)) == s[..WfLen(s)]
  {
    var v: seq<int> := s;
    match WfLen(s)
    case 1 =>
    case 2 => EncodeDecode2(v[0] - 0xC0, v[1] - 0x80);
    case 3 => EncodeDecode3(v[0] - 0xE0, v[1] - 0x80, v[2] - 0x80);
    case _ => EncodeDecode4(v[0] - 0xF0, v[1] - 0x80, v[2] - 0x80, v[3] - 0x80);
  }

  /** The table describes exactly the encodings of scalar value sequences. */
  lemma {:induction false} WellFormedIffEncoding(s: Bytes)
    ensures WellFormed(s) <==> exists cs: seq<Scalar> :: EncodeAll(cs) == s
    decreases |s|
  {
    if WellFormed(s) {
      var cs := DecodeAll(s);
      DecodeAllInverse(s);
      assert EncodeAll(cs) == s;
    }
    if cs: seq<Scalar> :| EncodeAll(cs) == s {
      EncodeAllIsWellFormed(cs);
    }
  }

  function DecodeAll(s: Bytes): seq<Scalar>
    requires WellFormed(s)
    decreases |s|
  {
    if s == [] then [] else [DecodeHead(s)] + DecodeAll(s[WfLen(s)..])
  }

  lemma EncodeAllPrepend(c: Scalar, cs: seq<Scalar>)
    ensures EncodeAll([c] + cs) == Encode(c) + EncodeAll(cs)
  {
    assert ([c] + cs)[1..] == cs;
  }

  lemma {:induction false} DecodeAllInverse(s: Bytes)
    requires WellFormed(s)
    ensures EncodeAll(DecodeAll(s)) == s
    decreases |s|
  {
    if s != [] {
      var k := WfLen(s);
      DecodeAllInverse(s[k..]);
      EncodeAllPrepend(DecodeHead(s), DecodeAll(s[k..]));
      assert EncodeAll(DecodeAll(s)) == s[..k] + s[k..] by {
        EncodeDecodeHead(s);
      }
    }
  }

  lemma {:induction false} EncodeAllIsWellFormed(cs: seq<Scalar>)
    ensures WellFormed(EncodeAll(cs))
  {
    if cs != [] {
      EncodeAllIsWellFormed(cs[1..]);
      EncodeIsWellFormed(cs[0], EncodeAll(cs[1..]));
    }
  }

  lemma {:induction false} WellFormedConcat(a: Bytes, b: Bytes)
    requires WellFormed(a) && WellFormed(b)
    ensures WellFormed(a + b)
    decreases |a|
  {
    if a == [] {
      assert a + b == b;
    } else {
      var k := WfLen(a);
      WfLenPrefix(a, b);
      assert (a + b)[k..] == a[k..] + b;
      WellFormedConcat(a[k..], b);
    }
  }

  predicate Ascii(s: Bytes) {
    forall i | 0 <= i < |s| :: s[i] < 128
  }

  lemma {:induction false} AsciiIsWellFormed(s: Bytes)
    requires Ascii(s)
    ensures WellFormed(s)
    decreases |s|
  {
    if s != [] {
      AsciiIsWellFormed(s[1..]);
    }
  }
}
