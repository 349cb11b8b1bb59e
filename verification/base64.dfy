/**
 * The bytes of a Basic credential: UTF-8 (what Python's `str.encode()`
 * produces) and the base 64 encoding of section 4 of RFC 4648 (what
 * `base64.b64encode` produces), each with its decoder and a proof that the
 * decoder recovers the input.
 */
module Base64 {
  import opened Wrappers

  type Byte = b: int | 0 <= b < 256

  // ---------------------------------------------------------------------
  // UTF-8

  /** The UTF-8 bytes of one Unicode scalar value. */
  function Utf8Char(c: char): (bs: seq<Byte>)
    ensures 1 <= |bs| <= 4
  {
    var v := c as int;
    var v1 := v / 64;
    var v2 := v1 / 64;
    var v3 := v2 / 64;
    if v < 0x80 then [v]
    else if v < 0x800 then [0xC0 + v1, 0x80 + v % 64]
    else if v < 0x10000 then [0xE0 + v2, 0x80 + v1 % 64, 0x80 + v % 64]
    else [0xF0 + v3, 0x80 + v2 % 64, 0x80 + v1 % 64, 0x80 + v % 64]
  }

  /** Python's `s.encode()` (UTF-8). */
  function Utf8(s: string): seq<Byte>
  {
    if |s| == 0 then [] else Utf8Char(s[0]) + Utf8(s[1..])
  }

  predicate IsContinuation(b: Byte)
  {
    0x80 <= b < 0xC0
  }

  /** A scalar value that is a `char`: at most 0x10FFFF and not a surrogate. */
  predicate IsScalar(v: int)
  {
    0 <= v < 0xD800 || 0xE000 <= v < 0x110000
  }

  /** Number of bytes the sequence starting with lead byte `b` occupies, 0 for an invalid lead. */
  function SequenceLength(b: Byte): nat
  {
    if b < 0x80 then 1
    else if 0xC2 <= b < 0xE0 then 2
    else if 0xE0 <= b < 0xF0 then 3
    else if 0xF0 <= b < 0xF5 then 4
    else 0
  }

  /** Decodes the first character of `bs`, rejecting overlong forms and surrogates. */
  function DecodeChar(bs: seq<Byte>): (r: Option<(char, nat)>)
    ensures r.Some? ==> 1 <= r.value.1 <= |bs|
  {
    if |bs| == 0 then None
    else
      var k := SequenceLength(bs[0]);
      if k == 0 || |bs| < k then None
      else if exists i :: 1 <= i < k && !IsContinuation(bs[i]) then None
      else
        var v: int :=
          if k == 1 then bs[0]
          else if k == 2 then (bs[0] - 0xC0) * 64 + (bs[1] - 0x80)
          else if k == 3 then ((bs[0] - 0xE0) * 64 + (bs[1] - 0x80)) * 64 + (bs[2] - 0x80)
          else (((bs[0] as int - 0xF0) * 64 + (bs[1] - 0x80)) * 64 + (bs[2] - 0x80)) * 64 + (bs[3] - 0x80);
        var least: int := if k == 1 then 0 else if k == 2 then 0x80 else if k == 3 then 0x800 else 0x10000;
        if v < least || !IsScalar(v) then None else Some((v as char, k))
  }

  /** Python's `bs.decode()` (UTF-8, strict). */
  function DecodeUtf8(bs: seq<Byte>): Option<string>
    decreases |bs|
  {
    if |bs| == 0 then Some("")
    else
      match DecodeChar(bs)
      case None => None
      case Some((c, k)) =>
        match DecodeUtf8(bs[k..])
        case None => None
        case Some(rest) => Some([c] + rest)
  }

  lemma DecodeUtf8Char(c: char, rest: seq<Byte>)
    ensures DecodeChar(Utf8Char(c) + rest) == Some((c, |Utf8Char(c)|))
  {
    var v := c as int;
    assert IsScalar(v);
    if v < 0x80 {
      assert (Utf8Char(c) + rest)[0] == v;
    } else if v < 0x800 {
      DecodeTwoByteChar(c, rest);
    } else if v < 0x10000 {
      DecodeThreeByteChar(c, rest);
    } else {
      DecodeFourByteChar(c, rest);
    }
  }

  lemma DecodeTwoByteChar(c: char, rest: seq<Byte>)
    requires 0x80 <= c as int < 0x800
    ensures DecodeChar(Utf8Char(c) + rest) == Some((c, 2))
  {
    var v := c as int;
    var bs := Utf8Char(c) + rest;
    assert v == (v / 64) * 64 + v % 64;
    assert bs[0] == 0xC0 + v / 64 && bs[1] == 0x80 + v % 64;
  }

  lemma DecodeThreeByteChar(c: char, rest: seq<Byte>)
    requires 0x800 <= c as int < 0x10000
    ensures DecodeChar(Utf8Char(c) + rest) == Some((c, 3))
  {
    var v := c as int;
    var v1 := v / 64;
    var bs := Utf8Char(c) + rest;
    assert IsScalar(v);
    assert v == v1 * 64 + v % 64;
    assert v1 == (v1 / 64) * 64 + v1 % 64;
    assert bs[0] == 0xE0 + v1 / 64 && bs[1] == 0x80 + v1 % 64 && bs[2] == 0x80 + v % 64;
  }

  lemma DecodeFourByteChar(c: char, rest: seq<Byte>)
    requires 0x10000 <= c as int
    ensures DecodeChar(Utf8Char(c) + rest) == Some((c, 4))
  {
    var v := c as int;
    var v1 := v / 64;
    var v2 := v1 / 64;
    var bs := Utf8Char(c) + rest;
    assert IsScalar(v);
    assert v == v1 * 64 + v % 64;
    assert v1 == v2 * 64 + v1 % 64;
    assert v2 == (v2 / 64) * 64 + v2 % 64;
    assert bs[0] == 0xF0 + v2 / 64 && bs[1] == 0x80 + v2 % 64;
    assert bs[2] == 0x80 + v1 % 64 && bs[3] == 0x80 + v % 64;
  }

  /** Decoding the UTF-8 bytes of a string gives the string back. */
  lemma {:induction false} DecodeUtf8Encode(s: string)
    ensures DecodeUtf8(Utf8(s)) == Some(s)
  {
    if |s| > 0 {
      var head := Utf8Char(s[0]);
      DecodeUtf8Char(s[0], Utf8(s[1..]));
      assert (head + Utf8(s[1..]))[|head|..] == Utf8(s[1..]);
      DecodeUtf8Encode(s[1..]);
      assert [s[0]] + s[1..] == s;
    }
  }

  // ---------------------------------------------------------------------
  // Base 64 (section 4 of RFC 4648)

  /** The character the alphabet of Table 1 of RFC 4648 assigns to `v`. */
  function Letter(v: nat): char
    requires v < 64
  {
    if v < 26 then ('A' as int + v) as char
    else if v < 52 then ('a' as int + (v - 26)) as char
    else if v < 62 then ('0' as int + (v - 52)) as char
    else if v == 62 then '+'
    else '/'
  }

  /** The value of an alphabet character, `None` for any other character (including `=`). */
  function LetterValue(c: char): (r: Option<nat>)
    ensures r.Some? ==> r.value < 64
  {
    if 'A' <= c <= 'Z' then Some(c as int - 'A' as int)
    else if 'a' <= c <= 'z' then Some(c as int - 'a' as int + 26)
    else if '0' <= c <= '9' then Some(c as int - '0' as int + 52)
    else if c == '+' then Some(62)
    else if c == '/' then Some(63)
    else None
  }

  lemma LetterValueLetter(v: nat)
    requires v < 64
    ensures LetterValue(Letter(v)) == Some(v)
  {
  }

  /** The letters of the 6-bit groups of an `k`-group number, most significant first. */
  function Letters(n: nat, k: nat): (s: string)
    ensures |s| == k
  {
    if k == 0 then "" else Letters(n / 64, k - 1) + [Letter(n % 64)]
  }

  /** 64 to the power `k`, for the group counts a quantum uses. */
  function Pow64(k: nat): nat
    requires k <= 4
  {
    [1, 64, 4096, 262144, 16777216][k]
  }

  /** `base64.b64encode`: each 3 bytes become 4 letters; a final 1 or 2 bytes are padded with `=`. */
  function Encode(bs: seq<Byte>): (s: string)
    ensures |s| == 4 * ((|bs| + 2) / 3)
  {
    if |bs| == 0 then ""
    else if |bs| == 1 then EncodeOne(bs[0])
    else if |bs| == 2 then EncodeTwo(bs[0], bs[1])
    else EncodeThree(bs[0], bs[1], bs[2]) + Encode(bs[3..])
  }

  /** A whole quantum: 24 bits as four letters. */
  function EncodeThree(b0: Byte, b1: Byte, b2: Byte): (q: string)
    ensures |q| == 4
  {
    Letters(b0 * 65536 + b1 * 256 + b2, 4)
  }

  /** Two final bytes: 16 bits padded to 18, three letters and one `=`. */
  function EncodeTwo(b0: Byte, b1: Byte): (q: string)
    ensures |q| == 4
  {
    Letters((b0 * 256 + b1) * 4, 3) + "="
  }

  /** One final byte: 8 bits padded to 12, two letters and `==`. */
  function EncodeOne(b0: Byte): (q: string)
    ensures |q| == 4
  {
    Letters(b0 * 16, 2) + "=="
  }

  /** Every character of `s` belongs to the alphabet. */
  predicate AllLetters(s: string)
  {
    forall i :: 0 <= i < |s| ==> LetterValue(s[i]).Some?
  }

  /** Decodes one quantum of four characters (padding allowed only in the last one). */
  function DecodeQuantum(q: string, last: bool): Option<seq<Byte>>
    requires |q| == 4
  {
    if AllLetters(q) then
      var n := Radix64(q);
      Some([n / 65536, (n / 256) % 256, n % 256])
    else if last && q[3] == '=' && AllLetters(q[..3]) then
      var n := Radix64(q[..3]);
      if n % 4 == 0 then Some([n / 1024, (n / 4) % 256]) else None
    else if last && q[2..] == "==" && AllLetters(q[..2]) then
      var n := Radix64(q[..2]);
      if n % 16 == 0 then Some([n / 16]) else None
    else None
  }

  /** The base 64 decoder: the text must be whole quanta of the canonical alphabet. */
  function Decode(s: string): Option<seq<Byte>>
    decreases |s|
  {
    if |s| == 0 then Some([])
    else if |s| < 4 then None
    else
      match (DecodeQuantum(s[..4], |s| == 4), Decode(s[4..]))
      case (Some(bs), Some(rest)) => Some(bs + rest)
      case _ => None
  }

  /** Reading back the letters of a number gives its 6-bit groups. */
  lemma {:induction false} LettersValues(n: nat, k: nat)
    requires k <= 4 && n < Pow64(k)
    ensures AllLetters(Letters(n, k))
    ensures Radix64(Letters(n, k)) == n
  {
    if k > 0 {
      LettersValues(n / 64, k - 1);
      var s := Letters(n, k);
      assert s[..k - 1] == Letters(n / 64, k - 1);
      LetterValueLetter(n % 64);
    }
  }

  /** The number a run of alphabet letters denotes in base 64. */
  function Radix64(s: string): (n: nat)
    requires |s| <= 4
    ensures n < Pow64(|s|)
  {
    if |s| == 0 then 0
    else Radix64(s[..|s| - 1]) * 64 + LetterValue(s[|s| - 1]).GetOr(0)
  }

  lemma ThreeBytes(b0: Byte, b1: Byte, b2: Byte)
    ensures var n := b0 * 65536 + b1 * 256 + b2;
      n / 65536 == b0 && (n / 256) % 256 == b1 && n % 256 == b2
  {
    var n := b0 * 65536 + b1 * 256 + b2;
    assert n / 256 == b0 * 256 + b1;
  }

  lemma DecodeThree(b0: Byte, b1: Byte, b2: Byte, last: bool)
    ensures DecodeQuantum(EncodeThree(b0, b1, b2), last) == Some([b0, b1, b2])
  {
    var n := b0 * 65536 + b1 * 256 + b2;
    LettersValues(n, 4);
    ThreeBytes(b0, b1, b2);
  }

  /** A last quantum of three letters and one `=` carries two bytes. */
  lemma PaddedOne(q: string)
    requires |q| == 3 && AllLetters(q)
    ensures var n := Radix64(q);
      DecodeQuantum(q + "=", true) == if n % 4 == 0 then Some([n / 1024, (n / 4) % 256]) else None
  {
    var w := q + "=";
    assert w[..3] == q;
    assert LetterValue(w[3]).None?;
  }

  /** A last quantum of two letters and `==` carries one byte. */
  lemma PaddedTwo(q: string)
    requires |q| == 2 && AllLetters(q)
    ensures var n := Radix64(q);
      DecodeQuantum(q + "==", true) == if n % 16 == 0 then Some([n / 16]) else None
  {
    var w := q + "==";
    assert w[..2] == q && w[2..] == "==";
    assert LetterValue(w[3]).None?;
    assert LetterValue(w[..3][2]).None?;
  }

  lemma DecodeTwo(b0: Byte, b1: Byte)
    ensures DecodeQuantum(EncodeTwo(b0, b1), true) == Some([b0, b1])
    ensures Decode(EncodeTwo(b0, b1)) == Some([b0, b1])
  {
    DecodeLastQuantum(EncodeTwo(b0, b1));
    var n := (b0 * 256 + b1) * 4;
    LettersValues(n, 3);
    PaddedOne(Letters(n, 3));
    TwoBytes(b0, b1);
  }

  lemma TwoBytes(b0: Byte, b1: Byte)
    ensures var n := (b0 * 256 + b1) * 4;
      n % 4 == 0 && n / 1024 == b0 && (n / 4) % 256 == b1
  {
    var m := b0 * 256 + b1;
    var n := m * 4;
    assert n / 4 == m;
    assert n / 1024 == m / 256;
    assert m / 256 == b0;
  }

  lemma DecodeOne(b0: Byte)
    ensures DecodeQuantum(EncodeOne(b0), true) == Some([b0])
    ensures Decode(EncodeOne(b0)) == Some([b0])
  {
    DecodeLastQuantum(EncodeOne(b0));
    LettersValues(b0 * 16, 2);
    PaddedTwo(Letters(b0 * 16, 2));
  }

  lemma DecodeLastQuantum(s: string)
    requires |s| == 4
    ensures Decode(s) == DecodeQuantum(s, true)
  {
    assert s[..4] == s;
    assert s[4..] == "";
    if DecodeQuantum(s, true).Some? {
      assert DecodeQuantum(s, true).value + [] == DecodeQuantum(s, true).value;
    }
  }

  /** Decoding a leading whole quantum followed by more text. */
  lemma DecodeFront(q: string, rest: string)
    requires |q| == 4
    ensures Decode(q + rest) == match (DecodeQuantum(q, |rest| == 0), Decode(rest))
      case (Some(bs), Some(more)) => Some(bs + more)
      case _ => None
  {
    var s := q + rest;
    assert s[..4] == q && s[4..] == rest;
  }

  lemma DecodeStep(b0: Byte, b1: Byte, b2: Byte, tail: seq<Byte>, t: string)
    requires Decode(t) == Some(tail)
    ensures Decode(EncodeThree(b0, b1, b2) + t) == Some([b0, b1, b2] + tail)
  {
    DecodeThree(b0, b1, b2, |t| == 0);
    DecodeFront(EncodeThree(b0, b1, b2), t);
  }

  /** Decoding the base 64 text of any bytes gives the bytes back. */
  lemma {:induction false} DecodeEncode(bs: seq<Byte>)
    ensures Decode(Encode(bs)) == Some(bs)
  {
    if |bs| == 1 {
      DecodeOne(bs[0]);
      assert [bs[0]] == bs;
    } else if |bs| == 2 {
      DecodeTwo(bs[0], bs[1]);
      assert [bs[0], bs[1]] == bs;
    } else if |bs| >= 3 {
      DecodeEncode(bs[3..]);
      DecodeStep(bs[0], bs[1], bs[2], bs[3..], Encode(bs[3..]));
      assert [bs[0], bs[1], bs[2]] + bs[3..] == bs;
    }
  }
}
