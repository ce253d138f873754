/** UTF-8 (section 3 of RFC 3629) on well-formed strings, which are sequences of Unicode scalar values. */
module Utf8 {

  type Byte = b: nat | b < 256

  const REPLACEMENT: char := '\U{FFFD}'

  function EncodeChar(c: char): (r: seq<Byte>)
    ensures 1 <= |r| <= 4
    ensures r[0] / 64 != 2 && forall i :: 1 <= i < |r| ==> r[i] / 64 == 2
  {
    var n := c as int;
    if n < 0x80 then [n]
    else if n < 0x800 then [0xC0 + n / 64, 0x80 + n % 64]
    else if n < 0x10000 then [0xE0 + n / 4096, 0x80 + n / 64 % 64, 0x80 + n % 64]
    else [0xF0 + n / 262144, 0x80 + n / 4096 % 64, 0x80 + n / 64 % 64, 0x80 + n % 64]
  }

  function Encode(s: string): seq<Byte> {
    if s == "" then [] else EncodeChar(s[0]) + Encode(s[1..])
  }

  /** A byte that is not the first of its character. */
  predicate IsContinuation(b: Byte) {
    b / 64 == 2
  }

  predicate IsScalarValue(n: int) {
    0 <= n < 0xD800 || 0xE000 <= n < 0x110000
  }

  /** The number of bytes that a leading byte announces; 0 for a byte that cannot lead. */
  function Width(b: Byte): nat {
    if b < 0x80 then 1
    else if b < 0xC0 then 0
    else if b < 0xE0 then 2
    else if b < 0xF0 then 3
    else 4
  }

  function Assemble(bs: seq<Byte>): int
    requires 1 <= |bs| <= 4
  {
    var b: seq<int> := bs;
    match |bs|
    case 1 => b[0]
    case 2 => (b[0] - 0xC0) * 64 + (b[1] - 0x80)
    case 3 => (b[0] - 0xE0) * 4096 + (b[1] - 0x80) * 64 + (b[2] - 0x80)
    case _ => (b[0] - 0xF0) * 262144 + (b[1] - 0x80) * 4096 + (b[2] - 0x80) * 64 + (b[3] - 0x80)
  }

  /**
   * Decoding with replacement. A character is accepted only when encoding it gives back
   * the bytes it was read from, so overlong and truncated forms yield U+FFFD.
   */
  function Decode(bs: seq<Byte>): string {
    if bs == [] then ""
    else
      var w := Width(bs[0]);
      if 1 <= w <= |bs| && IsScalarValue(Assemble(bs[..w])) && EncodeChar(Assemble(bs[..w]) as char) == bs[..w]
      then [Assemble(bs[..w]) as char] + Decode(bs[w..])
      else [REPLACEMENT] + Decode(bs[1..])
  }

  /** The base-64 digits of a number determine it. */
  lemma Digits(n: nat)
    ensures n == n / 64 * 64 + n % 64
    ensures n / 64 == n / 4096 * 64 + n / 64 % 64
    ensures n / 4096 == n / 262144 * 64 + n / 4096 % 64
  {
    assert n / 4096 == n / 64 / 64;
    assert n / 262144 == n / 4096 / 64;
  }

  lemma AssembleEncoded(c: char)
    ensures Width(EncodeChar(c)[0]) == |EncodeChar(c)|
    ensures Assemble(EncodeChar(c)) == c as int
  {
    Digits(c as int);
  }

  lemma {:induction false} DecodeInvertsEncode(s: string)
    ensures Decode(Encode(s)) == s
  {
    if s != "" {
      var e := EncodeChar(s[0]);
      AssembleEncoded(s[0]);
      assert Encode(s)[..|e|] == e && Encode(s)[|e|..] == Encode(s[1..]);
      DecodeInvertsEncode(s[1..]);
    }
  }

  lemma {:induction false} EncodeAppend(s: string, t: string)
    ensures Encode(s + t) == Encode(s) + Encode(t)
  {
    if s == "" {
      assert s + t == t;
    } else {
      EncodeAppend(s[1..], t);
      assert (s + t)[1..] == s[1..] + t && (s + t)[0] == s[0];
      assert EncodeChar(s[0]) + (Encode(s[1..]) + Encode(t)) == (EncodeChar(s[0]) + Encode(s[1..])) + Encode(t);
    }
  }

  ghost predicate Ascii(s: string) {
    forall i :: 0 <= i < |s| ==> s[i] as int < 0x80
  }

  /** ASCII strings take one byte a character. */
  lemma {:induction false} EncodeAscii(s: string)
    requires Ascii(s)
    ensures |Encode(s)| == |s|
  {
    if s != "" {
      EncodeAscii(s[1..]);
    }
  }
}
