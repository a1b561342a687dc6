/**
 * Bytes and the UTF-8 encoding that Go applies when it converts a string
 * to a byte slice (`[]byte(v)`). A Go string literal is UTF-8 in the
 * source text, so the conversion of a Dafny string (a sequence of Unicode
 * scalar values) is its UTF-8 encoding.
 */
module Utf8 {

  newtype byte = x: int | 0 <= x < 256

  type Bytes = seq<byte>

  /** The one to four bytes that encode one scalar value. */
  function EncodeChar(c: char): (r: Bytes)
    ensures 1 <= |r| <= 4
    ensures |r| == 1 <==> (c as int) < 0x80
    ensures (c as int) < 0x80 ==> r == [(c as int) as byte]
  {
    var n := c as int;
    if n < 0x80 then
      [n as byte]
    else if n < 0x800 then
      [(0xC0 + n / 0x40) as byte, (0x80 + n % 0x40) as byte]
    else if n < 0x10000 then
      [(0xE0 + n / 0x1000) as byte, (0x80 + (n / 0x40) % 0x40) as byte, (0x80 + n % 0x40) as byte]
    else
      [(0xF0 + n / 0x40000) as byte, (0x80 + (n / 0x1000) % 0x40) as byte,
       (0x80 + (n / 0x40) % 0x40) as byte, (0x80 + n % 0x40) as byte]
  }

  /** The scalar value that a one- to four-byte UTF-8 sequence spells. */
  function DecodeValue(r: Bytes): int
    requires 1 <= |r| <= 4
  {
    if |r| == 1 then r[0] as int
    else if |r| == 2 then (r[0] as int - 0xC0) * 0x40 + (r[1] as int - 0x80)
    else if |r| == 3 then
      (r[0] as int - 0xE0) * 0x1000 + (r[1] as int - 0x80) * 0x40 + (r[2] as int - 0x80)
    else
      (r[0] as int - 0xF0) * 0x40000 + (r[1] as int - 0x80) * 0x1000
        + (r[2] as int - 0x80) * 0x40 + (r[3] as int - 0x80)
  }

  /** Decoding the encoding of a character gives back its scalar value. */
  lemma DecodeEncodeChar(c: char)
    ensures DecodeValue(EncodeChar(c)) == c as int
  {
    var n := c as int;
    if 0x80 <= n < 0x800 {
      assert (n / 0x40) * 0x40 + n % 0x40 == n;
    } else if 0x800 <= n < 0x10000 {
      var q := n / 0x40;
      assert q * 0x40 + n % 0x40 == n;
      assert (q / 0x40) * 0x40 + q % 0x40 == q;
      assert n / 0x1000 == q / 0x40;
    } else if 0x10000 <= n {
      var q := n / 0x40;
      var q2 := q / 0x40;
      assert q * 0x40 + n % 0x40 == n;
      assert q2 * 0x40 + q % 0x40 == q;
      assert (q2 / 0x40) * 0x40 + q2 % 0x40 == q2;
      assert n / 0x1000 == q2;
      assert n / 0x40000 == q2 / 0x40;
    }
  }

  /** Distinct characters have distinct encodings. */
  lemma EncodeCharInjective(a: char, b: char)
    requires EncodeChar(a) == EncodeChar(b)
    ensures a == b
  {
    DecodeEncodeChar(a);
    DecodeEncodeChar(b);
  }

  /** `[]byte(s)`: the UTF-8 encoding of a whole string. */
  function Encode(s: string): (r: Bytes)
    ensures |s| <= |r| <= 4 * |s|
    ensures r == [] <==> s == []
  {
    if s == [] then [] else EncodeChar(s[0]) + Encode(s[1..])
  }

  /** The encoding of a concatenation is the concatenation of the encodings. */
  lemma {:induction false} EncodeAppend(a: string, b: string)
    ensures Encode(a + b) == Encode(a) + Encode(b)
  {
    if a == [] {
      assert a + b == b;
    } else {
      assert (a + b)[0] == a[0];
      assert (a + b)[1..] == a[1..] + b;
      EncodeAppend(a[1..], b);
    }
  }

  /** The first byte of a character's encoding fixes how many bytes it has. */
  lemma LeadFixesLength(a: char, b: char)
    requires EncodeChar(a)[0] == EncodeChar(b)[0]
    ensures |EncodeChar(a)| == |EncodeChar(b)|
  {
  }

  /** Distinct strings have distinct encodings: the bytes of a string determine it. */
  lemma {:induction false} EncodeInjective(s: string, t: string)
    requires Encode(s) == Encode(t)
    ensures s == t
  {
    if s != [] && t != [] {
      var a, b := EncodeChar(s[0]), EncodeChar(t[0]);
      assert Encode(s) == a + Encode(s[1..]);
      assert Encode(t) == b + Encode(t[1..]);
      assert a[0] == Encode(s)[0] == b[0];
      LeadFixesLength(s[0], t[0]);
      assert a == Encode(s)[..|a|] == b;
      EncodeCharInjective(s[0], t[0]);
      assert Encode(s[1..]) == Encode(s)[|a|..] == Encode(t[1..]);
      EncodeInjective(s[1..], t[1..]);
      assert s == [s[0]] + s[1..] && t == [t[0]] + t[1..];
    }
  }

  /** An ASCII string encodes to one byte per character, each its code point. */
  lemma {:induction false} EncodeAscii(s: string)
    requires forall i :: 0 <= i < |s| ==> (s[i] as int) < 0x80
    ensures |Encode(s)| == |s|
    ensures forall i :: 0 <= i < |s| ==> Encode(s)[i] == (s[i] as int) as byte
  {
    if s != [] {
      EncodeAscii(s[1..]);
    }
  }
}
