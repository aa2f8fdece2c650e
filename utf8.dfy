/**
 * UTF-8, the byte encoding Go uses for strings. Interpreter strings are
 * modelled as sequences of Unicode scalar values (`char`); `len` and the
 * string hash work on their UTF-8 bytes.
 */
module Utf8 {

  type byte = b: int | 0 <= b < 0x100

  /** The bytes of one scalar value: one byte below 0x80, then two, three or four. */
  function EncodeRune(c: char): (r: seq<byte>)
    ensures |r| == (if c as int < 0x80 then 1 else if c as int < 0x800 then 2 else if c as int < 0x1_0000 then 3 else 4)
    ensures DecodeRune(r) == c as int
  {
    var n := c as int;
    // n written in base 64: the low six bits of n, q1, q2 and q3 are its successive digits
    var q1 := n / 0x40;
    var q2 := q1 / 0x40;
    var q3 := q2 / 0x40;
    if n < 0x80 then
      [n]
    else if n < 0x800 then
      [0xC0 + q1, 0x80 + n % 0x40]
    else if n < 0x1_0000 then
      [0xE0 + q2, 0x80 + q1 % 0x40, 0x80 + n % 0x40]
    else
      [0xF0 + q3, 0x80 + q2 % 0x40, 0x80 + q1 % 0x40, 0x80 + n % 0x40]
  }

  /** The scalar value a one- to four-byte sequence stands for, read back from its payload bits. */
  function DecodeRune(r: seq<byte>): int
    requires 1 <= |r| <= 4
  {
    if |r| == 1 then r[0]
    else if |r| == 2 then (r[0] as int - 0xC0) * 0x40 + (r[1] as int - 0x80)
    else if |r| == 3 then ((r[0] as int - 0xE0) * 0x40 + (r[1] as int - 0x80)) * 0x40 + (r[2] as int - 0x80)
    else (((r[0] as int - 0xF0) * 0x40 + (r[1] as int - 0x80)) * 0x40 + (r[2] as int - 0x80)) * 0x40 + (r[3] as int - 0x80)
  }

  /** `[]byte(s)` in Go. */
  function Encode(s: string): seq<byte>
  {
    if |s| == 0 then [] else EncodeRune(s[0]) + Encode(s[1..])
  }

  predicate IsAscii(s: string) {
    forall i :: 0 <= i < |s| ==> s[i] as int < 0x80
  }

  /** Encoding a concatenation concatenates the encodings. */
  lemma {:induction false} EncodeAppend(a: string, b: string)
    ensures Encode(a + b) == Encode(a) + Encode(b)
    decreases |a|
  {
    if |a| > 0 {
      assert (a + b)[0] == a[0];
      assert (a + b)[1..] == a[1..] + b;
      EncodeAppend(a[1..], b);
    } else {
      assert a + b == b;
    }
  }

  /** Every character takes at least one byte, and exactly one for all of them iff the string is ASCII. */
  lemma {:induction false} EncodedLength(s: string)
    ensures |Encode(s)| >= |s|
    ensures |Encode(s)| == |s| <==> IsAscii(s)
    decreases |s|
  {
    if |s| > 0 {
      EncodedLength(s[1..]);
      assert IsAscii(s) <==> s[0] as int < 0x80 && IsAscii(s[1..]) by {
        if s[0] as int < 0x80 && IsAscii(s[1..]) {
          forall i | 0 <= i < |s| ensures s[i] as int < 0x80 {
            if i > 0 { assert s[i] == s[1..][i - 1]; }
          }
        }
      }
    }
  }
}
