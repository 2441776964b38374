/**
 * Lengths and encodings of strings as Java sees them.
 *
 * A Dafny `char` is a Unicode scalar value. A Java `String` is a sequence of
 * UTF-16 code units, so `String.length()` counts one unit for a character of
 * the Basic Multilingual Plane and two (a surrogate pair) above it, while
 * `getBytes(UTF_8)` produces the byte sequence of section 3 of RFC 3629.
 */
module Unicode {

  newtype byte = x: int | 0 <= x < 256

  /** Code units of one character in UTF-16. */
  function CharUtf16Len(c: char): nat
  {
    if c as int < 0x1_0000 then 1 else 2
  }

  /** `String.length()` of the Java string holding `s`. */
  function Utf16Len(s: string): nat
  {
    if s == [] then 0 else CharUtf16Len(s[0]) + Utf16Len(s[1..])
  }

  /** Bytes of one character in UTF-8 (RFC 3629, section 3). */
  function CharUtf8Len(c: char): nat
  {
    if c as int < 0x80 then 1
    else if c as int < 0x800 then 2
    else if c as int < 0x1_0000 then 3
    else 4
  }

  /** `getBytes(UTF_8).length` of the Java string holding `s`. */
  function Utf8Len(s: string): nat
  {
    if s == [] then 0 else CharUtf8Len(s[0]) + Utf8Len(s[1..])
  }

  /** The UTF-8 encoding of one character (RFC 3629, section 3). */
  function EncodeChar(c: char): (bs: seq<byte>)
    ensures |bs| == CharUtf8Len(c)
    ensures c as int < 0x80 ==> bs[0] as int == c as int
    ensures |bs| > 1 ==> bs[0] >= 0xC0 && forall i :: 1 <= i < |bs| ==> 0x80 <= bs[i] < 0xC0
  {
    var n := c as int;
    if n < 0x80 then
      [n as byte]
    else if n < 0x800 then
      [(0xC0 + n / 64) as byte, (0x80 + n % 64) as byte]
    else if n < 0x1_0000 then
      [(0xE0 + n / 4096) as byte, (0x80 + (n / 64) % 64) as byte, (0x80 + n % 64) as byte]
    else
      [(0xF0 + n / 262144) as byte, (0x80 + (n / 4096) % 64) as byte,
       (0x80 + (n / 64) % 64) as byte, (0x80 + n % 64) as byte]
  }

  /** `getBytes(UTF_8)` of the Java string holding `s`. */
  function Utf8Encode(s: string): (bs: seq<byte>)
    ensures |bs| == Utf8Len(s)
  {
    if s == [] then [] else EncodeChar(s[0]) + Utf8Encode(s[1..])
  }

  predicate IsAsciiChar(c: char)
  {
    c as int < 0x80
  }

  predicate IsAscii(s: string)
  {
    forall i :: 0 <= i < |s| ==> IsAsciiChar(s[i])
  }

  /** Each character takes at least as many UTF-8 bytes as UTF-16 units, and as many exactly when it is ASCII. */
  lemma CharLengths(c: char)
    ensures CharUtf16Len(c) >= 1
    ensures CharUtf8Len(c) >= CharUtf16Len(c)
    ensures CharUtf8Len(c) == CharUtf16Len(c) <==> IsAsciiChar(c)
  {
  }

  /**
   * The two body lengths agree exactly on ASCII strings; as soon as one
   * character is outside ASCII, the UTF-8 byte count is strictly larger.
   */
  lemma {:induction false} Utf8LenVersusUtf16Len(s: string)
    ensures Utf8Len(s) >= Utf16Len(s)
    ensures Utf8Len(s) == Utf16Len(s) <==> IsAscii(s)
    ensures !IsAscii(s) ==> Utf8Len(s) > Utf16Len(s)
  {
    if s != [] {
      CharLengths(s[0]);
      Utf8LenVersusUtf16Len(s[1..]);
      assert IsAscii(s) <==> IsAsciiChar(s[0]) && IsAscii(s[1..]) by {
        if IsAsciiChar(s[0]) && IsAscii(s[1..]) {
          forall i | 0 <= i < |s| ensures IsAsciiChar(s[i]) {
            if i > 0 { assert s[i] == s[1..][i - 1]; }
          }
        }
      }
    }
  }

  /** For an ASCII string both counts are the number of characters. */
  lemma {:induction false} AsciiLengths(s: string)
    requires IsAscii(s)
    ensures Utf8Len(s) == |s| && Utf16Len(s) == |s|
  {
    if s != [] {
      assert IsAsciiChar(s[0]);
      assert IsAscii(s[1..]) by {
        forall i | 0 <= i < |s[1..]| ensures IsAsciiChar(s[1..][i]) { assert s[1..][i] == s[i + 1]; }
      }
      AsciiLengths(s[1..]);
    }
  }
}
