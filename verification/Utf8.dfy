// UTF-8 as jsoncpp writes and reads it, against the syntax of section 4 of RFC 3629. Byte strings are strings
// whose characters are below 256.
module Utf8 {

  ghost predicate IsBytes(s: string) {
    forall i | 0 <= i < |s| :: s[i] as int < 256
  }

  function Byte(b: int): char
    requires 0 <= b < 256
  {
    b as char
  }

  /** The code points UTF-8 encodes: no surrogates, nothing above 10FFFF. */
  predicate IsScalar(cp: int) {
    0 <= cp < 0xD800 || 0xDFFF < cp <= 0x10FFFF
  }

  /** codePointToUTF8 */
  function CodePointToUTF8(cp: nat): (s: string)
    ensures IsBytes(s)
  {
    if cp <= 0x7F then [Byte(cp)]
    else if cp <= 0x7FF then [Byte(0xC0 + cp / 64 % 32), Byte(0x80 + cp % 64)]
    else if cp <= 0xFFFF then [Byte(0xE0 + cp / 4096 % 16), Byte(0x80 + cp / 64 % 64), Byte(0x80 + cp % 64)]
    else if cp <= 0x10FFFF then
      [Byte(0xF0 + cp / 262144 % 8), Byte(0x80 + cp / 4096 % 64), Byte(0x80 + cp / 64 % 64), Byte(0x80 + cp % 64)]
    else ""
  }

  const REPLACEMENT: nat := 0xFFFD

  /** utf8ToCodepoint: the code point at the front of `s`, and how many bytes the caller's loop moves on by. */
  function Utf8ToCodepoint(s: string): (r: (nat, nat))
    requires s != ""
    ensures 1 <= r.1 <= |s|
  {
    var b := s[0] as int;
    if b < 0x80 then (b, 1)
    else if b < 0xE0 then
      if |s| < 2 then (REPLACEMENT, 1)
      else
        var cp := b % 32 * 64 + s[1] as int % 64;
        (if cp < 0x80 then REPLACEMENT else cp, 2)
    else if b < 0xF0 then
      if |s| < 3 then (REPLACEMENT, 1)
      else
        var cp := b % 16 * 4096 + s[1] as int % 64 * 64 + s[2] as int % 64;
        (if 0xD800 <= cp <= 0xDFFF || cp < 0x800 then REPLACEMENT else cp, 3)
    else if b < 0xF8 then
      if |s| < 4 then (REPLACEMENT, 1)
      else
        var cp := b % 8 * 262144 + s[1] as int % 64 * 4096 + s[2] as int % 64 * 64 + s[3] as int % 64;
        (if cp < 0x10000 then REPLACEMENT else cp, 4)
    else (REPLACEMENT, 1)
  }

  // ----- the standard's syntax -----

  predicate Within(c: char, lo: int, hi: int) {
    lo <= c as int <= hi
  }

  predicate Tail(c: char) {
    Within(c, 0x80, 0xBF)
  }

  /** The number of bytes of the UTF8-char at the front, by the four productions of the grammar; 0 for none. */
  function UnitLength(s: string): (n: nat)
    ensures n <= |s| && n <= 4
  {
    if |s| >= 1 && Within(s[0], 0x00, 0x7F) then 1
    else if |s| >= 2 && Within(s[0], 0xC2, 0xDF) && Tail(s[1]) then 2
    else if |s| >= 3 && Tail(s[2])
            && ((s[0] as int == 0xE0 && Within(s[1], 0xA0, 0xBF)) || (Within(s[0], 0xE1, 0xEC) && Tail(s[1]))
                || (s[0] as int == 0xED && Within(s[1], 0x80, 0x9F)) || (Within(s[0], 0xEE, 0xEF) && Tail(s[1]))) then 3
    else if |s| >= 4 && Tail(s[2]) && Tail(s[3])
            && ((s[0] as int == 0xF0 && Within(s[1], 0x90, 0xBF)) || (Within(s[0], 0xF1, 0xF3) && Tail(s[1]))
                || (s[0] as int == 0xF4 && Within(s[1], 0x80, 0x8F))) then 4
    else 0
  }

  /** UTF8-octets */
  ghost predicate WellFormed(s: string) {
    s == "" || (UnitLength(s) > 0 && WellFormed(s[UnitLength(s)..]))
  }

  /** A code point is put together again from its groups of six bits. */
  lemma SixBits(x: nat)
    ensures x / 64 % 64 == x / 64 - x / 4096 * 64 && x / 4096 % 64 == x / 4096 - x / 262144 * 64
    ensures x % 64 == x - x / 64 * 64
  {
    assert x / 4096 == x / 64 / 64 && x / 262144 == x / 4096 / 64;
  }

  /** And taken apart into the groups it was put together from. */
  lemma FromSixBits(a: nat, b: nat, c: nat, d: nat)
    requires b < 64 && c < 64 && d < 64
    ensures var x := a * 262144 + b * 4096 + c * 64 + d;
            x / 262144 == a && x / 4096 % 64 == b && x / 64 % 64 == c && x % 64 == d
            && x / 4096 == a * 64 + b && x / 64 == a * 4096 + b * 64 + c
  {
    var x := a * 262144 + b * 4096 + c * 64 + d;
    assert x / 64 == a * 4096 + b * 64 + c;
    assert x / 4096 == a * 64 + b;
    assert x / 262144 == a;
  }

  /** Encoding a scalar value gives a character of the grammar that decodes to it, whatever follows. */
  lemma EncodedDecodes(cp: nat, rest: string)
    requires IsScalar(cp)
    ensures UnitLength(CodePointToUTF8(cp) + rest) == |CodePointToUTF8(cp)| > 0
    ensures Utf8ToCodepoint(CodePointToUTF8(cp) + rest) == (cp, |CodePointToUTF8(cp)|)
  {
    if cp <= 0x7F {
    } else if cp <= 0x7FF {
      Encoded2(cp, rest);
    } else if cp <= 0xFFFF {
      Encoded3(cp, rest);
    } else {
      Encoded4(cp, rest);
    }
  }

  lemma Encoded2(cp: nat, rest: string)
    requires 0x7F < cp <= 0x7FF
    ensures UnitLength(CodePointToUTF8(cp) + rest) == |CodePointToUTF8(cp)| == 2
    ensures Utf8ToCodepoint(CodePointToUTF8(cp) + rest) == (cp, 2)
  {
    var s := CodePointToUTF8(cp) + rest;
    assert s[0] as int == 0xC0 + cp / 64 && s[1] as int == 0x80 + cp % 64;
    assert s[0] as int % 32 == cp / 64 && s[1] as int % 64 == cp % 64;
  }

  lemma Encoded3(cp: nat, rest: string)
    requires 0x7FF < cp <= 0xFFFF && IsScalar(cp)
    ensures UnitLength(CodePointToUTF8(cp) + rest) == |CodePointToUTF8(cp)| == 3
    ensures Utf8ToCodepoint(CodePointToUTF8(cp) + rest) == (cp, 3)
  {
    SixBits(cp);
    var s := CodePointToUTF8(cp) + rest;
    var a, b, c := cp / 4096, cp / 64 % 64, cp % 64;
    assert s[0] as int == 0xE0 + a && s[1] as int == 0x80 + b && s[2] as int == 0x80 + c;
    assert s[0] as int % 16 == a && s[1] as int % 64 == b && s[2] as int % 64 == c;
    assert cp == a * 4096 + b * 64 + c;
  }

  lemma Encoded4(cp: nat, rest: string)
    requires 0xFFFF < cp <= 0x10FFFF
    ensures UnitLength(CodePointToUTF8(cp) + rest) == |CodePointToUTF8(cp)| == 4
    ensures Utf8ToCodepoint(CodePointToUTF8(cp) + rest) == (cp, 4)
  {
    SixBits(cp);
    var s := CodePointToUTF8(cp) + rest;
    assert s[0] as int == 0xF0 + cp / 262144 && s[1] as int == 0x80 + cp / 4096 % 64;
    assert s[2] as int == 0x80 + cp / 64 % 64 && s[3] as int == 0x80 + cp % 64;
    assert s[0] as int % 8 == cp / 262144 && s[1] as int % 64 == cp / 4096 % 64;
    assert s[2] as int % 64 == cp / 64 % 64 && s[3] as int % 64 == cp % 64;
  }

  /** Every character of the grammar is the encoding of a scalar value, namely of the one it decodes to. */
  lemma DecodedEncodes(s: string)
    requires UnitLength(s) > 0
    ensures Utf8ToCodepoint(s).1 == UnitLength(s) && IsScalar(Utf8ToCodepoint(s).0)
    ensures CodePointToUTF8(Utf8ToCodepoint(s).0) == s[..UnitLength(s)]
  {
    var n := UnitLength(s);
    if n == 2 {
      Decoded2(s);
    } else if n == 3 {
      Decoded3(s);
    } else if n == 4 {
      Decoded4(s);
    }
  }

  /** The bytes of a code point, from its groups of bits. */
  lemma Encode2(a: nat, b: nat)
    requires 2 <= a < 32 && b < 64
    ensures CodePointToUTF8(a * 64 + b) == [Byte(0xC0 + a), Byte(0x80 + b)]
  {
    FromSixBits(0, 0, a, b);
  }

  lemma Encode3(a: nat, b: nat, c: nat)
    requires a < 16 && b < 64 && c < 64 && 0x7FF < a * 4096 + b * 64 + c
    ensures CodePointToUTF8(a * 4096 + b * 64 + c) == [Byte(0xE0 + a), Byte(0x80 + b), Byte(0x80 + c)]
  {
    FromSixBits(0, a, b, c);
  }

  lemma Encode4(a: nat, b: nat, c: nat, d: nat)
    requires a < 8 && b < 64 && c < 64 && d < 64 && 0xFFFF < a * 262144 + b * 4096 + c * 64 + d <= 0x10FFFF
    ensures CodePointToUTF8(a * 262144 + b * 4096 + c * 64 + d)
         == [Byte(0xF0 + a), Byte(0x80 + b), Byte(0x80 + c), Byte(0x80 + d)]
  {
    FromSixBits(a, b, c, d);
  }

  lemma Decoded2(s: string)
    requires UnitLength(s) == 2
    ensures Utf8ToCodepoint(s).1 == 2 && 0x80 <= Utf8ToCodepoint(s).0 <= 0x7FF
    ensures CodePointToUTF8(Utf8ToCodepoint(s).0) == s[..2]
  {
    var a, b := s[0] as int - 0xC0, s[1] as int - 0x80;
    assert s[0] as int % 32 == a && s[1] as int % 64 == b;
    Encode2(a, b);
  }

  lemma Decoded3(s: string)
    requires UnitLength(s) == 3
    ensures Utf8ToCodepoint(s).1 == 3 && 0x7FF < Utf8ToCodepoint(s).0 <= 0xFFFF && IsScalar(Utf8ToCodepoint(s).0)
    ensures CodePointToUTF8(Utf8ToCodepoint(s).0) == s[..3]
  {
    var a, b, c := s[0] as int - 0xE0, s[1] as int - 0x80, s[2] as int - 0x80;
    Scalar3(s, a, b, c);
    Encode3(a, b, c);
  }

  /** The special cases of the grammar shut out overlong forms and surrogates. */
  lemma Scalar3(s: string, a: nat, b: nat, c: nat)
    requires UnitLength(s) == 3 && s[0] as int == 0xE0 + a && s[1] as int == 0x80 + b && s[2] as int == 0x80 + c
    ensures a < 16 && b < 64 && c < 64
    ensures var cp := a * 4096 + b * 64 + c;
            0x7FF < cp <= 0xFFFF && IsScalar(cp) && Utf8ToCodepoint(s) == (cp, 3)
  {
    assert s[0] as int % 16 == a && s[1] as int % 64 == b && s[2] as int % 64 == c;
  }

  lemma Decoded4(s: string)
    requires UnitLength(s) == 4
    ensures Utf8ToCodepoint(s).1 == 4 && 0xFFFF < Utf8ToCodepoint(s).0 <= 0x10FFFF
    ensures CodePointToUTF8(Utf8ToCodepoint(s).0) == s[..4]
  {
    var a, b, c, d := s[0] as int - 0xF0, s[1] as int - 0x80, s[2] as int - 0x80, s[3] as int - 0x80;
    Scalar4(s, a, b, c, d);
    Encode4(a, b, c, d);
  }

  /** And code points above 10FFFF. */
  lemma Scalar4(s: string, a: nat, b: nat, c: nat, d: nat)
    requires UnitLength(s) == 4 && s[0] as int == 0xF0 + a && s[1] as int == 0x80 + b
    requires s[2] as int == 0x80 + c && s[3] as int == 0x80 + d
    ensures a < 8 && b < 64 && c < 64 && d < 64
    ensures var cp := a * 262144 + b * 4096 + c * 64 + d;
            0xFFFF < cp <= 0x10FFFF && Utf8ToCodepoint(s) == (cp, 4)
  {
    assert s[0] as int % 8 == a && s[1] as int % 64 == b && s[2] as int % 64 == c && s[3] as int % 64 == d;
  }

  /**
   * A well-formed character is at the front exactly if what the decoder makes of the front encodes to a prefix
   * of the string; a code point above 10FFFF encodes to nothing and is told apart by its first byte.
   */
  lemma FrontWellFormed(s: string)
    requires s != "" && IsBytes(s)
    ensures var (cp, n) := Utf8ToCodepoint(s);
            UnitLength(s) > 0 <==> cp <= 0x10FFFF && CodePointToUTF8(cp) <= s
  {
    var (cp, n) := Utf8ToCodepoint(s);
    if UnitLength(s) > 0 {
      DecodedEncodes(s);
    } else if cp <= 0x10FFFF && CodePointToUTF8(cp) <= s {
      var e := CodePointToUTF8(cp);
      assert s == e + s[|e|..];
      EncodedDecodes(cp, s[|e|..]);
    }
  }
}
