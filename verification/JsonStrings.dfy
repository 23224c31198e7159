// JSON strings as jsoncpp quotes, scans and decodes them.
module JsonStrings {
  import opened Utf8

  datatype Option<T> = None | Some(value: T)

  // ----- writing -----

  function HexDigit(d: nat): char
    requires d < 16
  {
    if d < 10 then ('0' as int + d) as char else ('a' as int + d - 10) as char
  }

  /** toHex16Bit */
  function Hex16(x: nat): (s: string)
    requires x < 0x10000
    ensures |s| == 4
  {
    [HexDigit(x / 4096), HexDigit(x / 256 % 16), HexDigit(x / 16 % 16), HexDigit(x % 16)]
  }

  /** Code points from 10000 up go as a surrogate pair. */
  function EscapeCodepoint(cp: nat): string
    requires cp < 0x200000
  {
    if 0x20 <= cp <= 0x7F then [Byte(cp)]
    else if cp < 0x10000 then "\\u" + Hex16(cp)
    else "\\u" + Hex16((cp - 0x10000) / 1024 + 0xD800) + "\\u" + Hex16((cp - 0x10000) % 1024 + 0xDC00)
  }

  function ShortEscape(c: char): string {
    if c == '"' then "\\\""
    else if c == '\\' then "\\\\"
    else if c as int == 8 then "\\b"
    else if c as int == 12 then "\\f"
    else if c == '\n' then "\\n"
    else if c == '\r' then "\\r"
    else if c == '\t' then "\\t"
    else ""
  }

  /** What one round of the quoting loop writes. */
  function Chunk(s: string): string
    requires s != "" && IsBytes(s)
  {
    if ShortEscape(s[0]) != "" then ShortEscape(s[0]) else EscapeCodepoint(Utf8ToCodepoint(s).0)
  }

  function Escaped(s: string): string
    requires IsBytes(s)
  {
    if s == "" then "" else Chunk(s) + Escaped(s[Utf8ToCodepoint(s).1..])
  }

  function Quoted(s: string): string
    requires IsBytes(s)
  {
    "\"" + Escaped(s) + "\""
  }

  /** isAnyCharRequiredQuoting, of one character. */
  predicate NeedsQuoting(c: char) {
    c == '\\' || c == '"' || c < ' ' || 0x80 <= c as int
  }

  lemma {:induction false} PlainEscaped(s: string)
    requires IsBytes(s) && forall i | 0 <= i < |s| :: !NeedsQuoting(s[i])
    ensures Escaped(s) == s
  {
    if s != "" {
      PlainEscaped(s[1..]);
      assert Chunk(s) == [s[0]];
    }
  }

  method IsAnyCharRequiredQuoting(value: string) returns (r: bool)
    ensures r <==> exists k | 0 <= k < |value| :: NeedsQuoting(value[k])
  {
    for i := 0 to |value|
      invariant forall k | 0 <= k < i :: !NeedsQuoting(value[k])
    {
      if NeedsQuoting(value[i]) { return true; }
    }
    return false;
  }

  /** valueToQuotedStringN: strings with nothing to quote are copied, the others escaped one by one. */
  method ValueToQuotedString(value: string) returns (result: string)
    requires IsBytes(value)
    ensures result == Quoted(value)
  {
    var quote := IsAnyCharRequiredQuoting(value);
    if !quote {
      PlainEscaped(value);
      return "\"" + value + "\"";
    }
    result := QuotingLoop(value);
  }

  method QuotingLoop(value: string) returns (result: string)
    requires IsBytes(value)
    ensures result == Quoted(value)
  {
    result := "\"";
    var rest := value;
    while rest != ""
      invariant IsBytes(rest)
      invariant result + Escaped(rest) == "\"" + Escaped(value)
      decreases |rest|
    {
      var chunk, used := Chunk(rest), Utf8ToCodepoint(rest).1;
      assert result + Escaped(rest) == result + chunk + Escaped(rest[used..]);
      result := result + chunk;
      rest := rest[used..];
    }
    result := result + "\"";
  }

  // ----- scanning -----

  /** readString, after the opening quote: how far the token reaches, the closing quote included; -1 if there is none. */
  function StringEnd(t: string): (n: int)
    ensures -1 <= n <= |t| && n != 0
  {
    if t == "" then -1
    else if t[0] == '\\' then
      if |t| < 2 then -1 else (var n := StringEnd(t[2..]); if n < 0 then -1 else n + 2)
    else if t[0] == '"' then 1
    else (var n := StringEnd(t[1..]); if n < 0 then -1 else n + 1)
  }

  // ----- decoding -----

  function HexValue(c: char): int {
    if '0' <= c <= '9' then c as int - '0' as int
    else if 'a' <= c <= 'f' then c as int - 'a' as int + 10
    else if 'A' <= c <= 'F' then c as int - 'A' as int + 10
    else -1
  }

  /** decodeUnicodeEscapeSequence */
  function DecodeHex(t: string): (r: Option<nat>)
    ensures r.Some? ==> |t| >= 4 && r.value < 0x10000
  {
    if |t| < 4 || exists i | 0 <= i < 4 :: HexValue(t[i]) < 0 then None
    else Some(((HexValue(t[0]) * 16 + HexValue(t[1])) * 16 + HexValue(t[2])) * 16 + HexValue(t[3]))
  }

  /** decodeUnicodeCodePoint: the code point, and how many characters after the u it took. */
  function DecodeCodePoint(t: string): (r: Option<(nat, nat)>)
    ensures r.Some? ==> 0 < r.value.1 <= |t|
  {
    match DecodeHex(t)
    case None => None
    case Some(high) =>
      if !(0xD800 <= high <= 0xDBFF) then Some((high, 4))
      else if |t| < 10 || t[4] != '\\' || t[5] != 'u' then None
      else match DecodeHex(t[6..])
        case None => None
        case Some(low) => Some((0x10000 + high % 1024 * 1024 + low % 1024, 10))
  }

  /** One escape, after the backslash: what it stands for, and its length. */
  function DecodeEscape(t: string): (r: Option<(string, nat)>)
    requires t != ""
    ensures r.Some? ==> 0 < r.value.1 <= |t|
  {
    match t[0]
    case '"' => Some(("\"", 1))
    case '/' => Some(("/", 1))
    case '\\' => Some(("\\", 1))
    case 'b' => Some(([8 as char], 1))
    case 'f' => Some(([12 as char], 1))
    case 'n' => Some(("\n", 1))
    case 'r' => Some(("\r", 1))
    case 't' => Some(("\t", 1))
    case 'u' =>
      (match DecodeCodePoint(t[1..])
       case None => None
       case Some((cp, n)) => Some((CodePointToUTF8(cp), n + 1)))
    case _ => None
  }

  function Prepend(s: string, r: Option<string>): Option<string> {
    if r.None? then None else Some(s + r.value)
  }

  /** decodeString, of what is between the quotes. */
  function Decode(t: string): Option<string> {
    if t == "" || t[0] == '"' then Some("")
    else if t[0] != '\\' then Prepend([t[0]], Decode(t[1..]))
    else if |t| == 1 then None
    else match DecodeEscape(t[1..])
      case None => None
      case Some((s, n)) => Prepend(s, Decode(t[1 + n..]))
  }

  lemma PrependTwice(a: string, b: string, r: Option<string>)
    ensures Prepend(a + b, r) == Prepend(a, Prepend(b, r))
  {
    if r.Some? { assert a + b + r.value == a + (b + r.value); }
  }

  /** The decoding loop of decodeString. */
  method DecodeString(t: string) returns (r: Option<string>)
    ensures r == Decode(t)
  {
    var decoded, current := "", 0;
    assert t[0..] == t;
    assert Decode(t).Some? ==> "" + Decode(t).value == Decode(t).value;
    while current != |t|
      invariant 0 <= current <= |t|
      invariant Prepend(decoded, Decode(t[current..])) == Decode(t)
      decreases |t| - current
    {
      ghost var rest := t[current..];
      var c := t[current];
      current := current + 1;
      assert rest[1..] == t[current..];
      if c == '"' {
        break;
      } else if c == '\\' {
        if current == |t| { return None; }
        var escape := DecodeEscape(t[current..]);
        if escape.None? { return None; }
        var (s, n) := escape.value;
        assert rest[1 + n..] == t[current + n..];
        PrependTwice(decoded, s, Decode(t[current + n..]));
        decoded, current := decoded + s, current + n;
      } else {
        PrependTwice(decoded, [c], Decode(t[current..]));
        decoded := decoded + [c];
      }
    }
    assert decoded + "" == decoded;
    r := Some(decoded);
  }

  // ----- round trip -----

  lemma HexDigitValue(d: nat)
    requires d < 16
    ensures HexValue(HexDigit(d)) == d && HexDigit(d) != '\\' && HexDigit(d) != '"'
  {
  }

  lemma HexDigits(x: nat)
    requires x < 0x10000
    ensures x == ((x / 4096 * 16 + x / 256 % 16) * 16 + x / 16 % 16) * 16 + x % 16
  {
    assert x / 16 == x / 256 * 16 + x / 16 % 16 && x / 256 == x / 4096 * 16 + x / 256 % 16;
  }

  lemma Hex16Decodes(x: nat, t: string)
    requires x < 0x10000
    ensures DecodeHex(Hex16(x) + t) == Some(x)
  {
    var a, b, c, d := x / 4096, x / 256 % 16, x / 16 % 16, x % 16;
    HexDigitValue(a);
    HexDigitValue(b);
    HexDigitValue(c);
    HexDigitValue(d);
    HexDigits(x);
    var s := Hex16(x) + t;
    assert s[0] == HexDigit(a) && s[1] == HexDigit(b) && s[2] == HexDigit(c) && s[3] == HexDigit(d);
  }

  /** How far a token reaches behind `n` more characters. */
  function Further(n: nat, t: string): int {
    if StringEnd(t) < 0 then -1 else StringEnd(t) + n
  }

  lemma {:induction false} RawEnd(raw: string, t: string)
    requires forall i | 0 <= i < |raw| :: raw[i] != '\\' && raw[i] != '"'
    ensures StringEnd(raw + t) == Further(|raw|, t)
  {
    if raw == "" {
      assert raw + t == t;
    } else {
      assert (raw + t)[0] == raw[0] && (raw + t)[1..] == raw[1..] + t;
      RawEnd(raw[1..], t);
    }
  }

  lemma HexEnd(x: nat, t: string)
    requires x < 0x10000
    ensures StringEnd("\\u" + Hex16(x) + t) == Further(6, t)
  {
    var s := "\\u" + Hex16(x) + t;
    HexDigitValue(x / 4096);
    HexDigitValue(x / 256 % 16);
    HexDigitValue(x / 16 % 16);
    HexDigitValue(x % 16);
    RawEnd(Hex16(x), t);
    assert s[2..] == Hex16(x) + t;
  }

  /** What a written code point reads back as; above 10FFFF, as two lone surrogates. */
  function ReadBack(cp: nat): string
    requires cp < 0x200000
  {
    if cp <= 0x10FFFF then CodePointToUTF8(cp)
    else CodePointToUTF8((cp - 0x10000) / 1024 + 0xD800) + CodePointToUTF8((cp - 0x10000) % 1024 + 0xDC00)
  }

  /** One \uXXXX that is not the first half of a pair. */
  lemma LoneEscape(x: nat, t: string)
    requires x < 0x10000 && !(0xD800 <= x <= 0xDBFF)
    ensures Decode("\\u" + Hex16(x) + t) == Prepend(CodePointToUTF8(x), Decode(t))
  {
    var s := "\\u" + Hex16(x) + t;
    Hex16Decodes(x, t);
    assert s[1..] == "u" + Hex16(x) + t && s[1..][1..] == Hex16(x) + t && s[6..] == t;
  }

  lemma PairEscape(x: nat, y: nat, t: string)
    requires 0xD800 <= x <= 0xDBFF && y < 0x10000
    ensures Decode("\\u" + Hex16(x) + ("\\u" + Hex16(y) + t))
         == Prepend(CodePointToUTF8(0x10000 + x % 1024 * 1024 + y % 1024), Decode(t))
  {
    var u := "\\u" + Hex16(y) + t;
    var s := "\\u" + Hex16(x) + u;
    PairCodePoint(x, y, t);
    assert s[1..] == "u" + Hex16(x) + u && s[1..][1..] == Hex16(x) + u && s[12..] == t;
  }

  lemma PairCodePoint(x: nat, y: nat, t: string)
    requires 0xD800 <= x <= 0xDBFF && y < 0x10000
    ensures var r := DecodeCodePoint(Hex16(x) + ("\\u" + Hex16(y) + t));
            r.Some? && r.value.0 == 0x10000 + x % 1024 * 1024 + y % 1024 && r.value.1 == 10
  {
    var u := "\\u" + Hex16(y) + t;
    var s := Hex16(x) + u;
    Hex16Decodes(x, u);
    Hex16Decodes(y, t);
    assert s[4] == u[0] && s[5] == u[1] && s[6..] == Hex16(y) + t;
  }

  /** The two halves of a pair hold ten bits each. */
  lemma Halves(cp: nat, x: nat, y: nat)
    requires 0x10000 <= cp < 0x200000 && x == (cp - 0x10000) / 1024 + 0xD800 && y == (cp - 0x10000) % 1024 + 0xDC00
    ensures cp <= 0x10FFFF ==> x <= 0xDBFF && 0x10000 + x % 1024 * 1024 + y % 1024 == cp
    ensures cp > 0x10FFFF ==> 0xDBFF < x
    ensures 0xDC00 <= y <= 0xDFFF && x <= 0xDFFF
  {
    var h, l := (cp - 0x10000) / 1024, (cp - 0x10000) % 1024;
    assert cp <= 0x10FFFF ==> h < 1024;
    assert y % 1024 == l && (h < 1024 ==> x % 1024 == h);
  }

  lemma PairText(cp: nat, x: nat, y: nat, t: string)
    requires 0x10000 <= cp < 0x200000 && x == (cp - 0x10000) / 1024 + 0xD800 && y == (cp - 0x10000) % 1024 + 0xDC00
    ensures EscapeCodepoint(cp) + t == "\\u" + Hex16(x) + ("\\u" + Hex16(y) + t)
  {
  }

  lemma SurrogatesReadBack(cp: nat, t: string)
    requires 0x10000 <= cp < 0x200000
    ensures Decode(EscapeCodepoint(cp) + t) == Prepend(ReadBack(cp), Decode(t))
  {
    var x, y := (cp - 0x10000) / 1024 + 0xD800, (cp - 0x10000) % 1024 + 0xDC00;
    PairText(cp, x, y, t);
    Halves(cp, x, y);
    if cp <= 0x10FFFF {
      PairEscape(x, y, t);
    } else {
      TwoLone(x, y, t);
    }
  }

  lemma TwoLone(x: nat, y: nat, t: string)
    requires 0xDBFF < x < 0x10000 && 0xDBFF < y < 0x10000
    ensures Decode("\\u" + Hex16(x) + ("\\u" + Hex16(y) + t)) == Prepend(CodePointToUTF8(x) + CodePointToUTF8(y), Decode(t))
  {
    LoneEscape(x, "\\u" + Hex16(y) + t);
    LoneEscape(y, t);
    PrependTwice(CodePointToUTF8(x), CodePointToUTF8(y), Decode(t));
  }

  lemma EscapeEnd(cp: nat, t: string)
    requires cp < 0x200000 && cp != 34 && cp != 92
    ensures StringEnd(EscapeCodepoint(cp) + t) == Further(|EscapeCodepoint(cp)|, t)
  {
    if 0x20 <= cp <= 0x7F {
      RawEnd([Byte(cp)], t);
    } else if cp < 0x10000 {
      HexEnd(cp, t);
    } else {
      var x, y := (cp - 0x10000) / 1024 + 0xD800, (cp - 0x10000) % 1024 + 0xDC00;
      var u := "\\u" + Hex16(y) + t;
      assert EscapeCodepoint(cp) + t == "\\u" + Hex16(x) + u;
      HexEnd(x, u);
      HexEnd(y, t);
    }
  }

  /** What the loop writes for one code point, read back. */
  lemma EscapeReadsBack(cp: nat, t: string)
    requires cp < 0x200000 && !(0xD800 <= cp <= 0xDFFF) && cp != 34 && cp != 92
    ensures Decode(EscapeCodepoint(cp) + t) == Prepend(ReadBack(cp), Decode(t))
  {
    if 0x20 <= cp <= 0x7F {
      var s := [Byte(cp)] + t;
      assert s[0] == Byte(cp) && s[1..] == t;
    } else if cp < 0x10000 {
      LoneEscape(cp, t);
    } else {
      SurrogatesReadBack(cp, t);
    }
  }

  lemma ShortReadsBack(c: char, t: string)
    requires ShortEscape(c) != ""
    ensures Decode(ShortEscape(c) + t) == Prepend([c], Decode(t))
    ensures StringEnd(ShortEscape(c) + t) == Further(2, t) && |ShortEscape(c)| == 2
  {
    var s := ShortEscape(c) + t;
    assert s[2..] == t;
    ShortDecodes(c, t);
    assert s[1..] == [ShortEscape(c)[1]] + t;
  }

  lemma ShortDecodes(c: char, t: string)
    requires ShortEscape(c) != ""
    ensures |ShortEscape(c)| == 2 && ShortEscape(c)[0] == '\\'
    ensures DecodeEscape([ShortEscape(c)[1]] + t) == Some(([c], 1))
  {
    assert c as int == 8 ==> [c] == [8 as char];
    assert c as int == 12 ==> [c] == [12 as char];
  }

  lemma CodepointRange(s: string)
    requires s != "" && IsBytes(s)
    ensures Utf8ToCodepoint(s).0 < 0x200000 && !(0xD800 <= Utf8ToCodepoint(s).0 <= 0xDFFF)
    ensures Utf8ToCodepoint(s).0 < 0x80 ==> Utf8ToCodepoint(s) == (s[0] as int, 1)
  {
  }

  lemma ChunkReadsBack(s: string, t: string)
    requires s != "" && IsBytes(s)
    ensures Utf8ToCodepoint(s).0 < 0x200000
    ensures Decode(Chunk(s) + t) == Prepend(ReadBack(Utf8ToCodepoint(s).0), Decode(t))
    ensures StringEnd(Chunk(s) + t) == Further(|Chunk(s)|, t)
  {
    CodepointRange(s);
    if ShortEscape(s[0]) != "" {
      ShortReadsBack(s[0], t);
      ShortIsItself(s);
    } else {
      OtherReadsBack(s, t);
    }
  }

  lemma ShortIsItself(s: string)
    requires s != "" && IsBytes(s) && ShortEscape(s[0]) != ""
    ensures Utf8ToCodepoint(s).0 < 0x200000 && ReadBack(Utf8ToCodepoint(s).0) == [s[0]] && Chunk(s) == ShortEscape(s[0])
  {
  }

  lemma OtherReadsBack(s: string, t: string)
    requires s != "" && IsBytes(s) && ShortEscape(s[0]) == ""
    ensures var cp := Utf8ToCodepoint(s).0;
            && cp < 0x200000 && Chunk(s) == EscapeCodepoint(cp)
            && Decode(EscapeCodepoint(cp) + t) == Prepend(ReadBack(cp), Decode(t))
            && StringEnd(EscapeCodepoint(cp) + t) == Further(|EscapeCodepoint(cp)|, t)
  {
    CodepointRange(s);
    var cp := Utf8ToCodepoint(s).0;
    EscapeReadsBack(cp, t);
    EscapeEnd(cp, t);
  }

  /** What any byte string reads back as. */
  function AllReadBack(s: string): string
    requires IsBytes(s)
  {
    if s == "" then "" else
      CodepointRange(s);
      ReadBack(Utf8ToCodepoint(s).0) + AllReadBack(s[Utf8ToCodepoint(s).1..])
  }

  lemma Regroup(a: string, b: string, rest: string)
    ensures a + b + "\"" + rest == a + (b + "\"" + rest)
  {
  }

  /** The token scanned for a quoted string ends at its closing quote, whatever follows. */
  lemma {:induction false} ScansBack(s: string, rest: string)
    requires IsBytes(s)
    ensures StringEnd(Escaped(s) + "\"" + rest) == |Escaped(s)| + 1
  {
    if s == "" {
      assert Escaped(s) + "\"" + rest == "\"" + rest;
    } else {
      var others := Escaped(s[Utf8ToCodepoint(s).1..]);
      ScansBack(s[Utf8ToCodepoint(s).1..], rest);
      ChunkReadsBack(s, others + "\"" + rest);
      Regroup(Chunk(s), others, rest);
    }
  }

  lemma {:induction false} DecodesBack(s: string)
    requires IsBytes(s)
    ensures Decode(Escaped(s)) == Some(AllReadBack(s))
  {
    if s != "" {
      DecodesBack(s[Utf8ToCodepoint(s).1..]);
      ChunkReadsBack(s, Escaped(s[Utf8ToCodepoint(s).1..]));
    }
  }

  /** A front that reads back as it is is a well-formed character. */
  lemma FrontReadsBack(s: string)
    requires s != "" && IsBytes(s)
    ensures Utf8ToCodepoint(s).0 < 0x200000
    ensures ReadBack(Utf8ToCodepoint(s).0) <= s <==> UnitLength(s) > 0
    ensures UnitLength(s) > 0 ==> ReadBack(Utf8ToCodepoint(s).0) == s[..UnitLength(s)] && Utf8ToCodepoint(s).1 == UnitLength(s)
  {
    CodepointRange(s);
    FrontWellFormed(s);
    var cp := Utf8ToCodepoint(s).0;
    if UnitLength(s) > 0 {
      DecodedEncodes(s);
    } else if cp > 0x10FFFF {
      assert ReadBack(cp)[0] as int == 0xED;
    }
  }

  /** The front reads back as it is and so does the rest, or not even the front does. */
  lemma SplitFront(s: string)
    requires s != "" && IsBytes(s)
    ensures var (cp, n) := Utf8ToCodepoint(s);
            && (UnitLength(s) > 0 ==> (AllReadBack(s) == s <==> AllReadBack(s[n..]) == s[n..]) && n == UnitLength(s))
            && (UnitLength(s) == 0 ==> AllReadBack(s) != s)
  {
    FrontReadsBack(s);
    var (cp, n) := Utf8ToCodepoint(s);
    var a, b := ReadBack(cp), AllReadBack(s[n..]);
    assert AllReadBack(s) == a + b;
    if UnitLength(s) > 0 {
      SameFront(s, n, b);
    } else {
      assert a <= a + b;
    }
  }

  lemma SameFront(s: string, n: nat, b: string)
    requires n <= |s|
    ensures s[..n] + b == s <==> b == s[n..]
  {
    if s[..n] + b == s {
      assert (s[..n] + b)[n..] == b;
    }
  }

  lemma {:induction false} ReadsBackIff(s: string)
    requires IsBytes(s)
    ensures AllReadBack(s) == s <==> WellFormed(s)
  {
    if s != "" {
      SplitFront(s);
      ReadsBackIff(s[Utf8ToCodepoint(s).1..]);
    }
  }

  /**
   * Quoting, scanning and decoding give back exactly the original bytes if and only if the string is
   * well-formed UTF-8: through short escapes, control characters, \u escapes and surrogate pairs.
   */
  lemma QuotedRoundTrip(s: string, rest: string)
    requires IsBytes(s)
    ensures (Quoted(s) + rest)[0] == '"'
    ensures var t := (Quoted(s) + rest)[1..];
            && StringEnd(t) == |Quoted(s)| - 1
            && (Decode(t[..StringEnd(t) - 1]) == Some(s) <==> WellFormed(s))
  {
    var t := (Quoted(s) + rest)[1..];
    assert t == Escaped(s) + "\"" + rest;
    ScansBack(s, rest);
    assert t[..|Escaped(s)|] == Escaped(s);
    DecodesBack(s);
    ReadsBackIff(s);
  }
}
