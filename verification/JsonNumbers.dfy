// JSON numbers as jsoncpp prints and reads them: integers exactly over the 64-bit ranges, doubles by the text that
// the C library shows them as.
module JsonNumbers {

  const MAX_INT: int := 0x7fff_ffff_ffff_ffff
  const MIN_INT: int := -0x8000_0000_0000_0000
  const MAX_UINT: int := 0xffff_ffff_ffff_ffff

  function Digit(d: nat): char
    requires d < 10
  {
    ('0' as int + d) as char
  }

  predicate IsDigit(c: char) {
    '0' <= c <= '9'
  }

  function Decimal(n: nat): string {
    (if n < 10 then "" else Decimal(n / 10)) + [Digit(n % 10)]
  }

  function IntText(n: int): string {
    if n < 0 then "-" + Decimal(-n) else Decimal(n)
  }

  /** uintToString: digits from the last to the first. */
  method UintToString(value: nat) returns (text: string)
    ensures text == Decimal(value)
  {
    var v := value;
    text := [Digit(v % 10)];
    v := v / 10;
    while v != 0
      invariant v == 0 ==> text == Decimal(value)
      invariant v != 0 ==> Decimal(v) + text == Decimal(value)
    {
      OneDigit(v, text);
      text := [Digit(v % 10)] + text;
      v := v / 10;
    }
  }

  lemma OneDigit(v: nat, text: string)
    ensures v < 10 ==> Decimal(v) + text == [Digit(v % 10)] + text
    ensures v >= 10 ==> Decimal(v) + text == Decimal(v / 10) + ([Digit(v % 10)] + text)
  {
  }

  /** valueToString of a signed integer; the least one has no positive counterpart. */
  method ValueToString(value: int) returns (text: string)
    requires MIN_INT <= value <= MAX_INT
    ensures text == IntText(value)
  {
    if value == MIN_INT {
      text := UintToString(MAX_INT + 1);
      text := "-" + text;
    } else if value < 0 {
      text := UintToString(-value);
      text := "-" + text;
    } else {
      text := UintToString(value);
    }
  }

  predicate AllDigits(s: string) {
    forall i | 0 <= i < |s| :: IsDigit(s[i])
  }

  // ----- doubles -----

  /** A double as the C library shows it with 17 significant digits, which tell it from every other. */
  datatype Shown =
    | NotANumber
    | Infinite(negative: bool)
    | Finite(negative: bool, digits: string, fraction: string, exponent: string)

  predicate IsShown(x: Shown) {
    x.Finite? ==> x.digits != "" && AllDigits(x.digits) && AllDigits(x.fraction) && IsExponent(x.exponent)
  }

  predicate IsExponent(s: string) {
    s == "" || (|s| > 1 && (s[0] == '+' || s[0] == '-') && AllDigits(s[1..]))
  }

  type Float = x: Shown | IsShown(x) witness NotANumber

  /** The decimal point of a locale: a point or a comma. */
  type Point = c: char | c == '.' || c == ',' witness '.'

  function Sign(negative: bool): string {
    if negative then "-" else ""
  }

  function After(mark: char, s: string): string {
    if s == "" then "" else [mark] + s
  }

  /** What snprintf prints for a finite double. */
  function Printed(x: Float, point: Point): string
    requires x.Finite?
  {
    Sign(x.negative) + x.digits + After(point, x.fraction) + After('e', x.exponent)
  }

  /** The text written for a double: what is not finite has no number in JSON, and the rest shows that it is real. */
  function RealText(x: Float): string {
    match x
    case NotANumber => "null"
    case Infinite(negative) => Sign(negative) + "1e+9999"
    case Finite(negative, digits, fraction, exponent) =>
      Sign(negative) + digits + After('.', if exponent == "" && fraction == "" then "0" else fraction) + After('e', exponent)
  }

  /** valueToString of a double: the decimal comma of the locale becomes a point. */
  method RealToString(x: Float, point: Point) returns (text: string)
    ensures text == RealText(x)
  {
    if !x.Finite? {
      return if x.NotANumber? then "null" else if x.negative then "-1e+9999" else "1e+9999";
    }
    text := Printed(x, point);
    for i := 0 to |text|
      invariant |text| == |Printed(x, point)|
      invariant forall k | 0 <= k < |text| ::
        text[k] == if k < i && Printed(x, point)[k] == ',' then '.' else Printed(x, point)[k]
    {
      if text[i] == ',' { text := text[i := '.']; }
    }
    CommasToPoints(x, point);
    assert text == Printed(x, '.');
    Marked(x);
    if '.' !in text && 'e' !in text { text := text + ".0"; }
  }

  lemma CommasToPoints(x: Float, point: Point)
    requires x.Finite?
    ensures |Printed(x, point)| == |Printed(x, '.')|
    ensures forall k | 0 <= k < |Printed(x, '.')| ::
              Printed(x, '.')[k] == if Printed(x, point)[k] == ',' then '.' else Printed(x, point)[k]
  {
    NoComma(Sign(x.negative) + x.digits, After('e', x.exponent), point, x.fraction);
  }

  lemma NoComma(front: string, back: string, point: Point, fraction: string)
    requires ',' !in front && ',' !in back && AllDigits(fraction)
    ensures var s, t := front + After(point, fraction) + back, front + After('.', fraction) + back;
            |s| == |t| && forall k | 0 <= k < |t| :: t[k] == if s[k] == ',' then '.' else s[k]
  {
  }

  /** A mark is printed exactly if there is a fraction or an exponent. */
  lemma Marked(x: Float)
    requires x.Finite?
    ensures '.' in Printed(x, '.') || 'e' in Printed(x, '.') <==> x.fraction != "" || x.exponent != ""
    ensures x.fraction == "" && x.exponent == "" ==> Printed(x, '.') + ".0" == RealText(x)
    ensures x.fraction != "" || x.exponent != "" ==> Printed(x, '.') == RealText(x)
  {
    var front := Sign(x.negative) + x.digits;
    if x.fraction != "" {
      assert Printed(x, '.')[|front|] == '.';
    } else if x.exponent != "" {
      assert Printed(x, '.')[|front|] == 'e';
    }
  }

  // ----- reading -----

  function Magnitude(s: string): nat
    requires AllDigits(s)
  {
    if s == "" then 0 else Magnitude(s[..|s|-1]) * 10 + (s[|s|-1] as int - '0' as int)
  }

  /** A number token read as an integer, signed if it fits, or left to be read as a double. */
  datatype Number = Int(n: int) | UInt(n: int) | Double

  /** The integer a token denotes, if it denotes one of the 64-bit ranges. */
  function Denoted(token: string): Number {
    var negative := token != "" && token[0] == '-';
    var digits := if negative then token[1..] else token;
    if !AllDigits(digits) then Double
    else
      var m: int := Magnitude(digits);
      if negative then (if m <= -MIN_INT then Int(-m) else Double)
      else if m <= MAX_INT then Int(m)
      else if m <= MAX_UINT then UInt(m)
      else Double
  }

  lemma {:induction false} MagnitudeGrows(s: string, k: nat)
    requires AllDigits(s) && k <= |s|
    ensures Magnitude(s[..k]) <= Magnitude(s)
    ensures k < |s| ==> Magnitude(s[..k]) * 10 <= Magnitude(s)
  {
    if k < |s| {
      var n := |s| - 1;
      MagnitudeGrows(s[..n], k);
      assert s[..n][..k] == s[..k];
      if k == n {
        assert s[..n][..k] == s[..n];
      }
    } else {
      assert s[..k] == s;
    }
  }

  /**
   * decodeNumber: the accumulator never overflows an unsigned 64-bit integer, the threshold test sends exactly
   * the tokens out of range to the double reader, and the least integer comes out without overflow.
   */
  method DecodeNumber(token: string) returns (r: Number)
    requires token != ""
    ensures r == Denoted(token)
  {
    var negative := token[0] == '-';
    var start := if negative then 1 else 0;
    ghost var digits := token[start..];
    var threshold := if negative then 922337203685477580 else MAX_UINT / 10;
    var lastDigit := if negative then 8 else MAX_UINT % 10;
    ghost var limit := if negative then -MIN_INT else MAX_UINT;
    var value, current := 0, start;
    while current < |token|
      invariant start <= current <= |token|
      invariant AllDigits(digits[..current - start]) && value == Magnitude(digits[..current - start])
      invariant 0 <= value <= limit
    {
      ghost var k := current - start;
      var c := token[current];
      assert c == digits[k];
      current := current + 1;
      if !IsDigit(c) { return Double; }
      var digit := c as int - '0' as int;
      assert digits[..k + 1][..k] == digits[..k];
      assert Magnitude(digits[..k + 1]) == value * 10 + digit;
      if value >= threshold {
        if value > threshold || current != |token| || digit > lastDigit {
          TooLarge(digits, k, limit);
          return Double;
        }
      }
      value := value * 10 + digit;
    }
    assert digits[..current - start] == digits;
    if negative {
      var last := value % 10;
      assert MIN_INT <= -(value / 10) * 10 - last <= 0;
      r := Int(-(value / 10) * 10 - last);
    } else if value <= MAX_INT {
      r := Int(value);
    } else {
      r := UInt(value);
    }
  }

  /** Where the threshold test gives up, the whole number is out of range, if it is a number at all. */
  lemma TooLarge(digits: string, k: nat, limit: int)
    requires k < |digits| && AllDigits(digits[..k + 1]) && AllDigits(digits[..k]) && 10 <= limit
    requires limit / 10 <= Magnitude(digits[..k])
    requires limit / 10 < Magnitude(digits[..k]) || k + 1 != |digits| || digits[k] as int - '0' as int > limit % 10
    ensures AllDigits(digits) ==> Magnitude(digits) > limit
  {
    if AllDigits(digits) {
      MagnitudeGrows(digits, k);
      assert digits[..k + 1][..k] == digits[..k];
      assert Magnitude(digits[..k + 1]) == Magnitude(digits[..k]) * 10 + (digits[k] as int - '0' as int);
      MagnitudeGrows(digits, k + 1);
      if k + 1 == |digits| { assert digits[..k + 1] == digits; }
    }
  }

  // ----- round trip -----

  lemma {:induction false} DecimalDenotes(n: nat)
    ensures Decimal(n) != "" && AllDigits(Decimal(n)) && Magnitude(Decimal(n)) == n
  {
    if n >= 10 {
      DecimalDenotes(n / 10);
      assert Decimal(n)[..|Decimal(n)|-1] == Decimal(n / 10);
    }
  }

  /** Every 64-bit integer reads back as itself: signed as signed, and as unsigned from 2^63 on. */
  lemma IntegerRoundTrip(n: int)
    requires MIN_INT <= n <= MAX_UINT
    ensures Denoted(IntText(n)) == if n <= MAX_INT then Int(n) else UInt(n)
  {
    if n < 0 {
      DecimalDenotes(-n);
      var d := Decimal(-n);
      SignedDenotes(d);
    } else {
      DecimalDenotes(n);
      var d := Decimal(n);
      assert IsDigit(d[0]);
    }
  }

  lemma SignedDenotes(d: string)
    requires AllDigits(d)
    ensures Denoted("-" + d) == if Magnitude(d) <= -MIN_INT then Int(0 - Magnitude(d)) else Double
  {
    assert ("-" + d)[1..] == d;
  }

  // ----- scanning -----

  function Digits(t: string): (n: nat)
    ensures n <= |t|
  {
    if t == "" || !IsDigit(t[0]) then 0 else Digits(t[1..]) + 1
  }

  function Fraction(t: string): (n: nat)
    ensures n <= |t|
  {
    if t != "" && t[0] == '.' then 1 + Digits(t[1..]) else 0
  }

  function Exponent(t: string): (n: nat)
    ensures n <= |t|
  {
    if t == "" || !(t[0] == 'e' || t[0] == 'E') then 0
    else
      var k := if |t| > 1 && (t[1] == '+' || t[1] == '-') then 2 else 1;
      k + Digits(t[k..])
  }

  /** readNumber, after the first character: digits, a fraction, an exponent. */
  function NumberEnd(t: string): (n: nat)
    ensures n <= |t|
  {
    var n := Digits(t);
    var m := n + Fraction(t[n..]);
    m + Exponent(t[m..])
  }

  /** What follows does not go on with a number. */
  predicate Stops(rest: string) {
    rest == "" || !(IsDigit(rest[0]) || rest[0] == '.' || rest[0] == 'e' || rest[0] == 'E')
  }

  lemma {:induction false} DigitsOf(s: string, rest: string)
    requires AllDigits(s) && (rest == "" || !IsDigit(rest[0]))
    ensures Digits(s + rest) == |s|
  {
    if s == "" {
      assert s + rest == rest;
    } else {
      assert (s + rest)[1..] == s[1..] + rest;
      DigitsOf(s[1..], rest);
    }
  }

  /** `s` starts as a number does, and the token scanned for it is all of it and no more, before `rest`. */
  ghost predicate ScansBack(s: string, rest: string) {
    && s != "" && (s[0] == '-' || IsDigit(s[0]))
    && (s[0] == '-' ==> |s| > 1 && IsDigit(s[1]))
    && NumberEnd((s + rest)[1..]) == |s| - 1
  }

  lemma IntegerScansBack(n: int, rest: string)
    requires Stops(rest)
    ensures ScansBack(IntText(n), rest)
  {
    var d := Decimal(if n < 0 then -n else n);
    DecimalDenotes(if n < 0 then -n else n);
    assert IsDigit(d[0]);
    assert After('.', "") + After('e', "") == "";
    PartsScanBack(n < 0, d, "", "", rest);
    assert IntText(n) == Parts(n < 0, d, "", "");
  }

  function Parts(negative: bool, digits: string, fraction: string, exponent: string): string {
    Sign(negative) + digits + After('.', fraction) + After('e', exponent)
  }

  lemma PartsScanBack(negative: bool, digits: string, fraction: string, exponent: string, rest: string)
    requires digits != "" && AllDigits(digits) && AllDigits(fraction) && IsExponent(exponent) && Stops(rest)
    ensures ScansBack(Parts(negative, digits, fraction, exponent), rest)
  {
    var d := if negative then digits else digits[1..];
    Join(negative, digits, After('.', fraction), After('e', exponent), rest);
    NumberOf(d, fraction, After('e', exponent) + rest);
    ExponentOf(exponent, rest);
  }

  lemma Join(negative: bool, digits: string, a: string, b: string, rest: string)
    requires digits != ""
    ensures (Sign(negative) + digits + a + b + rest)[1..] == (if negative then digits else digits[1..]) + (a + (b + rest))
  {
    var d := if negative then digits else digits[1..];
    var first := if negative then '-' else digits[0];
    assert Sign(negative) + digits == [first] + d;
    assert [first] + d + a + b + rest == [first] + (d + (a + (b + rest)));
  }

  lemma NumberOf(d: string, fraction: string, last: string)
    requires AllDigits(d) && AllDigits(fraction)
    requires last == "" || !(IsDigit(last[0]) || last[0] == '.')
    ensures NumberEnd(d + (After('.', fraction) + last)) == |d| + |After('.', fraction)| + Exponent(last)
  {
    var a := After('.', fraction);
    DigitsOf(d, a + last);
    FractionOf(fraction, last);
    Drops(d, a, last);
  }

  lemma Drops(d: string, a: string, last: string)
    ensures (d + (a + last))[|d|..] == a + last
    ensures (d + (a + last))[|d| + |a|..] == last
  {
  }

  lemma FractionOf(fraction: string, last: string)
    requires AllDigits(fraction) && (last == "" || !(IsDigit(last[0]) || last[0] == '.'))
    ensures Fraction(After('.', fraction) + last) == |After('.', fraction)|
  {
    if fraction == "" {
      assert After('.', fraction) + last == last;
    } else {
      assert (After('.', fraction) + last)[1..] == fraction + last;
      DigitsOf(fraction, last);
    }
  }

  lemma ExponentOf(exponent: string, rest: string)
    requires IsExponent(exponent) && Stops(rest)
    ensures Exponent(After('e', exponent) + rest) == |After('e', exponent)|
  {
    var t := After('e', exponent) + rest;
    if exponent == "" {
      assert t == rest;
    } else {
      assert t[2..] == exponent[1..] + rest;
      DigitsOf(exponent[1..], rest);
    }
  }

  /** The text of a finite double is scanned as one token, and that token is never read as an integer. */
  lemma RealScansBack(x: Float, rest: string)
    requires x.Finite? && Stops(rest)
    ensures ScansBack(RealText(x), rest)
    ensures Denoted(RealText(x)) == Double
  {
    var fraction := if x.exponent == "" && x.fraction == "" then "0" else x.fraction;
    PartsScanBack(x.negative, x.digits, fraction, x.exponent, rest);
    var s := RealText(x);
    assert s == Parts(x.negative, x.digits, fraction, x.exponent);
    var k := |Sign(x.negative) + x.digits|;
    assert s[k] == '.' || s[k] == 'e';
    if x.negative {
      assert s[1..][k - 1] == s[k];
    } else {
      assert s[0] == x.digits[0];
    }
  }

  lemma InfinityScansBack(x: Float, rest: string)
    requires x.Infinite? && Stops(rest)
    ensures ScansBack(RealText(x), rest) && Denoted(RealText(x)) == Double
  {
    InfinityIsParts(x.negative);
    PartsScanBack(x.negative, "1", "", "+9999", rest);
    InfinityIsDouble(x.negative);
  }

  lemma InfinityIsParts(negative: bool)
    ensures RealText(Infinite(negative)) == Parts(negative, "1", "", "+9999")
    ensures AllDigits("1") && IsExponent("+9999")
  {
    assert AllDigits("+9999"[1..]);
  }

  /** There is an 'e' among the digits. */
  lemma InfinityIsDouble(negative: bool)
    ensures Denoted(RealText(Infinite(negative))) == Double
  {
    var s := RealText(Infinite(negative));
    assert s == Sign(negative) + "1e+9999";
    if negative {
      assert s[1..][1] == 'e';
    } else {
      assert s[1] == 'e';
    }
  }

  /** A minus sign alone is read as 0; any other token without a digit, a plus sign alone among them, is not an integer. */
  lemma SignAlone(token: string)
    requires token != "" && forall i | 0 <= i < |token| :: !IsDigit(token[i])
    ensures Denoted(token) == if token == "-" then Int(0) else Double
  {
    if token[0] == '-' && |token| > 1 {
      assert token[1..][0] == token[1];
    } else if token[0] == '-' {
      assert token == "-" && token[1..] == "";
    }
  }
}
