// Conversions between the scheduler's float rates and its int rates.
module Rounding {

  /** C++ conversion of a floating-point value to int: truncation toward zero. */
  function Trunc(x: real): (r: int)
    ensures 0.0 <= x ==> 0 <= r && r as real <= x < r as real + 1.0
    ensures x < 0.0 ==> r <= 0 && r as real - 1.0 < x <= r as real
  {
    if 0.0 <= x then x.Floor else -((-x).Floor)
  }

  /** Taking a throughput off an int rate loses less than one request per second. */
  lemma TruncSubtract(rate: int, throughput: real)
    requires 0.0 <= throughput
    ensures throughput > (rate - Trunc(rate as real - throughput) - 1) as real
  {
  }

  /** batch / (batch / rate) is the rate again. */
  lemma RateOfDuty(batch: int, rate: int)
    requires 1 <= batch && 1 <= rate
    ensures 0.0 < batch as real * 1000.0 / rate as real
    ensures batch as real * 1000.0 / (batch as real * 1000.0 / rate as real) == rate as real
  {
    var x := batch as real * 1000.0;
    var y := rate as real;
    assert x / y * y == x;
    PositiveQuotient(x, y);
    assert x / (x / y) * (x / y) == x;
    var q := x / (x / y);
    assert q * (x / y) == y * (x / y);
    CancelFactor(q, y, x / y);
  }

  lemma CancelFactor(a: real, b: real, c: real)
    requires c != 0.0 && a * c == b * c
    ensures a == b
  {
    assert (a - b) * c == 0.0;
  }

  lemma PositiveFactor(a: real, b: real)
    requires 0.0 < b && 0.0 < a * b
    ensures 0.0 < a
  {
  }

  lemma PositiveQuotient(a: real, b: real)
    requires 0.0 < a && 0.0 < b
    ensures 0.0 < a / b
  {
  }

  lemma QuotientAtMost(a: real, b: real, c: real)
    requires 0.0 < b && a <= c * b
    ensures a / b <= c
  {
    var q := a / b;
    assert q * b == a;
    assert (q - c) * b <= 0.0;
  }

  lemma ProductAtMost(a: real, b: real, c: real)
    requires 0.0 < b && a / b <= c
    ensures a <= c * b
  {
    var q := a / b;
    assert q * b == a;
    assert (c - q) * b >= 0.0;
  }

  lemma SelfQuotient(a: real)
    requires a != 0.0
    ensures a / a == 1.0
  {
  }
}
