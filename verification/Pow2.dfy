// Powers of two, and remainders by them.
module Pow2 {

  function Pow(k: nat): (r: nat)
    ensures 1 <= r
  {
    if k == 0 then 1 else 2 * Pow(k - 1)
  }

  ghost predicate IsPow(n: nat) {
    exists k :: n == Pow(k)
  }

  lemma {:induction false} PowAdd(a: nat, b: nat)
    ensures Pow(a + b) == Pow(a) * Pow(b)
  {
    if a > 0 {
      PowAdd(a - 1, b);
      assert Pow(a) * Pow(b) == 2 * (Pow(a - 1) * Pow(b));
    }
  }

  lemma {:induction false} Grows(a: nat, b: nat)
    requires b < a
    ensures Pow(b) < Pow(a)
  {
    if b < a - 1 { Grows(a - 1, b); }
  }

  /** A power of two divides every power of two that is not smaller. */
  lemma Divides(a: nat, b: nat)
    requires Pow(a) <= Pow(b)
    ensures a <= b && Pow(b) == Pow(a) * Pow(b - a)
  {
    if a > b {
      Grows(a, b);
    } else {
      PowAdd(a, b - a);
    }
  }

  lemma {:induction false} Word()
    ensures Pow(59) == 0x800_0000_0000_0000
  {
    assert Pow(10) == 1024;
    PowAdd(10, 10);
    PowAdd(20, 20);
    assert Pow(9) == 512;
    PowAdd(10, 9);
    PowAdd(40, 19);
  }

  lemma ModAdd(a: int, k: int, m: int)
    requires 0 < m
    ensures (a + k * m) % m == a % m
  {
    var q, r := a / m, a % m;
    assert a + k * m == (q + k) * m + r;
    ModOf(a + k * m, q + k, r, m);
  }

  lemma NoMultiple(d: int, m: int)
    requires 0 < m && 0 < d * m
    ensures m <= d * m
  {
    if d > 0 {
      assert d * m == m + (d - 1) * m;
    }
  }

  lemma ModOf(a: int, q: int, r: int, m: int)
    requires 0 < m && 0 <= r < m && a == q * m + r
    ensures a % m == r
  {
    var d := a / m - q;
    assert d * m == (a / m) * m - q * m == r - a % m;
    if d * m > 0 {
      NoMultiple(d, m);
    } else if d * m < 0 {
      assert (-d) * m == -(d * m);
      NoMultiple(-d, m);
    }
  }

  /** Numbers less than m apart have different remainders. */
  lemma ModDiffer(a: int, b: int, m: int)
    requires 0 < m && a < b < a + m
    ensures a % m != b % m
  {
    var d := b / m - a / m;
    assert b - a == d * m + (b % m - a % m);
    if d * m > 0 { NoMultiple(d, m); }
  }

  lemma ModSub(a: int, d: int, m: int)
    requires 0 < m
    ensures (a % m - d) % m == (a - d) % m
  {
    assert a - d == (a % m - d) + (a / m) * m;
    ModAdd(a % m - d, a / m, m);
  }
}
