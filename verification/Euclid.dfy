/** Divisibility, as far as block lengths need it. */
module Euclid {

  function Gcd(a: nat, b: nat): nat
    decreases b
  {
    if b == 0 then a else Gcd(b, a % b)
  }

  lemma Quotient(a: int, d: nat)
    requires 0 < d && a % d == 0
    ensures a == d * (a / d)
  {
  }

  /** What the remainder is. */
  lemma Remainder(q: int, r: nat, d: nat)
    requires r < d
    ensures (q * d + r) % d == r
  {
    var n := q * d + r;
    assert n == d * (n / d) + n % d;
    assert (n / d - q) * d == r - n % d;
    SmallMultiple(n / d - q, d);
  }

  lemma Grows(k: int, d: int)
    requires 1 <= k && 0 <= d
    ensures k * d >= d
  {
    assert k * d == (k - 1) * d + d;
  }

  lemma SmallMultiple(k: int, d: int)
    requires -d < k * d < d
    ensures k == 0
  {
    if k > 0 {
      Grows(k, d);
    } else if k < 0 {
      assert (-k) * d == -(k * d);
      Grows(-k, d);
    }
  }

  /** A combination of multiples of d is one. */
  lemma Combination(x: int, a: int, y: int, b: int, d: nat)
    requires 0 < d && a % d == 0 && b % d == 0
    ensures (x * a + y * b) % d == 0
  {
    Quotient(a, d);
    Quotient(b, d);
    var q := x * (a / d) + y * (b / d);
    assert x * a + y * b == q * d + 0;
    Remainder(q, 0, d);
  }

  lemma SumAndDifference(a: int, b: int, d: nat)
    requires 0 < d && a % d == 0 && b % d == 0
    ensures (a + b) % d == 0 && (a - b) % d == 0
  {
    Combination(1, a, 1, b, d);
    Combination(1, a, -1, b, d);
  }

  lemma {:induction false} GcdDivides(a: nat, b: nat)
    requires 0 < a + b
    ensures 0 < Gcd(a, b) && a % Gcd(a, b) == 0 && b % Gcd(a, b) == 0
    decreases b
  {
    if b == 0 {
      Remainder(1, 0, a);
      Remainder(0, 0, a);
    } else {
      GcdDivides(b, a % b);
      Combination(a / b, b, 1, a % b, Gcd(a, b));
      assert a == a / b * b + a % b;
    }
  }

  /** The greatest common divisor is a combination of the two numbers. */
  lemma {:induction false} Bezout(a: nat, b: nat) returns (x: int, y: int)
    ensures x * a + y * b == Gcd(a, b)
    decreases b
  {
    if b == 0 {
      x, y := 1, 0;
    } else {
      var u, v := Bezout(b, a % b);
      x, y := v, u - a / b * v;
      Regroup(a, b, u, v);
    }
  }

  lemma Regroup(a: nat, b: nat, u: int, v: int)
    requires 0 < b
    ensures v * a + (u - a / b * v) * b == u * b + v * (a % b)
  {
    var k, r := a / b, a % b;
    assert a == k * b + r;
    assert v * a == v * (k * b) + v * r;
    assert (u - k * v) * b == u * b - k * v * b;
    assert v * (k * b) == k * v * b;
  }

  /** Every common divisor divides it. */
  lemma GcdGreatest(a: nat, b: nat, d: nat)
    requires 0 < d && a % d == 0 && b % d == 0
    ensures Gcd(a, b) % d == 0
  {
    var x, y := Bezout(a, b);
    Combination(x, a, y, b, d);
  }

  /** Some multiple of a falls short of a multiple of b by just the greatest common divisor. */
  lemma Shortfall(a: nat, b: nat) returns (j: nat, m: nat)
    requires 0 < a && 0 < b
    ensures j * a + Gcd(a, b) == m * b
  {
    var x, y := Bezout(a, b);
    var k: nat := (if x < 0 then -x else x) + (if y < 0 then -y else y);
    LargeEnough(k, b, x);
    LargeEnough(k, a, y);
    j, m := k * b - x, k * a + y;
    Shift(a, b, x, y, k);
  }

  lemma LargeEnough(k: nat, b: nat, x: int)
    requires 0 < b && -(k as int) <= x <= k
    ensures k * b - x >= 0 && k * b + x >= 0
  {
    Grows(b, k);
    assert b * k == k * b;
  }

  lemma Shift(a: nat, b: nat, x: int, y: int, k: nat)
    ensures (k * b - x) * a + (x * a + y * b) == (k * a + y) * b
  {
  }
}
