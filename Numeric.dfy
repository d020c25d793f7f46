/**
 * Arithmetic the tool borrows from C: `pow` with the integral exponents the
 * tool uses, `(int)` conversion and `abs`. Floating-point values are modelled
 * as reals, without rounding.
 */
module Numeric {
  /** `pow(x, n)` for a whole exponent `n`. */
  function Pow(x: real, n: nat): real
  {
    if n == 0 then 1.0 else x * Pow(x, n - 1)
  }

  lemma MulUnit(a: real, b: real)
    requires -1.0 <= a <= 1.0 && -1.0 <= b <= 1.0
    ensures -1.0 <= a * b <= 1.0
  {
    if 0.0 <= a && 0.0 <= b {
      assert a * b <= 1.0 * b;
    } else if a < 0.0 && 0.0 <= b {
      assert (-a) * b <= 1.0 * b;
    } else if 0.0 <= a && b < 0.0 {
      assert a * (-b) <= 1.0 * (-b);
    } else {
      assert (-a) * (-b) <= 1.0 * (-b);
    }
  }

  /** Powers of a value in [-1, 1] stay in [-1, 1]. */
  lemma {:induction false} PowUnit(x: real, n: nat)
    requires -1.0 <= x <= 1.0
    ensures -1.0 <= Pow(x, n) <= 1.0
  {
    if n > 0 {
      PowUnit(x, n - 1);
      MulUnit(x, Pow(x, n - 1));
    }
  }

  /** On non-negative values, powers are non-negative and grow with the base. */
  lemma {:induction false} PowMonotone(x: real, y: real, n: nat)
    requires 0.0 <= x <= y
    ensures 0.0 <= Pow(x, n) <= Pow(y, n)
  {
    if n > 0 {
      PowMonotone(x, y, n - 1);
      var a, b := Pow(x, n - 1), Pow(y, n - 1);
      assert x * a <= y * a;
      assert y * a <= y * b;
    }
  }

  /** Even powers are non-negative. */
  lemma {:induction false} PowEven(x: real, n: nat)
    ensures 0.0 <= Pow(x, 2 * n)
  {
    if n > 0 {
      PowEven(x, n - 1);
      var rest := Pow(x, 2 * (n - 1));
      assert Pow(x, 2 * n) == x * (x * rest);
      if x < 0.0 {
        assert x * rest <= 0.0;
      } else {
        assert x * rest >= 0.0;
      }
    }
  }

  lemma SquareNonNegative(x: real)
    ensures 0.0 <= x * x
  {
    if x < 0.0 {
      assert x * x == (-x) * (-x);
    }
  }

  /** The square of a non-zero value is positive. */
  lemma PowTwoPositive(x: real)
    requires x != 0.0
    ensures 0.0 < Pow(x, 2)
  {
    assert Pow(x, 1) == x;
    assert Pow(x, 2) == x * x;
    if x < 0.0 {
      assert 0.0 < (-x) * (-x);
      assert x * x == (-x) * (-x);
    } else {
      assert 0.0 < x * x;
    }
  }

  /** Powers of a value in [0, 1] lie in [0, 1]. */
  lemma PowFraction(x: real, n: nat)
    requires 0.0 <= x <= 1.0
    ensures 0.0 <= Pow(x, n) <= 1.0
  {
    PowMonotone(x, 1.0, n);
    PowUnit(1.0, n);
  }

  lemma SquareBounds(x: real, lo: real, hi: real)
    requires 0.0 <= lo <= x <= hi
    ensures lo * lo <= x * x <= hi * hi
  {
    PowMonotone(lo, x, 2);
    PowMonotone(x, hi, 2);
  }

  function Abs(x: int): (r: nat)
    ensures r == x || r == -x
  {
    if x < 0 then -x else x
  }

  /** C's `(int)` conversion of a value in range: the integer part, rounded toward zero. */
  function Trunc(x: real): (r: int)
    ensures 0.0 <= x ==> 0 <= r && r as real <= x < r as real + 1.0
    ensures x < 0.0 ==> r <= 0 && r as real - 1.0 < x <= r as real
  {
    if 0.0 <= x then x.Floor else -((-x).Floor)
  }
}
