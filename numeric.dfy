/**
 * The transcendental functions of JavaScript's `Math` object.
 *
 * They cannot be computed exactly over the reals, so the model takes them as a
 * parameter `m: MathLib` and assumes, through `m.Lawful()`, only the facts that
 * the proofs below use.
 */
module Numeric {

  /** Archimedes' constant, as `Math.PI` (a double close to pi). */
  const PI: real := 3.141592653589793

  datatype MathLib = MathLib(
    pow: (real, real) -> real,   // Math.pow with a real exponent
    sqrt: real -> real,          // Math.sqrt
    cbrt: real -> real,          // x ** (1/3), as used for the Hill sphere
    ln: real -> real,            // Math.log
    exp: real -> real,           // Math.exp
    atan2: (real, real) -> real, // Math.atan2, in radians
    cos: real -> real,           // Math.cos
    sin: real -> real)           // Math.sin
  {
    /** The facts about the functions that the model relies on. */
    ghost predicate Lawful() {
      && (forall x, y :: x > 0.0 ==> pow(x, y) > 0.0)
      && (forall y :: pow(1.0, y) == 1.0)
      && (forall x :: pow(x, 0.0) == 1.0)
      && (forall x1, x2, y :: 0.0 < x1 < x2 && y < 0.0 ==> pow(x2, y) < pow(x1, y))
      && sqrt(0.0) == 0.0
      && (forall x :: x > 0.0 ==> sqrt(x) > 0.0)
      && (forall x :: x >= 0.0 ==> cbrt(x) >= 0.0)
      && (forall x1, x2 :: 0.0 < x1 < x2 ==> ln(x1) < ln(x2))
      && (forall x :: x >= 0.0 ==> atan2(0.0, x) == 0.0)
      && (forall x :: exp(x) > 0.0)
      && (forall x :: x > 0.0 ==> exp(x) > 1.0)
      && (forall x :: x < 0.0 ==> exp(x) < 1.0)
      && cos(0.0) == 1.0 && sin(0.0) == 0.0
    }
  }

  function Abs(x: real): (r: real)
    ensures r >= 0.0 && (r == x || r == -x)
  {
    if x < 0.0 then -x else x
  }

  function Min(a: real, b: real): (r: real)
    ensures r <= a && r <= b && (r == a || r == b)
  {
    if a < b then a else b
  }

  function Max(a: real, b: real): (r: real)
    ensures r >= a && r >= b && (r == a || r == b)
  {
    if a < b then b else a
  }

  /** A square is never negative, and is positive unless its root is zero. */
  lemma SquareNonNegative(a: real)
    ensures a * a >= 0.0
    ensures a != 0.0 ==> a * a > 0.0
  {
    if a < 0.0 {
      var b := -a;
      assert b * b > 0.0;
      assert a * a == b * b;
    }
  }

  /**
   * `a * b` as a function: the solver keeps the sign of a product of two
   * parameters, where it loses that of a square returned by a function.
   */
  function Product(a: real, b: real): (r: real)
    ensures a > 0.0 && b > 0.0 ==> r > 0.0
  {
    a * b
  }

  lemma MulPositive(a: real, b: real)
    requires a > 0.0 && b > 0.0
    ensures a * b > 0.0
  {
  }

  lemma DivPositive(a: real, b: real)
    requires a > 0.0 && b > 0.0
    ensures a / b > 0.0
  {
  }

  lemma ZeroDividend(d: real)
    requires d != 0.0
    ensures 0.0 / d == 0.0
  {
  }

  lemma MulNonZero(a: real, b: real)
    requires a != 0.0 && b != 0.0
    ensures a * b != 0.0
  {
  }

  /** Multiplying by a non-negative factor preserves order. */
  lemma MulMonotone(k: real, a: real, b: real)
    requires k >= 0.0 && a <= b
    ensures k * a <= k * b
  {
    assert k * b - k * a == k * (b - a);
    if k > 0.0 && b > a {
      MulPositive(k, b - a);
    }
  }

  /** Dividing by a positive number preserves order. */
  lemma DivMonotone(a: real, b: real, d: real)
    requires d > 0.0 && a <= b
    ensures a / d <= b / d
  {
    assert b / d - a / d == (b - a) / d;
    if b > a {
      DivPositive(b - a, d);
    }
  }

  /** Natural power `base^n` (exact, for integer exponents). */
  function Power(base: real, n: nat): real {
    if n == 0 then 1.0 else base * Power(base, n - 1)
  }

  /** `base^n` stays in (0, 1] for a base in (0, 1]. */
  lemma {:induction false} PowerInUnit(base: real, n: nat)
    requires 0.0 < base <= 1.0
    ensures 0.0 < Power(base, n) <= 1.0
  {
    if n > 0 {
      PowerInUnit(base, n - 1);
      var p := Power(base, n - 1);
      assert base * p <= p by {
        assert (1.0 - base) * p >= 0.0;
      }
    }
  }
}
