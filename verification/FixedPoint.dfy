/** Truncating fixed-point arithmetic, as the contracts compute it on unsigned integers,
    and the few facts about multiplication and division the other modules argue with. */
module FixedPoint {

  /// The scale of an Exp mantissa.
  const EXP_SCALE: nat := 1_000_000_000_000_000_000

  /// The scale of a Double mantissa.
  const DOUBLE_SCALE: nat := 1_000_000_000_000_000_000_000_000_000_000_000_000

  /// A mantissa times a whole number (or another mantissa), truncated.
  function MulTruncate(a: nat, b: nat): nat {
    a * b / EXP_SCALE
  }

  /// A whole number divided by a mantissa, truncated.
  function DivTruncate(a: nat, b: nat): nat
    requires 0 < b
  {
    a * EXP_SCALE / b
  }

  lemma MulLe(a: int, b: int, c: int)
    requires a <= b && 0 <= c
    ensures a * c <= b * c
  {
  }

  /// Dividing and truncating is adjoint to multiplying: the two ways to compare a quotient.
  lemma DivBounds(x: int, d: int, q: int)
    requires 0 < d
    ensures q <= x / d <==> q * d <= x
    ensures x / d < q <==> x < q * d
  {
    var k := x / d;
    assert k * d <= x < k * d + d;
    if q <= k {
      MulLe(q, k, d);
    } else {
      MulLe(k + 1, q, d);
    }
  }

  lemma DivMono(x: int, y: int, d: int)
    requires x <= y && 0 < d
    ensures x / d <= y / d
  {
    DivBounds(x, d, x / d);
    DivBounds(y, d, x / d);
  }

  lemma DivNonNegative(x: int, d: int)
    requires 0 <= x && 0 < d
    ensures 0 <= x / d
  {
    DivBounds(x, d, 0);
  }

  /// A product with a factor of at most one (EXP_SCALE), truncated, is at most the other factor.
  lemma FractionLe(part: nat, whole: nat, x: nat)
    requires part <= whole && 0 < whole
    ensures 0 <= part * x / whole <= x
  {
    MulLe(part, whole, x);
    DivNonNegative(part * x, whole);
    DivBounds(part * x, whole, x + 1);
    assert (x + 1) * whole == x * whole + whole;
  }

  /// Two truncated parts are at most one unit short of the truncated whole.
  lemma DivSplit(x: int, y: int, d: int)
    requires 0 < d
    ensures x / d + y / d <= (x + y) / d <= x / d + y / d + 1
  {
    var a, b := x / d, y / d;
    assert a * d <= x < a * d + d && b * d <= y < b * d + d;
    assert (a + b) * d == a * d + b * d;
    assert (a + b + 2) * d == a * d + b * d + 2 * d;
    DivBounds(x + y, d, a + b);
    DivBounds(x + y, d, a + b + 2);
  }

  lemma RealMulLe(a: real, b: real, c: real)
    requires a <= b && 0.0 <= c
    ensures a * c <= b * c
  {
  }

  lemma RealMulCancel(a: real, b: real, c: real)
    requires 0.0 < c && a * c <= b * c
    ensures a <= b
  {
  }

  lemma RealDivBounds(x: real, d: real)
    requires 0.0 < d
    ensures x / d * d == x
  {
  }

  /// A truncated quotient, seen as a real number, is the exact quotient less than one unit down.
  lemma FloorOfQuotient(x: nat, d: nat)
    requires 0 < d
    ensures (x / d) as real <= x as real / d as real < (x / d) as real + 1.0
  {
    var q := x / d;
    assert q * d <= x < (q + 1) * d;
    var r := x as real / d as real;
    RealDivBounds(x as real, d as real);
    assert q as real * d as real == (q * d) as real <= r * d as real;
    assert r * d as real < ((q + 1) * d) as real == (q as real + 1.0) * d as real;
    if r >= q as real + 1.0 {
      RealMulLe(q as real + 1.0, r, d as real);
      assert false;
    }
  }
}
