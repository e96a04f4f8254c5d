/** Integer and real helpers shared by the formula library: exact powers,
    min/max, and the facts about floor division that the formulas rely on. */
module MathUtil {

  /** b^e over the naturals. Powers of 1.5 and 1.1 in the game formulas are
      written as quotients of two of these (3^k/2^k and 11^k/10^k). */
  function Pow(b: nat, e: nat): nat
  {
    if e == 0 then 1 else b * Pow(b, e - 1)
  }

  lemma {:induction false} PowPositive(b: nat, e: nat)
    requires b >= 1
    ensures Pow(b, e) >= 1
  {
    if e > 0 {
      PowPositive(b, e - 1);
      assert Pow(b, e) == b * Pow(b, e - 1);
    }
  }

  lemma {:induction false} PowMonotoneExponent(b: nat, e1: nat, e2: nat)
    requires b >= 1 && e1 <= e2
    ensures Pow(b, e1) <= Pow(b, e2)
  {
    if e1 < e2 {
      PowMonotoneExponent(b, e1, e2 - 1);
      PowPositive(b, e2 - 1);
      assert Pow(b, e2) == b * Pow(b, e2 - 1);
    }
  }

  function Min(a: int, b: int): int { if a <= b then a else b }
  function Max(a: int, b: int): int { if a >= b then a else b }
  function MinReal(a: real, b: real): real { if a <= b then a else b }

  /** Flooring an exact real quotient is integer (floor) division. */
  lemma FloorOfQuotient(a: int, d: int)
    requires d > 0
    ensures (a as real / d as real).Floor == a / d
  {
    var q, r := a / d, a % d;
    assert a == q * d + r && 0 <= r < d;
    var x := a as real / d as real;
    assert x * d as real == a as real;
    assert q as real * d as real <= x * d as real;
    assert x * d as real < (q + 1) as real * d as real;
    RealCancelRight(q as real, x, d as real);
    RealCancelRightStrict(x, (q + 1) as real, d as real);
  }

  lemma RealCancelRight(a: real, b: real, d: real)
    requires d > 0.0 && a * d <= b * d
    ensures a <= b
  {
  }

  lemma RealCancelRightStrict(a: real, b: real, d: real)
    requires d > 0.0 && a * d < b * d
    ensures a < b
  {
  }

  /** Floor division is monotone in the numerator. */
  lemma DivMonotoneNumerator(a: int, b: int, d: int)
    requires d > 0 && a <= b
    ensures a / d <= b / d
  {
    var qa, qb := a / d, b / d;
    assert qa * d <= a && b < (qb + 1) * d;
    if qa > qb {
      assert qa >= qb + 1;
      MulMonotone(qb + 1, qa, d);
      assert false;
    }
  }

  lemma MulMonotone(x: int, y: int, d: int)
    requires x <= y && d >= 0
    ensures x * d <= y * d
  {
    assert (y - x) * d >= 0;
  }

  /** Floor division of a non-negative numerator is anti-monotone in the divisor. */
  lemma DivAntitoneDivisor(a: int, d1: int, d2: int)
    requires a >= 0 && 0 < d1 <= d2
    ensures a / d2 <= a / d1
  {
    var q1, q2 := a / d1, a / d2;
    assert q2 * d2 <= a && a < (q1 + 1) * d1;
    assert q2 >= 0;
    MulMonotone(d1, d2, q2);
    assert q2 * d1 <= a;
    if q2 > q1 {
      MulMonotone(q1 + 1, q2, d1);
      assert false;
    }
  }

  /** A common positive factor cancels in floor division. */
  lemma DivCancel(a: int, c: int, d: int)
    requires c > 0 && d > 0
    ensures (a * c) / (d * c) == a / d
  {
    var q, r := a / d, a % d;
    assert a == q * d + r && 0 <= r < d;
    assert a * c == q * (d * c) + r * c;
    assert 0 <= r * c < d * c by { MulMonotone(r, d - 1, c); }
    DivUnique(a * c, d * c, q, r * c);
  }

  /** The quotient is determined by the bracketing q*d <= a < (q+1)*d. */
  lemma DivUnique(a: int, d: int, q: int, r: int)
    requires d > 0 && a == q * d + r && 0 <= r < d
    ensures a / d == q
  {
    var q', r' := a / d, a % d;
    assert a == q' * d + r' && 0 <= r' < d;
    if q' < q {
      MulMonotone(q' + 1, q, d);
      assert false;
    } else if q' > q {
      MulMonotone(q + 1, q', d);
      assert false;
    }
  }

  /** x^n over the reals: the `Math.pow` of the source with an exact base. */
  function RealPow(x: real, n: nat): real
  {
    if n == 0 then 1.0 else x * RealPow(x, n - 1)
  }

  /** A power of the fraction p/q is the quotient of the two integer powers. */
  lemma {:induction false} RealPowOfFraction(p: nat, q: nat, n: nat)
    requires q > 0
    ensures Pow(q, n) > 0
    ensures RealPow(p as real / q as real, n) == Pow(p, n) as real / Pow(q, n) as real
  {
    PowPositive(q, n);
    if n > 0 {
      RealPowOfFraction(p, q, n - 1);
      FractionProduct(p, q, Pow(p, n - 1), Pow(q, n - 1));
    }
  }

  /** Flooring base·(p/q)^n is the integer quotient (base·p^n) / q^n. */
  lemma FloorOfScaledPower(base: int, p: nat, q: nat, n: nat)
    requires q > 0
    ensures Pow(q, n) > 0
    ensures (base as real * RealPow(p as real / q as real, n)).Floor == (base * Pow(p, n)) / Pow(q, n)
  {
    RealPowOfFraction(p, q, n);
    ScaleFraction(base, Pow(p, n), Pow(q, n));
    FloorOfQuotient(base * Pow(p, n), Pow(q, n));
  }

  lemma MulRearrange(a: int, b: int, c: int)
    ensures a * b * c == a * c * b
  {
  }

  /** Multiplying by a non-negative real keeps an inequality. */
  lemma RealMulMonotone(r: real, a: real, b: real)
    requires r >= 0.0 && a <= b
    ensures r * a <= r * b
  {
    assert r * b - r * a == r * (b - a);
  }

  lemma CastMul(a: int, b: int)
    ensures (a * b) as real == a as real * b as real
  {
  }

  /** (x/y)·(a/b) = (x·a)/(y·b). */
  lemma RealFractionProduct(x: real, y: real, a: real, b: real)
    requires y > 0.0 && b > 0.0
    ensures (x / y) * (a / b) == (x * a) / (y * b)
  {
    var u, v := x / y, a / b;
    assert u * y == x && v * b == a;
    assert (u * v) * (y * b) == (u * y) * (v * b);
  }

  lemma FractionProduct(p: nat, q: nat, a: nat, b: nat)
    requires q > 0 && b > 0
    ensures (p as real / q as real) * (a as real / b as real) == (p * a) as real / (q * b) as real
  {
    RealFractionProduct(p as real, q as real, a as real, b as real);
    CastMul(p, a);
    CastMul(q, b);
  }

  lemma ScaleFraction(base: int, a: nat, b: nat)
    requires b > 0
    ensures base as real * (a as real / b as real) == (base * a) as real / b as real
  {
    CastMul(base, a);
    var v := a as real / b as real;
    assert v * b as real == a as real;
    assert (base as real * v) * b as real == base as real * a as real;
  }
}
