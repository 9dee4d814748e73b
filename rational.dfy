/**
 * Best rational approximation with a bounded denominator, the contract of
 * `fractions.Fraction.limit_denominator`: the fraction closest to `x` whose
 * denominator does not exceed the bound, written in lowest terms.
 */
module Rational {
  import opened Numeric

  /** A fraction `num/den`. */
  datatype Fraction = Fraction(num: int, den: int)

  function Value(f: Fraction): real
    requires f.den >= 1
  {
    f.num as real / f.den as real
  }

  /** How far `n/d` lies from `x`. */
  function Dist(x: real, n: int, d: int): real
    requires d >= 1
  {
    Abs(x - n as real / d as real)
  }

  lemma DistScaled(x: real, n: int, d: int)
    requires d >= 1
    ensures Dist(x, n, d) == IntDist(n, x * d as real) / d as real
  {
    var dd := d as real;
    assert x - n as real / dd == (x * dd - n as real) / dd;
    if x * dd - n as real < 0.0 {
      assert x - n as real / dd < 0.0;
    }
  }

  /** The numerator that brings `n/d` closest to `x` for a fixed denominator `d`. */
  function Nearest(x: real, d: int): (n: int)
    requires d >= 1
    ensures forall m: int :: Dist(x, n, d) <= Dist(x, m, d)
    ensures Dist(x, n, d) <= 0.5 / d as real
  {
    var n := RoundHalfEven(x * d as real);
    assert forall m: int :: Dist(x, n, d) <= Dist(x, m, d) by {
      forall m: int ensures Dist(x, n, d) <= Dist(x, m, d) {
        DistScaled(x, n, d);
        DistScaled(x, m, d);
        DivideMonotone(IntDist(n, x * d as real), IntDist(m, x * d as real), d as real);
      }
    }
    DistScaled(x, n, d);
    DivideMonotone(IntDist(n, x * d as real), 0.5, d as real);
    n
  }

  lemma DivideMonotone(a: real, b: real, c: real)
    requires a <= b && c > 0.0
    ensures a / c <= b / c
  {
  }

  /**
   * The fraction nearest to `x` among all `n/d` with `1 <= d <= maxDen`; of
   * several equally near, the one with the least denominator.
   */
  function LimitDenominator(x: real, maxDen: int): (r: Fraction)
    requires maxDen >= 1
    ensures 1 <= r.den <= maxDen
    ensures forall n: int, d: int :: 1 <= d <= maxDen ==> Dist(x, r.num, r.den) <= Dist(x, n, d)
    ensures forall n: int, d: int :: 1 <= d < r.den ==> Dist(x, r.num, r.den) < Dist(x, n, d)
    decreases maxDen
  {
    var c := Fraction(Nearest(x, maxDen), maxDen);
    if maxDen == 1 then c
    else
      var b := LimitDenominator(x, maxDen - 1);
      if Dist(x, c.num, c.den) < Dist(x, b.num, b.den) then c else b
  }

  lemma SameValue(n: int, d: int, m: int, e: int)
    requires d >= 1 && e >= 1 && n * e == m * d
    ensures n as real / d as real == m as real / e as real
  {
    var dd, ee := d as real, e as real;
    assert (n as real) * ee == (m as real) * dd;
    calc {
      n as real / dd;
      (n as real * ee) / (dd * ee);
      (m as real * dd) / (dd * ee);
      m as real / ee;
    }
  }

  lemma SameValueSameDist(x: real, n: int, d: int, m: int, e: int)
    requires d >= 1 && e >= 1 && n * e == m * d
    ensures Dist(x, n, d) == Dist(x, m, e)
  {
    SameValue(n, d, m, e);
  }

  /**
   * The result is in lowest terms: no smaller denominator writes the same
   * value.
   */
  lemma LimitDenominatorReduced(x: real, maxDen: int)
    requires maxDen >= 1
    ensures var r := LimitDenominator(x, maxDen);
      forall n: int, d: int :: 1 <= d < r.den ==> n * r.den != r.num * d
  {
    var r := LimitDenominator(x, maxDen);
    forall n: int, d: int | 1 <= d < r.den ensures n * r.den != r.num * d {
      if n * r.den == r.num * d {
        SameValueSameDist(x, n, d, r.num, r.den);
      }
    }
  }

  /**
   * The approximation error is at most half a step of the result's own
   * denominator, and at most half a step of the bound.
   */
  lemma LimitDenominatorError(x: real, maxDen: int)
    requires maxDen >= 1
    ensures var r := LimitDenominator(x, maxDen);
      Dist(x, r.num, r.den) <= 0.5 / r.den as real && Dist(x, r.num, r.den) <= 0.5 / maxDen as real
  {
    var r := LimitDenominator(x, maxDen);
    var _ := Nearest(x, r.den);
    var _ := Nearest(x, maxDen);
  }

  /** A fraction at least as near to `x >= 0` as 0/1 has a non-negative numerator. */
  lemma NumeratorNonNegative(x: real, n: int, d: int)
    requires d >= 1 && 0.0 <= x && Dist(x, n, d) <= Dist(x, 0, 1)
    ensures n >= 0
  {
  }

  /** A fraction at least as near to `x <= 1` as 1/1 has a numerator at most its denominator. */
  lemma NumeratorAtMostDenominator(x: real, n: int, d: int)
    requires d >= 1 && x <= 1.0 && Dist(x, n, d) <= Dist(x, 1, 1)
    ensures n <= d
  {
  }

  /** For `x` in [0, 1] the result lies in [0/1, 1/1]. */
  lemma LimitDenominatorUnitRange(x: real, maxDen: int)
    requires maxDen >= 1 && 0.0 <= x <= 1.0
    ensures var r := LimitDenominator(x, maxDen); 0 <= r.num <= r.den
  {
    var r := LimitDenominator(x, maxDen);
    NumeratorNonNegative(x, r.num, r.den);
    NumeratorAtMostDenominator(x, r.num, r.den);
  }

  /** Distinct fractions `n/d` and `1/1` with `d <= q` are at least `1/q` apart. */
  lemma ApartFromOne(n: int, d: int, q: int)
    requires 1 <= d <= q && n != d
    ensures Abs(n as real / d as real - 1.0) >= 1.0 / q as real
  {
    var dd, qq := d as real, q as real;
    assert n as real / dd - 1.0 == (n - d) as real / dd;
    assert 1.0 / dd >= 1.0 / qq;
    if n > d {
      assert (n - d) as real / dd >= 1.0 / dd;
    } else {
      assert (d - n) as real / dd >= 1.0 / dd;
      assert (n - d) as real / dd == -((d - n) as real / dd);
    }
  }

  /**
   * A value closer to 1 than half a step of the bound is approximated by
   * exactly 1/1.
   */
  lemma LimitDenominatorNearOne(x: real, maxDen: int)
    requires maxDen >= 1 && 1.0 - 0.5 / maxDen as real < x <= 1.0
    ensures LimitDenominator(x, maxDen) == Fraction(1, 1)
  {
    var r := LimitDenominator(x, maxDen);
    var q := maxDen as real;
    assert Dist(x, 1, 1) == 1.0 - x < 0.5 / q;
    assert 1.0 / q == 2.0 * (0.5 / q);
    if r.num != r.den {
      ApartFromOne(r.num, r.den, maxDen);
    }
    if r.den > 1 {
      SameValueSameDist(x, r.num, r.den, 1, 1);
    }
  }
}
