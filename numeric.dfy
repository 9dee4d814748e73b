/**
 * Integer and real helpers that stand for Python operators used by the
 * planner: `1 << k`, `math.ceil`, `int()` on a float (truncation toward
 * zero) and the built-in `round` (round half to even).
 */
module Numeric {

  function Abs(x: real): real
  {
    if x < 0.0 then -x else x
  }

  /** Distance from the integer `m` to `x`. */
  function IntDist(m: int, x: real): real
  {
    Abs(m as real - x)
  }

  /** `1 << k` */
  function Pow2(k: nat): (r: nat)
    ensures r >= 1
  {
    if k == 0 then 1 else 2 * Pow2(k - 1)
  }

  lemma {:induction false} Pow2Monotone(j: nat, k: nat)
    requires j <= k
    ensures Pow2(j) <= Pow2(k)
  {
    if j < k {
      Pow2Monotone(j, k - 1);
    }
  }

  lemma {:induction false} Pow2AtLeast64(k: nat)
    requires k >= 6
    ensures Pow2(k) >= 64
  {
    Pow2Monotone(6, k);
  }

  /** `math.ceil(x)`: the least integer not below `x`. */
  function Ceil(x: real): (r: int)
    ensures x <= r as real < x + 1.0
  {
    -((-x).Floor)
  }

  /** `int(x)` on a float: truncation toward zero. */
  function Trunc(x: real): (r: int)
    ensures 0.0 <= x ==> r as real <= x < r as real + 1.0
    ensures x < 0.0 ==> r as real - 1.0 < x <= r as real
  {
    if x >= 0.0 then x.Floor else -((-x).Floor)
  }

  /**
   * Python's `round(x)` for a float: the nearest integer, and on a tie
   * (a fractional part of exactly one half) the even one.
   */
  function RoundHalfEven(x: real): (n: int)
    ensures IntDist(n, x) <= 0.5
    ensures forall m: int :: IntDist(n, x) <= IntDist(m, x)
    ensures IntDist(n, x) == 0.5 ==> n % 2 == 0
  {
    var fl := x.Floor;
    var frac := x - fl as real;
    var n := if frac < 0.5 then fl
             else if frac > 0.5 then fl + 1
             else if fl % 2 == 0 then fl else fl + 1;
    assert forall m: int :: IntDist(n, x) <= IntDist(m, x) by {
      forall m: int ensures IntDist(n, x) <= IntDist(m, x) {
        if m <= fl {
          assert IntDist(m, x) == x - m as real;
        } else {
          assert IntDist(m, x) == m as real - x;
        }
      }
    }
    n
  }
}
