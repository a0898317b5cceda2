/**
 * The Python and NumPy arithmetic the analyser leans on, over exact reals:
 * `min`/`max` of two numbers, `abs`, `np.sum`/`np.mean`, and `np.min`/`np.max`
 * of a non-empty array, with the small facts about them the proofs need.
 */
module Arith {

  /** Python's `min(a, b)`. */
  function Min(a: real, b: real): real
  {
    if b < a then b else a
  }

  /** Python's `max(a, b)`. */
  function Max(a: real, b: real): real
  {
    if b > a then b else a
  }

  /** Python's `abs`. */
  function Abs(x: real): real
  {
    if x < 0.0 then -x else x
  }

  /** `np.sum`. */
  function Sum(xs: seq<real>): real
  {
    if xs == [] then 0.0 else Sum(xs[..|xs| - 1]) + xs[|xs| - 1]
  }

  /** `np.mean` of a non-empty array. */
  function Mean(xs: seq<real>): real
    requires |xs| > 0
  {
    Sum(xs) / |xs| as real
  }

  /** `np.min` of a non-empty array. */
  function MinOf(xs: seq<real>): (m: real)
    requires |xs| > 0
    ensures forall i :: 0 <= i < |xs| ==> m <= xs[i]
    ensures exists i :: 0 <= i < |xs| && xs[i] == m
  {
    if |xs| == 1 then xs[0]
    else
      var m := MinOf(xs[..|xs| - 1]);
      assert forall i :: 0 <= i < |xs| - 1 ==> xs[..|xs| - 1][i] == xs[i];
      if xs[|xs| - 1] < m then xs[|xs| - 1] else m
  }

  /** `np.max` of a non-empty array. */
  function MaxOf(xs: seq<real>): (m: real)
    requires |xs| > 0
    ensures forall i :: 0 <= i < |xs| ==> xs[i] <= m
    ensures exists i :: 0 <= i < |xs| && xs[i] == m
  {
    if |xs| == 1 then xs[0]
    else
      var m := MaxOf(xs[..|xs| - 1]);
      assert forall i :: 0 <= i < |xs| - 1 ==> xs[..|xs| - 1][i] == xs[i];
      if xs[|xs| - 1] > m then xs[|xs| - 1] else m
  }

  /** A sum of non-negative numbers is non-negative. */
  lemma {:induction false} SumNonNegative(xs: seq<real>)
    requires forall i :: 0 <= i < |xs| ==> xs[i] >= 0.0
    ensures Sum(xs) >= 0.0
  {
    if xs != [] {
      SumNonNegative(xs[..|xs| - 1]);
    }
  }

  /** The mean of non-negative numbers is non-negative. */
  lemma MeanNonNegative(xs: seq<real>)
    requires |xs| > 0
    requires forall i :: 0 <= i < |xs| ==> xs[i] >= 0.0
    ensures Mean(xs) >= 0.0
  {
    SumNonNegative(xs);
    DivMonotone(0.0, Sum(xs), |xs| as real);
  }

  lemma SquareNonNegative(d: real)
    ensures d * d >= 0.0
  {
    if d < 0.0 {
      assert d * d == (-d) * (-d);
    }
  }

  lemma DivAdd(a: real, b: real, n: real)
    requires n > 0.0
    ensures a / n + b / n == (a + b) / n
  {
  }

  lemma SelfDiv(n: real)
    requires n > 0.0
    ensures n / n == 1.0
  {
  }

  /** Dividing by a positive number keeps the order. */
  lemma DivMonotone(a: real, b: real, n: real)
    requires n > 0.0 && a <= b
    ensures a / n <= b / n
  {
  }

  /** `k / n` lies in [0, 1] when `0 <= k <= n`. */
  lemma UnitRatio(k: nat, n: nat)
    requires 0 < n && k <= n
    ensures 0.0 <= (k as real) / (n as real) <= 1.0
  {
    DivMonotone(0.0, k as real, n as real);
    DivMonotone(k as real, n as real, n as real);
    SelfDiv(n as real);
    assert 0.0 / (n as real) == 0.0;
  }

  /** Scaling by a non-negative real keeps the order. */
  lemma ScaleMonotone(c: real, x: real, y: real)
    requires c >= 0.0 && x <= y
    ensures c * x <= c * y
  {
    assert c * y - c * x == c * (y - x);
  }

  /** A point `t` of the way from `a` to `b`, for `t` in [0, 1], lies between bounds both ends respect. */
  lemma Interpolate(a: real, b: real, t: real, lo: real, hi: real)
    requires 0.0 <= t <= 1.0 && lo <= a <= hi && lo <= b <= hi
    ensures lo <= a + t * (b - a) <= hi
  {
    InterpolateAbove(a, b, t, lo);
    InterpolateAbove(-a, -b, t, -hi);
    assert -a + t * (-b - -a) == -(a + t * (b - a));
  }

  /** The lower half of `Interpolate`. */
  lemma InterpolateAbove(a: real, b: real, t: real, lo: real)
    requires 0.0 <= t <= 1.0 && lo <= a && lo <= b
    ensures lo <= a + t * (b - a)
  {
    if b >= a {
      ScaleMonotone(b - a, 0.0, t);
      assert (b - a) * 0.0 == 0.0;
      assert t * (b - a) == (b - a) * t;
      assert t * (b - a) >= 0.0;
    } else {
      ScaleMonotone(a - b, t, 1.0);
      assert t * (b - a) == -((a - b) * t);
    }
  }

  /** Interpolating between `1 - a` and `1 - b` gives 1 minus the interpolation between `a` and `b`. */
  lemma InterpolateComplement(a: real, b: real, t: real)
    ensures (1.0 - a) + t * ((1.0 - b) - (1.0 - a)) == 1.0 - (a + t * (b - a))
  {
    assert t * ((1.0 - b) - (1.0 - a)) == -(t * (b - a));
  }

  /** Multiplying by a non-negative integer keeps the order. */
  lemma MulMonotone(a: int, b: int, h: int)
    requires a <= b && h >= 0
    ensures a * h <= b * h
  {
    assert b * h - a * h == (b - a) * h;
  }
}
