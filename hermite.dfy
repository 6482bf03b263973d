/** Cubic Hermite interpolation between two samples of a trajectory. */
module Hermite {
  import opened Matrices

  function H00(s: real): real { 2.0 * s * s * s - 3.0 * s * s + 1.0 }
  function H10(s: real): real { s * s * s - 2.0 * s * s + s }
  function H01(s: real): real { -2.0 * s * s * s + 3.0 * s * s }
  function H11(s: real): real { s * s * s - s * s }

  /** Both samples are columns of the same dimension `d`. */
  predicate SamplePair(d: nat, x0: Matrix, dx0: Matrix, x1: Matrix, dx1: Matrix)
  {
    IsColumnOf(x0, d) && IsColumnOf(dx0, d) && IsColumnOf(x1, d) && IsColumnOf(dx1, d)
  }

  /** The cubic Hermite interpolant through (t0, x0, dx0) and (t1, x1, dx1), at time t:
      with h = t1 - t0 and s = (t - t0) / h,
      x(t) = H00(s) x0 + H10(s) h dx0 + H01(s) x1 + H11(s) h dx1, entry by entry. */
  function Interpolate(t0: real, x0: Matrix, dx0: Matrix, t1: real, x1: Matrix, dx1: Matrix, t: real): (x: Matrix)
    requires t0 < t1
    requires SamplePair(x0.rows, x0, dx0, x1, dx1)
    ensures IsColumnOf(x, x0.rows)
  {
    var h := t1 - t0;
    var s := (t - t0) / h;
    Column(seq(x0.rows, k requires 0 <= k < x0.rows =>
      H00(s) * x0.data[k] + H10(s) * h * dx0.data[k] + H01(s) * x1.data[k] + H11(s) * h * dx1.data[k]))
  }

  /** At the left end of the interval the interpolant is exactly the left sample's state. */
  lemma InterpolateAtStart(t0: real, x0: Matrix, dx0: Matrix, t1: real, x1: Matrix, dx1: Matrix)
    requires t0 < t1
    requires SamplePair(x0.rows, x0, dx0, x1, dx1)
    ensures Interpolate(t0, x0, dx0, t1, x1, dx1, t0) == x0
  {
    var x := Interpolate(t0, x0, dx0, t1, x1, dx1, t0);
    var s := (t0 - t0) / (t1 - t0);
    assert s == 0.0;
    assert H00(s) == 1.0 && H10(s) == 0.0 && H01(s) == 0.0 && H11(s) == 0.0;
    assert x.data == x0.data;
  }

  /** At the right end of the interval the interpolant is exactly the right sample's state. */
  lemma InterpolateAtEnd(t0: real, x0: Matrix, dx0: Matrix, t1: real, x1: Matrix, dx1: Matrix)
    requires t0 < t1
    requires SamplePair(x0.rows, x0, dx0, x1, dx1)
    ensures Interpolate(t0, x0, dx0, t1, x1, dx1, t1) == x1
  {
    var x := Interpolate(t0, x0, dx0, t1, x1, dx1, t1);
    var h := t1 - t0;
    var s := (t1 - t0) / h;
    assert s == h / h == 1.0;
    assert H00(s) == 0.0 && H10(s) == 0.0 && H01(s) == 1.0 && H11(s) == 0.0;
    assert x.data == x1.data;
  }

  /** Halfway through the interval the interpolant is the mean of the two states corrected
      by the difference of the two derivatives: x = (x0 + x1) / 2 + h (dx0 - dx1) / 8.
      Unlike the end values, this depends on the derivatives. */
  lemma InterpolateAtMidpoint(t0: real, x0: Matrix, dx0: Matrix, t1: real, x1: Matrix, dx1: Matrix, k: nat)
    requires t0 < t1
    requires SamplePair(x0.rows, x0, dx0, x1, dx1)
    requires k < x0.rows
    ensures Interpolate(t0, x0, dx0, t1, x1, dx1, (t0 + t1) / 2.0).data[k]
      == (x0.data[k] + x1.data[k]) / 2.0 + (t1 - t0) * (dx0.data[k] - dx1.data[k]) / 8.0
  {
    var h := t1 - t0;
    var s := ((t0 + t1) / 2.0 - t0) / h;
    assert s == (h / h) / 2.0 == 0.5;
    assert H00(s) == 0.5 && H10(s) == 0.125 && H01(s) == 0.5 && H11(s) == -0.125;
  }
}
