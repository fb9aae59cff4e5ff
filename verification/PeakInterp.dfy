/** The sub-sample position of a correlation peak, from the parabola through the peak and its neighbours. */
module PeakInterp {
  import opened Wrappers

  /** The position of the peak at `i`, on the border the index itself; None where it divides by zero. */
  function Interpolate(r: seq<real>, i: nat): Option<real>
    requires i < |r|
  {
    if i == 0 || i == |r| - 1 then Some(i as real)
    else
      var d := 2.0 * r[i] - r[i + 1] - r[i - 1];
      if d == 0.0 then None else Some(i as real + 0.5 * (r[i + 1] - r[i - 1]) / d)
  }

  /** The parabola with the values `left`, `mid` and `right` at -1, 0 and 1. */
  function Parabola(left: real, mid: real, right: real, x: real): real {
    var b, a := 0.5 * (right - left), 0.5 * (right + left) - mid;
    mid + b * x + a * (x * x)
  }

  lemma ParabolaFits(left: real, mid: real, right: real)
    ensures Parabola(left, mid, right, -1.0) == left
    ensures Parabola(left, mid, right, 0.0) == mid
    ensures Parabola(left, mid, right, 1.0) == right
  {
  }

  /** Completing the square: with `b == -2 a o` the parabola differs from its value at `o` by `a (x - o)^2`. */
  lemma Square(a: real, b: real, o: real, x: real)
    requires b == -2.0 * a * o
    ensures b * x + a * (x * x) == b * o + a * (o * o) + a * ((x - o) * (x - o))
  {
    assert (x - o) * (x - o) == x * x - 2.0 * (x * o) + o * o;
    assert a * ((x - o) * (x - o)) == a * (x * x) - 2.0 * (a * (x * o)) + a * (o * o);
    assert b * x == -2.0 * (a * (x * o));
    assert b * o == -2.0 * (a * (o * o));
  }

  lemma SquareNonNegative(x: real)
    ensures x * x >= 0.0
  {
  }

  lemma ScaledNonPositive(a: real, x: real)
    requires a < 0.0
    ensures a * (x * x) <= 0.0
  {
    SquareNonNegative(x);
  }

  lemma Quotient(n: real, d: real)
    requires d != 0.0
    ensures n / d * d == n
  {
  }

  lemma VertexSlope(left: real, mid: real, right: real, o: real)
    requires o * (2.0 * mid - right - left) == 0.5 * (right - left)
    ensures 0.5 * (right - left) == -2.0 * (0.5 * (right + left) - mid) * o
  {
  }

  /** For a peak, the result is where the parabola through the three samples is highest. */
  lemma IsVertex(r: seq<real>, i: nat, x: real)
    requires 0 < i < |r| - 1 && 2.0 * r[i] - r[i + 1] - r[i - 1] > 0.0
    ensures Interpolate(r, i).Some?
    ensures Parabola(r[i - 1], r[i], r[i + 1], x) <= Parabola(r[i - 1], r[i], r[i + 1], Interpolate(r, i).value - i as real)
  {
    var left, mid, right := r[i - 1], r[i], r[i + 1];
    var d := 2.0 * mid - right - left;
    var o := 0.5 * (right - left) / d;
    Quotient(0.5 * (right - left), d);
    assert Interpolate(r, i).value - i as real == o;
    VertexSlope(left, mid, right, o);
    var a, b := 0.5 * (right + left) - mid, 0.5 * (right - left);
    Square(a, b, o, x);
    ScaledNonPositive(a, x - o);
  }

  lemma Halves(n: real, d: real)
    requires d > 0.0
    ensures -0.5 <= 0.5 * n / d <= 0.5 <==> -d <= n <= d
  {
    var q := 0.5 * n / d;
    Quotient(0.5 * n, d);
    if -0.5 <= q <= 0.5 {
      assert q * d <= 0.5 * d && q * d >= -0.5 * d;
    } else if q > 0.5 {
      assert q * d > 0.5 * d;
    } else {
      assert q * d < -0.5 * d;
    }
  }

  /** Over samples that bend down, the result stays within half a sample exactly if the middle one is the largest. */
  lemma WithinHalfIff(r: seq<real>, i: nat)
    requires 0 < i < |r| - 1 && 2.0 * r[i] - r[i + 1] - r[i - 1] > 0.0
    ensures Interpolate(r, i).Some?
    ensures -0.5 <= Interpolate(r, i).value - i as real <= 0.5 <==> r[i - 1] <= r[i] && r[i + 1] <= r[i]
  {
    var d := 2.0 * r[i] - r[i + 1] - r[i - 1];
    Halves(r[i + 1] - r[i - 1], d);
  }

  /** At a maximum it divides by zero exactly on a plateau of three equal samples. */
  lemma FlatIff(r: seq<real>, i: nat)
    requires 0 < i < |r| - 1 && r[i - 1] <= r[i] && r[i + 1] <= r[i]
    ensures Interpolate(r, i).None? <==> r[i - 1] == r[i] == r[i + 1]
  {
  }
}
