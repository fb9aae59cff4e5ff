/** `round(x, 2)` and `round(x, 3)`: to the nearest hundredth or thousandth, halves to the even one. */
module Rounding {
  import opened Extremes

  function Nearest(x: real): int {
    var f := x.Floor;
    var d := x - f as real;
    if d < 0.5 || (d == 0.5 && f % 2 == 0) then f else f + 1
  }

  /** The nearest integer, and of two as near the even one. */
  lemma NearestIff(x: real, n: int)
    ensures n == Nearest(x) <==> -0.5 <= x - n as real <= 0.5 && (x - n as real in {-0.5, 0.5} ==> n % 2 == 0)
  {
    var f := x.Floor;
    assert f as real <= x < f as real + 1.0;
  }

  function Round2(x: real): real {
    Nearest(x * 100.0) as real / 100.0
  }

  function Round3(x: real): real {
    Nearest(x * 1000.0) as real / 1000.0
  }

  /** Rounding moves a value by at most half a unit of the last place. */
  lemma Round3IsClose(x: real)
    ensures -0.0005 <= Round3(x) - x <= 0.0005
  {
    var n := Nearest(x * 1000.0) as real;
    assert n / 1000.0 * 1000.0 == n;
  }

  lemma Round2Monotone(x: real, y: real)
    requires x <= y
    ensures Round2(x) <= Round2(y)
  {
    var a, b := x * 100.0, y * 100.0;
    assert a.Floor <= b.Floor;
    assert Nearest(a) <= Nearest(b);
  }

  lemma NearestOfInt(n: int)
    ensures Nearest(n as real) == n
  {
  }

  lemma Hundredths(n: real)
    ensures n / 100.0 * 100.0 == n
  {
  }

  lemma Round2Idempotent(x: real)
    ensures Round2(Round2(x)) == Round2(x)
  {
    var n := Nearest(x * 100.0);
    Hundredths(n as real);
    NearestOfInt(n);
  }

  /** A maximum of rounded values is the rounded maximum. */
  lemma Round2Max(x: real, y: real)
    ensures Max(Round2(x), Round2(y)) == Round2(Max(x, y))
  {
    if x <= y { Round2Monotone(x, y); } else { Round2Monotone(y, x); }
  }
}
