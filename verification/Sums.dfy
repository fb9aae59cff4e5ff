/** Sums and sums of squared deviations of real sequences. */
module Sums {
  function Sum(s: seq<real>): real
    decreases |s|
  {
    if s == [] then 0.0 else Sum(s[..|s| - 1]) + s[|s| - 1]
  }

  function Square(x: real): real {
    x * x
  }

  /** The sum of squared distances from `c`. */
  function SquaresAround(s: seq<real>, c: real): real
    decreases |s|
  {
    if s == [] then 0.0
    else SquaresAround(s[..|s| - 1], c) + Square(s[|s| - 1] - c)
  }

  function Mean(s: seq<real>): real
    requires s != []
  {
    Sum(s) / |s| as real
  }

  /** The population variance. */
  function Variance(s: seq<real>): real
    requires s != []
  {
    SquaresAround(s, Mean(s)) / |s| as real
  }

  lemma SumAppend(s: seq<real>, x: real)
    ensures Sum(s + [x]) == Sum(s) + x
    ensures forall c :: SquaresAround(s + [x], c) == SquaresAround(s, c) + Square(x - c)
  {
    assert (s + [x])[..|s|] == s;
  }

  lemma {:induction false} SumConcat(a: seq<real>, b: seq<real>)
    ensures Sum(a + b) == Sum(a) + Sum(b)
    decreases |b|
  {
    if b == [] {
      assert a + b == a;
    } else {
      var front, x := b[..|b| - 1], b[|b| - 1];
      assert a + b == (a + front) + [x];
      SumConcat(a, front);
      SumAppend(a + front, x);
    }
  }

  lemma {:induction false} SquaresConcat(a: seq<real>, b: seq<real>, c: real)
    ensures SquaresAround(a + b, c) == SquaresAround(a, c) + SquaresAround(b, c)
    decreases |b|
  {
    if b == [] {
      assert a + b == a;
    } else {
      var front, x := b[..|b| - 1], b[|b| - 1];
      assert a + b == (a + front) + [x];
      SquaresConcat(a, front, c);
      SumAppend(a + front, x);
    }
  }

  lemma Sum3(a: seq<real>, b: seq<real>, c: seq<real>, m: real)
    ensures Sum(a + b + c) == Sum(a) + Sum(b) + Sum(c)
    ensures SquaresAround(a + b + c, m) == SquaresAround(a, m) + SquaresAround(b, m) + SquaresAround(c, m)
  {
    SumConcat(a + b, c);
    SumConcat(a, b);
    SquaresConcat(a + b, c, m);
    SquaresConcat(a, b, m);
  }

  /** Swapping two pieces changes neither mean nor variance. */
  lemma Rotated(a: seq<real>, b: seq<real>, c: seq<real>)
    requires a + b + c != []
    ensures Mean(a + b + c) == Mean(b + a + c) && Variance(a + b + c) == Variance(b + a + c)
  {
    Sum3(a, b, c, Mean(a + b + c));
    Sum3(b, a, c, Mean(a + b + c));
  }

  lemma {:induction false} SumConstant(n: nat, x: real)
    ensures Sum(seq(n, _ => x)) == n as real * x
  {
    if n > 0 {
      SumConstant(n - 1, x);
      assert seq(n, _ => x)[..n - 1] == seq(n - 1, _ => x);
    }
  }
}
