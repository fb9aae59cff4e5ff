/**
 Running mean and variance without stored data, with an optional prior and an optional limit on the
 sample count, against the two-pass definitions.
 */
module RunningStat {
  import opened Sums

  datatype Stat = Stat(m: real, s: real, n: nat)

  /** A negative limit means none. */
  function Count(n: nat, maxTrackable: int): nat {
    if maxTrackable < 0 || n < maxTrackable then n + 1 else n
  }

  function NextMean(m: real, x: real, n: nat): real
    requires n > 0
  {
    m + (x - m) / n as real
  }

  /** `m` and `m1` are the means before and after the sample. */
  function NextSquares(s: real, x: real, m: real, m1: real): real {
    s + (x - m) * (x - m1)
  }

  function Push(a: Stat, x: real, maxTrackable: int): Stat {
    var n := Count(a.n, maxTrackable);
    if n == 0 then Stat(x, a.s, 0)
    else
      var m := NextMean(a.m, x, n);
      Stat(m, NextSquares(a.s, x, a.m, m), n)
  }

  function PushAll(a: Stat, xs: seq<real>, maxTrackable: int): Stat
    decreases |xs|
  {
    if xs == [] then a else Push(PushAll(a, xs[..|xs| - 1], maxTrackable), xs[|xs| - 1], maxTrackable)
  }

  function VarianceOf(a: Stat): real {
    if a.n >= 2 then a.s / (a.n - 1) as real else 0.0
  }

  class RunningStat {
    const maxTrackable: int
    var M: real
    var S: real
    var MLast: real
    var SLast: real
    var n: nat

    ghost function State(): Stat
      reads this
    {
      Stat(M, S, n)
    }

    ghost predicate Valid()
      reads this
    {
      MLast == M && (SLast == S || (n == 0 && maxTrackable == 0))
    }

    constructor (prior: Stat, maxTrackable: int)
      ensures Valid() && State() == prior && this.maxTrackable == maxTrackable
    {
      this.maxTrackable := maxTrackable;
      M, S, n := prior.m, prior.s, prior.n;
      MLast, SLast := prior.m, prior.s;
    }

    method Reset()
      modifies this
      ensures Valid() && State() == Stat(0.0, 0.0, 0)
    {
      M, S, MLast, SLast, n := 0.0, 0.0, 0.0, 0.0, 0;
    }

    method PushData(x: real)
      requires Valid()
      modifies this
      ensures Valid() && State() == Push(old(State()), x, maxTrackable)
    {
      if maxTrackable < 0 || n < maxTrackable {
        n := n + 1;
      }
      if n == 0 {
        MLast := x;
        M := MLast;
        SLast := 0.0;
      } else {
        M := NextMean(MLast, x, n);
        S := NextSquares(SLast, x, MLast, M);
        MLast := M;
        SLast := S;
      }
    }

    method Variance() returns (v: real)
      ensures v == VarianceOf(State())
    {
      if n >= 2 {
        v := S / (n - 1) as real;
      } else {
        v := 0.0;
      }
    }
  }

  // ----- the two-pass identities -----

  /** The sum of the samples that a state stands for. */
  ghost function Total(a: Stat): real {
    a.n as real * a.m
  }

  /** The sum of their squares. */
  ghost function TotalSquares(a: Stat): real {
    a.s + a.n as real * Square(a.m)
  }

  /** One update, r = n + 1 being the new count. */
  lemma MomentStep(r: real, m: real, x: real, m1: real)
    requires x - m == r * (m1 - m)
    ensures r * m1 == r * m - m + x
    ensures (x - m) * (x - m1) + r * Square(m1) == r * Square(m) - Square(m) + Square(x)
  {
    var e, d := m1 - m, x - m;
    assert Square(m1) == m * m + 2.0 * (m * e) + e * e;
    assert r * Square(m1) == r * (m * m) + 2.0 * (m * d) + d * e by {
      assert r * (m * e) == m * (r * e);
      assert r * (e * e) == (r * e) * e;
    }
    assert d * (x - m1) == d * d - d * e;
    assert Square(x) == m * m + 2.0 * (m * d) + d * d;
  }

  lemma Divide(m: real, x: real, n: nat)
    requires n > 0
    ensures x - m == n as real * (NextMean(m, x, n) - m)
  {
  }

  /** One update adds the sample to the sum and its square to the sum of squares. */
  lemma PushMoments(a: Stat, x: real, maxTrackable: int)
    requires maxTrackable < 0
    ensures Push(a, x, maxTrackable).n == a.n + 1
    ensures Total(Push(a, x, maxTrackable)) == Total(a) + x
    ensures TotalSquares(Push(a, x, maxTrackable)) == TotalSquares(a) + Square(x)
  {
    Divide(a.m, x, a.n + 1);
    MomentStep((a.n + 1) as real, a.m, x, NextMean(a.m, x, a.n + 1));
    OneMore(a.n, a.m);
    OneMore(a.n, Square(a.m));
  }

  lemma OneMore(n: nat, y: real)
    ensures (n + 1) as real * y == n as real * y + y
  {
  }

  lemma {:induction false} PushAllMoments(prior: Stat, xs: seq<real>, maxTrackable: int)
    requires maxTrackable < 0
    ensures PushAll(prior, xs, maxTrackable).n == prior.n + |xs|
    ensures Total(PushAll(prior, xs, maxTrackable)) == Total(prior) + Sum(xs)
    ensures TotalSquares(PushAll(prior, xs, maxTrackable)) == TotalSquares(prior) + SquaresAround(xs, 0.0)
    decreases |xs|
  {
    if xs != [] {
      var front, x := xs[..|xs| - 1], xs[|xs| - 1];
      PushAllMoments(prior, front, maxTrackable);
      PushMoments(PushAll(prior, front, maxTrackable), x, maxTrackable);
      assert x - 0.0 == x;
    }
  }

  lemma CenterStep(q: real, sum: real, k: real, c: real, x: real)
    ensures q - 2.0 * (c * sum) + k * (c * c) + Square(x - c)
         == q + Square(x) - 2.0 * (c * (sum + x)) + (k + 1.0) * (c * c)
  {
    assert Square(x - c) == Square(x) - 2.0 * (c * x) + c * c;
    assert c * (sum + x) == c * sum + c * x;
    assert (k + 1.0) * (c * c) == k * (c * c) + c * c;
  }

  /** Squares around `c` from raw squares. */
  ghost function Centered(q: real, sum: real, k: real, c: real): real {
    q - 2.0 * (c * sum) + k * (c * c)
  }

  lemma {:induction false} SquaresCentered(xs: seq<real>, c: real)
    ensures SquaresAround(xs, c) == Centered(SquaresAround(xs, 0.0), Sum(xs), |xs| as real, c)
    decreases |xs|
  {
    if xs != [] {
      var front, x := xs[..|xs| - 1], xs[|xs| - 1];
      SquaresCentered(front, c);
      CenterStep(SquaresAround(front, 0.0), Sum(front), |front| as real, c, x);
      assert x - 0.0 == x;
    }
  }

  /** Prior and data around the common mean. */
  lemma Center(n0: real, m0: real, k: real, sum: real, q: real, n: real, m: real)
    requires n == n0 + k && n * m == n0 * m0 + sum
    ensures n0 * Square(m0) + q - n * Square(m) == n0 * Square(m0 - m) + Centered(q, sum, k, m)
  {
    assert Square(m0 - m) == Square(m0) - 2.0 * (m * m0) + m * m;
    assert n0 * Square(m0 - m) == n0 * Square(m0) - 2.0 * (m * (n0 * m0)) + n0 * (m * m) by {
      assert n0 * (m * m0) == m * (n0 * m0);
    }
    assert n * (m * m) == m * (n * m) == m * (n0 * m0) + m * sum;
    assert n * (m * m) == n0 * (m * m) + k * (m * m);
  }

  /** The prior's share: its count times the squared distance of its mean from `c`. */
  ghost function Spread(prior: Stat, c: real): real {
    prior.n as real * Square(prior.m - c)
  }

  lemma CenterStat(prior: Stat, a: Stat, k: nat, sum: real, q: real)
    requires a.n == prior.n + k && Total(a) == Total(prior) + sum && TotalSquares(a) == TotalSquares(prior) + q
    ensures a.s == prior.s + Spread(prior, a.m) + Centered(q, sum, k as real, a.m)
  {
    Center(prior.n as real, prior.m, k as real, sum, q, a.n as real, a.m);
  }

  /**
   Without a limit, mean and squares are those of prior and samples taken together: the means add up
   weighted by their counts, and the squares are the prior's plus all distances from the common mean.
   */
  lemma UnlimitedIsTwoPass(prior: Stat, xs: seq<real>, maxTrackable: int)
    requires maxTrackable < 0
    ensures var a := PushAll(prior, xs, maxTrackable);
      && a.n == prior.n + |xs|
      && Total(a) == Total(prior) + Sum(xs)
      && a.s == prior.s + Spread(prior, a.m) + SquaresAround(xs, a.m)
  {
    var a := PushAll(prior, xs, maxTrackable);
    PushAllMoments(prior, xs, maxTrackable);
    SquaresCentered(xs, a.m);
    CenterStat(prior, a, |xs|, Sum(xs), SquaresAround(xs, 0.0));
  }

  lemma {:induction false} Remove(xs: seq<real>, j: nat, c: real)
    requires j < |xs|
    ensures Sum(xs) == Sum(xs[..j] + xs[j + 1..]) + xs[j]
    ensures SquaresAround(xs, c) == SquaresAround(xs[..j] + xs[j + 1..], c) + Square(xs[j] - c)
  {
    assert xs == xs[..j] + [xs[j]] + xs[j + 1..];
    Sum3(xs[..j], [xs[j]], xs[j + 1..], c);
    SumConcat(xs[..j], xs[j + 1..]);
    SquaresConcat(xs[..j], xs[j + 1..], c);
    SumAppend([], xs[j]);
    assert [] + [xs[j]] == [xs[j]];
  }

  /** The rest of `ys` once the last sample of `xs` is taken out of it. */
  lemma Pick(xs: seq<real>, ys: seq<real>) returns (j: nat)
    requires xs != [] && multiset(xs) == multiset(ys)
    ensures j < |ys| && ys[j] == xs[|xs| - 1]
    ensures multiset(xs[..|xs| - 1]) == multiset(ys[..j] + ys[j + 1..])
  {
    var front, x := xs[..|xs| - 1], xs[|xs| - 1];
    assert xs == front + [x];
    assert x in multiset(ys);
    j :| 0 <= j < |ys| && ys[j] == x;
    assert ys == ys[..j] + [x] + ys[j + 1..];
    assert multiset(ys) == multiset(ys[..j]) + multiset{x} + multiset(ys[j + 1..]);
    assert multiset(xs) == multiset(front) + multiset{x};
    assert multiset(front) == multiset(xs) - multiset{x};
    assert multiset(ys[..j] + ys[j + 1..]) == multiset(ys) - multiset{x};
  }

  /** Sums do not depend on the order of the samples. */
  lemma {:induction false} SameSums(xs: seq<real>, ys: seq<real>, c: real)
    requires multiset(xs) == multiset(ys)
    ensures |xs| == |ys| && Sum(xs) == Sum(ys) && SquaresAround(xs, c) == SquaresAround(ys, c)
    decreases |xs|
  {
    assert |xs| == |multiset(xs)| == |multiset(ys)| == |ys|;
    if xs != [] {
      var j := Pick(xs, ys);
      SameSums(xs[..|xs| - 1], ys[..j] + ys[j + 1..], c);
      Remove(ys, j, c);
    }
  }

  /** Without a limit the statistics do not depend on the order of the samples. */
  lemma OrderIrrelevant(prior: Stat, xs: seq<real>, ys: seq<real>, maxTrackable: int)
    requires maxTrackable < 0 && multiset(xs) == multiset(ys)
    ensures PushAll(prior, xs, maxTrackable) == PushAll(prior, ys, maxTrackable)
  {
    PushAllMoments(prior, xs, maxTrackable);
    PushAllMoments(prior, ys, maxTrackable);
    SameSums(xs, ys, 0.0);
    if prior.n + |xs| > 0 {
      MomentsUnique(PushAll(prior, xs, maxTrackable), PushAll(prior, ys, maxTrackable));
    } else {
      assert xs == [] && ys == [];
    }
  }

  lemma MomentsUnique(a: Stat, b: Stat)
    requires a.n == b.n > 0 && Total(a) == Total(b) && TotalSquares(a) == TotalSquares(b)
    ensures a == b
  {
    Cancel(a.n as real, a.m, b.m);
  }

  lemma Cancel(n: real, a: real, b: real)
    requires n > 0.0 && n * a == n * b
    ensures a == b
  {
    assert n * (a - b) == 0.0;
  }

  lemma MeanOfTotal(a: Stat, xs: seq<real>)
    requires a.n == |xs| > 0 && Total(a) == Sum(xs)
    ensures a.m == Mean(xs)
  {
    assert |xs| as real * Mean(xs) == Sum(xs);
    Cancel(|xs| as real, a.m, Mean(xs));
  }

  /** From an empty start the mean and the sample variance are the textbook ones. */
  lemma FreshIsTextbook(xs: seq<real>, maxTrackable: int)
    requires maxTrackable < 0 && |xs| >= 2
    ensures var a := PushAll(Stat(0.0, 0.0, 0), xs, maxTrackable);
      && a.m == Mean(xs)
      && VarianceOf(a) == SquaresAround(xs, Mean(xs)) / (|xs| - 1) as real
  {
    var zero := Stat(0.0, 0.0, 0);
    var a := PushAll(zero, xs, maxTrackable);
    UnlimitedIsTwoPass(zero, xs, maxTrackable);
    NothingYet(a.m);
    MeanOfTotal(a, xs);
  }

  lemma NothingYet(c: real)
    ensures Total(Stat(0.0, 0.0, 0)) == 0.0 && Spread(Stat(0.0, 0.0, 0), c) == 0.0
  {
  }

  // ----- with a limit, and the filter on top -----

  lemma PushGrows(a: Stat, x: real, maxTrackable: int)
    ensures Push(a, x, maxTrackable).s >= a.s
  {
    var n := Count(a.n, maxTrackable);
    if n > 0 {
      Divide(a.m, x, n);
      SameSign(n as real, x - a.m, NextMean(a.m, x, n) - a.m);
      assert x - a.m - (NextMean(a.m, x, n) - a.m) == x - NextMean(a.m, x, n);
    }
  }

  lemma SameSign(n: real, d: real, e: real)
    requires n >= 1.0 && d == n * e
    ensures d * (d - e) >= 0.0
  {
    assert d - e == (n - 1.0) * e;
    if e >= 0.0 {
      NonNegative(n, e);
      NonNegative(n - 1.0, e);
      NonNegative(d, d - e);
    } else {
      NonNegative(n, -e);
      NonNegative(n - 1.0, -e);
      assert n * -e == -d && (n - 1.0) * -e == -(d - e);
      NonNegative(-d, -(d - e));
      assert -d * -(d - e) == d * (d - e);
    }
  }

  lemma NonNegative(a: real, b: real)
    requires a >= 0.0 && b >= 0.0
    ensures a * b >= 0.0
  {
  }

  /** With or without a limit the variance is never negative. */
  lemma {:induction false} VarianceNonNegative(prior: Stat, xs: seq<real>, maxTrackable: int)
    requires prior.s >= 0.0
    ensures PushAll(prior, xs, maxTrackable).s >= prior.s
    ensures VarianceOf(PushAll(prior, xs, maxTrackable)) >= 0.0
    decreases |xs|
  {
    if xs != [] {
      VarianceNonNegative(prior, xs[..|xs| - 1], maxTrackable);
      PushGrows(PushAll(prior, xs[..|xs| - 1], maxTrackable), xs[|xs| - 1], maxTrackable);
    }
  }

  /**
   A limit is obeyed: the count grows by one a sample up to the limit and never beyond, and a prior that is
   past it stays where it is.
   */
  lemma {:induction false} LimitObeyed(prior: Stat, xs: seq<real>, maxTrackable: int)
    ensures var n := PushAll(prior, xs, maxTrackable).n;
      if maxTrackable < 0 || prior.n + |xs| <= maxTrackable then n == prior.n + |xs|
      else if prior.n <= maxTrackable then n == maxTrackable
      else n == prior.n
    decreases |xs|
  {
    if xs != [] { LimitObeyed(prior, xs[..|xs| - 1], maxTrackable); }
  }

  /** At the limit `n` every sample has weight 1/n and what was there before keeps the rest. */
  lemma WeightAtLimit(a: Stat, x: real)
    requires a.n > 0
    ensures var n := a.n as real; n * Push(a, x, a.n).m == (n - 1.0) * a.m + x
  {
    Divide(a.m, x, a.n);
  }

  /** `RunningStatFilter`: a sample that does not raise the raw deviation is passed on. */
  class RunningStatFilter {
    const rawStat: RunningStat
    const filteredStat: RunningStat

    ghost predicate Valid()
      reads this, rawStat, filteredStat
    {
      rawStat != filteredStat && rawStat.maxTrackable == -1 && rawStat.Valid() && filteredStat.Valid()
    }

    constructor (rawPrior: Stat, filteredPrior: Stat, maxTrackable: int)
      ensures Valid() && fresh(rawStat) && fresh(filteredStat)
      ensures rawStat.State() == rawPrior && filteredStat.State() == filteredPrior
      ensures filteredStat.maxTrackable == maxTrackable
    {
      rawStat := new RunningStat(rawPrior, -1);
      filteredStat := new RunningStat(filteredPrior, maxTrackable);
    }

    /** The deviations are compared through their squares, which have the same order. */
    method PushAndUpdate(x: real) returns (accepted: bool)
      requires Valid()
      modifies rawStat, filteredStat
      ensures Valid()
      ensures rawStat.State() == Push(old(rawStat.State()), x, -1)
      ensures accepted == Accepts(old(rawStat.State()), x)
      ensures filteredStat.State() == if accepted then Push(old(filteredStat.State()), x, filteredStat.maxTrackable)
                                      else old(filteredStat.State())
    {
      var before := rawStat.Variance();
      rawStat.PushData(x);
      var after := rawStat.Variance();
      accepted := after - before <= 0.0;
      if accepted {
        filteredStat.PushData(x);
      }
    }
  }

  predicate Accepts(raw: Stat, x: real) {
    VarianceOf(Push(raw, x, -1)) - VarianceOf(raw) <= 0.0
  }

  /** The new variance, in terms of the old one and the distance of the sample. */
  lemma NewVariance(raw: Stat, x: real)
    requires raw.n >= 2
    ensures var n, d, v := raw.n as real, x - raw.m, VarianceOf(raw);
      n * VarianceOf(Push(raw, x, -1)) == (n - 1.0) * v + d * d * n / (n + 1.0)
  {
    var n, d := raw.n as real, x - raw.m;
    var e := d / (n + 1.0);
    assert d == (n + 1.0) * e;
    assert d - e == n * e;
    assert (n - 1.0) * VarianceOf(raw) == raw.s;
    assert n * VarianceOf(Push(raw, x, -1)) == raw.s + d * (d - e);
    assert d * (d - e) == d * d * n / (n + 1.0) by {
      assert d * (n * e) * (n + 1.0) == d * n * d;
    }
  }

  /**
   With two or more samples, a new one passes the filter exactly when its squared distance from the
   mean is at most (1 + 1/n) times the variance so far.
   */
  lemma AcceptsIff(raw: Stat, x: real)
    requires raw.n >= 2
    ensures Accepts(raw, x) <==>
      (x - raw.m) * (x - raw.m) <= VarianceOf(raw) * ((raw.n + 1) as real / raw.n as real)
  {
    NewVariance(raw, x);
    var n, q, v, w := raw.n as real, (x - raw.m) * (x - raw.m), VarianceOf(raw), VarianceOf(Push(raw, x, -1));
    Compare(n, q, v, w);
    assert (raw.n + 1) as real == n + 1.0;
  }

  lemma Compare(n: real, q: real, v: real, w: real)
    requires n >= 2.0 && n * w == (n - 1.0) * v + q * n / (n + 1.0)
    ensures w <= v <==> q <= v * ((n + 1.0) / n)
  {
    var r := q * n / (n + 1.0);
    assert r * (n + 1.0) == q * n;
    assert n * (w - v) == r - v;
    assert w <= v <==> r <= v;
    var t := v * ((n + 1.0) / n);
    assert t * n == v * (n + 1.0);
    assert r <= v <==> r * (n + 1.0) <= v * (n + 1.0);
    assert q <= t <==> q * n <= t * n;
  }
}
