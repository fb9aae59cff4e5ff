/**
 `fft_next_good_size`: the least number at or above n with no prime factor beyond 11, found by five
 nested loops over powers of 2, 3, 5, 7 and 11 whose common bound shrinks as candidates are found.
 */
module GoodSize {

  // ----- what a good size is -----

  predicate Divides(d: nat, m: nat)
    requires d > 0
  {
    m % d == 0
  }

  ghost predicate IsPrime(p: nat) {
    p > 1 && forall d :: 1 < d < p ==> !Divides(d, p)
  }

  /** No prime factor other than 2, 3, 5, 7 and 11. */
  ghost predicate Good(m: nat) {
    m > 0 && forall p :: p > 0 && Divides(p, m) && IsPrime(p) ==> p in {2, 3, 5, 7, 11}
  }

  function Pow(b: nat, e: nat): nat {
    if e == 0 then 1 else b * Pow(b, e - 1)
  }

  function Product(a: nat, b: nat, c: nat, d: nat, e: nat): nat {
    Pow(2, a) * Pow(3, b) * Pow(5, c) * Pow(7, d) * Pow(11, e)
  }

  // ----- nested sets of candidates -----

  /** `best` is no larger than any multiple of `f` by a power of 11 that reaches `n`; and so on outwards. */
  ghost predicate Done11(n: nat, best: nat, f: nat) {
    forall e: nat :: f * Pow(11, e) >= n ==> best <= f * Pow(11, e)
  }

  ghost predicate Done7(n: nat, best: nat, f: nat) {
    forall d: nat :: Done11(n, best, f * Pow(7, d))
  }

  ghost predicate Done5(n: nat, best: nat, f: nat) {
    forall c: nat :: Done7(n, best, f * Pow(5, c))
  }

  ghost predicate Done3(n: nat, best: nat, f: nat) {
    forall b: nat :: Done5(n, best, f * Pow(3, b))
  }

  /** A good size found so far, or the initial bound. */
  ghost predicate Candidate(n: nat, best: nat) {
    n <= best <= 2 * n && (best == 2 * n || Good(best))
  }

  lemma PowPositive(b: nat, e: nat)
    requires b > 0
    ensures Pow(b, e) >= 1
  {
  }

  lemma {:induction false} PowGrows(b: nat, i: nat, j: nat)
    requires b > 0 && i <= j
    ensures Pow(b, i) <= Pow(b, j)
    decreases j
  {
    if i < j {
      PowGrows(b, i, j - 1);
      Scale(Pow(b, j - 1), 1, b);
    }
  }

  lemma Scale(f: nat, x: nat, y: nat)
    requires x <= y
    ensures f * x <= f * y
  {
  }

  // A bound at or below every candidate is inherited when the bound shrinks ...

  lemma Shrink(n: nat, best: nat, smaller: nat, f: nat)
    requires smaller <= best
    ensures Done11(n, best, f) ==> Done11(n, smaller, f)
    ensures Done7(n, best, f) ==> Done7(n, smaller, f)
    ensures Done5(n, best, f) ==> Done5(n, smaller, f)
    ensures Done3(n, best, f) ==> Done3(n, smaller, f)
  {
    forall g: nat ensures Done11(n, best, g) ==> Done11(n, smaller, g) {}
    forall g: nat ensures Done7(n, best, g) ==> Done7(n, smaller, g) {}
    forall g: nat ensures Done5(n, best, g) ==> Done5(n, smaller, g) {}
  }

  // ... and holds outright for every factor that has reached it.

  lemma Reached(n: nat, best: nat, f: nat)
    requires best <= f
    ensures Done11(n, best, f) && Done7(n, best, f) && Done5(n, best, f) && Done3(n, best, f)
  {
    forall g: nat | best <= g ensures Done11(n, best, g) {
      forall e: nat ensures best <= g * Pow(11, e) {
        PowPositive(11, e);
        Scale(g, 1, Pow(11, e));
      }
    }
    forall g: nat | best <= g ensures Done7(n, best, g) {
      forall d: nat ensures Done11(n, best, g * Pow(7, d)) {
        PowPositive(7, d);
        Scale(g, 1, Pow(7, d));
      }
    }
    forall g: nat | best <= g ensures Done5(n, best, g) {
      forall c: nat ensures Done7(n, best, g * Pow(5, c)) {
        PowPositive(5, c);
        Scale(g, 1, Pow(5, c));
      }
    }
    forall b: nat ensures Done5(n, best, f * Pow(3, b)) {
      PowPositive(3, b);
      Scale(f, 1, Pow(3, b));
    }
  }

  // ----- leaving and repeating each loop -----

  lemma Leave11(n: nat, best: nat, f: nat, e: nat)
    requires best <= f * Pow(11, e)
    requires forall j: nat :: j < e && f * Pow(11, j) >= n ==> best <= f * Pow(11, j)
    ensures Done11(n, best, f)
  {
    forall j: nat | f * Pow(11, j) >= n ensures best <= f * Pow(11, j) {
      if j >= e {
        PowGrows(11, e, j);
        Scale(f, Pow(11, e), Pow(11, j));
      }
    }
  }

  lemma Leave7(n: nat, best: nat, f: nat, d: nat)
    requires best <= f * Pow(7, d)
    requires forall j: nat :: j < d ==> Done11(n, best, f * Pow(7, j))
    ensures Done7(n, best, f)
  {
    forall j: nat ensures Done11(n, best, f * Pow(7, j)) {
      if j >= d {
        PowGrows(7, d, j);
        Scale(f, Pow(7, d), Pow(7, j));
        Reached(n, best, f * Pow(7, j));
      }
    }
  }

  lemma Leave5(n: nat, best: nat, f: nat, c: nat)
    requires best <= f * Pow(5, c)
    requires forall j: nat :: j < c ==> Done7(n, best, f * Pow(5, j))
    ensures Done5(n, best, f)
  {
    forall j: nat ensures Done7(n, best, f * Pow(5, j)) {
      if j >= c {
        PowGrows(5, c, j);
        Scale(f, Pow(5, c), Pow(5, j));
        Reached(n, best, f * Pow(5, j));
      }
    }
  }

  lemma Leave3(n: nat, best: nat, f: nat, b: nat)
    requires best <= f * Pow(3, b)
    requires forall j: nat :: j < b ==> Done5(n, best, f * Pow(3, j))
    ensures Done3(n, best, f)
  {
    forall j: nat ensures Done5(n, best, f * Pow(3, j)) {
      if j >= b {
        PowGrows(3, b, j);
        Scale(f, Pow(3, b), Pow(3, j));
        Reached(n, best, f * Pow(3, j));
      }
    }
  }

  lemma Leave2(n: nat, best: nat, a: nat)
    requires best <= Pow(2, a)
    requires forall j: nat :: j < a ==> Done3(n, best, Pow(2, j))
    ensures forall j: nat :: Done3(n, best, Pow(2, j))
  {
    forall j: nat ensures Done3(n, best, Pow(2, j)) {
      if j >= a {
        PowGrows(2, a, j);
        Reached(n, best, Pow(2, j));
      }
    }
  }

  lemma Next(f: nat, b: nat, e: nat)
    ensures f * Pow(b, e) * b == b * (f * Pow(b, e)) == f * Pow(b, e + 1)
  {
    assert Pow(b, e + 1) == b * Pow(b, e);
    assert f * Pow(b, e) * b == f * (Pow(b, e) * b);
    assert b * (f * Pow(b, e)) == f * Pow(b, e) * b;
  }

  // ----- good sizes are exactly the products of powers -----

  /** The inverse of `r` modulo a base. */
  function Inverse(q: nat, r: nat): nat {
    if q == 5 then (if r == 2 then 3 else if r == 3 then 2 else r)
    else if q == 7 then (if r == 2 then 4 else if r == 3 then 5 else if r == 4 then 2 else if r == 5 then 3 else r)
    else if q == 11 then
      (if r == 2 then 6 else if r == 3 then 4 else if r == 4 then 3 else if r == 5 then 9 else if r == 6 then 2
       else if r == 7 then 8 else if r == 8 then 7 else if r == 9 then 5 else r)
    else r
  }

  lemma InverseWorks(q: nat, r: nat)
    requires q in {2, 3, 5, 7, 11} && 0 < r < q
    ensures (r * Inverse(q, r)) % q == 1
  {
    if q == 11 {
      assert r in {1, 2, 3, 4, 5, 6, 7, 8, 9, 10};
    } else if q == 7 {
      assert r in {1, 2, 3, 4, 5, 6};
    } else {
      assert r in {1, 2, 3, 4};
    }
  }

  /** An `s` with p * s == q * t + 1, for a base q that does not divide p. */
  lemma InverseModulo(p: nat, q: nat) returns (s: nat, t: nat)
    requires q in {2, 3, 5, 7, 11} && p % q != 0
    ensures p * s == q * t + 1
  {
    var k, r := p / q, p % q;
    s := Inverse(q, r);
    InverseWorks(q, r);
    var u := r * s / q;
    t := k * s + u;
    Parts(p, q);
    Parts(r * s, q);
    Expand(p, q, k, r, s, u);
  }

  lemma Parts(x: nat, q: nat)
    requires q > 0
    ensures x == q * (x / q) + x % q
  {
  }

  lemma Expand(p: nat, q: nat, k: nat, r: nat, s: nat, u: nat)
    requires p == q * k + r && r * s == q * u + 1
    ensures p * s == q * (k * s + u) + 1
  {
    assert p * s == (q * k) * s + r * s;
    assert q * (k * s + u) == q * (k * s) + q * u;
    assert (q * k) * s == q * (k * s);
  }

  lemma Quotient(p: nat, q: nat, x: nat, s: nat, t: nat, k: nat)
    requires p * s == q * t + 1 && q * x == p * k
    ensures x == p * (s * x - k * t)
  {
    assert (p * s) * x == (q * t) * x + x;
    assert (q * t) * x == (q * x) * t == (p * k) * t == p * (k * t);
    assert (p * s) * x == p * (s * x);
    assert p * (s * x - k * t) == p * (s * x) - p * (k * t);
  }

  /** A prime that divides a base times `x` is that base or divides `x`. */
  lemma PrimeDividesStep(p: nat, q: nat, x: nat)
    requires IsPrime(p) && q in {2, 3, 5, 7, 11} && Divides(p, q * x)
    ensures p == q || Divides(p, x)
  {
    if p % q == 0 {
      assert p == q * (p / q);
      assert p / q >= 1;
      if p > q {
        assert Divides(q, p);
        assert false;
      }
    } else {
      var s, t := InverseModulo(p, q);
      Quotient(p, q, x, s, t, q * x / p);
      ModOfMultiple(p, s * x - (q * x / p) * t);
    }
  }

  lemma ModOfMultiple(p: nat, k: int)
    requires p > 0
    ensures (p * k) % p == 0
  {
    MulMod(p, k, 0);
  }

  lemma MulMod(p: nat, k: int, r: nat)
    requires r < p
    ensures (p * k + r) % p == r && (p * k + r) / p == k
  {
    var q := (p * k + r) / p;
    var m := (p * k + r) % p;
    assert p * k + r == p * q + m;
    assert p * (k - q) == m - r;
    Multiples(p, k - q);
  }

  lemma Multiples(p: nat, j: int)
    ensures j >= 1 ==> p * j >= p
    ensures j <= -1 ==> p * j <= -(p as int)
  {
    if j >= 1 {
      Scale(p, 1, j);
    } else if j <= -1 {
      Scale(p, 1, -j);
      assert p * j == -(p * -j);
    }
  }

  lemma GoodTimes(q: nat, x: nat)
    requires q in {2, 3, 5, 7, 11} && Good(x)
    ensures Good(q * x)
  {
    forall p: nat | p > 0 && Divides(p, q * x) && IsPrime(p) ensures p in {2, 3, 5, 7, 11} {
      PrimeDividesStep(p, q, x);
    }
  }

  lemma {:induction false} GoodTimesPow(q: nat, e: nat, x: nat)
    requires q in {2, 3, 5, 7, 11} && Good(x)
    ensures Good(x * Pow(q, e))
  {
    if e > 0 {
      GoodTimesPow(q, e - 1, x);
      GoodTimes(q, x * Pow(q, e - 1));
      Next(x, q, e - 1);
    }
  }

  lemma OneIsGood()
    ensures Good(1)
  {
  }

  /** The least divisor above one is prime. */
  lemma LeastDivisor(m: nat) returns (p: nat)
    requires m > 1
    ensures IsPrime(p) && Divides(p, m)
  {
    p := 2;
    while !Divides(p, m)
      invariant 2 <= p <= m
      invariant forall d :: 1 < d < p ==> !Divides(d, m)
      decreases m - p
    {
      p := p + 1;
    }
    forall d | 1 < d < p ensures !Divides(d, p) {
      if Divides(d, p) {
        DividesTransitive(d, p, m);
      }
    }
  }

  lemma DividesTransitive(d: nat, p: nat, m: nat)
    requires d > 0 && p > 0 && Divides(d, p) && Divides(p, m)
    ensures Divides(d, m)
  {
    assert m == p * (m / p) && p == d * (p / d);
    assert m == d * ((p / d) * (m / p));
    ModOfMultiple(d, (p / d) * (m / p));
  }

  /** Every good size is a product of powers. */
  lemma {:induction false} GoodIsProduct(m: nat) returns (a: nat, b: nat, c: nat, d: nat, e: nat)
    requires Good(m)
    ensures m == Product(a, b, c, d, e)
  {
    if m == 1 {
      a, b, c, d, e := 0, 0, 0, 0, 0;
    } else {
      var p := LeastDivisor(m);
      assert p in {2, 3, 5, 7, 11};
      var x := m / p;
      assert m == p * x;
      assert 0 < x < m;
      forall q: nat | q > 0 && Divides(q, x) && IsPrime(q) ensures q in {2, 3, 5, 7, 11} {
        ModOfMultiple(x, p);
        DividesTransitive(q, x, m);
      }
      a, b, c, d, e := GoodIsProduct(x);
      RaiseExponent(a, b, c, d, e);
      if p == 2 { a := a + 1; }
      else if p == 3 { b := b + 1; }
      else if p == 5 { c := c + 1; }
      else if p == 7 { d := d + 1; }
      else { e := e + 1; }
    }
  }

  lemma RaiseExponent(a: nat, b: nat, c: nat, d: nat, e: nat)
    ensures 2 * Product(a, b, c, d, e) == Product(a + 1, b, c, d, e)
    ensures 3 * Product(a, b, c, d, e) == Product(a, b + 1, c, d, e)
    ensures 5 * Product(a, b, c, d, e) == Product(a, b, c + 1, d, e)
    ensures 7 * Product(a, b, c, d, e) == Product(a, b, c, d + 1, e)
    ensures 11 * Product(a, b, c, d, e) == Product(a, b, c, d, e + 1)
  {
    var u, v, w, x, y := Pow(2, a), Pow(3, b), Pow(5, c), Pow(7, d), Pow(11, e);
    Regroup(2, u, v, w, x, y);
    Regroup(3, u, v, w, x, y);
    Regroup(5, u, v, w, x, y);
    Regroup(7, u, v, w, x, y);
    Regroup(11, u, v, w, x, y);
  }

  lemma Regroup(k: nat, u: nat, v: nat, w: nat, x: nat, y: nat)
    ensures k * (u * v * w * x * y) == (k * u) * v * w * x * y == u * (k * v) * w * x * y
         == u * v * (k * w) * x * y == u * v * w * (k * x) * y == u * v * w * x * (k * y)
  {
    assert u * (k * v) == (k * u) * v;
    assert (u * v) * (k * w) == k * (u * v) * w;
    assert (u * v * w) * (k * x) == k * (u * v * w) * x;
    assert (u * v * w * x) * (k * y) == k * (u * v * w * x) * y;
    assert k * (u * v) == (k * u) * v;
    assert k * (u * v * w) == (k * (u * v)) * w;
    assert k * (u * v * w * x) == (k * (u * v * w)) * x;
    assert k * (u * v * w * x * y) == (k * (u * v * w * x)) * y;
  }

  // ----- the bound below 2n -----

  lemma {:induction false} PowerOfTwoBetween(n: nat) returns (a: nat)
    requires n >= 1
    ensures n <= Pow(2, a) < 2 * n
  {
    a := 0;
    while Pow(2, a) < n
      invariant Pow(2, a) < 2 * n
      decreases n - Pow(2, a)
    {
      assert Pow(2, a + 1) == 2 * Pow(2, a);
      PowPositive(2, a);
      a := a + 1;
    }
  }

  /** A bound below every candidate is below every good size. */
  lemma BelowEveryGood(n: nat, best: nat, m: nat)
    requires forall j: nat :: Done3(n, best, Pow(2, j))
    requires m >= n && Good(m)
    ensures best <= m
  {
    var a, b, c, d, e := GoodIsProduct(m);
    assert Done3(n, best, Pow(2, a));
    assert Done5(n, best, Pow(2, a) * Pow(3, b));
    assert Done7(n, best, Pow(2, a) * Pow(3, b) * Pow(5, c));
    assert Done11(n, best, Pow(2, a) * Pow(3, b) * Pow(5, c) * Pow(7, d));
  }

  /** It is then a good size itself: a power of two keeps it from being the initial bound. */
  lemma Minimal(n: nat, best: nat)
    requires n >= 1 && Candidate(n, best)
    requires forall j: nat :: Done3(n, best, Pow(2, j))
    ensures Good(best)
    ensures forall m: nat :: m >= n && Good(m) ==> best <= m
  {
    forall m: nat | m >= n && Good(m) ensures best <= m {
      BelowEveryGood(n, best, m);
    }
    var k := PowerOfTwoBetween(n);
    OneIsGood();
    GoodTimesPow(2, k, 1);
  }

  lemma SmallAreGood(n: nat)
    requires 1 <= n <= 6
    ensures Good(n)
  {
    OneIsGood();
    GoodTimes(2, 1);
    GoodTimes(3, 1);
    GoodTimes(2, 2);
    GoodTimes(5, 1);
    GoodTimes(2, 3);
  }

  // ----- the search, one method a loop, innermost first -----

  method Search11(n: nat, bound: nat, f2357: nat) returns (best: nat)
    requires Candidate(n, bound) && Good(f2357)
    ensures Candidate(n, best) && best <= bound && Done11(n, best, f2357)
  {
    best := bound;
    var f235711 := f2357;
    ghost var e := 0;
    while f235711 < best
      invariant f235711 == f2357 * Pow(11, e) && Good(f235711) && Candidate(n, best) && best <= bound
      invariant forall j: nat :: j < e && f2357 * Pow(11, j) >= n ==> best <= f2357 * Pow(11, j)
      decreases 2 * n - f235711
    {
      if f235711 >= n {
        best := f235711;
      }
      Next(f2357, 11, e);
      GoodTimes(11, f235711);
      f235711 := f235711 * 11;
      e := e + 1;
    }
    Leave11(n, best, f2357, e);
  }

  method Search7(n: nat, bound: nat, f235: nat) returns (best: nat)
    requires Candidate(n, bound) && Good(f235)
    ensures Candidate(n, best) && best <= bound && Done7(n, best, f235)
  {
    best := bound;
    var f2357 := f235;
    ghost var d := 0;
    while f2357 < best
      invariant f2357 == f235 * Pow(7, d) && Good(f2357) && Candidate(n, best) && best <= bound
      invariant forall j: nat :: j < d ==> Done11(n, best, f235 * Pow(7, j))
      decreases 2 * n - f2357
    {
      ghost var before := best;
      best := Search11(n, best, f2357);
      forall j: nat | j < d ensures Done11(n, best, f235 * Pow(7, j)) {
        Shrink(n, before, best, f235 * Pow(7, j));
      }
      Next(f235, 7, d);
      GoodTimes(7, f2357);
      f2357 := f2357 * 7;
      d := d + 1;
    }
    Leave7(n, best, f235, d);
  }

  method Search5(n: nat, bound: nat, f23: nat) returns (best: nat)
    requires Candidate(n, bound) && Good(f23)
    ensures Candidate(n, best) && best <= bound && Done5(n, best, f23)
  {
    best := bound;
    var f235 := f23;
    ghost var c := 0;
    while f235 < best
      invariant f235 == f23 * Pow(5, c) && Good(f235) && Candidate(n, best) && best <= bound
      invariant forall j: nat :: j < c ==> Done7(n, best, f23 * Pow(5, j))
      decreases 2 * n - f235
    {
      ghost var before := best;
      best := Search7(n, best, f235);
      forall j: nat | j < c ensures Done7(n, best, f23 * Pow(5, j)) {
        Shrink(n, before, best, f23 * Pow(5, j));
      }
      Next(f23, 5, c);
      GoodTimes(5, f235);
      f235 := f235 * 5;
      c := c + 1;
    }
    Leave5(n, best, f23, c);
  }

  method Search3(n: nat, bound: nat, f2: nat) returns (best: nat)
    requires Candidate(n, bound) && Good(f2)
    ensures Candidate(n, best) && best <= bound && Done3(n, best, f2)
  {
    best := bound;
    var f23 := f2;
    ghost var b := 0;
    while f23 < best
      invariant f23 == f2 * Pow(3, b) && Good(f23) && Candidate(n, best) && best <= bound
      invariant forall j: nat :: j < b ==> Done5(n, best, f2 * Pow(3, j))
      decreases 2 * n - f23
    {
      ghost var before := best;
      best := Search5(n, best, f23);
      forall j: nat | j < b ensures Done5(n, best, f2 * Pow(3, j)) {
        Shrink(n, before, best, f2 * Pow(3, j));
      }
      Next(f2, 3, b);
      GoodTimes(3, f23);
      f23 := f23 * 3;
      b := b + 1;
    }
    Leave3(n, best, f2, b);
  }

  method SearchFrom(n: nat) returns (best: nat)
    requires n >= 1
    ensures n <= best && Good(best)
    ensures forall m: nat :: m >= n && Good(m) ==> best <= m
  {
    var f2 := 1;
    best := 2 * n;
    ghost var a := 0;
    OneIsGood();
    while f2 < best
      invariant f2 == Pow(2, a) && Good(f2) && Candidate(n, best)
      invariant forall j: nat :: j < a ==> Done3(n, best, Pow(2, j))
      decreases 2 * n - f2
    {
      ghost var before := best;
      best := Search3(n, best, f2);
      forall j: nat | j < a ensures Done3(n, best, Pow(2, j)) {
        Shrink(n, before, best, Pow(2, j));
      }
      GoodTimes(2, f2);
      f2 := f2 * 2;
      a := a + 1;
    }
    Leave2(n, best, a);
    Minimal(n, best);
  }

  /** Below 7 the argument is returned as it is: good when positive, and zero or negative otherwise. */
  method FftNextGoodSize(n: int) returns (best: int)
    ensures n >= 1 ==> n <= best && Good(best)
    ensures n >= 1 ==> forall m: nat :: m >= n && Good(m) ==> best <= m
    ensures n < 1 ==> best == n
  {
    if n <= 6 {
      if n >= 1 {
        SmallAreGood(n);
      }
      return n;
    }
    best := SearchFrom(n);
  }
}
