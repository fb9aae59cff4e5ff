/** Names of rotating log files: a base name, a dot and an index of at least ten digits; and their order as text. */
module LogNames {
  import opened Wrappers
  import opened Decimal

  const WIDTH: nat := 10

  /** Decimal text of `n`, zero-padded to at least `w` digits. */
  function Pad(n: nat, w: nat): string
    decreases n + w
  {
    if w > 1 then Pad(n / 10, w - 1) + [Digit(n % 10)]
    else if n < 10 then [Digit(n)]
    else Pad(n / 10, w) + [Digit(n % 10)]
  }

  function NameOf(base: string, i: nat): string {
    base + "." + Pad(i, WIDTH)
  }

  /** The text after the last dot. */
  function AfterDot(s: string): string {
    if s == "" || s[|s| - 1] == '.' then "" else AfterDot(s[..|s| - 1]) + [s[|s| - 1]]
  }

  /** The index of a file name, if what follows its last dot is a number. */
  function Index(name: string): Option<nat> {
    Parse(AfterDot(name))
  }

  lemma {:induction false} PadParses(n: nat, w: nat)
    ensures Pad(n, w) != "" && Parse(Pad(n, w)) == Some(n)
    ensures forall i :: 0 <= i < |Pad(n, w)| ==> IsDigit(Pad(n, w)[i])
    decreases n + w
  {
    var s := Pad(n, w);
    if w > 1 {
      PadParses(n / 10, w - 1);
      assert s[..|s| - 1] == Pad(n / 10, w - 1);
    } else if n >= 10 {
      PadParses(n / 10, w);
      assert s[..|s| - 1] == Pad(n / 10, w);
    }
  }

  lemma {:induction false} AfterDotOfDigits(front: string, digits: string)
    requires forall i :: 0 <= i < |digits| ==> IsDigit(digits[i])
    ensures AfterDot(front + "." + digits) == digits
    decreases |digits|
  {
    var s := front + "." + digits;
    if digits != "" {
      var fewer := digits[..|digits| - 1];
      AfterDotOfDigits(front, fewer);
      assert s[..|s| - 1] == front + "." + fewer;
    }
  }

  /** The handler reads back the index it wrote, so a new index makes a new name. */
  lemma IndexOfName(base: string, i: nat)
    ensures Index(NameOf(base, i)) == Some(i)
  {
    PadParses(i, WIDTH);
    AfterDotOfDigits(base, Pad(i, WIDTH));
  }

  // ----- the order of texts -----

  /** Text `a` comes before `b`: at the first difference it has the smaller character, or it ends. */
  ghost predicate Less(a: string, b: string) {
    exists k :: Differ(a, b, k)
  }

  ghost predicate Differ(a: string, b: string, k: nat) {
    k <= |a| && k < |b| && a[..k] == b[..k] && (k == |a| || a[k] < b[k])
  }

  function Pow10(w: nat): nat {
    if w == 0 then 1 else 10 * Pow10(w - 1)
  }

  lemma {:induction false} PadLength(n: nat, w: nat)
    requires 0 < w && n < Pow10(w)
    ensures |Pad(n, w)| == w
    decreases w
  {
    if w > 1 {
      PadLength(n / 10, w - 1);
    }
  }

  /** Padded numbers are ordered as text as they are as numbers. */
  lemma {:induction false} PadOrder(n: nat, m: nat, w: nat) returns (k: nat)
    requires 0 < w && n < m < Pow10(w)
    ensures k < w == |Pad(n, w)| == |Pad(m, w)| && Differ(Pad(n, w), Pad(m, w), k) && Pad(n, w)[k] < Pad(m, w)[k]
    decreases w
  {
    PadLength(n, w);
    PadLength(m, w);
    if w == 1 {
      k := 0;
    } else if n / 10 < m / 10 {
      k := PadOrder(n / 10, m / 10, w - 1);
      PadLength(n / 10, w - 1);
      PadLength(m / 10, w - 1);
      assert Pad(n, w)[..k] == Pad(n / 10, w - 1)[..k];
      assert Pad(m, w)[..k] == Pad(m / 10, w - 1)[..k];
    } else {
      k := w - 1;
      PadLength(n / 10, w - 1);
      assert Pad(n, w)[..k] == Pad(n / 10, w - 1) == Pad(m, w)[..k];
    }
  }

  lemma NamesOrdered(base: string, i: nat, j: nat)
    requires i < j < Pow10(WIDTH)
    ensures Less(NameOf(base, i), NameOf(base, j))
  {
    var k := PadOrder(i, j, WIDTH);
    var n := |base| + 1 + k;
    var a, b := NameOf(base, i), NameOf(base, j);
    assert a[..n] == (base + ".") + Pad(i, WIDTH)[..k];
    assert b[..n] == (base + ".") + Pad(j, WIDTH)[..k];
    assert Differ(a, b, n);
  }

  lemma TenDigits()
    ensures Pow10(WIDTH) == 10000000000
  {
    assert Pow10(5) == 100000;
    assert Pow10(10) == 100000 * Pow10(5);
  }

  /** The handler's names have exactly ten digits after the dot until its ten thousand millionth log. */
  lemma NameHasTenDigits(base: string, i: nat) returns (digits: string)
    requires i < 10000000000
    ensures NameOf(base, i) == base + "." + digits && |digits| == 10
    ensures Parse(digits) == Some(i) && forall k :: 0 <= k < 10 ==> IsDigit(digits[k])
  {
    digits := Pad(i, WIDTH);
    TenDigits();
    PadLength(i, WIDTH);
    PadParses(i, WIDTH);
  }
}
