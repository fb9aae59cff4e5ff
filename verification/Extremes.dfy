/** The smaller and the larger of two numbers, and the newest part of a sequence. */
module Extremes {
  function Max(a: real, b: real): real {
    if b > a then b else a
  }

  function Min(a: real, b: real): real {
    if b < a then b else a
  }

  function Least(a: nat, b: nat): nat {
    if a <= b then a else b
  }

  /** The last `n` elements, or all of fewer. */
  function Newest<T>(s: seq<T>, n: nat): seq<T> {
    if |s| <= n then s else s[|s| - n..]
  }

  /** A bounded buffer that appends and then drops its oldest element holds the newest of everything appended. */
  lemma NewestAppend<T>(s: seq<T>, n: nat, x: T)
    requires n > 0
    ensures var longer := Newest(s, n) + [x];
      Newest(s + [x], n) == if |longer| > n then longer[1..] else longer
  {
  }
}
