/**
 A moving average over a ring with an incrementally maintained sum, and the message-frequency check
 built on two of them: the averages telescope to plain message rates.
 */
module MovingAverage {
  import opened Wrappers
  import opened Sums
  import opened Positions
  import opened Extremes

  /** The last `n` values, or all of fewer. */
  function LastOf(history: seq<real>, n: nat): seq<real> {
    history[|history| - Least(|history|, n)..]
  }

  /** Values less than one lap back are in their slots, and slots never filled hold zero. */
  ghost predicate InRing(ring: seq<real>, history: seq<real>)
    requires ring != []
  {
    && (forall q: nat :: q < |history| <= q + |ring| ==> ring[q % |ring|] == history[q])
    && (forall i :: |history| <= i < |ring| ==> ring[i] == 0.0)
  }

  /** What the slot to be overwritten holds. */
  function Leaving(history: seq<real>, slots: nat): real
    requires slots > 0
  {
    if |history| < slots then 0.0 else history[|history| - slots]
  }

  lemma SlotLeaves(ring: seq<real>, history: seq<real>)
    requires ring != [] && InRing(ring, history)
    ensures ring[|history| % |ring|] == Leaving(history, |ring|)
  {
    var n := |history|;
    if n < |ring| {
      DivMod(n, |ring|, 0, n);
    } else {
      Lap(n - |ring|, |ring|);
      assert ring[(n - |ring|) % |ring|] == history[n - |ring|];
    }
  }

  lemma RingAdd(ring: seq<real>, history: seq<real>, x: real)
    requires ring != [] && InRing(ring, history)
    ensures InRing(ring[|history| % |ring| := x], history + [x])
  {
    var n, w := |history|, |ring|;
    var after := ring[n % w := x];
    forall q: nat | q < n + 1 <= q + w ensures after[q % w] == (history + [x])[q] {
      if q < n {
        SlotsDistinct(q, n, w);
        assert ring[q % w] == history[q];
      }
    }
    forall i | n + 1 <= i < w ensures after[i] == 0.0 {
      DivMod(n, w, 0, n);
    }
  }

  lemma {:induction false} DropFirst(s: seq<real>)
    requires s != []
    ensures Sum(s[1..]) == Sum(s) - s[0]
  {
    assert s == [s[0]] + s[1..];
    SumConcat([s[0]], s[1..]);
    SumAppend([], s[0]);
    assert [] + [s[0]] == [s[0]];
  }

  lemma SumSlides(history: seq<real>, x: real, slots: nat)
    requires slots > 0
    ensures Sum(LastOf(history + [x], slots)) == Sum(LastOf(history, slots)) - Leaving(history, slots) + x
  {
    var kept, slid := LastOf(history, slots), LastOf(history + [x], slots);
    if |history| < slots {
      assert slid == kept + [x];
      SumAppend(kept, x);
    } else {
      DropFirst(kept);
      var rest := kept[1..];
      assert slid == rest + [x];
      SumAppend(rest, x);
    }
  }

  /** One value overwrites the slot of the one that leaves. */
  lemma Slide(ring: seq<real>, history: seq<real>, x: real)
    requires ring != [] && InRing(ring, history)
    ensures var i := |history| % |ring|;
      && InRing(ring[i := x], history + [x])
      && Sum(LastOf(history + [x], |ring|)) == Sum(LastOf(history, |ring|)) - ring[i] + x
  {
    SlotLeaves(ring, history);
    RingAdd(ring, history, x);
    SumSlides(history, x, |ring|);
  }

  /** Ring, sum, index and count stand for the newest values of the history. */
  ghost predicate Follows(ring: seq<real>, history: seq<real>, sum: real, index: nat, count: nat) {
    && ring != [] && InRing(ring, history)
    && index == |history| % |ring| && count == Least(|history|, |ring|)
    && sum == Sum(LastOf(history, |ring|))
  }

  lemma AddFollows(ring: seq<real>, history: seq<real>, sum: real, index: nat, count: nat, x: real)
    requires Follows(ring, history, sum, index, count)
    ensures Follows(ring[index := x], history + [x], sum - ring[index] + x, (index + 1) % |ring|,
                    if count + 1 <= |ring| then count + 1 else |ring|)
  {
    Slide(ring, history, x);
    NextSlot(|history|, |ring|);
  }

  class MovingAverage {
    const windowSize: nat
    var buffer: array<real>
    var index: nat
    var count: nat
    var sum: real
    ghost var history: seq<real>

    ghost predicate Valid()
      reads this, buffer
    {
      buffer.Length == windowSize && Follows(buffer[..], history, sum, index, count)
    }

    constructor (windowSize: nat)
      requires windowSize > 0
      ensures Valid() && fresh(buffer) && history == [] && this.windowSize == windowSize
    {
      this.windowSize := windowSize;
      buffer := new real[windowSize](_ => 0.0);
      index, count, sum := 0, 0, 0.0;
      history := [];
    }

    method AddValue(x: real)
      requires Valid()
      modifies this, buffer
      ensures Valid() && history == old(history) + [x] && buffer == old(buffer)
    {
      AddFollows(buffer[..], history, sum, index, count, x);
      Replace(x);
      index := (index + 1) % windowSize;
      count := if count + 1 <= windowSize then count + 1 else windowSize;
      history := history + [x];
    }

    /** The value in the current slot leaves the sum and `x` takes its place. */
    method Replace(x: real)
      requires index < buffer.Length
      modifies this`sum, buffer
      ensures sum == old(sum) - old(buffer[index]) + x
      ensures buffer[..] == old(buffer[..])[index := x]
    {
      sum := sum - buffer[index];
      buffer[index] := x;
      sum := sum + x;
    }

    /** None is nan. */
    method GetAverage() returns (avg: Option<real>)
      requires Valid()
      ensures avg == if history == [] then None else Some(Mean(LastOf(history, windowSize)))
    {
      avg := if count == 0 then None else Some(sum / count as real);
    }
  }
}
