/** Per-service message rate: whether the long or the short window is within its band. */
module FrequencyTracker {
  import opened Wrappers
  import opened Sums
  import opened MovingAverage
  import opened Extremes

  /** A receive time at or below this does not count as a previous message. */
  const UNSET := 0.00001

  datatype Band = Band(minFreq: real, maxFreq: real, freq: real)

  function BandOf(serviceFreq: real, updateFreq: real, isPoll: bool): (b: Band)
    ensures b.freq >= 1.0
  {
    var freq := Max(Min(serviceFreq, updateFreq), 1.0);
    var (lo, hi) :=
      if isPoll then (freq, freq)
      else (if serviceFreq >= 2.0 * updateFreq then updateFreq
            else if updateFreq >= 2.0 * serviceFreq then freq
            else Min(freq, freq / 2.0),
            Min(freq, updateFreq));
    Band(lo * 0.8, hi * 1.2, freq)
  }

  function LongWindow(b: Band): (w: nat)
    requires b.freq >= 1.0
    ensures w > 0
  {
    (10.0 * b.freq).Floor
  }

  function ShortWindow(b: Band): (w: nat)
    requires b.freq >= 1.0
    ensures w > 0
  {
    b.freq.Floor
  }

  predicate InBand(b: Band, rate: real) {
    b.minFreq <= rate <= b.maxFreq
  }

  /** The gaps recorded for the first `n` times: none after a time that counts as unset. */
  function GapsTo(times: seq<real>, n: nat): seq<real>
    requires n <= |times|
  {
    if n < 2 then []
    else GapsTo(times, n - 1) + (if times[n - 2] > UNSET then [times[n - 1] - times[n - 2]] else [])
  }

  function Gaps(times: seq<real>): seq<real> {
    GapsTo(times, |times|)
  }

  lemma {:induction false} GapsPrefix(times: seq<real>, t: real, n: nat)
    requires n <= |times|
    ensures GapsTo(times + [t], n) == GapsTo(times, n)
  {
    if n >= 2 {
      GapsPrefix(times, t, n - 1);
    }
  }

  lemma GapsAppend(times: seq<real>, t: real)
    ensures Gaps(times + [t]) ==
      if times != [] && times[|times| - 1] > UNSET then Gaps(times) + [t - times[|times| - 1]] else Gaps(times)
  {
    GapsPrefix(times, t, |times|);
  }

  class FrequencyTracker {
    const band: Band
    const avgDt: MovingAverage
    const recentAvgDt: MovingAverage
    var prevTime: real
    ghost var times: seq<real>

    ghost predicate Valid()
      reads this, avgDt, recentAvgDt, avgDt.buffer, recentAvgDt.buffer
    {
      && avgDt != recentAvgDt && avgDt.buffer != recentAvgDt.buffer
      && avgDt.Valid() && recentAvgDt.Valid()
      && band.freq >= 1.0 && avgDt.windowSize == LongWindow(band) && recentAvgDt.windowSize == ShortWindow(band)
      && avgDt.history == Gaps(times) == recentAvgDt.history
      && prevTime == (if times == [] then 0.0 else times[|times| - 1])
    }

    constructor (serviceFreq: real, updateFreq: real, isPoll: bool)
      ensures Valid() && times == [] && band == BandOf(serviceFreq, updateFreq, isPoll)
    {
      var b := BandOf(serviceFreq, updateFreq, isPoll);
      band := b;
      avgDt := new MovingAverage(LongWindow(b));
      recentAvgDt := new MovingAverage(ShortWindow(b));
      prevTime := 0.0;
      times := [];
    }

    method RecordRecvTime(curTime: real)
      requires Valid()
      modifies this, avgDt, recentAvgDt, avgDt.buffer, recentAvgDt.buffer
      ensures Valid() && times == old(times) + [curTime]
    {
      ghost var gaps := Gaps(times + [curTime]);
      GapsAppend(times, curTime);
      if prevTime > UNSET {
        AddGap(curTime - prevTime);
      }
      assert avgDt.Valid() && recentAvgDt.Valid() && avgDt.history == gaps == recentAvgDt.history;
      prevTime := curTime;
      times := times + [curTime];
    }

    /** Both averages take the gap. */
    method AddGap(dt: real)
      requires avgDt != recentAvgDt && avgDt.buffer != recentAvgDt.buffer && avgDt.Valid() && recentAvgDt.Valid()
      modifies avgDt, recentAvgDt, avgDt.buffer, recentAvgDt.buffer
      ensures avgDt.Valid() && avgDt.history == old(avgDt.history) + [dt] && avgDt.buffer == old(avgDt.buffer)
      ensures recentAvgDt.Valid() && recentAvgDt.history == old(recentAvgDt.history) + [dt]
      ensures recentAvgDt.buffer == old(recentAvgDt.buffer)
    {
      avgDt.AddValue(dt);
      recentAvgDt.AddValue(dt);
    }

    /** None when a consulted average is zero, on which the division raises. */
    method IsValid() returns (valid: Option<bool>)
      requires Valid()
      ensures valid == Verdict(band, Gaps(times))
    {
      if avgDt.count == 0 {
        return Some(false);
      }
      var long := avgDt.GetAverage();
      if long.value == 0.0 {
        return None;
      }
      var avgFreq := 1.0 / long.value;
      if band.minFreq <= avgFreq <= band.maxFreq {
        return Some(true);
      }
      var recent := recentAvgDt.GetAverage();
      if recent.value == 0.0 {
        return None;
      }
      var avgFreqRecent := 1.0 / recent.value;
      return Some(band.minFreq <= avgFreqRecent <= band.maxFreq);
    }
  }

  function WindowMean(gaps: seq<real>, window: nat): real
    requires gaps != [] && window > 0
  {
    Mean(LastOf(gaps, window))
  }

  function Inverse(x: real): real
    requires x != 0.0
  {
    1.0 / x
  }

  function Verdict(b: Band, gaps: seq<real>): Option<bool>
    requires b.freq >= 1.0
  {
    if gaps == [] then Some(false)
    else
      var long, recent := WindowMean(gaps, LongWindow(b)), WindowMean(gaps, ShortWindow(b));
      if long == 0.0 then None
      else if InBand(b, Inverse(long)) then Some(true)
      else if recent == 0.0 then None
      else Some(InBand(b, Inverse(recent)))
  }

  // ----- averages of gaps are rates -----

  predicate Increasing(times: seq<real>) {
    (times != [] ==> times[0] > 0.00001) && forall i, j :: 0 <= i < j < |times| ==> times[i] < times[j]
  }

  lemma {:induction false} GapsOfIncreasing(times: seq<real>, n: nat)
    requires Increasing(times) && 0 < n <= |times|
    ensures |GapsTo(times, n)| == n - 1
    ensures forall i :: 0 <= i < n - 1 ==> GapsTo(times, n)[i] == times[i + 1] - times[i]
  {
    if n > 1 {
      GapsOfIncreasing(times, n - 1);
      assert times[n - 2] >= times[0];
    }
  }

  /** Consecutive gaps telescope. */
  lemma {:induction false} Telescope(times: seq<real>, n: nat, from: nat)
    requires Increasing(times) && from < n <= |times|
    ensures |GapsTo(times, n)| == n - 1
    ensures Sum(GapsTo(times, n)[from..]) == times[n - 1] - times[from]
  {
    GapsOfIncreasing(times, n);
    if from + 1 < n {
      Telescope(times, n - 1, from);
      LastGap(times, n, from);
    }
  }

  lemma LastGap(times: seq<real>, n: nat, from: nat)
    requires Increasing(times) && from + 1 < n <= |times|
    ensures |GapsTo(times, n - 1)| == n - 2 && |GapsTo(times, n)| == n - 1
    ensures Sum(GapsTo(times, n)[from..]) == Sum(GapsTo(times, n - 1)[from..]) + (times[n - 1] - times[n - 2])
  {
    GapsOfIncreasing(times, n);
    GapsOfIncreasing(times, n - 1);
    var front, last := GapsTo(times, n - 1), times[n - 1] - times[n - 2];
    assert GapsTo(times, n)[from..] == front[from..] + [last];
    SumAppend(front[from..], last);
  }

  function Per(k: nat, d: real): real
    requires d != 0.0
  {
    k as real / d
  }

  /** The rate of the last `k` gaps: messages per second between the newest time and the k-th before it. */
  function Rate(times: seq<real>, k: nat): real
    requires 0 < k < |times| && times[|times| - 1] != times[|times| - 1 - k]
  {
    Per(k, times[|times| - 1] - times[|times| - 1 - k])
  }

  lemma Reciprocal(d: real, k: real)
    requires d > 0.0 && k > 0.0
    ensures d / k > 0.0 && 1.0 / (d / k) == k / d
  {
    assert (d / k) * (k / d) == 1.0;
  }

  lemma PositiveMean(s: seq<real>, k: nat, d: real)
    requires k == |s| > 0 && Sum(s) == d > 0.0
    ensures Mean(s) > 0.0 && Inverse(Mean(s)) == Per(k, d)
  {
    Reciprocal(d, k as real);
  }

  lemma SumOfWindow(times: seq<real>, window: nat)
    requires Increasing(times) && |times| > 1 && window > 0
    ensures var k := Least(|times| - 1, window);
      && |Gaps(times)| == |times| - 1 && |LastOf(Gaps(times), window)| == k
      && times[|times| - 1 - k] < times[|times| - 1]
      && Sum(LastOf(Gaps(times), window)) == times[|times| - 1] - times[|times| - 1 - k]
  {
    var k := Least(|times| - 1, window);
    Telescope(times, |times|, |times| - 1 - k);
    assert LastOf(Gaps(times), window) == Gaps(times)[|times| - 1 - k..];
  }

  lemma MeanIsRate(times: seq<real>, window: nat)
    requires Increasing(times) && |times| > 1 && window > 0
    ensures var k := Least(|times| - 1, window);
      && Gaps(times) != [] && times[|times| - 1 - k] < times[|times| - 1]
      && WindowMean(Gaps(times), window) > 0.0 && Inverse(WindowMean(Gaps(times), window)) == Rate(times, k)
  {
    var k := Least(|times| - 1, window);
    SumOfWindow(times, window);
    PositiveMean(LastOf(Gaps(times), window), k, times[|times| - 1] - times[|times| - 1 - k]);
  }

  /** The rate over a window of at most `window` gaps lies in the band. */
  predicate RateInBand(b: Band, times: seq<real>, window: nat)
    requires Increasing(times)
  {
    |times| > 1 && window > 0 && InBand(b, Rate(times, Least(|times| - 1, window)))
  }

  /**
   For strictly increasing receive times a tracker is valid exactly when two messages have arrived and
   the message rate over the long window, or over the short one, lies in the band.
   */
  lemma ValidIffRateInBand(b: Band, times: seq<real>)
    requires b.freq >= 1.0 && Increasing(times)
    ensures Verdict(b, Gaps(times)) == Some(RateInBand(b, times, LongWindow(b)) || RateInBand(b, times, ShortWindow(b)))
  {
    if |times| > 1 {
      GapsOfIncreasing(times, |times|);
      MeanIsRate(times, LongWindow(b));
      MeanIsRate(times, ShortWindow(b));
    }
  }

  /** The slower of the two rates, but at least one message per second. */
  function Slower(serviceFreq: real, updateFreq: real): real {
    if serviceFreq >= updateFreq then (if updateFreq >= 1.0 then updateFreq else 1.0)
    else (if serviceFreq >= 1.0 then serviceFreq else 1.0)
  }

  /**
   With updates at least once a second a rate is in the band if it is within 20 percent of the slower rate; it
   may fall to 40 percent of it unless one rate is twice the other or the service is polled. The windows are
   the messages of 10 s and of 1 s at that rate.
   */
  lemma BandIff(serviceFreq: real, updateFreq: real, isPoll: bool, rate: real)
    ensures var b, f := BandOf(serviceFreq, updateFreq, isPoll), Slower(serviceFreq, updateFreq);
      && LongWindow(b) as real <= 10.0 * f < LongWindow(b) as real + 1.0
      && ShortWindow(b) as real <= f < ShortWindow(b) as real + 1.0
      && (isPoll ==> (InBand(b, rate) <==> 0.8 * f <= rate <= 1.2 * f))
      && (updateFreq >= 1.0 && !isPoll ==>
           (InBand(b, rate) <==>
              rate <= 1.2 * f &&
              rate >= (if serviceFreq >= 2.0 * updateFreq || updateFreq >= 2.0 * serviceFreq then 0.8 * f else 0.4 * f)))
  {
  }

  /**
   Updates less than once a second are held to their own rate above, but below to 20 percent under it only if
   the service is at least twice as fast; otherwise to 0.4 or 0.8 per second, which may leave no valid rate.
   */
  lemma SlowBandIff(serviceFreq: real, updateFreq: real, rate: real)
    requires updateFreq < 1.0
    ensures InBand(BandOf(serviceFreq, updateFreq, false), rate) <==>
              && rate <= 1.2 * updateFreq
              && rate >= if serviceFreq >= 2.0 * updateFreq then 0.8 * updateFreq
                         else if updateFreq >= 2.0 * serviceFreq then 0.8 else 0.4
  {
  }
}
