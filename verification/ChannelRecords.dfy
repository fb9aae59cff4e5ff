/**
 The record of a change channel against everything that was fed to the channel. The record's clock counts
 hundredths of a second from the edge; at each of them a record reads back the channel's value, unless the
 bounded buffer lost it, which the pace of the card loop rules out.
 */
module ChannelRecords {
  import opened Wrappers
  import opened Extremes
  import opened Rounding
  import opened ChangeChannel

  // ----- what the bounded buffer keeps -----

  lemma {:induction false} ChangesOrdered(h: seq<Sample>)
    requires Ordered(h)
    ensures Ordered(Changes(h)) && (h != [] ==> Changes(h) != [] && Changes(h)[0] == h[0])
    ensures forall i :: 0 <= i < |Changes(h)| ==> Changes(h)[i].t <= Last(h).t
    ensures h != [] ==> Last(Changes(h)).v == Last(h).v
  {
    if h != [] {
      ChangesOrdered(Front(h));
    }
  }

  lemma {:induction false} ChangesFit(cols: seq<string>, h: seq<Sample>)
    requires Fits(cols, h)
    ensures Fits(cols, Changes(h))
  {
    if h != [] {
      ChangesFit(cols, Front(h));
    }
  }

  /** Dropping repeated samples does not change the value at any moment. */
  lemma {:induction false} ChangesKeepValues(h: seq<Sample>, t: real)
    requires Ordered(h)
    ensures ValueAt(Changes(h), t) == ValueAt(h, t)
  {
    if h != [] {
      var f := Front(h);
      ChangesKeepValues(f, t);
      if f != [] && Last(f).v == Last(h).v {
        if Last(h).t <= t { assert ValueAt(f, t) == Some(Last(f).v); }
      } else {
        assert Front(Changes(h)) == Changes(f);
      }
    }
  }

  /** What the newest samples say is what all of them say; they are silent exactly before the oldest kept. */
  lemma {:induction false} SuffixValue(c: seq<Sample>, k: nat, t: real)
    requires k <= |c| && Ordered(c)
    ensures ValueAt(c[k..], t).Some? ==> ValueAt(c[k..], t) == ValueAt(c, t)
    ensures ValueAt(c[k..], t).Some? <==> k < |c| && c[k].t <= t
    decreases |c|
  {
    if k < |c| {
      SuffixValue(Front(c), k, t);
      assert Front(c[k..]) == Front(c)[k..];
    }
  }

  /** Cutting off samples up to `t0` keeps the samples inside the window. */
  lemma {:induction false} SuffixInside(c: seq<Sample>, k: nat, t0: real, t1: real)
    requires k <= |c| && Ordered(c)
    requires forall i :: 0 <= i < k ==> c[i].t <= t0
    ensures Inside(c[k..], t0, t1) == Inside(c, t0, t1)
    decreases |c|
  {
    if k < |c| {
      SuffixInside(Front(c), k, t0, t1);
      assert Front(c[k..]) == Front(c)[k..];
    } else {
      NothingInside(c, t0, t1);
    }
  }

  // ----- the clock of a record -----

  lemma StampBounds(y: real)
    ensures y <= -3.0 ==> Round2(y) <= -3.0
    ensures y >= -3.0 ==> Round2(y) >= -3.0
    ensures y <= 1.0 ==> Round2(y) <= 1.0
    ensures y >= 1.0 ==> Round2(y) >= 1.0
  {
    assert Round2(-3.0) == -3.0 && Round2(1.0) == 1.0;
    if y <= -3.0 { Round2Monotone(y, -3.0); } else { Round2Monotone(-3.0, y); }
    if y <= 1.0 { Round2Monotone(y, 1.0); } else { Round2Monotone(1.0, y); }
  }

  lemma StampedOrdered(h: seq<Sample>, edge: real)
    requires Ordered(h)
    ensures Ordered(Stamped(h, edge))
  {
    forall i, j | 0 <= i < j < |h| ensures Round2(h[i].t - edge) <= Round2(h[j].t - edge) {
      Round2Monotone(h[i].t - edge, h[j].t - edge);
    }
  }

  lemma StampedFront(h: seq<Sample>, edge: real)
    requires h != []
    ensures Front(Stamped(h, edge)) == Stamped(Front(h), edge)
    ensures Last(Stamped(h, edge)) == Sample(Round2(Last(h).t - edge), Last(h).v)
  {
  }

  lemma StampedAppend(h: seq<Sample>, s: Sample, edge: real)
    ensures Stamped(h + [s], edge) == Stamped(h, edge) + [Sample(Round2(s.t - edge), s.v)]
  {
  }

  /** Stamping changes times only, so it commutes with dropping repeats. */
  lemma {:induction false} StampedChanges(h: seq<Sample>, edge: real)
    ensures Changes(Stamped(h, edge)) == Stamped(Changes(h), edge)
  {
    if h != [] {
      var f := Front(h);
      StampedChanges(f, edge);
      StampedFront(h, edge);
      if f != [] { StampedFront(f, edge); }
      StampedAppend(Changes(f), Last(h), edge);
    }
  }

  /** What a channel's value is at `x` on the record's clock; the end of the window is its true end. */
  function Recorded(h: seq<Sample>, edge: real, x: real): Option<seq<Signal>> {
    if x < 1.0 then ValueAt(Stamped(h, edge), x) else ValueAt(h, edge + 1.0)
  }

  predicate OnClock(x: real) {
    -3.0 <= x <= 1.0
  }

  /** The record's clock is off by at most 5 ms: at a hundredth `x` it has the value of a moment that near. */
  lemma {:induction false} ClockIsClose(h: seq<Sample>, edge: real, x: real) returns (t: real)
    requires Ordered(h) && Round2(x) == x
    ensures edge + x - 0.005 <= t <= edge + x + 0.005
    ensures Round2(t - edge) <= x && ValueAt(Stamped(h, edge), x) == ValueAt(h, t)
  {
    if h == [] {
      t := edge + x;
    } else {
      StampedFront(h, edge);
      var y := Last(h).t - edge;
      if Round2(y) <= x {
        StampNear(y, x);
        t := if y > x - 0.005 then Last(h).t else edge + (x - 0.005);
        Round2Monotone(x - 0.005, x);
      } else {
        t := ClockIsClose(Front(h), edge, x);
        if Last(h).t <= t { Round2Monotone(y, t - edge); }
      }
    }
  }

  lemma StampNear(y: real, x: real)
    requires Round2(y) <= x
    ensures y <= x + 0.005
  {
    assert Nearest(y * 100.0) as real >= y * 100.0 - 0.5;
  }

  lemma RecordedFits(cols: seq<string>, h: seq<Sample>, edge: real, x: real)
    requires Fits(cols, h)
    ensures Recorded(h, edge, x).Some? ==> |Recorded(h, edge, x).value| == |cols|
  {
    assert Fits(cols, Stamped(h, edge));
    Fitting(cols, Stamped(h, edge), x, x);
    Fitting(cols, h, edge + 1.0, edge + 1.0);
  }

  /** Inside the window the last value known on the record's clock is the channel's. */
  lemma {:induction false} KnownIsRecorded(h: seq<Sample>, edge: real, x: real)
    requires Ordered(h) && OnClock(x)
    ensures Known(ValueAt(h, edge - 3.0), Stamped(Inside(h, edge - 3.0, edge + 1.0), edge), x) == Recorded(h, edge, x)
  {
    if h != [] {
      var f, t0, t1, y := Front(h), edge - 3.0, edge + 1.0, Last(h).t - edge;
      KnownIsRecorded(f, edge, x);
      StampedFront(h, edge);
      StampBounds(y);
      if t0 < Last(h).t <= t1 {
        StampedAppend(Inside(f, t0, t1), Last(h), edge);
        KnownAppend(ValueAt(f, t0), Stamped(Inside(f, t0, t1), edge), Sample(Round2(y), Last(h).v), x);
      } else if Last(h).t <= t0 {
        NothingInside(h, t0, t1);
      }
    }
  }

  lemma KnownAppend(prev: Option<seq<Signal>>, inside: seq<Sample>, s: Sample, x: real)
    ensures Known(prev, inside + [s], x) == if s.t <= x then Some(s.v) else Known(prev, inside, x)
  {
    assert Front(inside + [s]) == inside;
  }

  // ----- the record against everything that was fed -----

  function Dropped(h: seq<Sample>): nat {
    if |Changes(h)| <= 512 then 0 else |Changes(h)| - 512
  }

  /** The samples from the `k`-th on reach back to `x` on the record's clock. */
  predicate ReachBack(c: seq<Sample>, k: nat, edge: real, x: real) {
    k < |c| && if x < 1.0 then Round2(c[k].t - edge) <= x else c[k].t - edge <= 1.0
  }

  /** The buffer still holds a change at or before `x` on the record's clock. */
  ghost predicate KeptBack(h: seq<Sample>, edge: real, x: real) {
    ReachBack(Changes(h), Dropped(h), edge, x)
  }

  function RecordOf(cols: seq<string>, h: seq<Sample>, edge: real, isCan: bool): Channel
    requires Fits(cols, h)
  {
    ChangesFit(cols, h);
    ChannelOf(cols, Newest(Changes(h), 512), 512, edge, isCan)
  }

  lemma NewestIsSuffix(h: seq<Sample>)
    ensures Newest(Changes(h), 512) == Changes(h)[Dropped(h)..]
  {
  }

  lemma StampedSuffix(c: seq<Sample>, k: nat, edge: real)
    requires k <= |c|
    ensures Stamped(c[k..], edge) == Stamped(c, edge)[k..]
  {
  }

  lemma StampedValues(h: seq<Sample>, edge: real, x: real)
    requires Ordered(h)
    ensures ValueAt(Stamped(Changes(h), edge), x) == ValueAt(Stamped(h, edge), x)
  {
    StampedOrdered(h, edge);
    StampedChanges(h, edge);
    ChangesKeepValues(Stamped(h, edge), x);
  }

  lemma SuffixStamped(c: seq<Sample>, k: nat, edge: real, x: real)
    requires k <= |c| && Ordered(c)
    ensures ValueAt(Stamped(c[k..], edge), x).Some? ==> ValueAt(Stamped(c[k..], edge), x) == ValueAt(Stamped(c, edge), x)
    ensures ValueAt(Stamped(c[k..], edge), x).Some? <==> k < |c| && Round2(c[k].t - edge) <= x
  {
    StampedOrdered(c, edge);
    StampedSuffix(c, k, edge);
    SuffixValue(Stamped(c, edge), k, x);
  }

  lemma ChangesRecorded(h: seq<Sample>, edge: real, x: real)
    requires Ordered(h)
    ensures Recorded(Changes(h), edge, x) == Recorded(h, edge, x)
  {
    if x < 1.0 { StampedValues(h, edge, x); } else { ChangesKeepValues(h, edge + 1.0); }
  }

  lemma SuffixRecorded(c: seq<Sample>, k: nat, edge: real, x: real)
    requires k <= |c| && Ordered(c)
    ensures Recorded(c[k..], edge, x).Some? ==> Recorded(c[k..], edge, x) == Recorded(c, edge, x)
    ensures Recorded(c[k..], edge, x).Some? <==> ReachBack(c, k, edge, x)
  {
    if x < 1.0 { SuffixStamped(c, k, edge, x); } else { SuffixValue(c, k, edge + 1.0); }
  }

  /** The buffer says what everything fed says; it is silent exactly where it does not reach back. */
  lemma BufferRecorded(h: seq<Sample>, c: seq<Sample>, edge: real, x: real)
    requires Ordered(h) && c == Changes(h)
    ensures var b := Recorded(c[Dropped(h)..], edge, x);
      (b.Some? ==> b == Recorded(h, edge, x)) && (b.Some? <==> KeptBack(h, edge, x))
  {
    ChangesOrdered(h);
    ChangesRecorded(h, edge, x);
    SuffixRecorded(c, Dropped(h), edge, x);
  }

  lemma BufferReadsBack(cols: seq<string>, entries: seq<Sample>, edge: real, isCan: bool, x: real)
    requires Distinct(cols) && Fits(cols, entries) && Ordered(entries) && OnClock(x)
    ensures (Recorded(entries, edge, x).Some? ==> |Recorded(entries, edge, x).value| == |cols|)
         && StateAt(ChannelOf(cols, entries, 512, edge, isCan), x) == DictOf(cols, Recorded(entries, edge, x))
  {
    var t0, t1 := edge - 3.0, edge + 1.0;
    Fitting(cols, entries, t0, t1);
    OrderedInside(entries, t0, t1);
    StampedOrdered(Inside(entries, t0, t1), edge);
    RowsReadBack(cols, ValueAt(entries, t0), Stamped(Inside(entries, t0, t1), edge), x);
    KnownIsRecorded(entries, edge, x);
  }

  /** The record, read back at `x`, has the channel's value there. */
  ghost predicate RightAt(cols: seq<string>, h: seq<Sample>, edge: real, isCan: bool, x: real)
    requires Fits(cols, h)
  {
    RecordedFits(cols, h, edge, x);
    StateAt(RecordOf(cols, h, edge, isCan), x) == DictOf(cols, Recorded(h, edge, x))
  }

  /**
   Reading a record back at any point of its clock gives the channel's value there exactly if the buffer
   still reaches back to it, or the channel had no value yet.
   */
  lemma ReadsBackIff(cols: seq<string>, h: seq<Sample>, edge: real, isCan: bool, x: real)
    requires Distinct(cols) && cols != [] && Fits(cols, h) && Ordered(h) && OnClock(x)
    ensures RightAt(cols, h, edge, isCan, x) <==> Recorded(h, edge, x).None? || KeptBack(h, edge, x)
  {
    var c, k := Changes(h), Dropped(h);
    RecordedFits(cols, h, edge, x);
    ChangesOrdered(h); ChangesFit(cols, h); NewestIsSuffix(h);
    BufferRecorded(h, Changes(h), edge, x);
    BufferReadsBack(cols, c[k..], edge, isCan, x);
    if Recorded(h, edge, x).Some? {
      var v := Recorded(h, edge, x).value;
      DictKeys(cols, v, v);
      assert cols[0] in Dict(cols, v);
    }
  }

  /** The incoming state is missing exactly if none of the newest 512 changes is at or before the window's start. */
  lemma IntoIsNullIff(cols: seq<string>, h: seq<Sample>, edge: real, isCan: bool)
    requires Fits(cols, h) && Ordered(h)
    ensures RecordOf(cols, h, edge, isCan).into.None?
       <==> Changes(h) == [] || Changes(h)[Dropped(h)].t > edge - 3.0
    ensures RecordOf(cols, h, edge, isCan).why.Some? <==> RecordOf(cols, h, edge, isCan).into.None?
  {
    ChangesOrdered(h); ChangesFit(cols, h); NewestIsSuffix(h);
    SuffixValue(Changes(h), Dropped(h), edge - 3.0);
  }

  /** A record that has its incoming state reads back right in the whole window, and its rows are all the changes there. */
  lemma Lossless(cols: seq<string>, h: seq<Sample>, edge: real, isCan: bool)
    requires Distinct(cols) && cols != [] && Fits(cols, h) && Ordered(h)
    requires RecordOf(cols, h, edge, isCan).into.Some?
    ensures forall x :: OnClock(x) ==> Recorded(h, edge, x).Some? && RightAt(cols, h, edge, isCan, x)
    ensures Inside(Newest(Changes(h), 512), edge - 3.0, edge + 1.0)
         == Inside(Changes(h), edge - 3.0, edge + 1.0)
  {
    var c, k := Changes(h), Dropped(h);
    ChangesOrdered(h); NewestIsSuffix(h);
    IntoIsNullIff(cols, h, edge, isCan);
    SuffixInside(c, k, edge - 3.0, edge + 1.0);
    StampBounds(c[k].t - edge);
    forall x | OnClock(x) ensures Recorded(h, edge, x).Some? && RightAt(cols, h, edge, isCan, x) {
      BufferRecorded(h, Changes(h), edge, x);
      ReadsBackIff(cols, h, edge, isCan, x);
    }
  }

  /** A record of a channel that lost nothing reads back right everywhere. */
  lemma NothingLost(cols: seq<string>, h: seq<Sample>, edge: real, isCan: bool, x: real)
    requires Distinct(cols) && cols != [] && Fits(cols, h) && Ordered(h) && OnClock(x) && Dropped(h) == 0
    ensures RightAt(cols, h, edge, isCan, x)
  {
    ReadsBackIff(cols, h, edge, isCan, x);
    if Recorded(h, edge, x).Some? {
      AllKeptBack(h, edge, x);
    }
  }

  lemma AllKeptBack(h: seq<Sample>, edge: real, x: real)
    requires Ordered(h) && Dropped(h) == 0 && Recorded(h, edge, x).Some?
    ensures KeptBack(h, edge, x)
  {
    ChangesOrdered(h);
    StampedOrdered(h, edge);
    assert h != [] by { assert h == [] ==> Stamped(h, edge) == []; }
    if x < 1.0 {
      SuffixValue(Stamped(h, edge), 0, x);
      assert Stamped(h, edge)[0..] == Stamped(h, edge);
    } else {
      SuffixValue(h, 0, edge + 1.0);
      assert h[0..] == h;
    }
  }

  /**
   The reasons for a missing incoming state. "First sample" is given only if nothing was ever dropped, and
   names the first sample of all; "never received" and "no sample yet" only if nothing was fed.
   */
  lemma ReasonsAreTrue(cols: seq<string>, h: seq<Sample>, edge: real, isCan: bool, r: Channel)
    requires Fits(cols, h) && Ordered(h) && r == RecordOf(cols, h, edge, isCan) && r.why.Some?
    ensures r.why.value == NeverReceived <==> h == [] && isCan
    ensures r.why.value == NoSampleYet <==> h == [] && !isCan
    ensures r.why.value.FirstSample? <==> 0 < |Changes(h)| < 512
    ensures r.why.value.FirstSample? ==>
              Dropped(h) == 0 && r.why.value.dt == Round2(h[0].t - edge) && h[0].t > edge - 3.0
  {
    FirstChange(h);
    if Changes(h) != [] { OldestIsInside(cols, h, edge, isCan, r); }
    WhyIs(cols, h, edge, isCan, Changes(h), r);
    Reasons(h, Changes(h), edge, isCan, r.why.value);
  }

  lemma OldestIsInside(cols: seq<string>, h: seq<Sample>, edge: real, isCan: bool, r: Channel)
    requires Fits(cols, h) && Ordered(h) && r == RecordOf(cols, h, edge, isCan) && r.why.Some? && Changes(h) != []
    ensures Changes(h)[Dropped(h)].t > edge - 3.0
  {
    IntoIsNullIff(cols, h, edge, isCan);
  }

  lemma Reasons(h: seq<Sample>, c: seq<Sample>, edge: real, isCan: bool, why: Why)
    requires if h == [] then c == [] else c != [] && c[0] == h[0]
    requires c != [] ==> c[if |c| <= 512 then 0 else |c| - 512].t > edge - 3.0
    requires why == WhyFor(c, edge, isCan)
    ensures why == NeverReceived <==> h == [] && isCan
    ensures why == NoSampleYet <==> h == [] && !isCan
    ensures why.FirstSample? <==> 0 < |c| < 512
    ensures why.FirstSample? ==> why.dt == Round2(h[0].t - edge) && h[0].t > edge - 3.0
  {
  }

  function WhyFor(c: seq<Sample>, edge: real, isCan: bool): Why {
    if c == [] then (if isCan then NeverReceived else NoSampleYet)
    else if |c| >= 512 then Truncated(512)
    else FirstSample(Round2(c[0].t - edge))
  }

  lemma FirstChange(h: seq<Sample>)
    requires Ordered(h)
    ensures if h == [] then Changes(h) == [] else Changes(h) != [] && Changes(h)[0] == h[0]
  {
    ChangesOrdered(h);
  }

  lemma WhyIs(cols: seq<string>, h: seq<Sample>, edge: real, isCan: bool, c: seq<Sample>, r: Channel)
    requires Fits(cols, h) && c == Changes(h) && r == RecordOf(cols, h, edge, isCan) && r.why.Some?
    ensures r.why.value == WhyFor(c, edge, isCan)
  {
    ChangesFit(cols, h);
  }

  /** A record that names its first sample is right everywhere, before that sample included. */
  lemma FirstSampleIsComplete(cols: seq<string>, h: seq<Sample>, edge: real, isCan: bool)
    requires Distinct(cols) && cols != [] && Fits(cols, h) && Ordered(h)
    requires RecordOf(cols, h, edge, isCan).why.Some? && RecordOf(cols, h, edge, isCan).why.value.FirstSample?
    ensures forall x :: OnClock(x) ==> RightAt(cols, h, edge, isCan, x)
  {
    ReasonsAreTrue(cols, h, edge, isCan, RecordOf(cols, h, edge, isCan));
    forall x | OnClock(x) ensures RightAt(cols, h, edge, isCan, x) {
      NothingLost(cols, h, edge, isCan, x);
    }
  }

  // ----- when "truncated" can be said -----

  /** Samples at least `d` seconds apart. */
  ghost predicate Spaced(h: seq<Sample>, d: real) {
    forall i, j :: 0 <= i < j < |h| ==> h[j].t - h[i].t >= d
  }

  /** The newest sample may come with the tick that writes the record, all others come before the window's end. */
  ghost predicate BeforeEnd(h: seq<Sample>, edge: real) {
    forall i :: 0 <= i < |h| - 1 ==> h[i].t < edge + 1.0
  }

  /** Changes are samples, and only the last change can be the last sample. */
  lemma {:induction false} ChangesAreSamples(h: seq<Sample>)
    ensures forall i :: 0 <= i < |Changes(h)| ==> Changes(h)[i] in h
    ensures h != [] ==> forall i :: 0 <= i < |Changes(h)| - 1 ==> Changes(h)[i] in Front(h)
  {
    if h != [] {
      ChangesAreSamples(Front(h));
      assert h == Front(h) + [Last(h)];
    }
  }

  /** Changes that are `k` apart come from samples at least `k` apart. */
  lemma {:induction false} ChangesFar(h: seq<Sample>, i: nat, k: nat) returns (p: nat, q: nat)
    requires i + k < |Changes(h)|
    ensures p + k <= q < |h| && h[p] == Changes(h)[i] && h[q] == Changes(h)[i + k]
    decreases |h|, k
  {
    var f := Front(h);
    if i + k < |Changes(f)| {
      p, q := ChangesFar(f, i, k);
    } else if k == 0 {
      p, q := |h| - 1, |h| - 1;
    } else {
      p, q := ChangesFar(f, i, k - 1);
      q := |h| - 1;
    }
  }

  function Gaps(k: nat, d: real): real {
    k as real * d
  }

  lemma OneMoreGap(k: nat, d: real)
    ensures Gaps(k + 1, d) == Gaps(k, d) + d && Gaps(0, d) == 0.0
  {
  }

  lemma {:induction false} SpacedFar(h: seq<Sample>, d: real, i: nat, k: nat)
    requires Spaced(h, d) && i + k < |h|
    ensures h[i + k].t - h[i].t >= Gaps(k, d)
    decreases k
  {
    OneMoreGap(if k > 0 then k - 1 else 0, d);
    if k > 0 {
      SpacedFar(h, d, i, k - 1);
    }
  }

  lemma SpacedOrdered(h: seq<Sample>, d: real)
    requires Spaced(h, d) && d >= 0.0
    ensures Ordered(h)
  {
  }

  /** No 511 samples in a row fit into less than the 4 s of the window. */
  ghost predicate Unhurried(h: seq<Sample>) {
    forall i, j :: 0 <= i && i + 510 <= j < |h| ==> h[j].t - h[i].t >= 4.0
  }

  lemma SpacedIsUnhurried(h: seq<Sample>, d: real)
    requires Spaced(h, d) && d > 0.0 && 510.0 * d >= 4.0
    ensures Unhurried(h)
  {
    forall i, j | 0 <= i && i + 510 <= j < |h| ensures h[j].t - h[i].t >= 4.0 {
      SpacedFar(h, d, i, 510);
      if i + 510 < j { assert h[j].t - h[i + 510].t >= d; }
    }
  }

  /** Then "truncated" is never said, and nothing in the window is lost. */
  lemma NeverTruncated(cols: seq<string>, h: seq<Sample>, edge: real, isCan: bool)
    requires Fits(cols, h) && Ordered(h) && Unhurried(h) && BeforeEnd(h, edge)
    ensures RecordOf(cols, h, edge, isCan).why != Some(Truncated(512))
    ensures RecordOf(cols, h, edge, isCan).into.Some? || Dropped(h) == 0
  {
    IntoIsNullIff(cols, h, edge, isCan);
    ChangesFit(cols, h);
    if |Changes(h)| >= 512 {
      NotTooDense(h, Changes(h), edge);
    }
  }

  /** The 511 changes before the newest cannot all lie in the window. */
  lemma NotTooDense(h: seq<Sample>, c: seq<Sample>, edge: real)
    requires c == Changes(h) && |c| >= 512 && Unhurried(h) && BeforeEnd(h, edge)
    ensures c[|c| - 512].t <= edge - 3.0
  {
    ChangesAreSamples(h);
    assert c[|c| - 2] in Front(h);
    var p, q := ChangesFar(h, |c| - 512, 510);
  }

  function Flicker(n: nat, d: real): seq<Sample> {
    seq(n, i requires 0 <= i < n => Sample(Gaps(i, d), [Flag(i % 2 == 1)]))
  }

  lemma FlickerFront(n: nat, d: real)
    requires n > 0
    ensures Flicker(n, d) == Flicker(n - 1, d) + [Sample(Gaps(n - 1, d), [Flag(n % 2 == 0)])]
    ensures n > 1 ==> Last(Flicker(n - 1, d)).v != [Flag(n % 2 == 0)]
  {
    assert (n - 1) % 2 == 1 <==> n % 2 == 0;
  }

  lemma {:induction false} FlickerChanges(n: nat, d: real)
    ensures Changes(Flicker(n, d)) == Flicker(n, d)
  {
    if n > 0 {
      FlickerChanges(n - 1, d);
      FlickerFront(n, d);
      ChangesAppend(Flicker(n - 1, d), Sample(Gaps(n - 1, d), [Flag(n % 2 == 0)]));
    }
  }

  lemma FlickerSpaced(n: nat, d: real)
    requires d > 0.0
    ensures Spaced(Flicker(n, d), d)
  {
    forall i: nat, j: nat | i < j < n ensures Gaps(j, d) - Gaps(i, d) >= d {
      GapsGrow(i, j, d);
    }
  }

  lemma {:induction false} GapsGrow(i: nat, j: nat, d: real)
    requires i <= j && d > 0.0
    ensures Gaps(j, d) >= Gaps(i, d) && (i < j ==> Gaps(j, d) - Gaps(i, d) >= d)
    decreases j
  {
    if i < j {
      GapsGrow(i, j - 1, d);
      OneMoreGap(j - 1, d);
    }
  }

  /** On faster ticks it can be said, and although nothing was dropped. */
  lemma FlickerIsTruncated(d: real, edge: real)
    requires d > 0.0 && 510.0 * d < 4.0 && edge == 255.0 * d + 1.0
    ensures var h := Flicker(512, d);
      && Fits(["on"], h) && Spaced(h, d) && BeforeEnd(h, edge) && Dropped(h) == 0
      && RecordOf(["on"], h, edge, true).why == Some(Truncated(512))
  {
    var h := Flicker(512, d);
    FlickerChanges(512, d);
    FlickerSpaced(512, d);
    SpacedOrdered(h, d);
    IntoIsNullIff(["on"], h, edge, true);
    forall i | 0 <= i < 512 - 1 ensures h[i].t < edge + 1.0 {
      GapsGrow(i, 510, d);
    }
  }

  /** A history of samples at least `d` apart whose record says "truncated". */
  ghost predicate SaysTruncated(h: seq<Sample>, edge: real, d: real) {
    && Fits(["on"], h) && Spaced(h, d) && BeforeEnd(h, edge)
    && RecordOf(["on"], h, edge, true).why == Some(Truncated(512))
  }

  /** The pace below which "truncated" can be said at all: 510 gaps in less than 4 s, 7.8 ms a tick. */
  lemma TruncationPossibleIff(d: real)
    requires d > 0.0
    ensures (exists h, edge :: SaysTruncated(h, edge, d)) <==> 510.0 * d < 4.0
  {
    if 510.0 * d < 4.0 {
      FlickerIsTruncated(d, 255.0 * d + 1.0);
      assert SaysTruncated(Flicker(512, d), 255.0 * d + 1.0, d);
    } else {
      forall h, edge | SaysTruncated(h, edge, d) ensures false {
        SpacedOrdered(h, d);
        SpacedIsUnhurried(h, d);
        NeverTruncated(["on"], h, edge, true);
      }
    }
  }

  /** "Truncated" is said of a record that lost nothing exactly for 512 changes, all after the window's start. */
  lemma FalselyTruncatedIff(cols: seq<string>, h: seq<Sample>, edge: real, isCan: bool)
    requires Fits(cols, h) && Ordered(h)
    ensures RecordOf(cols, h, edge, isCan).why == Some(Truncated(512)) && Dropped(h) == 0
       <==> |Changes(h)| == 512 && h[0].t > edge - 3.0
  {
    ChangesOrdered(h); ChangesFit(cols, h);
    IntoIsNullIff(cols, h, edge, isCan);
  }
}
