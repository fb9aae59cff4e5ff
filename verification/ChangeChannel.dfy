/**
 A change-only channel of the stock-ACC dropout logger, and the record built from it: the state going
 into a window around an edge and then only the signals that changed. Reading a record back gives the
 value the channel had at every moment of the window, unless the bounded buffer lost it.
 */
module ChangeChannel {
  import opened Wrappers
  import opened Extremes
  import opened Rounding

  const PRE_S := 3.0
  const POST_S := 1.0
  const CHG_MAXLEN: nat := 512

  datatype Signal = Flag(on: bool) | Number(n: int) | Text(s: string) | Absent

  datatype Sample = Sample(t: real, v: seq<Signal>)

  /** Samples come in the order of the monotonic clock. */
  ghost predicate Ordered(h: seq<Sample>) {
    forall i, j :: 0 <= i < j < |h| ==> h[i].t <= h[j].t
  }

  function Front(h: seq<Sample>): seq<Sample>
    requires h != []
  {
    h[..|h| - 1]
  }

  function Last(h: seq<Sample>): Sample
    requires h != []
  {
    h[|h| - 1]
  }

  /** The samples that differ from the one before them. */
  function Changes(h: seq<Sample>): seq<Sample> {
    if h == [] then []
    else
      var before := Front(h);
      if before != [] && Last(before).v == Last(h).v then Changes(before) else Changes(before) + [Last(h)]
  }

  /** The value at time `t`: that of the last sample at or before it. */
  function ValueAt(h: seq<Sample>, t: real): Option<seq<Signal>> {
    if h == [] then None
    else if Last(h).t <= t then Some(Last(h).v)
    else ValueAt(Front(h), t)
  }

  /** The samples after `t0` and not after `t1`. */
  function Inside(h: seq<Sample>, t0: real, t1: real): seq<Sample> {
    if h == [] then []
    else if t0 < Last(h).t <= t1 then Inside(Front(h), t0, t1) + [Last(h)]
    else Inside(Front(h), t0, t1)
  }

  // ----- the channel -----

  class Chan {
    const cols: seq<string>
    var dq: seq<Sample>
    var last: Option<seq<Signal>>
    ghost var history: seq<Sample>

    ghost predicate Valid()
      reads this
    {
      && dq == Newest(Changes(history), 512)
      && last == (if history == [] then None else Some(Last(history).v))
    }

    constructor (cols: seq<string>)
      ensures Valid() && history == [] && this.cols == cols
    {
      this.cols := cols;
      dq, last, history := [], None, [];
    }

    method Feed(t: real, v: seq<Signal>)
      requires Valid()
      modifies this
      ensures Valid() && history == old(history) + [Sample(t, v)]
    {
      ChangesAppend(history, Sample(t, v));
      if Some(v) != last {
        NewestAppend(Changes(history), CHG_MAXLEN, Sample(t, v));
        dq := dq + [Sample(t, v)];
        if |dq| > CHG_MAXLEN {
          dq := dq[1..];
        }
        last := Some(v);
      }
      history := history + [Sample(t, v)];
    }
  }

  lemma ChangesAppend(h: seq<Sample>, s: Sample)
    ensures Changes(h + [s]) == if h != [] && Last(h).v == s.v then Changes(h) else Changes(h) + [s]
  {
    assert Front(h + [s]) == h;
  }

  // ----- the record -----

  /** The tuple as a dictionary over the column names. */
  function Dict(cols: seq<string>, v: seq<Signal>): map<string, Signal>
    requires |cols| == |v|
  {
    if cols == [] then map[] else Dict(cols[..|cols| - 1], v[..|v| - 1])[cols[|cols| - 1] := v[|v| - 1]]
  }

  function Diff(cols: seq<string>, v: seq<Signal>, was: seq<Signal>): map<string, Signal>
    requires |cols| == |v| == |was|
  {
    if cols == [] then map[]
    else
      var n := |cols| - 1;
      var d := Diff(cols[..n], v[..n], was[..n]);
      if v[n] != was[n] then d[cols[n] := v[n]] else d
  }

  datatype Row = Row(dt: real, diff: map<string, Signal>)

  datatype Why = NeverReceived | NoSampleYet | Truncated(maxlen: nat) | FirstSample(dt: real)

  datatype Channel = Channel(into: Option<map<string, Signal>>, why: Option<Why>, rows: seq<Row>)

  predicate Distinct(cols: seq<string>) {
    forall i, j :: 0 <= i < j < |cols| ==> cols[i] != cols[j]
  }

  predicate Fits(cols: seq<string>, h: seq<Sample>) {
    forall i :: 0 <= i < |h| ==> |h[i].v| == |cols|
  }

  function DictOf(cols: seq<string>, v: Option<seq<Signal>>): map<string, Signal>
    requires v.Some? ==> |v.value| == |cols|
  {
    if v.Some? then Dict(cols, v.value) else map[]
  }

  function RowDiff(cols: seq<string>, was: Option<seq<Signal>>, v: seq<Signal>): map<string, Signal>
    requires |v| == |cols| && (was.Some? ==> |was.value| == |cols|)
  {
    if was.None? then Dict(cols, v) else Diff(cols, v, was.value)
  }

  /** The value before the last sample: that of the one before it, or the value going in. */
  function Was(prev: Option<seq<Signal>>, inside: seq<Sample>): Option<seq<Signal>>
    requires inside != []
  {
    if |inside| == 1 then prev else Some(Last(Front(inside)).v)
  }

  /** The samples on the clock of a record: seconds from the edge, rounded to hundredths. */
  function Stamped(h: seq<Sample>, edge: real): seq<Sample> {
    seq(|h|, i requires 0 <= i < |h| => Sample(Round2(h[i].t - edge), h[i].v))
  }

  /** The rows for stamped samples, each against the sample before it. */
  function Rows(cols: seq<string>, prev: Option<seq<Signal>>, inside: seq<Sample>): seq<Row>
    requires Fits(cols, inside) && (prev.Some? ==> |prev.value| == |cols|)
  {
    if inside == [] then []
    else Rows(cols, prev, Front(inside)) + [Row(Last(inside).t, RowDiff(cols, Was(prev, inside), Last(inside).v))]
  }

  lemma {:induction false} Fitting(cols: seq<string>, h: seq<Sample>, t0: real, t1: real)
    requires Fits(cols, h)
    ensures Fits(cols, Inside(h, t0, t1)) && (ValueAt(h, t0).Some? ==> |ValueAt(h, t0).value| == |cols|)
  {
    if h != [] {
      Fitting(cols, Front(h), t0, t1);
    }
  }

  function WhyNull(entries: seq<Sample>, maxlen: nat, edge: real, isCan: bool): Why {
    if entries == [] then (if isCan then NeverReceived else NoSampleYet)
    else if |entries| >= maxlen then Truncated(maxlen)
    else FirstSample(Round2(entries[0].t - edge))
  }

  /** The record of a channel whose buffer holds `entries`, for an edge at `edge`. */
  function ChannelOf(cols: seq<string>, entries: seq<Sample>, maxlen: nat, edge: real, isCan: bool): Channel
    requires Fits(cols, entries)
  {
    Fitting(cols, entries, edge - PRE_S, edge + POST_S);
    var before := ValueAt(entries, edge - PRE_S);
    Channel(
      if before.Some? then Some(Dict(cols, before.value)) else None,
      if before.Some? then None else Some(WhyNull(entries, maxlen, edge, isCan)),
      Rows(cols, before, Stamped(Inside(entries, edge - PRE_S, edge + POST_S), edge)))
  }

  lemma TakeLast(h: seq<Sample>, i: nat)
    requires i < |h|
    ensures h[..i + 1] != [] && Front(h[..i + 1]) == h[..i] && Last(h[..i + 1]) == h[i]
  {
  }

  /** The last value up to the window's start, and the samples inside the window. */
  method SplitEntries(entries: seq<Sample>, t0: real, t1: real) returns (before: Option<seq<Signal>>, rows: seq<Sample>)
    ensures before == ValueAt(entries, t0) && rows == Inside(entries, t0, t1)
  {
    before, rows := None, [];
    var i := 0;
    while i < |entries|
      invariant i <= |entries|
      invariant before == ValueAt(entries[..i], t0) && rows == Inside(entries[..i], t0, t1)
    {
      TakeLast(entries, i);
      if entries[i].t <= t0 {
        before := Some(entries[i].v);
      } else if entries[i].t <= t1 {
        rows := rows + [entries[i]];
      }
      i := i + 1;
    }
    assert entries[..i] == entries;
  }

  lemma StampedTake(h: seq<Sample>, edge: real, i: nat)
    requires i < |h|
    ensures var s := Stamped(h[..i + 1], edge);
      && s != [] && Front(s) == Stamped(h[..i], edge) && Last(s) == Sample(Round2(h[i].t - edge), h[i].v)
      && (i > 0 ==> Last(Front(s)).v == h[i - 1].v)
  {
  }

  method TakeDifferences(cols: seq<string>, before: Option<seq<Signal>>, rows: seq<Sample>, edge: real) returns (out: seq<Row>)
    requires Fits(cols, rows) && (before.Some? ==> |before.value| == |cols|)
    ensures out == Rows(cols, before, Stamped(rows, edge))
  {
    var prev := before;
    out := [];
    var i := 0;
    while i < |rows|
      invariant i <= |rows|
      invariant prev == if i == 0 then before else Some(rows[i - 1].v)
      invariant out == Rows(cols, before, Stamped(rows[..i], edge))
    {
      StampedTake(rows, edge, i);
      var v := rows[i].v;
      out := out + [Row(Round2(rows[i].t - edge), if prev.None? then Dict(cols, v) else Diff(cols, v, prev.value))];
      prev := Some(v);
      i := i + 1;
    }
    assert rows[..i] == rows;
  }

  /** The record of one channel. */
  method BuildChannel(cols: seq<string>, entries: seq<Sample>, maxlen: nat, edge: real, isCan: bool) returns (ch: Channel)
    requires Fits(cols, entries)
    ensures ch == ChannelOf(cols, entries, maxlen, edge, isCan)
  {
    Fitting(cols, entries, edge - PRE_S, edge + POST_S);
    var before, rows := SplitEntries(entries, edge - PRE_S, edge + POST_S);
    var into, why := None, None;
    if before.Some? {
      into := Some(Dict(cols, before.value));
    } else {
      why := Some(WhyNull(entries, maxlen, edge, isCan));
    }
    var out := TakeDifferences(cols, before, rows, edge);
    ch := Channel(into, why, out);
  }

  // ----- reading a record back -----

  /** The state after the rows up to `dt`, starting from the state going in. */
  function ReadBack(start: map<string, Signal>, rows: seq<Row>, dt: real): map<string, Signal> {
    if rows == [] then start
    else
      var n := |rows| - 1;
      var s := ReadBack(start, rows[..n], dt);
      if rows[n].dt <= dt then s + rows[n].diff else s
  }

  function StateAt(ch: Channel, dt: real): map<string, Signal> {
    ReadBack(if ch.into.Some? then ch.into.value else map[], ch.rows, dt)
  }

  lemma {:induction false} DictKeys(cols: seq<string>, v: seq<Signal>, was: seq<Signal>)
    requires |cols| == |v| == |was|
    ensures forall c :: c in Dict(cols, v) <==> c in cols
    ensures forall c :: c in Diff(cols, v, was) ==> c in cols
  {
    if cols != [] {
      var n := |cols| - 1;
      DictKeys(cols[..n], v[..n], was[..n]);
      assert cols == cols[..n] + [cols[n]];
    }
  }

  lemma MergeOne(d: map<string, Signal>, e: map<string, Signal>, c: string, was: Signal, v: Signal)
    requires c !in d && c !in e
    ensures d[c := was] + e[c := v] == (d + e)[c := v]
    ensures was == v ==> d[c := was] + e == (d + e)[c := v]
  {
  }

  /** A difference completes the old tuple to the new one; column names must not repeat. */
  lemma {:induction false} DiffCompletes(cols: seq<string>, v: seq<Signal>, was: seq<Signal>)
    requires |cols| == |v| == |was| && Distinct(cols)
    ensures Dict(cols, was) + Diff(cols, v, was) == Dict(cols, v)
  {
    if cols != [] {
      var n := |cols| - 1;
      DiffCompletes(cols[..n], v[..n], was[..n]);
      DictKeys(cols[..n], v[..n], was[..n]);
      DictKeys(cols[..n], was[..n], was[..n]);
      assert cols[n] !in cols[..n];
      MergeOne(Dict(cols[..n], was[..n]), Diff(cols[..n], v[..n], was[..n]), cols[n], was[n], v[n]);
    }
  }

  lemma {:induction false} OrderedInside(h: seq<Sample>, t0: real, t1: real)
    requires Ordered(h)
    ensures Ordered(Inside(h, t0, t1))
    ensures forall i :: 0 <= i < |Inside(h, t0, t1)| ==>
              t0 < Inside(h, t0, t1)[i].t <= t1 && Inside(h, t0, t1)[i].t <= Last(h).t
  {
    if h != [] {
      OrderedInside(Front(h), t0, t1);
    }
  }

  lemma {:induction false} NothingInside(h: seq<Sample>, t0: real, t1: real)
    requires forall i :: 0 <= i < |h| ==> h[i].t <= t0
    ensures Inside(h, t0, t1) == []
  {
    if h != [] {
      NothingInside(Front(h), t0, t1);
    }
  }

  /** The last known value at `t`: the latest sample inside the window up to `t`, or the value going in. */
  function Known(prev: Option<seq<Signal>>, inside: seq<Sample>, t: real): Option<seq<Signal>> {
    if ValueAt(inside, t).Some? then ValueAt(inside, t) else prev
  }

  lemma {:induction false} LastKnown(inside: seq<Sample>, t: real)
    requires Ordered(inside) && inside != []
    ensures Last(inside).t > t ==> ValueAt(inside, t) == ValueAt(Front(inside), t)
    ensures Last(inside).t <= t ==> ValueAt(Front(inside), t) == if |inside| == 1 then None else Some(Last(Front(inside)).v)
  {
  }

  lemma ReadBackStep(start: map<string, Signal>, rows: seq<Row>, row: Row, dt: real)
    ensures var was := ReadBack(start, rows, dt);
      ReadBack(start, rows + [row], dt) == if row.dt <= dt then was + row.diff else was
  {
    assert (rows + [row])[..|rows|] == rows;
  }

  lemma RowCompletes(cols: seq<string>, was: Option<seq<Signal>>, v: seq<Signal>)
    requires Distinct(cols) && |v| == |cols| && (was.Some? ==> |was.value| == |cols|)
    ensures DictOf(cols, was) + RowDiff(cols, was, v) == Dict(cols, v)
  {
    if was.Some? {
      DiffCompletes(cols, v, was.value);
    } else {
      assert map[] + Dict(cols, v) == Dict(cols, v);
    }
  }

  lemma KnownStep(prev: Option<seq<Signal>>, inside: seq<Sample>, t: real)
    requires Ordered(inside) && inside != []
    ensures Last(inside).t > t ==> Known(prev, inside, t) == Known(prev, Front(inside), t)
    ensures Last(inside).t <= t ==>
              Known(prev, inside, t) == Some(Last(inside).v) && Known(prev, Front(inside), t) == Was(prev, inside)
  {
    LastKnown(inside, t);
  }

  lemma RowStep(cols: seq<string>, prev: Option<seq<Signal>>, inside: seq<Sample>, dt: real)
    requires inside != [] && Fits(cols, inside) && (prev.Some? ==> |prev.value| == |cols|)
    ensures var s := ReadBack(DictOf(cols, prev), Rows(cols, prev, Front(inside)), dt);
      ReadBack(DictOf(cols, prev), Rows(cols, prev, inside), dt)
      == if Last(inside).t <= dt then s + RowDiff(cols, Was(prev, inside), Last(inside).v) else s
  {
    ReadBackStep(DictOf(cols, prev), Rows(cols, prev, Front(inside)),
                 Row(Last(inside).t, RowDiff(cols, Was(prev, inside), Last(inside).v)), dt);
  }

  /** Applying the rows up to `dt` gives the last value known then. */
  lemma {:induction false} RowsReadBack(cols: seq<string>, prev: Option<seq<Signal>>, inside: seq<Sample>, dt: real)
    requires Distinct(cols) && Fits(cols, inside) && Ordered(inside) && (prev.Some? ==> |prev.value| == |cols|)
    ensures var k := Known(prev, inside, dt);
      && (k.Some? ==> |k.value| == |cols|)
      && ReadBack(DictOf(cols, prev), Rows(cols, prev, inside), dt) == DictOf(cols, k)
    decreases |inside|
  {
    if inside != [] {
      RowsReadBack(cols, prev, Front(inside), dt);
      KnownStep(prev, inside, dt);
      RowStep(cols, prev, inside, dt);
      if Last(inside).t <= dt {
        RowCompletes(cols, Was(prev, inside), Last(inside).v);
      }
    }
  }
}
