/**
 The curve logger: a bounded ring of 20 Hz rows addressed by absolute row numbers, an automaton that
 finds curves, and curves waiting for their post-roll. No row of a waiting curve is ever evicted.
 */
module CurveLogger {
  import opened Wrappers

  const SPACING := 0.045 // one 20 Hz period less 5 ms
  const CURVE_ON_KAPPA := 0.001
  const CURVE_OFF_KAPPA := 0.0005
  const CURVE_OFF_HOLD := 2.0
  const MIN_CURVE := 0.8
  const MIN_TRIGGER_V := 2.0
  const POST_ROLL := 8.0
  const MAX_CURVE := 30.0
  const GAP := 3.0
  const RING_N: nat := 1020

  /** Bounds, in rows, on the length of a curve and on its wait between end and flush. */
  const CURVE_ROWS: nat := 667
  const POST_ROWS: nat := 178

  /** A row: its time, the stamp it carries (the time rounded to milliseconds), |curvature| and speed. */
  datatype Row = Row(t: real, stamp: real, kappa: real, v: real)

  datatype Pending = Pending(startAbs: nat, endAbs: nat, endT: real, timedOut: bool)

  /** A flushed curve with the rows it was summarized from; `partial` when a session end forced it. */
  datatype Flushed = Flushed(curve: Pending, rows: seq<Row>, partial: bool)

  predicate Rounded(r: Row) {
    -0.0005 <= r.stamp - r.t <= 0.0005
  }

  // ----- the logger, on values -----

  datatype State = State(
    ring: seq<Row>, absN: nat,
    start: Option<(nat, real)>, below: Option<(nat, real)>,
    pend: seq<Pending>, lastAppendT: real,
    flushed: seq<Flushed>)

  const INITIAL := State([], 0, None, None, [], -1000000000.0, [])

  /** The rows of a curve as the ring has them, clipped to it; None if all of them are gone. */
  function CutOut(ring: seq<Row>, absN: nat, p: Pending, partial: bool): Option<Flushed> {
    var off := absN - |ring|;
    var iStart, iEnd := p.startAbs - off, p.endAbs - off;
    if iEnd < 0 || iStart >= |ring| then None
    else
      var lo := if iStart < 0 then 0 else iStart;
      var hi := if iEnd > |ring| - 1 then |ring| - 1 else iEnd;
      Some(Flushed(p, if lo <= hi + 1 then ring[lo..hi + 1] else [], partial))
  }

  /** The post-roll of a curve is over at the newest row. */
  predicate Due(ring: seq<Row>, p: Pending) {
    ring != [] && ring[|ring| - 1].stamp - p.endT >= POST_ROLL
  }

  /** Goes through the waiting curves: those kept and those cut out. */
  function FlushList(ring: seq<Row>, absN: nat, todo: seq<Pending>, force: bool): (seq<Pending>, seq<Flushed>) {
    if todo == [] then ([], [])
    else
      var (kept, cut) := FlushList(ring, absN, todo[1..], force);
      if !force && !Due(ring, todo[0]) then ([todo[0]] + kept, cut)
      else
        var f := CutOut(ring, absN, todo[0], force);
        (kept, if f.Some? then [f.value] + cut else cut)
  }

  function FlushPending(s: State, force: bool): State {
    var (kept, cut) := FlushList(s.ring, s.absN, s.pend, force);
    s.(pend := kept, flushed := s.flushed + cut)
  }

  /** A session end: everything waiting is flushed as it is, the ring and the curve are dropped. */
  function EndSession(s: State): State {
    FlushPending(s, true).(ring := [], start := None, below := None)
  }

  /** The bounded append. */
  function Record(s: State, r: Row): State {
    var longer := s.ring + [r];
    s.(ring := if |longer| > RING_N then longer[1..] else longer, absN := s.absN + 1)
  }

  /** The row since which the curvature has been low. */
  function Below(s: State, r: Row): Option<(nat, real)>
    requires s.absN > 0
  {
    if r.kappa < CURVE_OFF_KAPPA then (if s.below.None? then Some((s.absN - 1, r.t)) else s.below) else None
  }

  /** A curve is over; a blip is dropped. */
  function Close(s: State, startT: real, p: Pending): State {
    s.(pend := if p.endT - startT >= MIN_CURVE then s.pend + [p] else s.pend, start := None, below := None)
  }

  /** The curve automaton, for the row just recorded. */
  function Follow(s: State, r: Row): State
    requires s.absN > 0
  {
    if s.start.None? then
      if r.kappa > CURVE_ON_KAPPA && r.v > MIN_TRIGGER_V then s.(start := Some((s.absN - 1, r.t)), below := None) else s
    else
      var (startAbs, startT) := s.start.value;
      var below, timedOut := Below(s, r), r.t - startT >= MAX_CURVE;
      if below.Some? && r.t - below.value.1 >= CURVE_OFF_HOLD then
        Close(s, startT, Pending(startAbs, below.value.0, below.value.1, timedOut))
      else if timedOut then Close(s, startT, Pending(startAbs, s.absN - 1, r.t, timedOut))
      else s.(below := below)
  }

  predicate Decimated(s: State, t: real) {
    t - s.lastAppendT < SPACING
  }

  predicate GapBefore(s: State, t: real) {
    s.ring != [] && t - s.ring[|s.ring| - 1].stamp > GAP
  }

  /** The session a row arriving at `t` belongs to. */
  function Arrive(s: State, t: real): State {
    if GapBefore(s, t) then EndSession(s) else s
  }

  function Settle(s: State): State {
    if s.pend != [] then FlushPending(s, false) else s
  }

  /** One carState update. */
  function Tick(s: State, r: Row): State {
    if Decimated(s, r.t) then s
    else Settle(Follow(Record(Arrive(s.(lastAppendT := r.t), r.t), r), r))
  }

  lemma AddFront(a: seq<Pending>, p: seq<Pending>, b: seq<Flushed>, f: seq<Flushed>, rest: (seq<Pending>, seq<Flushed>))
    ensures a + (p + rest.0) == (a + p) + rest.0 && b + (f + rest.1) == (b + f) + rest.1
    ensures [] + rest.0 == rest.0 && [] + rest.1 == rest.1
  {
  }

  // ----- the same, step by step on the logger's variables -----

  class CurveLogger {
    var ring: seq<Row>
    var absN: nat
    var start: Option<(nat, real)>
    var below: Option<(nat, real)>
    var pend: seq<Pending>
    var lastAppendT: real
    var flushed: seq<Flushed>

    ghost function Now(): State
      reads this
    {
      State(ring, absN, start, below, pend, lastAppendT, flushed)
    }

    constructor ()
      ensures Now() == INITIAL
    {
      ring, absN, start, below, pend, lastAppendT, flushed := [], 0, None, None, [], -1000000000.0, [];
    }

    method Flush(force: bool)
      modifies this`pend, this`flushed
      ensures Now() == FlushPending(old(Now()), force)
    {
      var rows, waiting := ring, pend;
      var kept, cut := [], [];
      ghost var whole := FlushList(rows, absN, waiting, force);
      var i := 0;
      assert waiting[0..] == waiting;
      AddFront([], [], [], [], whole);
      while i < |waiting|
        invariant i <= |waiting| && pend == old(pend) && flushed == old(flushed)
        invariant var rest := FlushList(rows, absN, waiting[i..], force);
          whole == (kept + rest.0, cut + rest.1)
      {
        var p := waiting[i];
        ghost var rest := FlushList(rows, absN, waiting[i + 1..], force);
        assert waiting[i..][1..] == waiting[i + 1..];
        if !force && !(rows != [] && rows[|rows| - 1].stamp - p.endT >= POST_ROLL) {
          AddFront(kept, [p], cut, [], rest);
          kept := kept + [p];
        } else {
          var f := CutOut(rows, absN, p, force);
          if f.Some? {
            AddFront(kept, [], cut, [f.value], rest);
            cut := cut + [f.value];
          }
        }
        i := i + 1;
      }
      assert waiting[i..] == [];
      assert kept + [] == kept && cut + [] == cut;
      pend, flushed := kept, flushed + cut;
    }

    /** The car was changed while no rows came in. */
    method CarChange()
      modifies this
      ensures Now() == EndSession(old(Now()))
    {
      Flush(true);
      ring := [];
      start, below := None, None;
    }

    method OnCarState(r: Row)
      modifies this
      ensures Now() == Tick(old(Now()), r)
    {
      if r.t - lastAppendT < SPACING {
        return;
      }
      lastAppendT := r.t;
      ghost var s0 := Now();
      if ring != [] && r.t - ring[|ring| - 1].stamp > GAP {
        Flush(true);
        ring := [];
        start, below := None, None;
      }
      ghost var s1 := Arrive(s0, r.t);
      assert Now() == s1;
      ring := ring + [r];
      if |ring| > RING_N {
        ring := ring[1..];
      }
      absN := absN + 1;
      assert Now() == Record(s1, r);
      FollowCurve(r);
      if pend != [] {
        Flush(false);
      }
    }

    method FollowCurve(r: Row)
      requires absN > 0
      modifies this`start, this`below, this`pend
      ensures Now() == Follow(old(Now()), r)
    {
      if start.None? {
        if r.kappa > CURVE_ON_KAPPA && r.v > MIN_TRIGGER_V {
          start := Some((absN - 1, r.t));
          below := None;
        }
        return;
      }
      if r.kappa < CURVE_OFF_KAPPA {
        if below.None? {
          below := Some((absN - 1, r.t));
        }
      } else {
        below := None;
      }
      var ended := below.Some? && r.t - below.value.1 >= CURVE_OFF_HOLD;
      var timedOut := r.t - start.value.1 >= MAX_CURVE;
      if ended || timedOut {
        var endAbs := if ended then below.value.0 else absN - 1;
        var endT := if ended then below.value.1 else r.t;
        if endT - start.value.1 >= MIN_CURVE {
          pend := pend + [Pending(start.value.0, endAbs, endT, timedOut)];
        }
        start := None;
        below := None;
      }
    }
  }

  // ----- time and row numbers -----

  /** Stamps are rounded times, and consecutive rows are at least 45 ms apart. */
  ghost predicate Spaced(history: seq<Row>) {
    && (forall i :: 0 <= i < |history| ==> Rounded(history[i]))
    && (forall i, j :: 0 <= i < j < |history| && j == i + 1 ==> history[j].t - history[i].t >= 0.045)
  }

  lemma {:induction false} SpacedFar(history: seq<Row>, i: nat, j: nat)
    requires Spaced(history) && i <= j < |history|
    ensures history[j].t - history[i].t >= (j - i) as real * 0.045
  {
    if i < j {
      SpacedFar(history, i, j - 1);
    }
  }

  /** Rows less than 30 s, 8 s or 2 s after another are at most this many rows after it. */
  lemma RowsWithin(history: seq<Row>, i: nat, j: nat)
    requires Spaced(history) && i <= j < |history|
    ensures history[j].t - history[i].t < 30.0 ==> j - i < CURVE_ROWS
    ensures history[j].t - history[i].t < 8.001 ==> j - i < POST_ROWS
    ensures history[j].t - history[i].t < 2.0 ==> j - i < 45
    ensures i < j ==> history[i].t < history[j].t
  {
    SpacedFar(history, i, j);
  }

  // ----- what a curve is -----

  /** Where the run of low curvature up to row `e` began, if row `e` is low; rows up to `start` do not count. */
  function LowFrom(history: seq<Row>, start: nat, e: nat): Option<nat>
    requires e < |history|
  {
    if e <= start || history[e].kappa >= 0.0005 then None
    else
      var before := LowFrom(history, start, e - 1);
      if before.Some? then before else Some(e)
  }

  /** The curve from `start` is over at row `e`: low for 2 s, or 30 s long. */
  ghost predicate OverAt(history: seq<Row>, start: nat, e: nat)
    requires start <= e < |history|
  {
    LowEnough(history, start, e) || history[e].t - history[start].t >= 30.0
  }

  ghost predicate LowEnough(history: seq<Row>, start: nat, e: nat)
    requires start <= e < |history|
  {
    var low := LowFrom(history, start, e);
    low.Some? && low.value <= e && history[e].t - history[low.value].t >= 2.0
  }

  ghost predicate OpenUntil(history: seq<Row>, start: nat, n: nat) {
    n <= |history| && forall e :: start < e < n ==> !OverAt(history, start, e)
  }

  /** The curve is over first at row `d`, ends where the low run began or else at `d`, and says if it took 30 s. */
  ghost predicate DecidedAt(history: seq<Row>, p: Pending, d: nat) {
    && p.startAbs < d < |history| && OpenUntil(history, p.startAbs, d) && OverAt(history, p.startAbs, d)
    && p.endAbs == (if LowEnough(history, p.startAbs, d) then LowFrom(history, p.startAbs, d).value else d)
    && (p.timedOut <==> history[d].t - history[p.startAbs].t >= 30.0)
  }

  /** A curve of the history: it starts on a trigger and lasts until it is first over, at least 0.8 s. */
  ghost predicate IsCurve(history: seq<Row>, p: Pending) {
    && p.startAbs < p.endAbs < |history|
    && history[p.startAbs].kappa > 0.001 && history[p.startAbs].v > 2.0
    && history[p.endAbs].t - history[p.startAbs].t >= 0.8
    && exists d :: DecidedAt(history, p, d)
  }

  lemma {:induction false} LowFromAppend(history: seq<Row>, r: Row, start: nat, e: nat)
    requires e < |history|
    ensures LowFrom(history + [r], start, e) == LowFrom(history, start, e)
  {
    if e > start { LowFromAppend(history, r, start, e - 1); }
  }

  lemma OverAppend(history: seq<Row>, r: Row, start: nat, e: nat)
    requires start <= e < |history|
    ensures LowEnough(history + [r], start, e) == LowEnough(history, start, e)
    ensures OverAt(history + [r], start, e) == OverAt(history, start, e)
  {
    LowFromAppend(history, r, start, e);
  }

  lemma OpenAppend(history: seq<Row>, r: Row, start: nat, n: nat)
    requires OpenUntil(history, start, n)
    ensures OpenUntil(history + [r], start, n)
  {
    forall e | start < e < n ensures !OverAt(history + [r], start, e) {
      OverAppend(history, r, start, e);
    }
  }

  lemma CurveAppend(history: seq<Row>, r: Row, p: Pending)
    requires IsCurve(history, p)
    ensures IsCurve(history + [r], p)
  {
    var d :| DecidedAt(history, p, d);
    OpenAppend(history, r, p.startAbs, d);
    OverAppend(history, r, p.startAbs, d);
    LowFromAppend(history, r, p.startAbs, d);
    assert DecidedAt(history + [r], p, d);
  }

  /** A low run begins after the start of the curve and not after the row it is seen from. */
  lemma {:induction false} LowFromRange(history: seq<Row>, start: nat, e: nat)
    requires e < |history|
    ensures LowFrom(history, start, e).Some? ==> start < LowFrom(history, start, e).value <= e
    ensures LowFrom(history, start, e).Some? ==>
              forall i :: LowFrom(history, start, e).value <= i <= e ==> history[i].kappa < 0.0005
  {
    if e > start { LowFromRange(history, start, e - 1); }
  }

  // ----- what holds of the waiting and the flushed curves -----

  /** A curve inside the history, not longer than the automaton allows, starting and ending at its rows. */
  ghost predicate CurveOk(history: seq<Row>, p: Pending) {
    && p.startAbs < p.endAbs < |history| && p.endAbs - p.startAbs <= CURVE_ROWS
    && p.endT == history[p.endAbs].t && IsCurve(history, p)
  }

  ghost predicate InOrder(curves: seq<Pending>) {
    forall i, j :: 0 <= i < j < |curves| ==> curves[i].endAbs < curves[j].startAbs
  }

  function CurvesOf(flushed: seq<Flushed>): seq<Pending> {
    seq(|flushed|, i requires 0 <= i < |flushed| => flushed[i].curve)
  }

  /** What was flushed is exactly the rows of the curve, all of them, as they were recorded. */
  ghost predicate FlushedOk(history: seq<Row>, f: Flushed) {
    CurveOk(history, f.curve) && f.rows == RowsOf(history, f.curve)
  }

  /** The curves as they must be flushed: each with exactly its own rows of the history. */
  ghost function Exact(history: seq<Row>, curves: seq<Pending>, partial: bool): seq<Flushed> {
    seq(|curves|, i requires 0 <= i < |curves| => Flushed(curves[i], RowsOf(history, curves[i]), partial))
  }

  function RowsOf(history: seq<Row>, p: Pending): seq<Row> {
    if p.startAbs <= p.endAbs < |history| then history[p.startAbs..p.endAbs + 1] else []
  }

  lemma FlushedExact(history: seq<Row>, was: seq<Flushed>, todo: seq<Pending>, k: nat, partial: bool)
    requires k <= |todo| && forall p :: p in todo ==> CurveOk(history, p)
    requires forall f :: f in was ==> FlushedOk(history, f)
    ensures var now := was + Exact(history, todo[..k], partial);
      && (forall f :: f in now ==> FlushedOk(history, f))
      && CurvesOf(now) + todo[k..] == CurvesOf(was) + todo
  {
    var now := was + Exact(history, todo[..k], partial);
    assert CurvesOf(now) == CurvesOf(was) + todo[..k];
    assert todo == todo[..k] + todo[k..];
  }

  lemma EndsOrdered(history: seq<Row>, a: Pending, b: Pending)
    requires Spaced(history) && CurveOk(history, a) && CurveOk(history, b) && a.endAbs < b.startAbs
    ensures a.endT < b.endT
  {
    RowsWithin(history, a.endAbs, b.endAbs);
  }

  /** The waiting curves: in this session, in order, before the current one, `slack` rows from their flush. */
  ghost predicate PendOk(history: seq<Row>, base: nat, flushed: seq<Flushed>, pend: seq<Pending>,
                         current: Option<nat>, slack: nat) {
    && (forall p :: p in pend ==> CurveOk(history, p) && base <= p.startAbs && |history| - 1 - p.endAbs < POST_ROWS + slack)
    && (forall f :: f in flushed ==> FlushedOk(history, f))
    && InOrder(CurvesOf(flushed) + pend)
    && (current.Some? ==> forall p :: p in CurvesOf(flushed) + pend ==> p.endAbs < current.value)
  }

  lemma FlushKeeps(history: seq<Row>, base: nat, was: seq<Flushed>, todo: seq<Pending>, current: Option<nat>, slack: nat,
                   k: nat, force: bool)
    requires PendOk(history, base, was, todo, current, slack) && k <= |todo|
    ensures var now := was + Exact(history, todo[..k], force);
      && PendOk(history, base, now, todo[k..], current, slack)
      && CurvesOf(now) + todo[k..] == CurvesOf(was) + todo
  {
    FlushedExact(history, was, todo, k, force);
    forall p | p in todo[k..] ensures p in todo {}
  }

  /** The ring is the newest part of the history, back to the last session start. */
  ghost predicate RingHolds(history: seq<Row>, ring: seq<Row>, base: nat) {
    && base <= |history| && Spaced(history)
    && |ring| == (if |history| - base <= 1020 then |history| - base else 1020)
    && ring == history[|history| - |ring|..]
  }

  lemma RingAppend(history: seq<Row>, ring: seq<Row>, base: nat, r: Row, longer: seq<Row>, ring': seq<Row>)
    requires RingHolds(history, ring, base) && Rounded(r) && longer == history + [r]
    requires history != [] ==> r.t - history[|history| - 1].t >= 0.045
    requires ring' == if |ring + [r]| > 1020 then (ring + [r])[1..] else ring + [r]
    ensures RingHolds(longer, ring', base)
  {
    SpacedAppend(history, r, longer);
    TailAppend(history, ring, r, longer, ring');
  }

  lemma SpacedAppend(history: seq<Row>, r: Row, longer: seq<Row>)
    requires Spaced(history) && Rounded(r) && longer == history + [r]
    requires history != [] ==> r.t - history[|history| - 1].t >= 0.045
    ensures Spaced(longer)
  {
  }

  lemma TailAppend(history: seq<Row>, ring: seq<Row>, r: Row, longer: seq<Row>, ring': seq<Row>)
    requires |ring| <= |history| && ring == history[|history| - |ring|..] && longer == history + [r]
    requires ring' == if |ring + [r]| > 1020 then (ring + [r])[1..] else ring + [r]
    ensures |ring'| <= |longer| && ring' == longer[|longer| - |ring'|..]
  {
    assert ring + [r] == longer[|history| - |ring|..];
  }

  /** One more row brings every waiting curve one row closer to its flush. */
  lemma PendAppend(history: seq<Row>, base: nat, flushed: seq<Flushed>, pend: seq<Pending>, current: Option<nat>, r: Row, longer: seq<Row>)
    requires PendOk(history, base, flushed, pend, current, 0) && longer == history + [r]
    ensures PendOk(longer, base, flushed, pend, current, 1)
  {
    forall p | p in pend ensures CurveOk(longer, p) {
      CurveAppend(history, r, p);
    }
    forall f | f in flushed ensures FlushedOk(longer, f) {
      assert FlushedOk(history, f);
      CurveAppend(history, r, f.curve);
      assert RowsOf(longer, f.curve) == RowsOf(history, f.curve);
    }
  }

  /** A curve being followed: it started at row `startAbs`, and had neither ended nor timed out by row `n - 1`. */
  ghost predicate FollowOk(history: seq<Row>, base: nat, startAbs: nat, startT: real, below: Option<(nat, real)>, n: nat) {
    && base <= startAbs < n <= |history| && startT == history[startAbs].t
    && history[startAbs].kappa > CURVE_ON_KAPPA && history[startAbs].v > MIN_TRIGGER_V
    && history[n - 1].t - startT < MAX_CURVE && OpenUntil(history, startAbs, n)
    && below == LowRow(history, startAbs, n - 1)
    && (below.Some? ==> startAbs < below.value.0 < n && history[n - 1].t - below.value.1 < CURVE_OFF_HOLD)
  }

  /** The low run up to row `e` as the automaton keeps it: its first row and that row's time. */
  ghost function LowRow(history: seq<Row>, start: nat, e: nat): Option<(nat, real)>
    requires e < |history|
  {
    LowFromRange(history, start, e);
    var low := LowFrom(history, start, e);
    if low.Some? then Some((low.value, history[low.value].t)) else None
  }

  lemma FollowAppend(history: seq<Row>, base: nat, startAbs: nat, startT: real, below: Option<(nat, real)>, n: nat, r: Row, longer: seq<Row>)
    requires FollowOk(history, base, startAbs, startT, below, n) && longer == history + [r]
    ensures FollowOk(longer, base, startAbs, startT, below, n)
  {
    OpenAppend(history, r, startAbs, n);
    LowFromAppend(history, r, startAbs, n - 1);
    LowFromRange(history, startAbs, n - 1);
  }

  // ----- flushing never loses a row -----

  /** The ring still holds every row of a waiting curve, so cutting it out clips nothing. */
  lemma CutOutIsExact(history: seq<Row>, ring: seq<Row>, base: nat, p: Pending, partial: bool)
    requires RingHolds(history, ring, base) && CurveOk(history, p)
    requires base <= p.startAbs && |history| - 1 - p.endAbs < POST_ROWS + 1
    ensures CutOut(ring, |history|, p, partial) == Some(Flushed(p, RowsOf(history, p), partial))
  {
    var off := |history| - |ring|;
    Reaches(|history|, base, p.startAbs, p.endAbs);
    CutOutOfTail(history, ring, off, p, partial);
  }

  lemma CutOutOfTail(history: seq<Row>, ring: seq<Row>, off: nat, p: Pending, partial: bool)
    requires off <= p.startAbs <= p.endAbs < |history| && ring == history[off..]
    ensures CutOut(ring, |history|, p, partial) == Some(Flushed(p, RowsOf(history, p), partial))
  {
    SliceOfTail(history, off, p.startAbs, p.endAbs + 1);
  }

  /** The oldest row of a ring over `n` rows is not after the start of a waiting curve. */
  lemma Reaches(n: nat, base: nat, startAbs: nat, endAbs: nat)
    requires base <= startAbs <= endAbs < n && endAbs - startAbs <= CURVE_ROWS && n - 1 - endAbs <= POST_ROWS
    ensures n - (if n - base <= 1020 then n - base else 1020) <= startAbs
  {
  }

  lemma SliceOfTail(history: seq<Row>, off: nat, lo: nat, hi: nat)
    requires off <= lo <= hi <= |history|
    ensures history[off..][lo - off..hi - off] == history[lo..hi]
  {
  }

  /** So is its pre-roll, as far as the session goes back. */
  lemma PreRollIsHeld(history: seq<Row>, ring: seq<Row>, base: nat, p: Pending, i: nat)
    requires RingHolds(history, ring, base) && CurveOk(history, p)
    requires base <= p.startAbs && |history| - 1 - p.endAbs < POST_ROWS + 1
    requires base <= i <= p.startAbs && p.startAbs - 160 <= i
    ensures var off := |history| - |ring|; off <= i && ring[i - off] == history[i]
  {
  }

  /** Curves that are ready to be flushed, in order. */
  ghost predicate Ready(history: seq<Row>, base: nat, todo: seq<Pending>) {
    && InOrder(todo)
    && forall i :: 0 <= i < |todo| ==>
         CurveOk(history, todo[i]) && base <= todo[i].startAbs && |history| - 1 - todo[i].endAbs < POST_ROWS + 1
  }

  /** Curves come due in order: when the first waiting curve is not due, none is, and nothing is flushed. */
  lemma NoneDue(history: seq<Row>, ring: seq<Row>, base: nat, todo: seq<Pending>)
    requires RingHolds(history, ring, base) && Ready(history, base, todo)
    requires todo != [] ==> !Due(ring, todo[0])
    ensures FlushList(ring, |history|, todo, false) == (todo, [])
    ensures forall i :: 0 <= i < |todo| ==> !Due(ring, todo[i])
  {
    forall i | 0 <= i < |todo| ensures !Due(ring, todo[i]) {
      if i > 0 { EndsOrdered(history, todo[0], todo[i]); }
    }
    FlushNothing(ring, |history|, todo);
  }

  lemma {:induction false} FlushNothing(ring: seq<Row>, absN: nat, todo: seq<Pending>)
    requires forall i :: 0 <= i < |todo| ==> !Due(ring, todo[i])
    ensures FlushList(ring, absN, todo, false) == (todo, [])
  {
    if todo != [] {
      FlushNothing(ring, absN, todo[1..]);
      assert [todo[0]] + todo[1..] == todo;
    }
  }

  /** The flushed front of the waiting list, and the rest. */
  ghost predicate Split(history: seq<Row>, todo: seq<Pending>, k: nat, force: bool, out: (seq<Pending>, seq<Flushed>)) {
    k <= |todo| && out.0 == todo[k..] && out.1 == Exact(history, todo[..k], force)
  }

  lemma CutFirst(ring: seq<Row>, absN: nat, todo: seq<Pending>, force: bool, f: Flushed,
                 rest: (seq<Pending>, seq<Flushed>), out: (seq<Pending>, seq<Flushed>))
    requires todo != [] && (force || Due(ring, todo[0])) && CutOut(ring, absN, todo[0], force) == Some(f)
    requires rest == FlushList(ring, absN, todo[1..], force) && out == FlushList(ring, absN, todo, force)
    ensures out == (rest.0, [f] + rest.1)
  {
  }

  lemma ExactFront(history: seq<Row>, todo: seq<Pending>, k: nat, partial: bool)
    requires 0 < k <= |todo|
    ensures todo[1..][k - 1..] == todo[k..]
    ensures Exact(history, todo[..k], partial)
         == [Flushed(todo[0], RowsOf(history, todo[0]), partial)] + Exact(history, todo[1..][..k - 1], partial)
  {
    assert todo[..k] == [todo[0]] + todo[1..][..k - 1];
  }

  lemma SplitNone(history: seq<Row>, todo: seq<Pending>, force: bool)
    ensures Split(history, todo, 0, force, (todo, []))
  {
    assert todo[0..] == todo && todo[..0] == [];
  }

  lemma SplitFront(history: seq<Row>, todo: seq<Pending>, k: nat, force: bool, out: (seq<Pending>, seq<Flushed>))
    requires todo != [] && Split(history, todo[1..], k, force, out)
    ensures Split(history, todo, k + 1, force, (out.0, [Flushed(todo[0], RowsOf(history, todo[0]), force)] + out.1))
  {
    ExactFront(history, todo, k + 1, force);
  }

  lemma ReadyTail(history: seq<Row>, base: nat, todo: seq<Pending>)
    requires Ready(history, base, todo) && todo != []
    ensures Ready(history, base, todo[1..])
  {
  }

  lemma DueTail(ring: seq<Row>, todo: seq<Pending>, k: nat)
    requires todo != [] && forall i :: k <= i < |todo[1..]| ==> !Due(ring, todo[1..][i])
    ensures forall i :: k + 1 <= i < |todo| ==> !Due(ring, todo[i])
  {
    assert forall i :: k + 1 <= i < |todo| ==> todo[i] == todo[1..][i - 1];
  }

  /** The due curves come first; they are cut out exactly and the others are kept. */
  lemma {:induction false} FlushListExact(history: seq<Row>, ring: seq<Row>, base: nat, todo: seq<Pending>, force: bool,
                                          out: (seq<Pending>, seq<Flushed>)) returns (k: nat)
    requires RingHolds(history, ring, base) && Ready(history, base, todo) && out == FlushList(ring, |history|, todo, force)
    ensures Split(history, todo, k, force, out)
    ensures force ==> k == |todo|
    ensures !force ==> forall i :: k <= i < |todo| ==> !Due(ring, todo[i])
    decreases |todo|
  {
    if todo == [] || (!force && !Due(ring, todo[0])) {
      k := 0;
      SplitNone(history, todo, force);
      if !force { NoneDue(history, ring, base, todo); }
    } else {
      var rest := FlushList(ring, |history|, todo[1..], force);
      ReadyTail(history, base, todo);
      k := FlushListExact(history, ring, base, todo[1..], force, rest);
      CutOutIsExact(history, ring, base, todo[0], force);
      CutFirst(ring, |history|, todo, force, Flushed(todo[0], RowsOf(history, todo[0]), force), rest, out);
      SplitFront(history, todo, k, force, rest);
      if !force { DueTail(ring, todo, k); }
      k := k + 1;
    }
  }

  // ----- runs -----

  /** The curves that ended, flushed or not, in order. */
  function Closed(s: State): seq<Pending> {
    CurvesOf(s.flushed) + s.pend
  }

  /** A logger with every row it ever recorded and the row number its session started at. */
  datatype Run = Run(s: State, history: seq<Row>, base: nat)

  datatype Event = CarState(r: Row) | CarChange

  ghost predicate EventOk(e: Event) {
    e.CarState? ==> Rounded(e.r) && e.r.t >= 0.0
  }

  function Next(a: Run, e: Event): Run {
    match e
    case CarChange => Run(EndSession(a.s), a.history, |a.history|)
    case CarState(r) =>
      if Decimated(a.s, r.t) then a
      else Run(Tick(a.s, r), a.history + [r], if GapBefore(a.s, r.t) then |a.history| else a.base)
  }

  function RunAll(events: seq<Event>): Run
    decreases |events|
  {
    if events == [] then Run(INITIAL, [], 0) else Next(RunAll(events[..|events| - 1]), events[|events| - 1])
  }

  ghost function StartOf(s: State): Option<nat> {
    if s.start.Some? then Some(s.start.value.0) else None
  }

  /** Following was fine up to row `n - 1`, and waiting curves are `slack` rows from their flush. */
  ghost predicate Holds(s: State, history: seq<Row>, base: nat, n: nat, slack: nat) {
    && s.absN == |history| && RingHolds(history, s.ring, base)
    && (s.start.Some? ==> FollowOk(history, base, s.start.value.0, s.start.value.1, s.below, n))
    && PendOk(history, base, s.flushed, s.pend, StartOf(s), slack)
    && (forall p :: p in CurvesOf(s.flushed) + s.pend ==> p.endAbs < n)
  }

  ghost predicate Inv(a: Run) {
    && Holds(a.s, a.history, a.base, |a.history|, 0)
    && a.s.lastAppendT == (if a.history == [] then -1000000000.0 else a.history[|a.history| - 1].t)
  }

  lemma PendReady(history: seq<Row>, base: nat, flushed: seq<Flushed>, pend: seq<Pending>, current: Option<nat>, slack: nat)
    requires PendOk(history, base, flushed, pend, current, slack) && slack <= 1
    ensures Ready(history, base, pend)
  {
    var a := CurvesOf(flushed);
    forall i, j | 0 <= i < j < |pend| ensures pend[i].endAbs < pend[j].startAbs {
      assert (a + pend)[|a| + i] == pend[i] && (a + pend)[|a| + j] == pend[j];
    }
  }

  lemma ForcedFlush(s: State, history: seq<Row>, base: nat) returns (flushed: seq<Flushed>)
    requires Holds(s, history, base, |history|, 0)
    ensures FlushPending(s, true) == s.(pend := [], flushed := flushed)
    ensures PendOk(history, base, flushed, [], None, 0) && CurvesOf(flushed) == Closed(s)
  {
    var n := FlushListOf(s, history, base, 0, true);
    flushed := s.flushed + Exact(history, s.pend, true);
    FlushKeeps(history, base, s.flushed, s.pend, StartOf(s), 0, n, true);
    assert s.pend[..n] == s.pend && s.pend[n..] == [] && CurvesOf(flushed) + [] == CurvesOf(flushed);
  }

  lemma FlushListOf(s: State, history: seq<Row>, base: nat, slack: nat, force: bool) returns (k: nat)
    requires Holds(s, history, base, |history|, slack) && slack <= 1
    ensures Split(history, s.pend, k, force, FlushList(s.ring, s.absN, s.pend, force))
    ensures force ==> k == |s.pend|
    ensures !force ==> forall i :: k <= i < |s.pend| ==> !Due(s.ring, s.pend[i])
  {
    PendReady(history, base, s.flushed, s.pend, StartOf(s), slack);
    k := FlushListExact(history, s.ring, base, s.pend, force, FlushList(s.ring, s.absN, s.pend, force));
  }

  lemma SessionStart(s: State, history: seq<Row>, base: nat)
    requires s.ring == [] && s.pend == [] && s.start.None? && s.absN == |history| && Spaced(history)
    requires PendOk(history, base, s.flushed, [], None, 0)
    requires forall p :: p in CurvesOf(s.flushed) ==> p.endAbs < |history|
    ensures Holds(s, history, |history|, |history|, 0)
  {
    assert CurvesOf(s.flushed) + [] == CurvesOf(s.flushed);
  }

  /** A forced flush empties the waiting list; afterwards a new session may start at any later row. */
  lemma EndSessionKeeps(s: State, history: seq<Row>, base: nat)
    requires Holds(s, history, base, |history|, 0)
    ensures Holds(EndSession(s), history, |history|, |history|, 0) && EndSession(s).pend == []
    ensures EndSession(s).lastAppendT == s.lastAppendT && CurvesOf(EndSession(s).flushed) == Closed(s)
  {
    var flushed := ForcedFlush(s, history, base);
    SessionStart(EndSession(s), history, base);
  }

  lemma RecordKeeps(s: State, history: seq<Row>, base: nat, r: Row, s': State, longer: seq<Row>)
    requires Holds(s, history, base, |history|, 0) && Rounded(r)
    requires history != [] ==> r.t - history[|history| - 1].t >= 0.045
    requires s' == Record(s, r) && longer == history + [r]
    ensures Holds(s', longer, base, |history|, 1) && s'.ring != [] && Closed(s') == Closed(s)
  {
    RingAppend(history, s.ring, base, r, longer, s'.ring);
    PendAppend(history, base, s.flushed, s.pend, StartOf(s), r, longer);
    if s.start.Some? {
      FollowAppend(history, base, s.start.value.0, s.start.value.1, s.below, |history|, r, longer);
    }
  }

  /** A curve that just ended joins the waiting list in order, within its length. */
  lemma NewPending(history: seq<Row>, base: nat, flushed: seq<Flushed>, pend: seq<Pending>, p: Pending)
    requires PendOk(history, base, flushed, pend, Some(p.startAbs), 1)
    requires CurveOk(history, p) && base <= p.startAbs && |history| - 1 - p.endAbs < POST_ROWS
    ensures PendOk(history, base, flushed, pend + [p], None, 1)
  {
    assert CurvesOf(flushed) + (pend + [p]) == (CurvesOf(flushed) + pend) + [p];
  }

  /** A curve not over by the row before the newest is short, and its low run, if any, is fresh. */
  lemma EndIsNear(history: seq<Row>, startAbs: nat, endAbs: nat)
    requires Spaced(history) && startAbs + 1 < |history| && startAbs < endAbs < |history|
    requires history[|history| - 2].t - history[startAbs].t < MAX_CURVE
    ensures endAbs - startAbs <= CURVE_ROWS
  {
    RowsWithin(history, startAbs, |history| - 2);
  }

  lemma EndIsFresh(history: seq<Row>, low: nat)
    requires Spaced(history) && low + 1 < |history|
    requires history[|history| - 2].t - history[low].t < CURVE_OFF_HOLD
    ensures |history| - 1 - low < POST_ROWS
  {
    RowsWithin(history, low, |history| - 2);
  }

  /** The automaton's variable follows the low run from row to row. */
  lemma BelowIsLowRow(s: State, history: seq<Row>, base: nat, r: Row, startAbs: nat, startT: real)
    requires history != [] && history[|history| - 1] == r && s.absN == |history|
    requires FollowOk(history, base, startAbs, startT, s.below, |history| - 1)
    ensures Below(s, r) == LowRow(history, startAbs, |history| - 1)
  {
  }

  /** The newest row is the first at which the curve is over, in the automaton's terms. */
  ghost predicate Decides(history: seq<Row>, p: Pending) {
    && p.startAbs < |history| - 1 && OpenUntil(history, p.startAbs, |history| - 1)
    && var d := |history| - 1; var low := LowRow(history, p.startAbs, d);
       var ended := low.Some? && history[d].t - low.value.1 >= CURVE_OFF_HOLD;
       && (ended || history[d].t - history[p.startAbs].t >= MAX_CURVE)
       && p.endAbs == (if ended then low.value.0 else d)
       && p.endT == (if ended then low.value.1 else history[d].t)
       && (p.timedOut <==> history[d].t - history[p.startAbs].t >= MAX_CURVE)
  }

  lemma DecidedNow(history: seq<Row>, p: Pending)
    requires Decides(history, p)
    ensures DecidedAt(history, p, |history| - 1) && p.startAbs < p.endAbs < |history| && p.endT == history[p.endAbs].t
  {
    LowFromRange(history, p.startAbs, |history| - 1);
  }

  /** The newest row ends the followed curve. */
  lemma EndKeeps(s: State, history: seq<Row>, base: nat, p: Pending, s': State)
    requires base < |history| && Holds(s, history, base, |history| - 1, 1)
    requires p.startAbs < |history| - 1 && s.start == Some((p.startAbs, history[p.startAbs].t))
    requires Decides(history, p) && s' == Close(s, s.start.value.1, p)
    ensures Holds(s', history, base, |history|, 1)
  {
    DecidedNow(history, p);
    EndIsNear(history, p.startAbs, p.endAbs);
    LowRowStep(history, p.startAbs);
    if p.endAbs < |history| - 1 {
      EndIsFresh(history, p.endAbs);
    }
    CloseKeeps(s, history, base, p);
  }

  lemma LowRowStep(history: seq<Row>, start: nat)
    requires start + 1 < |history|
    ensures var low, before := LowFrom(history, start, |history| - 1), LowFrom(history, start, |history| - 2);
      low.Some? && low.value != |history| - 1 ==> low == before
  {
  }

  lemma CloseKeeps(s: State, history: seq<Row>, base: nat, p: Pending)
    requires base < |history| && Holds(s, history, base, |history| - 1, 1) && s.start.Some? && p.startAbs == s.start.value.0
    requires p.startAbs < p.endAbs < |history| && p.endAbs - p.startAbs <= CURVE_ROWS && |history| - 1 - p.endAbs < POST_ROWS
    requires p.endT == history[p.endAbs].t && DecidedAt(history, p, |history| - 1)
    ensures Holds(Close(s, s.start.value.1, p), history, base, |history|, 1)
  {
    if p.endT - history[p.startAbs].t >= MIN_CURVE {
      NewPending(history, base, s.flushed, s.pend, p);
      assert CurvesOf(s.flushed) + (s.pend + [p]) == (CurvesOf(s.flushed) + s.pend) + [p];
    }
  }

  lemma StartKeeps(s: State, history: seq<Row>, base: nat, r: Row)
    requires base < |history| && history[|history| - 1] == r && Holds(s, history, base, |history| - 1, 1) && s.start.None?
    requires r.kappa > CURVE_ON_KAPPA && r.v > MIN_TRIGGER_V
    ensures Holds(s.(start := Some((|history| - 1, r.t)), below := None), history, base, |history|, 1)
  {
  }

  lemma ContinueKeeps(s: State, history: seq<Row>, base: nat, r: Row, low: Option<(nat, real)>, s': State)
    requires base < |history| && history[|history| - 1] == r && Holds(s, history, base, |history| - 1, 1) && s.start.Some?
    requires r.t - s.start.value.1 < MAX_CURVE
    requires low == LowRow(history, s.start.value.0, |history| - 1)
    requires low.Some? ==> r.t - low.value.1 < CURVE_OFF_HOLD
    requires s' == s.(below := low)
    ensures Holds(s', history, base, |history|, 1)
  {
    var startAbs := s.start.value.0;
    LowFromRange(history, startAbs, |history| - 1);
    assert !OverAt(history, startAbs, |history| - 1);
  }

  lemma FollowingKeeps(s: State, history: seq<Row>, base: nat, r: Row, s': State)
    requires base < |history| && history[|history| - 1] == r && Holds(s, history, base, |history| - 1, 1) && s.start.Some?
    requires s' == Follow(s, r)
    ensures Holds(s', history, base, |history|, 1)
  {
    var (startAbs, startT) := s.start.value;
    var low := LowRow(history, startAbs, |history| - 1);
    BelowIsLowRow(s, history, base, r, startAbs, startT);
    FollowIs(s, r, low, s');
    if low.Some? && r.t - low.value.1 >= CURVE_OFF_HOLD {
      EndKeeps(s, history, base, Pending(startAbs, low.value.0, low.value.1, r.t - startT >= MAX_CURVE), s');
    } else if r.t - startT >= MAX_CURVE {
      EndKeeps(s, history, base, Pending(startAbs, |history| - 1, r.t, true), s');
    } else {
      ContinueKeeps(s, history, base, r, low, s');
    }
  }

  lemma FollowIs(s: State, r: Row, low: Option<(nat, real)>, s': State)
    requires s.absN > 0 && s.start.Some? && s' == Follow(s, r) && low == Below(s, r)
    ensures var (startAbs, startT) := s.start.value;
      s' == if low.Some? && r.t - low.value.1 >= CURVE_OFF_HOLD then
              Close(s, startT, Pending(startAbs, low.value.0, low.value.1, r.t - startT >= MAX_CURVE))
            else if r.t - startT >= MAX_CURVE then Close(s, startT, Pending(startAbs, s.absN - 1, r.t, true))
            else s.(below := low)
  {
  }

  lemma FollowKeeps(s: State, history: seq<Row>, base: nat, r: Row, s': State)
    requires base < |history| && history[|history| - 1] == r && Holds(s, history, base, |history| - 1, 1)
    requires s' == Follow(s, r)
    ensures Holds(s', history, base, |history|, 1)
  {
    if s.start.Some? {
      FollowingKeeps(s, history, base, r, s');
    } else if r.kappa > CURVE_ON_KAPPA && r.v > MIN_TRIGGER_V {
      StartKeeps(s, history, base, r);
    }
  }

  /** What is still waiting after a flush at the newest row has not waited 8 s. */
  lemma FlushKeepsWaiting(s: State, history: seq<Row>, base: nat)
    requires history != [] && Holds(s, history, base, |history|, 1) && s.ring != []
    ensures Holds(FlushPending(s, false), history, base, |history|, 0)
    ensures Closed(FlushPending(s, false)) == Closed(s)
  {
    var k := FlushListOf(s, history, base, 1, false);
    FlushKeeps(history, base, s.flushed, s.pend, StartOf(s), 1, k, false);
    forall p | p in s.pend[k..] ensures |history| - 1 - p.endAbs < POST_ROWS {
      assert p in s.pend;
      RowsWithin(history, p.endAbs, |history| - 1);
    }
  }

  lemma SpacedTick(a: Run, r: Row)
    requires Inv(a) && EventOk(CarState(r)) && !Decimated(a.s, r.t)
    ensures a.history != [] ==> r.t - a.history[|a.history| - 1].t >= 0.045
  {
  }

  lemma SettleKeeps(s: State, history: seq<Row>, base: nat)
    requires history != [] && Holds(s, history, base, |history|, 1) && s.ring != []
    ensures Holds(Settle(s), history, base, |history|, 0) && Closed(Settle(s)) == Closed(s)
  {
    if s.pend != [] {
      FlushKeepsWaiting(s, history, base);
    }
  }

  lemma FollowFrame(s: State, r: Row, s': State)
    requires s.absN > 0 && s' == Follow(s, r)
    ensures Closed(s) <= Closed(s') && |Closed(s')| <= |Closed(s)| + 1
    ensures s'.ring == s.ring && s'.absN == s.absN && s'.lastAppendT == s.lastAppendT
  {
    if |s'.pend| > |s.pend| {
      assert Closed(s') == Closed(s) + [s'.pend[|s.pend|]];
    }
  }

  lemma RecordFollowKeeps(s: State, history: seq<Row>, base: nat, r: Row)
    requires Holds(s, history, base, |history|, 0) && Rounded(r)
    requires history != [] ==> r.t - history[|history| - 1].t >= 0.045
    ensures Holds(Follow(Record(s, r), r), history + [r], base, |history| + 1, 1) && Record(s, r).ring != []
  {
    RecordKeeps(s, history, base, r, Record(s, r), history + [r]);
    FollowKeeps(Record(s, r), history + [r], base, r, Follow(Record(s, r), r));
  }

  /** From a session state, recording and following a row and flushing what is due. */
  lemma RowKeeps(s: State, history: seq<Row>, base: nat, r: Row)
    requires Holds(s, history, base, |history|, 0) && Rounded(r)
    requires history != [] ==> r.t - history[|history| - 1].t >= 0.045
    ensures Holds(Settle(Follow(Record(s, r), r)), history + [r], base, |history| + 1, 0)
    ensures Closed(Settle(Follow(Record(s, r), r))) == Closed(Follow(Record(s, r), r))
  {
    RecordFollowKeeps(s, history, base, r);
    SettleKeeps(Follow(Record(s, r), r), history + [r], base);
  }

  /** The session a row arriving now belongs to. */
  lemma ArriveKeeps(s: State, history: seq<Row>, base: nat, t: real, s': State, base': nat)
    requires Holds(s, history, base, |history|, 0)
    requires s' == Arrive(s.(lastAppendT := t), t) && base' == if GapBefore(s, t) then |history| else base
    ensures Holds(s', history, base', |history|, 0) && Closed(s') == Closed(s)
  {
    var s0 := s.(lastAppendT := t);
    if GapBefore(s, t) {
      EndSessionKeeps(s0, history, base);
      assert Closed(EndSession(s0)) == CurvesOf(EndSession(s0).flushed);
    }
  }

  lemma TickIs(s: State, r: Row)
    requires !Decimated(s, r.t)
    ensures Tick(s, r) == Settle(Follow(Record(Arrive(s.(lastAppendT := r.t), r.t), r), r))
  {
  }

  lemma RowKeepsAs(s1: State, history: seq<Row>, base: nat, r: Row, s': State, longer: seq<Row>)
    requires Holds(s1, history, base, |history|, 0) && Rounded(r)
    requires history != [] ==> r.t - history[|history| - 1].t >= 0.045
    requires s' == Settle(Follow(Record(s1, r), r)) && longer == history + [r]
    ensures Holds(s', longer, base, |longer|, 0)
    ensures Closed(s1) <= Closed(s') && |Closed(s')| <= |Closed(s1)| + 1
  {
    RowKeeps(s1, history, base, r);
    FollowFrame(Record(s1, r), r, Follow(Record(s1, r), r));
  }

  lemma TickKeeps(s: State, history: seq<Row>, base: nat, r: Row, s': State, base': nat, longer: seq<Row>)
    requires Holds(s, history, base, |history|, 0) && Rounded(r) && !Decimated(s, r.t)
    requires history != [] ==> r.t - history[|history| - 1].t >= 0.045
    requires s' == Tick(s, r) && longer == history + [r] && base' == if GapBefore(s, r.t) then |history| else base
    ensures Holds(s', longer, base', |longer|, 0)
    ensures Closed(s) <= Closed(s') && |Closed(s')| <= |Closed(s)| + 1
  {
    var s1 := Arrive(s.(lastAppendT := r.t), r.t);
    ArriveKeeps(s, history, base, r.t, s1, base');
    TickIs(s, r);
    RowKeepsAs(s1, history, base', r, s', longer);
  }

  lemma CarStateKeeps(a: Run, r: Row)
    requires Inv(a) && EventOk(CarState(r))
    ensures Inv(Next(a, CarState(r)))
  {
    if !Decimated(a.s, r.t) {
      var b := Next(a, CarState(r));
      SpacedTick(a, r);
      TickKeeps(a.s, a.history, a.base, r, b.s, b.base, b.history);
      TickTime(a.s, r);
    }
  }

  lemma CarChangeKeeps(a: Run)
    requires Inv(a)
    ensures Inv(Next(a, CarChange))
  {
    EndSessionKeeps(a.s, a.history, a.base);
  }

  lemma TickTime(s: State, r: Row)
    requires !Decimated(s, r.t)
    ensures Tick(s, r).lastAppendT == r.t
  {
  }

  lemma EventKeeps(a: Run, e: Event)
    requires Inv(a) && EventOk(e)
    ensures Inv(Next(a, e))
  {
    match e {
      case CarState(r) => CarStateKeeps(a, r);
      case CarChange => CarChangeKeeps(a);
    }
  }

  lemma InitialHolds()
    ensures Inv(Run(INITIAL, [], 0))
  {
  }

  lemma {:induction false} RunKeeps(events: seq<Event>)
    requires forall e :: e in events ==> EventOk(e)
    ensures Inv(RunAll(events))
    decreases |events|
  {
    if events != [] {
      var before, e := events[..|events| - 1], events[|events| - 1];
      assert forall b :: b in before ==> b in events;
      RunKeeps(before);
      assert EventOk(e);
      EventKeeps(RunAll(before), e);
    } else {
      InitialHolds();
    }
  }

  /** No curve is dropped or flushed twice: an update adds at most one curve, at the end of the flushed and waiting ones. */
  lemma CurvesOnlyGrow(a: Run, e: Event)
    requires Inv(a) && EventOk(e)
    ensures Closed(a.s) <= Closed(Next(a, e).s) && |Closed(Next(a, e).s)| <= |Closed(a.s)| + 1
    ensures e.CarChange? ==> Next(a, e).s.pend == [] && CurvesOf(Next(a, e).s.flushed) == Closed(a.s)
  {
    match e {
      case CarChange =>
        EndSessionKeeps(a.s, a.history, a.base);
      case CarState(r) =>
        if !Decimated(a.s, r.t) {
          var b := Next(a, e);
          SpacedTick(a, r);
          TickKeeps(a.s, a.history, a.base, r, b.s, b.base, b.history);
        }
    }
  }

  /**
   For any timing of the messages, every flushed curve is one of the history, was flushed with exactly the
   rows recorded between its start and its end, none of them evicted, and the curves are disjoint and in order.
   */
  lemma FlushedCurvesAreExact(events: seq<Event>)
    requires forall e :: e in events ==> EventOk(e)
    ensures var a := RunAll(events);
      && (forall f :: f in a.s.flushed ==>
            && IsCurve(a.history, f.curve)
            && f.rows == a.history[f.curve.startAbs..f.curve.endAbs + 1])
      && (forall i, j :: 0 <= i < j < |a.s.flushed| ==> a.s.flushed[i].curve.endAbs < a.s.flushed[j].curve.startAbs)
      && |a.s.ring| <= 1020
  {
    RunKeeps(events);
    var a := RunAll(events);
    var curves := CurvesOf(a.s.flushed) + a.s.pend;
    forall i, j | 0 <= i < j < |a.s.flushed|
      ensures a.s.flushed[i].curve.endAbs < a.s.flushed[j].curve.startAbs
    {
      assert curves[i] == a.s.flushed[i].curve && curves[j] == a.s.flushed[j].curve;
    }
    forall f | f in a.s.flushed ensures FlushedOk(a.history, f) {}
  }
}
