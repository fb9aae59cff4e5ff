/**
 The curve logger misses nothing: every trigger row lies in a recorded curve, in the curve being followed, in
 a blip too short to record, or in a stretch that a session end cut short.
 */
module CurveCoverage {
  import opened Wrappers
  import opened CurveLogger

  predicate Trigger(r: Row) {
    r.kappa > 0.001 && r.v > 2.0
  }

  /** Over first at row `d`: recorded as a curve, or shorter than 0.8 s. */
  ghost predicate Finished(history: seq<Row>, closed: seq<Pending>, start: nat, d: nat) {
    && start < d < |history| && OpenUntil(history, start, d) && OverAt(history, start, d)
    && ((exists p :: p in closed && p.startAbs == start && DecidedAt(history, p, d)) || IsBlip(history, start, d))
  }

  /** Where the stretch from `start` ends that is over at `d`. */
  ghost function EndOf(history: seq<Row>, start: nat, d: nat): nat
    requires start <= d < |history|
  {
    if LowEnough(history, start, d) then LowFrom(history, start, d).value else d
  }

  ghost predicate IsBlip(history: seq<Row>, start: nat, d: nat) {
    && start <= d < |history| && EndOf(history, start, d) < |history|
    && history[EndOf(history, start, d)].t - history[start].t < 0.8
  }

  /** Row `i` lies in a stretch that began on a trigger at `start`. */
  ghost predicate Covers(history: seq<Row>, closed: seq<Pending>, open: Option<nat>, cuts: seq<nat>, i: nat, start: nat) {
    && start <= i < |history| && Trigger(history[start])
    && (|| open == Some(start)
        || (exists d :: i <= d && Finished(history, closed, start, d))
        || (exists c :: c in cuts && i < c && OpenUntil(history, start, c)))
  }

  /** Every trigger row lies in a stretch. */
  ghost predicate Complete(history: seq<Row>, closed: seq<Pending>, open: Option<nat>, cuts: seq<nat>) {
    forall i: nat :: i < |history| && Trigger(history[i]) ==> Covered(history, closed, open, cuts, i)
  }

  ghost predicate Covered(history: seq<Row>, closed: seq<Pending>, open: Option<nat>, cuts: seq<nat>, i: nat) {
    exists start :: Covers(history, closed, open, cuts, i, start)
  }

  // ----- stretches stay -----

  lemma DecidedAppend(history: seq<Row>, r: Row, p: Pending, d: nat)
    requires DecidedAt(history, p, d)
    ensures DecidedAt(history + [r], p, d)
  {
    OpenAppend(history, r, p.startAbs, d);
    OverAppend(history, r, p.startAbs, d);
    LowFromAppend(history, r, p.startAbs, d);
  }

  lemma FinishedAppend(history: seq<Row>, r: Row, closed: seq<Pending>, more: seq<Pending>, start: nat, d: nat)
    requires Finished(history, closed, start, d) && forall p :: p in closed ==> p in more
    ensures Finished(history + [r], more, start, d)
  {
    OpenAppend(history, r, start, d);
    OverAppend(history, r, start, d);
    LowFromAppend(history, r, start, d);
    if p :| p in closed && p.startAbs == start && DecidedAt(history, p, d) {
      DecidedAppend(history, r, p, d);
      assert p in more;
    } else {
      assert EndOf(history + [r], start, d) == EndOf(history, start, d);
    }
  }

  /** What held a row before holds it after one more row, if the open stretch is still open or is finished now. */
  lemma CoversAppend(history: seq<Row>, r: Row, closed: seq<Pending>, more: seq<Pending>, open: Option<nat>, open': Option<nat>,
                     cuts: seq<nat>, i: nat, start: nat)
    requires Covers(history, closed, open, cuts, i, start) && forall p :: p in closed ==> p in more
    requires open.Some? ==> open' == open || Finished(history + [r], more, open.value, |history|)
    ensures Covers(history + [r], more, open', cuts, i, start)
  {
    var longer := history + [r];
    if open == Some(start) {
      if open' != open { assert i <= |history| && Finished(longer, more, start, |history|); }
    } else if d :| i <= d && Finished(history, closed, start, d) {
      FinishedAppend(history, r, closed, more, start, d);
    } else {
      var c :| c in cuts && i < c && OpenUntil(history, start, c);
      OpenAppend(history, r, start, c);
    }
  }

  /** One more row: it opens a stretch if it can, or lies in the one that was open. */
  lemma CompleteAppend(history: seq<Row>, r: Row, closed: seq<Pending>, more: seq<Pending>, open: Option<nat>, open': Option<nat>, cuts: seq<nat>)
    requires Complete(history, closed, open, cuts) && forall p :: p in closed ==> p in more
    requires open.Some? ==> open.value < |history| && Trigger(history[open.value])
    requires open.Some? ==> open' == open || Finished(history + [r], more, open.value, |history|)
    requires open.None? && Trigger(r) ==> open' == Some(|history|)
    ensures Complete(history + [r], more, open', cuts)
  {
    var longer := history + [r];
    forall i: nat | i < |longer| && Trigger(longer[i]) ensures Covered(longer, more, open', cuts, i) {
      if i < |history| {
        assert Trigger(history[i]);
        var start :| Covers(history, closed, open, cuts, i, start);
        CoversAppend(history, r, closed, more, open, open', cuts, i, start);
      } else if open.Some? {
        assert Covers(longer, more, open', cuts, i, open.value);
      } else {
        assert Covers(longer, more, open', cuts, i, i);
      }
    }
  }

  /** A session end cuts the open stretch. */
  lemma CompleteCut(history: seq<Row>, closed: seq<Pending>, open: Option<nat>, cuts: seq<nat>)
    requires Complete(history, closed, open, cuts)
    requires open.Some? ==> OpenUntil(history, open.value, |history|)
    ensures Complete(history, closed, None, cuts + [|history|])
  {
    var more := cuts + [|history|];
    forall i: nat | i < |history| && Trigger(history[i]) ensures Covered(history, closed, None, more, i) {
      var start :| Covers(history, closed, open, cuts, i, start);
      assert |history| in more && forall c :: c in cuts ==> c in more;
      assert Covers(history, closed, None, more, i, start);
    }
  }

  // ----- the automaton -----

  lemma BlipOrCurve(history: seq<Row>, p: Pending, more: seq<Pending>)
    requires history != [] && Decides(history, p)
    requires history[p.startAbs].t + MIN_CURVE <= p.endT ==> p in more
    ensures Finished(history, more, p.startAbs, |history| - 1)
  {
    DecidedNow(history, p);
    LowFromRange(history, p.startAbs, |history| - 1);
    assert DecidedAt(history, p, |history| - 1);
    assert p.endAbs == EndOf(history, p.startAbs, |history| - 1);
  }

  /** What the automaton's step does to the open stretch. */
  ghost predicate Steps(history: seq<Row>, r: Row, longer: seq<Row>, more: seq<Pending>, open: Option<nat>, open': Option<nat>) {
    && longer == history + [r]
    && (open.Some? ==>
          && open.value < |history| && Trigger(history[open.value])
          && (open' == open || Finished(longer, more, open.value, |history|)))
    && (open.None? && Trigger(r) ==> open' == Some(|history|))
  }

  lemma FollowSteps(s: State, history: seq<Row>, base: nat, r: Row, longer: seq<Row>, s': State)
    requires longer == history + [r] && base < |longer| && Holds(s, longer, base, |history|, 1) && s' == Follow(s, r)
    ensures Steps(history, r, longer, Closed(s'), StartOf(s), StartOf(s'))
  {
    if s.start.Some? {
      FollowFinishes(s, longer, base, r, s');
      assert longer[s.start.value.0] == history[s.start.value.0];
    }
  }

  lemma StepCompletes(history: seq<Row>, r: Row, longer: seq<Row>, closed: seq<Pending>, more: seq<Pending>,
                      open: Option<nat>, open': Option<nat>, cuts: seq<nat>)
    requires Complete(history, closed, open, cuts) && closed <= more && Steps(history, r, longer, more, open, open')
    ensures Complete(longer, more, open', cuts)
  {
    assert forall p :: p in closed ==> p in more;
    CompleteAppend(history, r, closed, more, open, open', cuts);
  }

  /** The automaton's step on a recorded row, which is the last of `longer`. */
  lemma FollowCompletes(s: State, history: seq<Row>, base: nat, r: Row, longer: seq<Row>, s': State, cuts: seq<nat>)
    requires longer == history + [r] && base < |longer| && Holds(s, longer, base, |history|, 1) && s' == Follow(s, r)
    requires Complete(history, Closed(s), StartOf(s), cuts)
    ensures Complete(longer, Closed(s'), StartOf(s'), cuts)
  {
    FollowFrame(s, r, s');
    FollowSteps(s, history, base, r, longer, s');
    StepCompletes(history, r, longer, Closed(s), Closed(s'), StartOf(s), StartOf(s'), cuts);
  }

  /** A followed stretch goes on, or is finished by the row `r`. */
  lemma FollowFinishes(s: State, history: seq<Row>, base: nat, r: Row, s': State)
    requires base < |history| && history[|history| - 1] == r && Holds(s, history, base, |history| - 1, 1) && s.start.Some?
    requires s' == Follow(s, r)
    ensures s.start.value.0 < |history| - 1 && Trigger(history[s.start.value.0])
    ensures StartOf(s') == StartOf(s) || Finished(history, Closed(s'), s.start.value.0, |history| - 1)
  {
    var (startAbs, startT) := s.start.value;
    var low := LowRow(history, startAbs, |history| - 1);
    BelowIsLowRow(s, history, base, r, startAbs, startT);
    FollowIs(s, r, low, s');
    var ended := low.Some? && r.t - low.value.1 >= CURVE_OFF_HOLD;
    if ended || r.t - startT >= MAX_CURVE {
      var p := Pending(startAbs, if ended then low.value.0 else |history| - 1, if ended then low.value.1 else r.t,
                       r.t - startT >= MAX_CURVE);
      assert s' == Close(s, startT, p);
      assert Decides(history, p);
      ClosedHas(s, startT, p);
      BlipOrCurve(history, p, Closed(s'));
    }
  }

  lemma ClosedHas(s: State, startT: real, p: Pending)
    ensures p.endT - startT >= MIN_CURVE ==> p in Closed(Close(s, startT, p))
  {
    var s' := Close(s, startT, p);
    if p.endT - startT >= MIN_CURVE {
      assert Closed(s')[|Closed(s')| - 1] == p;
    }
  }

  // ----- runs -----

  /** Whether an event ends the session. */
  predicate Ends(s: State, e: Event) {
    match e
    case CarChange => true
    case CarState(r) => !Decimated(s, r.t) && GapBefore(s, r.t)
  }

  /** The row numbers at which sessions ended. */
  function Cuts(events: seq<Event>): seq<nat>
    decreases |events|
  {
    if events == [] then []
    else
      var n := |events| - 1;
      var a := RunAll(events[..n]);
      Cuts(events[..n]) + if Ends(a.s, events[n]) then [|a.history|] else []
  }

  lemma OpenIsOpen(s: State, history: seq<Row>, base: nat)
    requires Holds(s, history, base, |history|, 0)
    ensures s.start.Some? ==> OpenUntil(history, s.start.value.0, |history|)
  {
  }

  /** A session end, if there is one, before a row is recorded. */
  lemma ArriveCompletes(s: State, history: seq<Row>, base: nat, t: real, s1: State, cuts: seq<nat>, more: seq<nat>)
    requires Holds(s, history, base, |history|, 0) && Complete(history, Closed(s), StartOf(s), cuts)
    requires s1 == Arrive(s.(lastAppendT := t), t) && more == cuts + if GapBefore(s, t) then [|history|] else []
    ensures Complete(history, Closed(s1), StartOf(s1), more)
  {
    ArriveKeeps(s, history, base, t, s1, if GapBefore(s, t) then |history| else base);
    if GapBefore(s, t) {
      OpenIsOpen(s, history, base);
      CompleteCut(history, Closed(s), StartOf(s), cuts);
    } else {
      assert more == cuts;
    }
  }

  lemma SettleStart(s: State)
    ensures StartOf(Settle(s)) == StartOf(s)
  {
  }

  /** From a session state: a row is recorded, followed and what is due flushed. */
  lemma RowCompletes(s1: State, history: seq<Row>, base: nat, r: Row, s': State, longer: seq<Row>, cuts: seq<nat>)
    requires Holds(s1, history, base, |history|, 0) && Rounded(r)
    requires history != [] ==> r.t - history[|history| - 1].t >= 0.045
    requires s' == Settle(Follow(Record(s1, r), r)) && longer == history + [r]
    requires Complete(history, Closed(s1), StartOf(s1), cuts)
    ensures Complete(longer, Closed(s'), StartOf(s'), cuts)
  {
    RecordKeeps(s1, history, base, r, Record(s1, r), longer);
    FollowCompletes(Record(s1, r), history, base, r, longer, Follow(Record(s1, r), r), cuts);
    RowKeeps(s1, history, base, r);
    SettleStart(Follow(Record(s1, r), r));
  }

  lemma TickCompletes(a: Run, r: Row, b: Run, cuts: seq<nat>, more: seq<nat>)
    requires Inv(a) && EventOk(CarState(r)) && !Decimated(a.s, r.t) && b == Next(a, CarState(r))
    requires Complete(a.history, Closed(a.s), StartOf(a.s), cuts)
    requires more == cuts + if GapBefore(a.s, r.t) then [|a.history|] else []
    ensures Complete(b.history, Closed(b.s), StartOf(b.s), more)
  {
    var s1 := Arrive(a.s.(lastAppendT := r.t), r.t);
    SpacedTick(a, r);
    ArriveKeeps(a.s, a.history, a.base, r.t, s1, b.base);
    ArriveCompletes(a.s, a.history, a.base, r.t, s1, cuts, more);
    TickIs(a.s, r);
    RowCompletes(s1, a.history, b.base, r, b.s, b.history, more);
  }

  lemma ChangeCompletes(a: Run, b: Run, cuts: seq<nat>)
    requires Inv(a) && b == Next(a, CarChange) && Complete(a.history, Closed(a.s), StartOf(a.s), cuts)
    ensures Complete(b.history, Closed(b.s), StartOf(b.s), cuts + [|a.history|])
  {
    OpenIsOpen(a.s, a.history, a.base);
    EndSessionKeeps(a.s, a.history, a.base);
    assert Closed(b.s) == CurvesOf(b.s.flushed);
    CompleteCut(a.history, Closed(a.s), StartOf(a.s), cuts);
  }

  lemma EventCompletes(a: Run, e: Event, cuts: seq<nat>)
    requires Inv(a) && EventOk(e) && Complete(a.history, Closed(a.s), StartOf(a.s), cuts)
    ensures var b := Next(a, e);
      Complete(b.history, Closed(b.s), StartOf(b.s), cuts + if Ends(a.s, e) then [|a.history|] else [])
  {
    match e {
      case CarChange => ChangeCompletes(a, Next(a, e), cuts);
      case CarState(r) =>
        if Decimated(a.s, r.t) {
          assert cuts + [] == cuts;
        } else {
          TickCompletes(a, r, Next(a, e), cuts, cuts + if GapBefore(a.s, r.t) then [|a.history|] else []);
        }
    }
  }

  /**
   For any timing, every trigger row lies in a recorded curve, in the curve being followed, in a blip, or in
   a stretch cut by a session end.
   */
  lemma {:induction false} NoTriggerMissed(events: seq<Event>)
    requires forall e :: e in events ==> EventOk(e)
    ensures var a := RunAll(events); Complete(a.history, Closed(a.s), StartOf(a.s), Cuts(events))
    decreases |events|
  {
    if events != [] {
      var before, e := events[..|events| - 1], events[|events| - 1];
      assert forall b :: b in before ==> b in events;
      RunKeeps(before);
      NoTriggerMissed(before);
      EventCompletes(RunAll(before), e, Cuts(before));
    }
  }
}
