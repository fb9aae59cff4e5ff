/**
 When the curve logger records a row and when a session ends, in seconds; and what of a drive without a
 hole and without a car change it has recorded.
 */
module CurveSessions {
  import opened Wrappers
  import opened CurveLogger
  import opened CurveCoverage

  /** An update is recorded exactly if it is the first, or comes at least 45 ms after the last recorded row. */
  lemma RecordedIff(events: seq<Event>, r: Row)
    requires EventOk(CarState(r)) && forall e :: e in events ==> EventOk(e)
    ensures var h := RunAll(events).history;
      RunAll(events + [CarState(r)]).history ==
        if h == [] || r.t - h[|h| - 1].t >= 0.045 then h + [r] else h
  {
    RunKeeps(events);
    assert (events + [CarState(r)])[..|events|] == events;
  }

  // ----- session ends -----

  /** A car change came when `c` rows had been recorded. */
  ghost predicate ChangeAt(events: seq<Event>, c: nat) {
    exists i :: ChangedBy(events, i, c)
  }

  ghost predicate ChangedBy(events: seq<Event>, i: nat, c: nat) {
    i < |events| && events[i] == CarChange && |RunAll(events[..i]).history| == c
  }

  /** Row `c` came more than `gap` after the one before it. */
  predicate HoleAt(history: seq<Row>, c: nat, gap: real) {
    0 < c < |history| && history[c].t - history[c - 1].t > gap
  }

  ghost predicate CutsOk(events: seq<Event>, history: seq<Row>, base: nat, cuts: seq<nat>) {
    && (base == 0 || base in cuts)
    && (forall c :: c in cuts ==> ChangeAt(events, c) || HoleAt(history, c, 2.9995))
    && (forall c: nat :: HoleAt(history, c, 3.0005) ==> c in cuts)
  }

  lemma ChangeAppend(events: seq<Event>, e: Event, c: nat)
    requires ChangeAt(events, c)
    ensures ChangeAt(events + [e], c)
  {
    var i: nat :| ChangedBy(events, i, c);
    assert (events + [e])[..i] == events[..i];
    assert ChangedBy(events + [e], i, c);
  }

  lemma ChangeNow(events: seq<Event>, c: nat)
    requires c == |RunAll(events).history|
    ensures ChangeAt(events + [CarChange], c)
  {
    assert (events + [CarChange])[..|events|] == events;
    assert ChangedBy(events + [CarChange], |events|, c);
  }

  /** A new session starts exactly after a hole, and only if the session before it has a row. */
  lemma GapIsHole(s: State, history: seq<Row>, base: nat, r: Row)
    requires Holds(s, history, base, |history|, 0)
    ensures GapBefore(s, r.t) ==> HoleAt(history + [r], |history|, 2.9995)
    ensures HoleAt(history + [r], |history|, 3.0005) && base != |history| ==> GapBefore(s, r.t)
  {
    if s.ring != [] {
      assert s.ring[|s.ring| - 1] == history[|history| - 1];
    }
  }

  /** One more row `r`, which begins a session iff `gap`. */
  lemma RowCuts(events: seq<Event>, e: Event, history: seq<Row>, base: nat, r: Row, gap: bool, cuts: seq<nat>, more: seq<nat>)
    requires CutsOk(events, history, base, cuts) && more == cuts + if gap then [|history|] else []
    requires gap ==> HoleAt(history + [r], |history|, 2.9995)
    requires HoleAt(history + [r], |history|, 3.0005) && base != |history| ==> gap
    ensures CutsOk(events + [e], history + [r], if gap then |history| else base, more)
  {
    forall c | c in more ensures ChangeAt(events + [e], c) || HoleAt(history + [r], c, 2.9995) {
      if c in cuts && ChangeAt(events, c) {
        ChangeAppend(events, e, c);
      } else if c in cuts {
        assert HoleAt(history, c, 2.9995);
      }
    }
    forall c: nat | HoleAt(history + [r], c, 3.0005) ensures c in more {
      if c < |history| { assert HoleAt(history, c, 3.0005); }
    }
  }

  lemma SameCuts(events: seq<Event>, e: Event, a: Run, cuts: seq<nat>)
    requires CutsOk(events, a.history, a.base, cuts)
    ensures CutsOk(events + [e], a.history, a.base, cuts)
  {
    forall c | c in cuts ensures ChangeAt(events + [e], c) || HoleAt(a.history, c, 2.9995) {
      if ChangeAt(events, c) { ChangeAppend(events, e, c); }
    }
  }

  lemma ChangeCuts(events: seq<Event>, a: Run, cuts: seq<nat>)
    requires a == RunAll(events) && CutsOk(events, a.history, a.base, cuts)
    ensures CutsOk(events + [CarChange], a.history, |a.history|, cuts + [|a.history|])
  {
    SameCuts(events, CarChange, a, cuts);
    ChangeNow(events, |a.history|);
  }

  /**
   Over any events: a session ends only at a car change or at a row recorded more than 2.9995 s after the
   one before, and every row recorded more than 3.0005 s after it begins a new one.
   */
  lemma {:induction false} SessionEndsIff(events: seq<Event>)
    requires forall e :: e in events ==> EventOk(e)
    ensures var h, cuts := RunAll(events).history, Cuts(events);
      && (RunAll(events).base == 0 || RunAll(events).base in cuts)
      && (forall c :: c in cuts ==> ChangeAt(events, c) || HoleAt(h, c, 2.9995))
      && (forall c: nat :: HoleAt(h, c, 3.0005) ==> c in cuts)
    decreases |events|
  {
    if events != [] {
      var n := |events| - 1;
      var before, e := events[..n], events[n];
      assert forall b :: b in before ==> b in events;
      assert events == before + [e];
      RunKeeps(before);
      SessionEndsIff(before);
      var a := RunAll(before);
      match e {
        case CarChange => ChangeCuts(before, a, Cuts(before));
        case CarState(r) =>
          if Decimated(a.s, r.t) {
            SameCuts(before, e, a, Cuts(before));
          } else {
            GapIsHole(a.s, a.history, a.base, r);
            RowCuts(before, e, a.history, a.base, r, GapBefore(a.s, r.t), Cuts(before), Cuts(events));
          }
      }
    }
  }

  lemma NoChange(events: seq<Event>, c: nat)
    requires forall e :: e in events ==> e.CarState?
    ensures !ChangeAt(events, c)
  {
    forall i | 0 <= i < |events| ensures events[i] in events {
    }
  }

  /** Without a car change and with rows that follow each other within 2.9995 s there is one session. */
  lemma OneSession(events: seq<Event>)
    requires forall e :: e in events ==> EventOk(e) && e.CarState?
    requires forall c: nat :: !HoleAt(RunAll(events).history, c, 2.9995)
    ensures Cuts(events) == []
  {
    SessionEndsIff(events);
    if Cuts(events) != [] {
      var c := Cuts(events)[0];
      assert c in Cuts(events);
      NoChange(events, c);
    }
  }

  // ----- what a single session has -----

  /** A stretch that is over ends behind its last trigger row. */
  lemma TriggerInside(history: seq<Row>, start: nat, d: nat, i: nat)
    requires start <= i <= d < |history| && Trigger(history[i]) && OverAt(history, start, d)
    ensures i <= EndOf(history, start, d)
  {
    LowFromRange(history, start, d);
  }

  /** Row `i` is one of a recorded curve, flushed or waiting. */
  ghost predicate InCurve(closed: seq<Pending>, i: nat) {
    exists p :: p in closed && p.startAbs <= i <= p.endAbs
  }

  /** Row `i` is one of a stretch that was over less than 0.8 s after it began. */
  ghost predicate InBlip(history: seq<Row>, i: nat) {
    exists start, d :: BlipWith(history, start, d, i)
  }

  ghost predicate BlipWith(history: seq<Row>, start: nat, d: nat, i: nat) {
    && start <= i && start < d < |history| && Trigger(history[start])
    && OpenUntil(history, start, d) && OverAt(history, start, d) && i <= EndOf(history, start, d)
    && IsBlip(history, start, d)
  }

  lemma CoveredIn(history: seq<Row>, closed: seq<Pending>, open: Option<nat>, i: nat)
    requires i < |history| && Trigger(history[i]) && Covered(history, closed, open, [], i)
    ensures InCurve(closed, i) || InBlip(history, i) || (open.Some? && open.value <= i)
  {
    var start: nat :| Covers(history, closed, open, [], i, start);
    if open != Some(start) {
      var d: nat :| i <= d && Finished(history, closed, start, d);
      TriggerInside(history, start, d, i);
      if p :| p in closed && p.startAbs == start && DecidedAt(history, p, d) {
        assert p.endAbs == EndOf(history, start, d);
        assert InCurve(closed, i);
      } else {
        assert BlipWith(history, start, d, i);
      }
    }
  }

  /**
   Within one session every row above 0.001 1/m at more than 2 m/s is a row of a recorded curve, of the
   curve being followed, or of a blip under 0.8 s.
   */
  lemma TriggersAreRecorded(events: seq<Event>, i: nat)
    requires forall e :: e in events ==> EventOk(e) && e.CarState?
    requires forall c: nat :: !HoleAt(RunAll(events).history, c, 2.9995)
    requires var h := RunAll(events).history; i < |h| && h[i].kappa > 0.001 && h[i].v > 2.0
    ensures var a := RunAll(events);
      InCurve(Closed(a.s), i) || InBlip(a.history, i) || (StartOf(a.s).Some? && StartOf(a.s).value <= i)
  {
    var a := RunAll(events);
    OneSession(events);
    NoTriggerMissed(events);
    assert Trigger(a.history[i]);
    CoveredIn(a.history, Closed(a.s), StartOf(a.s), i);
  }

  // ----- the post-roll -----

  lemma {:induction false} FlushParts(ring: seq<Row>, absN: nat, todo: seq<Pending>, force: bool, kept: seq<Pending>, cut: seq<Flushed>)
    requires (kept, cut) == FlushList(ring, absN, todo, force)
    ensures forall p :: p in kept ==> p in todo && !force && !Due(ring, p)
    ensures forall f :: f in cut ==> f.partial == force && (force || Due(ring, f.curve))
  {
    if todo != [] {
      var (kept', cut') := FlushList(ring, absN, todo[1..], force);
      FlushParts(ring, absN, todo[1..], force, kept', cut');
    }
  }

  /** Some row was recorded 8 s after `endT`. */
  predicate PostRolled(history: seq<Row>, endT: real) {
    exists k :: 0 <= k < |history| && history[k].stamp - endT >= 8.0
  }

  ghost predicate Waits(s: State, history: seq<Row>) {
    && (forall p :: p in s.pend ==> history != [] && history[|history| - 1].stamp - p.endT < 8.0)
    && (forall f :: f in s.flushed && !f.partial ==> PostRolled(history, f.curve.endT))
  }

  /** The curves flushed so far had their post-roll. */
  ghost predicate Served(s: State, history: seq<Row>) {
    forall f :: f in s.flushed && !f.partial ==> PostRolled(history, f.curve.endT)
  }

  lemma ServedLonger(s: State, history: seq<Row>, r: Row)
    requires Served(s, history)
    ensures Served(s, history + [r])
  {
    forall f | f in s.flushed && !f.partial ensures PostRolled(history + [r], f.curve.endT) {
      var k :| 0 <= k < |history| && history[k].stamp - f.curve.endT >= 8.0;
      assert (history + [r])[k] == history[k];
    }
  }

  lemma ForcedServes(s: State, history: seq<Row>)
    requires Served(s, history)
    ensures Waits(EndSession(s), history)
  {
    var (kept, cut) := FlushList(s.ring, s.absN, s.pend, true);
    FlushParts(s.ring, s.absN, s.pend, true, kept, cut);
    assert EndSession(s).pend == kept && EndSession(s).flushed == s.flushed + cut;
  }

  lemma SettleWaits(s: State, history: seq<Row>)
    requires Served(s, history) && history != [] && s.ring != [] && s.ring[|s.ring| - 1] == history[|history| - 1]
    ensures Waits(Settle(s), history)
  {
    var (kept, cut) := FlushList(s.ring, s.absN, s.pend, false);
    FlushParts(s.ring, s.absN, s.pend, false, kept, cut);
    forall f | f in Settle(s).flushed && !f.partial ensures PostRolled(history, f.curve.endT) {
      if f !in s.flushed { assert Due(s.ring, f.curve); }
    }
  }

  lemma RowWaits(s: State, history: seq<Row>, r: Row)
    requires !Decimated(s, r.t) && Waits(s, history)
    ensures Waits(Tick(s, r), history + [r])
  {
    var s1 := Arrive(s.(lastAppendT := r.t), r.t);
    ForcedServes(s.(lastAppendT := r.t), history);
    ServedLonger(s1, history, r);
    var s2 := Record(s1, r);
    FollowFrame(s2, r, Follow(s2, r));
    assert Follow(s2, r).flushed == s.flushed || Follow(s2, r).flushed == EndSession(s.(lastAppendT := r.t)).flushed;
    SettleWaits(Follow(s2, r), history + [r]);
    TickIs(s, r);
  }

  /**
   A curve is flushed, unless a session end forces it, only when a row was recorded 8 s after its end; and
   no curve that waits has such a row.
   */
  lemma {:induction false} FlushedWhenDue(events: seq<Event>)
    ensures var a := RunAll(events);
      && (forall p :: p in a.s.pend ==> a.history != [] && a.history[|a.history| - 1].stamp - p.endT < 8.0)
      && (forall f :: f in a.s.flushed && !f.partial ==> PostRolled(a.history, f.curve.endT))
    decreases |events|
  {
    if events != [] {
      var n := |events| - 1;
      FlushedWhenDue(events[..n]);
      var a := RunAll(events[..n]);
      match events[n] {
        case CarChange => ForcedServes(a.s, a.history);
        case CarState(r) =>
          if !Decimated(a.s, r.t) { RowWaits(a.s, a.history, r); }
      }
    }
  }
}
