/**
 What each frame of a drive does to the counters, read off the frame itself: hands on the wheel,
 disengaged, at standstill, clear again; and the mode and the lockout as functions of the drive so far.
 */
module MonitorFrames {
  import opened Wrappers
  import opened DmConfig
  import opened MonitorModel
  import opened MonitorTheorems
  import opened Extremes

  /** Every counter full, and none of them counting clear frames. */
  predicate Full(s: State) {
    s.pose == 1.0 && s.phone == 1.0 && s.passive == 1.0 && s.poseClear == 0 && s.phoneClear == 0
  }

  /** The counter that decides in `mode`. */
  function Watched(s: State, mode: bool): real {
    if mode then Min(s.pose, s.phone) else s.passive
  }

  function Front(inputs: seq<Input>): seq<Input>
    requires inputs != []
  {
    inputs[..|inputs| - 1]
  }

  function Last(inputs: seq<Input>): Input
    requires inputs != []
  {
    inputs[|inputs| - 1]
  }

  /** Before its counters a frame changes the eyes and the mode only. */
  lemma StatesKeepCounters(s: State, vision: Option<Vision>)
    ensures var t := UpdateStates(s, vision);
      && t == s.(eyes := t.eyes, activeMode := t.activeMode)
      && t.eyes.seen == (if vision.Some? then vision.value else s.eyes.seen)
  {
  }

  lemma EventsKeepMode(s: State, f: MonitorModel.Frame, alwaysOn: bool, r: Regime)
    ensures var u := UpdateEvents(s, f, alwaysOn, r).0; u.activeMode == s.activeMode && u.eyes == s.eyes
  {
  }

  // ----- hands on the wheel, and disengaged -----

  /**
   A driver who touches the wheel or the gas has every counter full again and no alert, exactly unless
   openpilot is engaged in passive mode with the wheel-touch counter run out: then the red alert stays.
   */
  lemma TakesTheWheel(s: State, inputs: seq<Input>)
    requires inputs != [] && Last(inputs).frame.driverEngaged
    ensures var a, u, f := Drive(s, Front(inputs)), Drive(s, inputs), Last(inputs).frame;
      if u.activeMode || a.passive > 0.0 || !f.opEngaged then Full(u) && LastAlert(s, inputs) == None
      else u.passive <= 0.0 && LastAlert(s, inputs) == Some(DriverUnresponsive)
  {
    var a, last := Drive(s, Front(inputs)), Last(inputs);
    var t := UpdateStates(a, last.frame.vision);
    StatesKeepCounters(a, last.frame.vision);
    EventsKeepMode(t, last.frame, last.alwaysOn, last.regime);
  }

  /** Disengaged and watched, a counter above zero stays there. */
  lemma IdleStaysAbove(x: real, clear: nat, step: real, distracted: bool, standstill: bool, pre: real)
    requires x > 0.0
    ensures Decay(x, clear, step, distracted, Exempt(x, step, pre, standstill, true)).0 > 0.0
  {
  }

  lemma IdleActive(t: State, last: Input)
    requires t.activeMode && Min(t.pose, t.phone) > 0.0
    ensures var (u, alert) := ActiveEvents(t, last.frame, true, last.regime);
      Min(u.pose, u.phone) > 0.0 && alert !in {Some(DriverDistracted), Some(DriverUnresponsive)}
  {
    var r, sees := last.regime, t.eyes.seen.face && t.eyes.seen.lowStd;
    IdleStaysAbove(t.pose, t.poseClear, r.poseStep, (t.eyes.seen.pose || t.eyes.seen.blink) && sees, last.frame.standstill, r.posePre);
    IdleStaysAbove(t.phone, t.phoneClear, r.phoneStep, t.eyes.seen.phone && sees, last.frame.standstill, r.phonePre);
    var u := ActiveCounters(t, last.frame, true, r);
    assert u.pose > 0.0 && u.phone > 0.0;
  }

  lemma IdlePassive(t: State, last: Input)
    requires !t.activeMode && 0.0 < t.passive <= 1.0
    ensures var (u, alert) := PassiveEvents(t, last.frame, true);
      u.passive > 0.0 && alert !in {Some(DriverDistracted), Some(DriverUnresponsive)}
  {
    RecoveredOk(t.passive);
  }

  /**
   With openpilot disengaged every counter is full again and there is no alert, unless always-on
   monitoring applies and the counter of the mode is above zero; then there is no red alert either.
   */
  lemma Disengaged(tooDistracted: bool, inputs: seq<Input>)
    requires inputs != [] && !Last(inputs).frame.opEngaged && !Last(inputs).frame.driverEngaged
    requires forall i :: i in inputs ==> RegimeOk(i.regime)
    ensures var s := Fresh(tooDistracted); var a, u, last := Drive(s, Front(inputs)), Drive(s, inputs), Last(inputs);
      if !last.alwaysOn || last.frame.wrongGear || Watched(a, u.activeMode) <= 0.0 then Full(u) && LastAlert(s, inputs) == None
      else Watched(u, u.activeMode) > 0.0 && LastAlert(s, inputs) !in {Some(DriverDistracted), Some(DriverUnresponsive)}
  {
    DriveKeepsBounds(tooDistracted, Front(inputs));
    var a, last := Drive(Fresh(tooDistracted), Front(inputs)), Last(inputs);
    var t := UpdateStates(a, last.frame.vision);
    StatesKeepCounters(a, last.frame.vision);
    EventsKeepMode(t, last.frame, last.alwaysOn, last.regime);
    if t.activeMode && Watched(t, true) > 0.0 {
      IdleActive(Lockout(t), last);
    } else if !t.activeMode && t.passive > 0.0 {
      IdlePassive(Lockout(t), last);
    }
  }

  // ----- hands off -----

  /** Hands off, and engaged or watched by always-on monitoring with the counter of `mode` above zero. */
  predicate Counts(a: State, last: Input, mode: bool) {
    && !last.frame.driverEngaged
    && (last.frame.opEngaged || (last.alwaysOn && !last.frame.wrongGear && Watched(a, mode) > 0.0))
  }

  /**
   From (`x`, `clear`) to (`y`, `after`): while distracted down by a step, unless at standstill the step
   would reach green or disengaged it would reach red; clear for 40 frames on end, back to full.
   */
  predicate Moves(x: real, clear: nat, y: real, after: nat, step: real, pre: real, distracted: bool, standstill: bool, disengaged: bool) {
    if distracted then
      && after == 0
      && if (standstill && x - step <= pre) || (disengaged && x - step <= 0.0) then y == x else y == Max(x - step, -0.1)
    else
      && after == clear + 1
      && y == if after >= 40 then 1.0 else x
  }

  /** A counter's step in its own terms. */
  lemma DecayMoves(x: real, clear: nat, step: real, pre: real, distracted: bool, standstill: bool, disengaged: bool)
    ensures var (y, after) := Decay(x, clear, step, distracted, Exempt(x, step, pre, standstill, disengaged));
      Moves(x, clear, y, after, step, pre, distracted, standstill, disengaged)
  {
  }

  /** The alert of active mode, read off the two counters. */
  predicate AlertOf(u: State, r: Regime, alert: Option<Alert>) {
    && (alert == Some(DriverDistracted) <==> u.pose <= 0.0 || u.phone <= 0.0)
    && (alert in {Some(DriverDistracted), Some(PromptDriverDistracted)} <==> u.pose <= r.posePrompt || u.phone <= r.phonePrompt)
    && (alert == None <==> u.pose > r.posePre && u.phone > r.phonePre)
    && alert in {None, Some(PreDriverDistracted), Some(PromptDriverDistracted), Some(DriverDistracted)}
  }

  lemma LevelsAlert(u: State, r: Regime)
    requires RegimeOk(r)
    ensures AlertOf(u, r, ActiveAlert(ActiveLevel(u, r)))
  {
  }

  /** In active mode with hands off a frame that counts is not reset. */
  lemma ActiveCounts(t: State, last: Input)
    requires t.activeMode && Counts(t, last, true)
    ensures var u := ActiveCounters(Lockout(t), last.frame, !last.frame.opEngaged, last.regime);
      var e := UpdateEvents(t, last.frame, last.alwaysOn, last.regime);
      && e.0.pose == u.pose && e.0.phone == u.phone && e.0.passive == u.passive
      && e.0.poseClear == u.poseClear && e.0.phoneClear == u.phoneClear
      && e.1.alert == ActiveAlert(ActiveLevel(u, last.regime))
  {
    assert !Resets(Lockout(t), last.frame, last.alwaysOn);
  }

  /** From `a` to `u` in one active frame: both counters, the wheel-touch counter and the alert. */
  predicate ActiveMoves(a: State, u: State, last: Input, alert: Option<Alert>) {
    var f, r, v := last.frame, last.regime, u.eyes.seen;
    var sure := v.face && v.lowStd;
    && Moves(a.pose, a.poseClear, u.pose, u.poseClear, r.poseStep, r.posePre, sure && (v.pose || v.blink), f.standstill, !f.opEngaged)
    && Moves(a.phone, a.phoneClear, u.phone, u.phoneClear, r.phoneStep, r.phonePre, sure && v.phone, f.standstill, !f.opEngaged)
    && u.passive == (if u.pose >= 1.0 && u.phone >= 1.0 then Min(a.passive + 0.05 / 30.0, 1.0) else a.passive)
    && AlertOf(u, r, alert)
  }

  lemma ActiveEventsMove(t: State, last: Input, u: State, alert: Option<Alert>)
    requires RegimeOk(last.regime) && t.activeMode && Counts(t, last, true)
    requires u == UpdateEvents(t, last.frame, last.alwaysOn, last.regime).0
    requires alert == UpdateEvents(t, last.frame, last.alwaysOn, last.regime).1.alert
    requires u.eyes == t.eyes
    ensures ActiveMoves(t, u, last, alert)
  {
    var f, r, v := last.frame, last.regime, t.eyes.seen;
    ActiveCounts(t, last);
    var sure := v.face && v.lowStd;
    DecayMoves(t.pose, t.poseClear, r.poseStep, r.posePre, (v.pose || v.blink) && sure, f.standstill, !f.opEngaged);
    DecayMoves(t.phone, t.phoneClear, r.phoneStep, r.phonePre, v.phone && sure, f.standstill, !f.opEngaged);
    LevelsAlert(ActiveCounters(Lockout(t), f, !f.opEngaged, r), r);
  }

  /** One frame in active mode, hands off. */
  lemma ActiveFrame(s: State, inputs: seq<Input>)
    requires inputs != [] && RegimeOk(Last(inputs).regime)
    requires var a, u := Drive(s, Front(inputs)), Drive(s, inputs); u.activeMode && Counts(a, Last(inputs), true)
    ensures var a, u, last := Drive(s, Front(inputs)), Drive(s, inputs), Last(inputs);
      && u.eyes.seen == (if last.frame.vision.Some? then last.frame.vision.value else a.eyes.seen)
      && ActiveMoves(a, u, last, LastAlert(s, inputs))
  {
    var a, last := Drive(s, Front(inputs)), Last(inputs);
    var t := UpdateStates(a, last.frame.vision);
    StatesKeepCounters(a, last.frame.vision);
    EventsKeepMode(t, last.frame, last.alwaysOn, last.regime);
    ActiveEventsMove(t, last, Drive(s, inputs), LastAlert(s, inputs));
  }

  /**
   One frame in passive mode, hands off: a sure face that looks at the road lifts the counter; doubt about
   the face, or certain distraction, lowers it, except into an alert that standstill or low speed spare.
   */
  predicate PassiveMoves(before: real, u: State, last: Input, alert: Option<Alert>) {
    var f, e, v := last.frame, u.eyes, u.eyes.seen;
    var slow := !f.opEngaged && f.speed < 11.0;
    var lifts := e.filter < 0.37 && v.face && v.lowStd && before > 0.0;
    var lifted := Min(before + (3.75 * (1.0 - before) + 1.25) * (0.05 / 30.0), 1.0);
    var x := if lifts then lifted else before;
    var y := x - 0.05 / 30.0;
    var spared := || (f.standstill && y <= 0.2)
                  || (!f.opEngaged && y <= 0.0)
                  || (slow && y <= 0.2);
    var lowers := e.hiStds > 600 || !e.faceDeb || (e.filter > 0.63 && v.face && v.lowStd && (v.pose || v.blink || v.phone));
    if lifts && lifted > 0.2 then u.passive == lifted && alert == None
    else
      && u.passive == (if lowers && !spared then Max(y, -0.1) else x)
      && alert == (if u.passive <= 0.0 then Some(DriverUnresponsive)
                   else if u.passive <= 0.2 then Some(PromptDriverUnresponsive)
                   else if u.passive <= 0.5 && !slow then Some(PreDriverUnresponsive)
                   else None)
  }

  /** What lowers the counter and what spares it, in the words of the frame. */
  lemma DecayedWhen(t: State, f: MonitorModel.Frame, x: real, y: real)
    requires t.eyes.distracted == DistractedBy(t.eyes.seen) && y == x - 0.05 / 30.0
    ensures var v, slow := t.eyes.seen, !f.opEngaged && f.speed < 11.0;
      var spared := (f.standstill && y <= 0.2) || (!f.opEngaged && y <= 0.0) || (slow && y <= 0.2);
      var lowers := t.eyes.hiStds > 600 || !t.eyes.faceDeb || (t.eyes.filter > 0.63 && v.face && v.lowStd && (v.pose || v.blink || v.phone));
      PassiveDecayed(t, f, x, !f.opEngaged) == if lowers && !spared then Max(y, -0.1) else x
  {
    assert 6.0 / 30.0 == 0.2;
  }

  lemma PassiveCounts(t: State, last: Input)
    requires !t.activeMode && Counts(t, last, false)
    ensures var (u, alert) := PassiveEvents(Lockout(t), last.frame, !last.frame.opEngaged);
      var e := UpdateEvents(t, last.frame, last.alwaysOn, last.regime);
      && e.0 == u && e.1.alert == alert
      && u.pose == t.pose && u.phone == t.phone && u.poseClear == t.poseClear && u.phoneClear == t.phoneClear
  {
    assert !Resets(Lockout(t), last.frame, last.alwaysOn);
  }

  lemma PassiveEventsMove(t: State, last: Input, u: State, alert: Option<Alert>)
    requires !t.activeMode && t.eyes.distracted == DistractedBy(t.eyes.seen)
    requires (u, alert) == PassiveEvents(t, last.frame, !last.frame.opEngaged) && u.eyes == t.eyes
    ensures PassiveMoves(t.passive, u, last, alert)
  {
    var lifts := t.eyes.filter < 0.37 && t.eyes.seen.face && t.eyes.seen.lowStd && t.passive > 0.0;
    var x := if lifts then PassiveRecovered(t.passive) else t.passive;
    DecayedWhen(t, last.frame, x, x - 0.05 / 30.0);
    assert 6.0 / 30.0 == 0.2 && 15.0 / 30.0 == 0.5;
  }

  /** One frame in passive mode, hands off; the active counters stand still. */
  lemma PassiveFrame(tooDistracted: bool, inputs: seq<Input>)
    requires inputs != [] && forall i :: i in inputs ==> RegimeOk(i.regime)
    requires var s := Fresh(tooDistracted);
      var a, u := Drive(s, Front(inputs)), Drive(s, inputs); !u.activeMode && Counts(a, Last(inputs), false)
    ensures var s := Fresh(tooDistracted); var a, u, last := Drive(s, Front(inputs)), Drive(s, inputs), Last(inputs);
      && PassiveMoves(a.passive, u, last, LastAlert(s, inputs))
      && u.pose == a.pose && u.phone == a.phone && u.poseClear == a.poseClear && u.phoneClear == a.phoneClear
  {
    var s := Fresh(tooDistracted);
    DriveKeepsBounds(tooDistracted, Front(inputs));
    var a, last := Drive(s, Front(inputs)), Last(inputs);
    var t := UpdateStates(a, last.frame.vision);
    StatesKeepBounds(a, last.frame.vision);
    StatesKeepCounters(a, last.frame.vision);
    EventsKeepMode(t, last.frame, last.alwaysOn, last.regime);
    assert t.eyes.distracted == DistractedBy(t.eyes.seen) && Counts(t, last, false);
    PassiveCounts(t, last);
    PassiveEventsMove(Lockout(t), last, Drive(s, inputs), LastAlert(s, inputs));
  }

  /** At standstill no counter of active mode reaches a higher level, and the wheel-touch counter no audible one. */
  lemma StandstillNeverWorse(tooDistracted: bool, inputs: seq<Input>)
    requires inputs != [] && Last(inputs).frame.standstill && forall i :: i in inputs ==> RegimeOk(i.regime)
    requires var s := Fresh(tooDistracted); Counts(Drive(s, Front(inputs)), Last(inputs), Drive(s, inputs).activeMode)
    ensures var s, r := Fresh(tooDistracted), Last(inputs).regime; var a, u := Drive(s, Front(inputs)), Drive(s, inputs);
      if u.activeMode then
        && (u.pose <= 0.0 ==> a.pose <= 0.0) && (u.phone <= 0.0 ==> a.phone <= 0.0)
        && (u.pose <= r.posePrompt ==> a.pose <= r.posePrompt) && (u.phone <= r.phonePrompt ==> a.phone <= r.phonePrompt)
        && (u.pose <= r.posePre ==> a.pose <= r.posePre) && (u.phone <= r.phonePre ==> a.phone <= r.phonePre)
      else
        && (u.passive <= 0.0 ==> a.passive <= 0.0) && (u.passive <= 0.2 ==> a.passive <= 0.2)
  {
    var s := Fresh(tooDistracted);
    DriveKeepsBounds(tooDistracted, Front(inputs));
    if Drive(s, inputs).activeMode {
      ActiveFrame(s, inputs);
    } else {
      PassiveFrame(tooDistracted, inputs);
      var a := Drive(s, Front(inputs));
      if a.passive > 0.0 { RecoveredOk(a.passive); }
    }
  }
}
