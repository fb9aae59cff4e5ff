/**
 How soon driver monitoring answers, over whole drives: an unseen driver is met with a red alert by
 the 1200th frame, and a staring one exactly when the timeout in force runs out.
 */
module MonitorTheorems {
  import opened Wrappers
  import opened DmConfig
  import opened MonitorModel
  import opened Extremes

  /** One frame with the regime and the always-on setting in force for it, both of which may change at any time. */
  datatype Input = Input(frame: Frame, regime: Regime, alwaysOn: bool)

  function Drive(s: State, inputs: seq<Input>): State
    decreases |inputs|
  {
    if inputs == [] then s
    else
      var last := inputs[|inputs| - 1];
      RunFrame(Drive(s, inputs[..|inputs| - 1]), last.frame, last.alwaysOn, last.regime).0
  }

  /** The alert raised by the last frame. */
  function LastAlert(s: State, inputs: seq<Input>): Option<Alert>
    requires inputs != []
  {
    var last := inputs[|inputs| - 1];
    RunFrame(Drive(s, inputs[..|inputs| - 1]), last.frame, last.alwaysOn, last.regime).1.alert
  }

  /** Every counter stays in [-0.1, 1] over any drive, from the first frame after a start. */
  lemma {:induction false} DriveKeepsBounds(tooDistracted: bool, inputs: seq<Input>)
    requires forall i :: i in inputs ==> RegimeOk(i.regime)
    ensures InBounds(Drive(Fresh(tooDistracted), inputs))
    decreases |inputs|
  {
    if inputs != [] {
      var front, last := inputs[..|inputs| - 1], inputs[|inputs| - 1];
      DriveKeepsBounds(tooDistracted, front);
      FrameKeepsBounds(Drive(Fresh(tooDistracted), front), last.frame, last.alwaysOn, last.regime);
    }
  }

  // ----- nobody in sight -----

  /** No face, engaged, moving, hands off the wheel. */
  predicate Unseen(i: Input) {
    && i.frame.vision.Some? && !i.frame.vision.value.face
    && i.frame.opEngaged && !i.frame.standstill && !i.frame.driverEngaged
  }

  /** What holds after the `k`-th unseen frame, `k >= 1`. */
  ghost predicate Waiting(s: State, k: nat) {
    && !s.eyes.seen.face && s.eyes.faceLost >= k
    && s.eyes.faceDeb == (s.eyes.faceLost <= FACE_LOST_GRACE_FRAMES)
    && s.passive <= 1.0
    && if s.activeMode then
         && s.poseClear >= k && s.phoneClear >= k
         && (k >= RECOVERY_DEBOUNCE_FRAMES ==> s.pose == 1.0 && s.phone == 1.0)
         && (k > RECOVERY_DEBOUNCE_FRAMES ==> WantsActive(s.eyes))
       else
         || s.passive <= 0.0
         || (!WantsActive(s.eyes) && (k >= 600 ==> 600.0 * s.passive <= (1200 - k) as real))
  }

  /** An unseen frame before its counters: the face stays lost and the mode follows. */
  lemma UnseenStates(s: State, i: Input)
    requires Unseen(i)
    ensures var t := UpdateStates(s, i.frame.vision);
      && !t.eyes.seen.face && t.eyes.faceLost == s.eyes.faceLost + 1 && t.eyes.hiStds == s.eyes.hiStds
      && t.eyes.faceDeb == (t.eyes.faceLost <= FACE_LOST_GRACE_FRAMES)
      && t.activeMode == (if ModeLocked(s) then s.activeMode else WantsActive(t.eyes))
      && t == s.(eyes := t.eyes, activeMode := t.activeMode)
  {
  }

  /** In passive mode an unseen frame outside the grace window counts down, whatever else is going on. */
  lemma UnseenPassive(t: State, i: Input)
    requires Unseen(i) && !t.eyes.seen.face && !t.activeMode
    ensures var (u, e) := UpdateEvents(t, i.frame, i.alwaysOn, i.regime);
      && u == t.(passive := u.passive, terminalCnt := u.terminalCnt, terminalTime := u.terminalTime, tooDistracted := u.tooDistracted)
      && u.passive == (if WantsActive(t.eyes) then t.passive else Max(t.passive - PASSIVE_STEP, FLOOR))
      && e.alert == PassiveAlert(u.passive, false)
  {
    assert !Resets(Lockout(t), i.frame, i.alwaysOn);
    assert !PassiveRecovers(Lockout(t));
  }

  /** In active mode both counters are clear in an unseen frame. */
  lemma UnseenActive(t: State, i: Input)
    requires Unseen(i) && !t.eyes.seen.face && t.activeMode
    ensures var (u, e) := UpdateEvents(t, i.frame, i.alwaysOn, i.regime);
      && u.activeMode && u.eyes == t.eyes
      && u.poseClear == t.poseClear + 1 && u.phoneClear == t.phoneClear + 1
      && u.pose == (if t.poseClear + 1 >= RECOVERY_DEBOUNCE_FRAMES then 1.0 else t.pose)
      && u.phone == (if t.phoneClear + 1 >= RECOVERY_DEBOUNCE_FRAMES then 1.0 else t.phone)
      && u.passive == (if Min(u.pose, u.phone) >= 1.0 then Min(t.passive + PASSIVE_STEP, 1.0) else t.passive)
      && e.alert == ActiveAlert(ActiveLevel(u, i.regime))
  {
    assert !Resets(Lockout(t), i.frame, i.alwaysOn);
  }

  lemma WaitingStarts(s: State, i: Input)
    requires InBounds(s) && Unseen(i)
    ensures Waiting(RunFrame(s, i.frame, i.alwaysOn, i.regime).0, 1)
  {
    UnseenStates(s, i);
    var t := UpdateStates(s, i.frame.vision);
    if t.activeMode { UnseenActive(t, i); } else { UnseenPassive(t, i); }
  }

  lemma WaitingContinues(s: State, k: nat, i: Input)
    requires k >= 1 && Waiting(s, k) && Unseen(i)
    ensures var (u, e) := RunFrame(s, i.frame, i.alwaysOn, i.regime);
      Waiting(u, k + 1) && (k + 1 >= 1200 ==> e.alert == Some(DriverUnresponsive))
  {
    UnseenStates(s, i);
    var t := UpdateStates(s, i.frame.vision);
    if t.activeMode {
      UnseenActive(t, i);
    } else {
      UnseenPassive(t, i);
    }
  }

  lemma {:induction false} WaitingThrough(s: State, inputs: seq<Input>)
    requires InBounds(s) && inputs != [] && forall i :: i in inputs ==> Unseen(i)
    ensures Waiting(Drive(s, inputs), |inputs|)
    ensures |inputs| >= 1200 ==> LastAlert(s, inputs) == Some(DriverUnresponsive)
    decreases |inputs|
  {
    var front, last := inputs[..|inputs| - 1], inputs[|inputs| - 1];
    if front == [] {
      WaitingStarts(s, last);
    } else {
      WaitingThrough(s, front);
      WaitingContinues(Drive(s, front), |front|, last);
    }
  }

  /**
   From any state of any drive, after 1200 unseen frames or more the red alert is on: 600 frames of
   face-loss grace and 600 of countdown, even when the mode was locked below orange to begin with.
   */
  lemma UnresponsiveByFrame1200(tooDistracted: bool, before: seq<Input>, inputs: seq<Input>)
    requires forall i :: i in before ==> RegimeOk(i.regime)
    requires |inputs| >= 1200 && forall i :: i in inputs ==> Unseen(i)
    ensures LastAlert(Drive(Fresh(tooDistracted), before), inputs) == Some(DriverUnresponsive)
  {
    DriveKeepsBounds(tooDistracted, before);
    WaitingThrough(Drive(Fresh(tooDistracted), before), inputs);
  }

  /** Attentive up to now: both counters full, the wheel-touch counter full, face just seen. */
  ghost predicate Attentive(s: State) {
    && InBounds(s) && s.activeMode && s.eyes.faceLost == 0 && s.eyes.hiStds <= HI_STD_FALLBACK_FRAMES
    && s.pose == 1.0 && s.phone == 1.0 && s.passive == 1.0
  }

  lemma {:induction false} AttentiveThrough(s: State, inputs: seq<Input>)
    requires Attentive(s) && forall i :: i in inputs ==> Unseen(i)
    requires |inputs| <= 1200
    ensures var k, t := |inputs|, Drive(s, inputs);
      && t.eyes.faceLost == k && t.eyes.hiStds == s.eyes.hiStds
      && t.activeMode == (k <= 600)
      && (k <= 600 ==> t.pose == 1.0 && t.phone == 1.0 && t.passive == 1.0)
      && (k > 600 ==> 600.0 * t.passive == (1200 - k) as real)
    ensures inputs != [] ==> (LastAlert(s, inputs) == Some(DriverUnresponsive) <==> |inputs| >= 1200)
    decreases |inputs|
  {
    if inputs != [] {
      var front, last := inputs[..|inputs| - 1], inputs[|inputs| - 1];
      AttentiveThrough(s, front);
      var a := Drive(s, front);
      UnseenStates(a, last);
      var t := UpdateStates(a, last.frame.vision);
      if t.activeMode { UnseenActive(t, last); } else { UnseenPassive(t, last); }
    }
  }

  /** The bound is tight: an attentive driver who vanishes meets the red alert first at frame 1200 exactly. */
  lemma UnresponsiveExactlyAt1200(s: State, inputs: seq<Input>)
    requires Attentive(s) && inputs != [] && forall i :: i in inputs ==> Unseen(i)
    ensures LastAlert(s, inputs) == Some(DriverUnresponsive) <==> |inputs| >= 1200
  {
    if |inputs| <= 1200 {
      AttentiveThrough(s, inputs);
    } else {
      WaitingThrough(s, inputs);
    }
  }

  /**
   The countdown of an attentive driver who vanishes, in frames: nothing for 45 s, green from then on,
   orange from 54 s and red from 60 s.
   */
  lemma UnseenAlerts(s: State, inputs: seq<Input>)
    requires Attentive(s) && inputs != [] && forall i :: i in inputs ==> Unseen(i) && RegimeOk(i.regime)
    ensures var k := |inputs|;
      LastAlert(s, inputs) ==
        if k < 900 then None
        else if k < 1080 then Some(PreDriverUnresponsive)
        else if k < 1200 then Some(PromptDriverUnresponsive)
        else Some(DriverUnresponsive)
  {
    if |inputs| <= 1200 {
      var front, last := inputs[..|inputs| - 1], inputs[|inputs| - 1];
      AttentiveThrough(s, front);
      AttentiveThrough(s, inputs);
      var a := Drive(s, front);
      UnseenStates(a, last);
      var t := UpdateStates(a, last.frame.vision);
      if t.activeMode { UnseenActive(t, last); } else { UnseenPassive(t, last); }
    } else {
      WaitingThrough(s, inputs);
    }
  }

  // ----- eyes on something else -----

  /** Face visible and certain, engaged, moving, hands off; distracted by pose or blink iff `dp`, by phone iff `dq`. */
  predicate Staring(i: Input, dp: bool, dq: bool, r: Regime) {
    && i.frame.vision.Some?
    && (var v := i.frame.vision.value; v.face && v.lowStd && (v.pose || v.blink) == dp && v.phone == dq)
    && i.frame.opEngaged && !i.frame.standstill && !i.frame.driverEngaged
    && i.regime == r
  }

  /** A counter after `k` distracted frames from full. */
  function Fallen(k: nat, step: real): real {
    Max(1.0 - k as real * step, FLOOR)
  }

  /** Ready to count: both counters full, in active mode or about to enter it. */
  predicate Ready(s: State) {
    && InBounds(s) && s.pose == 1.0 && s.phone == 1.0
    && s.eyes.hiStds <= HI_STD_FALLBACK_FRAMES && (s.activeMode || s.passive > 0.0)
  }

  lemma StaringFrame(s: State, i: Input, dp: bool, dq: bool, r: Regime)
    requires Staring(i, dp, dq, r) && s.eyes.hiStds <= HI_STD_FALLBACK_FRAMES && (s.activeMode || s.passive > 0.0)
    ensures var (u, e) := RunFrame(s, i.frame, i.alwaysOn, r);
      && u.activeMode && u.eyes.hiStds == 0
      && (dp ==> u.pose == Max(s.pose - r.poseStep, FLOOR))
      && (!dp && s.pose == 1.0 ==> u.pose == 1.0)
      && (dq ==> u.phone == Max(s.phone - r.phoneStep, FLOOR))
      && (!dq && s.phone == 1.0 ==> u.phone == 1.0)
      && e.alert == ActiveAlert(ActiveLevel(u, r))
  {
    var t := UpdateStates(s, i.frame.vision);
    assert t.activeMode && t.eyes.seen == i.frame.vision.value && t.eyes.hiStds == 0;
    assert t.pose == s.pose && t.phone == s.phone;
    assert !Resets(Lockout(t), i.frame, i.alwaysOn);
  }

  lemma FallenStep(k: nat, step: real)
    requires step > 0.0
    ensures Max(Fallen(k, step) - step, FLOOR) == Fallen(k + 1, step)
  {
    assert (k + 1) as real * step == k as real * step + step;
  }

  /** After `k` staring frames from full counters. */
  ghost predicate Stared(t: State, k: nat, dp: bool, dq: bool, r: Regime) {
    && (t.activeMode || t.passive > 0.0) && t.eyes.hiStds <= HI_STD_FALLBACK_FRAMES
    && t.pose == (if dp then Fallen(k, r.poseStep) else 1.0)
    && t.phone == (if dq then Fallen(k, r.phoneStep) else 1.0)
  }

  lemma StaringStep(t: State, k: nat, i: Input, dp: bool, dq: bool, r: Regime, u: State, alert: Option<Alert>)
    requires Stared(t, k, dp, dq, r) && RegimeOk(r) && Staring(i, dp, dq, r)
    requires u == RunFrame(t, i.frame, i.alwaysOn, i.regime).0 && alert == RunFrame(t, i.frame, i.alwaysOn, i.regime).1.alert
    ensures Stared(u, k + 1, dp, dq, r) && alert == ActiveAlert(ActiveLevel(u, r))
  {
    StaringFrame(t, i, dp, dq, r);
    FallenStep(k, r.poseStep);
    FallenStep(k, r.phoneStep);
  }

  lemma NotYetStared(s: State, dp: bool, dq: bool, r: Regime)
    requires Ready(s)
    ensures Stared(s, 0, dp, dq, r)
  {
  }

  lemma {:induction false} StaringThrough(s: State, inputs: seq<Input>, dp: bool, dq: bool, r: Regime)
    requires Ready(s) && RegimeOk(r)
    requires forall i :: i in inputs ==> Staring(i, dp, dq, r)
    ensures Stared(Drive(s, inputs), |inputs|, dp, dq, r)
    ensures inputs != [] ==>
      LastAlert(s, inputs) == ActiveAlert(ActiveLevel(Drive(s, inputs), r))
    decreases |inputs|
  {
    if inputs != [] {
      var front, last := inputs[..|inputs| - 1], inputs[|inputs| - 1];
      assert Staring(last, dp, dq, r) && forall i :: i in front ==> i in inputs;
      StaringThrough(s, front, dp, dq, r);
      StaringStep(Drive(s, front), |front|, last, dp, dq, r, Drive(s, inputs), LastAlert(s, inputs));
    } else {
      NotYetStared(s, dp, dq, r);
    }
  }

  /** The least integer not below `x`. */
  function Ceil(x: real): int {
    -((-x).Floor)
  }

  /** A counter that falls by 0.05 s out of `t` seconds is at or below zero from frame ceil(20 t) on. */
  lemma TerminalAt(k: nat, t: Seconds)
    ensures Fallen(k, DT_DMON / t) <= 0.0 <==> k >= Ceil(20.0 * t)
  {
    var step := DT_DMON / t;
    assert 20.0 * t * step == 1.0;
    var kr := k as real;
    if kr >= 20.0 * t {
      if kr > 20.0 * t { ScaleOrder(20.0 * t, kr, step); }
    } else {
      ScaleOrder(kr, 20.0 * t, step);
    }
    assert k >= Ceil(20.0 * t) <==> kr >= 20.0 * t;
  }

  lemma ScaleOrder(a: real, b: real, step: real)
    requires a < b && step > 0.0
    ensures a * step < b * step
  {
    assert (b - a) * step > 0.0;
  }

  /** A falling counter passes from one level to the next. */
  lemma CounterStep(k: nat, step: real, pre: real, prompt: real)
    requires Graded(step, pre, prompt)
    ensures Level(Fallen(0, step), pre, prompt) == Level(1.0, pre, prompt) == 0
    ensures var a, b := Level(Fallen(k, step), pre, prompt), Level(Fallen(k + 1, step), pre, prompt);
      a <= b <= a + 1
  {
    FallenStep(k, step);
  }

  /** The alert level after the inputs. */
  function LevelAfter(s: State, inputs: seq<Input>, r: Regime): nat {
    ActiveLevel(Drive(s, inputs), r)
  }

  /** No level is skipped: from one distracted frame to the next the level of the drive stays or rises by one. */
  lemma NoLevelSkipped(s: State, inputs: seq<Input>, dp: bool, dq: bool, r: Regime)
    requires Ready(s) && RegimeOk(r) && inputs != []
    requires forall i :: i in inputs ==> Staring(i, dp, dq, r)
    ensures var a, b := LevelAfter(s, inputs[..|inputs| - 1], r), LevelAfter(s, inputs, r); a <= b <= a + 1
    ensures |inputs| == 1 ==> LevelAfter(s, [], r) == 0
  {
    var front := inputs[..|inputs| - 1];
    StaringThrough(s, front, dp, dq, r);
    StaringThrough(s, inputs, dp, dq, r);
    CounterStep(|front|, r.poseStep, r.posePre, r.posePrompt);
    CounterStep(|front|, r.phoneStep, r.phonePre, r.phonePrompt);
  }

  /** Before a level is reached the level below it was. */
  lemma {:induction false} FindLevel(s: State, inputs: seq<Input>, dp: bool, dq: bool, r: Regime, level: nat) returns (j: nat)
    requires Ready(s) && RegimeOk(r) && (forall i :: i in inputs ==> Staring(i, dp, dq, r))
    requires 0 < level && inputs != [] && LevelAfter(s, inputs, r) == level + 1
    ensures 0 < j < |inputs| && LevelAfter(s, inputs[..j], r) == level
    decreases |inputs|
  {
    var n := |inputs| - 1;
    NoLevelSkipped(s, inputs, dp, dq, r);
    if LevelAfter(s, inputs[..n], r) == level {
      j := n;
    } else {
      j := FindLevel(s, inputs[..n], dp, dq, r, level);
      assert inputs[..n][..j] == inputs[..j];
    }
  }

  /**
   For any configuration file, mode and road: a driver distracted without pause meets the red alert
   exactly from frame ceil(20 T) on, T being the timeout in force of what distracts them.
   */
  lemma TerminalExactlyAtTimeout(file: Option<Json>, mode: int, roadRelaxed: bool,
                                 s: State, inputs: seq<Input>, dp: bool, dq: bool)
    requires Ready(s) && inputs != []
    requires forall i :: i in inputs ==> Staring(i, dp, dq, RegimeOf(LoadDmTimeouts(file), mode, roadRelaxed))
    ensures var c := LoadDmTimeouts(file);
      LastAlert(s, inputs) == Some(DriverDistracted) <==>
        || (dp && |inputs| >= Ceil(20.0 * PoseTimeout(c, mode, roadRelaxed)))
        || (dq && |inputs| >= Ceil(20.0 * PhoneTimeout(c, mode, roadRelaxed)))
  {
    var c := LoadDmTimeouts(file);
    var r := RegimeOf(c, mode, roadRelaxed);
    RegimeInRange(file, mode, roadRelaxed);
    StaringThrough(s, inputs, dp, dq, r);
    TerminalAt(|inputs|, PoseTimeout(c, mode, roadRelaxed));
    TerminalAt(|inputs|, PhoneTimeout(c, mode, roadRelaxed));
  }

  /** On the way there the alert passes green and then orange, whatever distracts, pose and phone at once included. */
  lemma WarnedBeforeTerminal(file: Option<Json>, mode: int, roadRelaxed: bool,
                             s: State, inputs: seq<Input>, dp: bool, dq: bool) returns (green: nat, orange: nat)
    requires Ready(s) && inputs != []
    requires forall i :: i in inputs ==> Staring(i, dp, dq, RegimeOf(LoadDmTimeouts(file), mode, roadRelaxed))
    requires LastAlert(s, inputs) == Some(DriverDistracted)
    ensures 0 < green < orange < |inputs|
    ensures LastAlert(s, inputs[..green]) == Some(PreDriverDistracted)
    ensures LastAlert(s, inputs[..orange]) == Some(PromptDriverDistracted)
  {
    var r := RegimeOf(LoadDmTimeouts(file), mode, roadRelaxed);
    RegimeInRange(file, mode, roadRelaxed);
    StaringThrough(s, inputs, dp, dq, r);
    orange := FindLevel(s, inputs, dp, dq, r, 2);
    green := FindLevel(s, inputs[..orange], dp, dq, r, 1);
    assert inputs[..orange][..green] == inputs[..green];
    StaringThrough(s, inputs[..green], dp, dq, r);
    StaringThrough(s, inputs[..orange], dp, dq, r);
  }
}
