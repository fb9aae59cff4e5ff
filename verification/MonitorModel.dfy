/**
 Driver monitoring as three independent counters (pose, phone, wheel-touch) and a mode. The class in
 `DriverMonitor` keeps the shared field of the program; this is the model it refines.
 */
module MonitorModel {
  import opened Wrappers
  import opened DmConfig
  import opened Extremes

  const AWARENESS_TIME := 30.0
  const PASSIVE_STEP := 0.05 / 30.0
  const PASSIVE_PRE := 15.0 / 30.0
  const PASSIVE_PROMPT := 6.0 / 30.0
  const ACTIVE_PRE := 8.0 / 11.0
  const ACTIVE_PROMPT := 6.0 / 11.0
  const HI_STD_FALLBACK_FRAMES: nat := 600
  const FACE_LOST_GRACE_FRAMES: nat := 600
  const RECOVERY_DEBOUNCE_FRAMES: nat := 40
  const MAX_TERMINAL_ALERTS: nat := 10
  const MAX_TERMINAL_FRAMES: nat := 600
  const FILTER_ALPHA := 0.05 / 0.3
  const RECOVERY_FACTOR_MAX := 5.0
  const RECOVERY_FACTOR_MIN := 1.25
  const ALWAYS_ON_ALERT_MIN_SPEED := 11.0
  const FLOOR := -0.1

  /** What the camera model says in one frame. */
  datatype Vision = Vision(face: bool, lowStd: bool, pose: bool, blink: bool, phone: bool)

  /** One frame of input. `vision` is None when the driver packet is incomplete. */
  datatype Frame = Frame(
    vision: Option<Vision>,
    driverEngaged: bool, opEngaged: bool, standstill: bool, wrongGear: bool, speed: real)

  datatype Alert =
    | PreDriverDistracted | PromptDriverDistracted | DriverDistracted
    | PreDriverUnresponsive | PromptDriverUnresponsive | DriverUnresponsive

  datatype Events = Events(alert: Option<Alert>, tooDistracted: bool)

  /** What is kept of the camera: the last vision, its debounced face and its smoothed distraction. */
  datatype Eyes = Eyes(seen: Vision, distracted: bool, filter: real, faceLost: nat, faceDeb: bool, hiStds: nat)

  datatype State = State(
    pose: real, phone: real, passive: real,
    poseClear: nat, phoneClear: nat,
    activeMode: bool,
    eyes: Eyes,
    terminalCnt: nat, terminalTime: nat, tooDistracted: bool)

  function Attention(s: State): real {
    Min(s.pose, s.phone)
  }

  /** The counter that the current mode watches. */
  function Current(s: State): real {
    if s.activeMode then Attention(s) else s.passive
  }

  function Prompt(s: State): real {
    if s.activeMode then ACTIVE_PROMPT else PASSIVE_PROMPT
  }

  function Reset(s: State): State {
    s.(pose := 1.0, phone := 1.0, passive := 1.0, poseClear := 0, phoneClear := 0)
  }

  // ----- vision and mode -----

  predicate DistractedBy(v: Vision) {
    (v.phone || v.pose || v.blink) && v.face && v.lowStd
  }

  function Smooth(x: real, on: bool): real {
    (1.0 - FILTER_ALPHA) * x + FILTER_ALPHA * (if on then 1.0 else 0.0)
  }

  /** No mode change past orange in active mode, nor past red in passive mode. */
  predicate ModeLocked(s: State) {
    if s.activeMode then Attention(s) <= ACTIVE_PROMPT else s.passive <= 0.0
  }

  function SetTimers(s: State, active: bool): State {
    if ModeLocked(s) then s else s.(activeMode := active)
  }

  predicate WantsActive(e: Eyes) {
    e.faceDeb && e.hiStds <= HI_STD_FALLBACK_FRAMES
  }

  /** The face-loss grace, the distraction verdict and its filter; `hiStds` is counted after the timers are set. */
  function See(e: Eyes, v: Vision): Eyes {
    var lost := if v.face then 0 else e.faceLost + 1;
    Eyes(v, DistractedBy(v), Smooth(e.filter, DistractedBy(v)), lost, v.face || lost <= FACE_LOST_GRACE_FRAMES, e.hiStds)
  }

  function HiStdsAfter(hiStds: nat, v: Vision): nat {
    if v.face && !v.lowStd then hiStds + 1 else if v.face && v.lowStd then 0 else hiStds
  }

  function UpdateStates(s: State, vision: Option<Vision>): State {
    if vision.None? then s
    else
      var eyes := See(s.eyes, vision.value);
      SetTimers(s, WantsActive(eyes)).(eyes := eyes.(hiStds := HiStdsAfter(eyes.hiStds, vision.value)))
  }

  // ----- active mode -----

  /** One frame of a debounced counter: it falls while distracted, and snaps back after 2 s clear. */
  function Decay(counter: real, clear: nat, step: real, distracted: bool, exempt: bool): (real, nat) {
    if distracted then (if exempt then counter else Max(counter - step, FLOOR), 0)
    else (if clear + 1 >= RECOVERY_DEBOUNCE_FRAMES then 1.0 else counter, clear + 1)
  }

  function Level(awareness: real, pre: real, prompt: real): nat {
    if awareness <= 0.0 then 3 else if awareness <= prompt then 2 else if awareness <= pre then 1 else 0
  }

  function ActiveAlert(level: nat): Option<Alert> {
    if level == 3 then Some(DriverDistracted)
    else if level == 2 then Some(PromptDriverDistracted)
    else if level == 1 then Some(PreDriverDistracted)
    else None
  }

  predicate Exempt(counter: real, step: real, pre: real, standstill: bool, alwaysOnIdle: bool) {
    (standstill && counter - step <= pre) || (alwaysOnIdle && counter - step <= 0.0)
  }

  /** Both counters after one active frame, and the recovery of the wheel-touch counter. */
  function ActiveCounters(s: State, f: Frame, alwaysOnIdle: bool, r: Regime): State {
    var sees := s.eyes.seen.face && s.eyes.seen.lowStd;
    var (pose, poseClear) := Decay(s.pose, s.poseClear, r.poseStep, (s.eyes.seen.pose || s.eyes.seen.blink) && sees,
                                   Exempt(s.pose, r.poseStep, r.posePre, f.standstill, alwaysOnIdle));
    var (phone, phoneClear) := Decay(s.phone, s.phoneClear, r.phoneStep, s.eyes.seen.phone && sees,
                                     Exempt(s.phone, r.phoneStep, r.phonePre, f.standstill, alwaysOnIdle));
    s.(pose := pose, poseClear := poseClear, phone := phone, phoneClear := phoneClear,
       passive := if Min(pose, phone) >= 1.0 then Min(s.passive + PASSIVE_STEP, 1.0) else s.passive)
  }

  function ActiveLevel(s: State, r: Regime): nat {
    var a, b := Level(s.pose, r.posePre, r.posePrompt), Level(s.phone, r.phonePre, r.phonePrompt);
    if a >= b then a else b
  }

  /** Terminal frames and terminal alerts are counted; an alert is new when the counter was above zero. */
  function CountTerminal(s: State, terminal: bool, before: real): State {
    if terminal then s.(terminalTime := s.terminalTime + 1, terminalCnt := s.terminalCnt + (if before > 0.0 then 1 else 0))
    else s
  }

  // ----- passive mode -----

  function PassiveRecovered(passive: real): real {
    Min(passive + ((RECOVERY_FACTOR_MAX - RECOVERY_FACTOR_MIN) * (1.0 - passive) + RECOVERY_FACTOR_MIN) * PASSIVE_STEP, 1.0)
  }

  predicate PassiveRecovers(s: State) {
    s.eyes.filter < 0.37 && s.eyes.seen.face && s.eyes.seen.lowStd && s.passive > 0.0
  }

  function PassiveDecayed(s: State, f: Frame, passive: real, alwaysOnIdle: bool): real {
    var audible := passive - PASSIVE_STEP <= PASSIVE_PROMPT;
    var terminal := passive - PASSIVE_STEP <= 0.0;
    var exempt := || (f.standstill && audible)
                  || (alwaysOnIdle && terminal)
                  || (alwaysOnIdle && f.speed < ALWAYS_ON_ALERT_MIN_SPEED && audible);
    var certainly := s.eyes.filter > 0.63 && s.eyes.distracted && s.eyes.seen.face;
    var maybe := s.eyes.hiStds > HI_STD_FALLBACK_FRAMES || !s.eyes.faceDeb;
    if (certainly || maybe) && !exempt then Max(passive - PASSIVE_STEP, FLOOR) else passive
  }

  function PassiveAlert(passive: real, alwaysOnSlow: bool): Option<Alert> {
    if passive <= 0.0 then Some(DriverUnresponsive)
    else if passive <= PASSIVE_PROMPT then Some(PromptDriverUnresponsive)
    else if passive <= PASSIVE_PRE && !alwaysOnSlow then Some(PreDriverUnresponsive)
    else None
  }

  // ----- one frame -----

  function Lockout(s: State): State {
    if s.terminalCnt >= MAX_TERMINAL_ALERTS || s.terminalTime >= MAX_TERMINAL_FRAMES then s.(tooDistracted := true) else s
  }

  predicate Resets(s: State, f: Frame, alwaysOn: bool) {
    var valid := alwaysOn && !f.wrongGear;
    || (f.driverEngaged && (s.activeMode || Current(s) > 0.0))
    || (!valid && !f.opEngaged)
    || (valid && !f.opEngaged && Current(s) <= 0.0)
  }

  function ActiveEvents(s: State, f: Frame, idle: bool, r: Regime): (State, Option<Alert>) {
    var s1 := ActiveCounters(s, f, idle, r);
    var level := ActiveLevel(s1, r);
    (CountTerminal(s1, level == 3, Attention(s)), ActiveAlert(level))
  }

  function PassiveEvents(s: State, f: Frame, idle: bool): (State, Option<Alert>) {
    var recovered := if PassiveRecovers(s) then PassiveRecovered(s.passive) else s.passive;
    if PassiveRecovers(s) && recovered > PASSIVE_PROMPT then (s.(passive := recovered), None)
    else
      var passive := PassiveDecayed(s, f, recovered, idle);
      (CountTerminal(s.(passive := passive), passive <= 0.0, s.passive),
       PassiveAlert(passive, idle && f.speed < ALWAYS_ON_ALERT_MIN_SPEED))
  }

  function UpdateEvents(s0: State, f: Frame, alwaysOn: bool, r: Regime): (State, Events) {
    var s := Lockout(s0);
    var flag := s.tooDistracted || (alwaysOn && Current(s) <= Prompt(s));
    var idle := alwaysOn && !f.wrongGear && !f.opEngaged;
    if Resets(s, f, alwaysOn) then (Reset(s), Events(None, flag))
    else
      var (s1, alert) := if s.activeMode then ActiveEvents(s, f, idle, r) else PassiveEvents(s, f, idle);
      (s1, Events(alert, flag))
  }

  function RunFrame(s: State, f: Frame, alwaysOn: bool, r: Regime): (State, Events) {
    UpdateEvents(UpdateStates(s, f.vision), f, alwaysOn, r)
  }

  // ----- invariant -----

  predicate CounterOk(x: real) {
    FLOOR <= x <= 1.0
  }

  predicate InBounds(s: State) {
    && CounterOk(s.pose) && CounterOk(s.phone) && CounterOk(s.passive)
    && s.eyes.distracted == DistractedBy(s.eyes.seen)
    && (s.eyes.seen.face ==> s.eyes.faceLost == 0)
    && s.eyes.faceDeb == (s.eyes.faceLost <= FACE_LOST_GRACE_FRAMES)
  }

  const BLANK := Vision(false, true, false, false, false)

  function Fresh(tooDistracted: bool): State {
    State(1.0, 1.0, 1.0, 0, 0, true, Eyes(BLANK, false, 0.0, FACE_LOST_GRACE_FRAMES + 1, false, 0), 0, 0, tooDistracted)
  }

  lemma StatesKeepBounds(s: State, vision: Option<Vision>)
    requires InBounds(s)
    ensures InBounds(UpdateStates(s, vision))
  {
  }

  lemma RecoveredOk(passive: real)
    requires 0.0 < passive <= 1.0
    ensures passive <= PassiveRecovered(passive) <= 1.0
  {
    assert (RECOVERY_FACTOR_MAX - RECOVERY_FACTOR_MIN) * (1.0 - passive) >= 0.0;
  }

  lemma ActiveKeepsBounds(s: State, f: Frame, idle: bool, r: Regime)
    requires InBounds(s) && r.poseStep > 0.0 && r.phoneStep > 0.0
    ensures InBounds(ActiveEvents(s, f, idle, r).0)
  {
    var s1 := ActiveCounters(s, f, idle, r);
    assert InBounds(s1);
  }

  lemma PassiveKeepsBounds(s: State, f: Frame, idle: bool)
    requires InBounds(s)
    ensures InBounds(PassiveEvents(s, f, idle).0)
  {
    if PassiveRecovers(s) {
      RecoveredOk(s.passive);
    }
  }

  lemma EventsKeepBounds(s: State, f: Frame, alwaysOn: bool, r: Regime)
    requires InBounds(s) && r.poseStep > 0.0 && r.phoneStep > 0.0
    ensures InBounds(UpdateEvents(s, f, alwaysOn, r).0)
  {
    ActiveKeepsBounds(Lockout(s), f, alwaysOn && !f.wrongGear && !f.opEngaged, r);
    PassiveKeepsBounds(Lockout(s), f, alwaysOn && !f.wrongGear && !f.opEngaged);
  }

  /** Every counter stays in [-0.1, 1] in every frame of every drive. */
  lemma FrameKeepsBounds(s: State, f: Frame, alwaysOn: bool, r: Regime)
    requires InBounds(s) && r.poseStep > 0.0 && r.phoneStep > 0.0
    ensures InBounds(RunFrame(s, f, alwaysOn, r).0)
  {
    StatesKeepBounds(s, f.vision);
    EventsKeepBounds(UpdateStates(s, f.vision), f, alwaysOn, r);
  }
}
