/**
 The driver-monitoring object, field by field: one shared `awareness` with saved copies swapped on
 every mode change. Each method is proved to be the matching step of the counter model.
 */
module DriverMonitor {
  import opened Wrappers
  import opened DmConfig
  import opened RoadVerdict
  import M = MonitorModel
  import D = MonitorDrive
  import opened Extremes

  class DriverMonitoring {
    const config: Config

    var alwaysOn: bool // may be set anew at any time

    var awareness: real
    var awarenessActive: real
    var awarenessPassive: real
    var awarenessPose: real
    var awarenessPhone: real
    var poseClearFrames: nat
    var phoneClearFrames: nat
    var activeMonitoringMode: bool
    var thresholdPre: real
    var thresholdPrompt: real
    var stepChange: real

    var eyes: M.Eyes

    var terminalAlertCnt: nat
    var terminalTime: nat
    var tooDistracted: bool

    var dmMode: int
    var dmRefreshCnt: nat
    var road: Road
    var regime: Regime

    /** The counters behind the shared field, whatever the mode. */
    ghost function Logical(): M.State
      reads this
    {
      M.State(awarenessPose, awarenessPhone, if activeMonitoringMode then awarenessPassive else awareness,
              poseClearFrames, phoneClearFrames, activeMonitoringMode,
              eyes,
              terminalAlertCnt, terminalTime, tooDistracted)
    }

    /** The monitor as the model of whole drives has it. */
    ghost function Unit(): D.Unit
      reads this
    {
      D.Unit(Logical(), dmMode, dmRefreshCnt, road)
    }

    /** The shared field is the minimum of the two active counters, in place or saved. */
    ghost predicate Coupled()
      reads this
    {
      if activeMonitoringMode then
        && awareness == Min(awarenessPose, awarenessPhone)
        && thresholdPre == M.ACTIVE_PRE && thresholdPrompt == M.ACTIVE_PROMPT
      else
        && awarenessActive == Min(awarenessPose, awarenessPhone)
        && thresholdPre == M.PASSIVE_PRE && thresholdPrompt == M.PASSIVE_PROMPT
        && stepChange == M.PASSIVE_STEP
    }

    /** Timeouts are re-derived only when mode or road change, and are always the current ones. */
    ghost predicate Valid()
      reads this
    {
      Coupled() && InForce()
    }

    ghost predicate InForce()
      reads this`dmMode, this`road, this`regime
    {
      regime == RegimeOf(config, dmMode, road.relaxed)
    }

    constructor (alwaysOn: bool, tooDistracted: bool, config: Config, mode: int)
      ensures Valid()
      ensures Unit() == D.Start(tooDistracted, mode)
      ensures this.alwaysOn == alwaysOn && this.config == config
      ensures eyes.filter == 0.0 && !eyes.seen.face && awareness == 1.0 && activeMonitoringMode
    {
      this.alwaysOn := alwaysOn;
      this.config := config;
      this.tooDistracted := tooDistracted;
      dmMode := mode;
      road := INITIAL;
      dmRefreshCnt := REFRESH_FRAMES;
      eyes := M.Eyes(M.BLANK, false, 0.0, M.FACE_LOST_GRACE_FRAMES + 1, false, 0);
      terminalAlertCnt := 0;
      terminalTime := 0;
      activeMonitoringMode := true;
      thresholdPre := M.ACTIVE_PRE;
      thresholdPrompt := M.ACTIVE_PROMPT;
      stepChange := 0.0;
      new;
      ApplyDmTimeouts();
      ResetAwareness();
      SetTimers(true);
    }

    method ApplyDmTimeouts()
      modifies this`regime
      ensures InForce()
    {
      var posePre, posePrompt := 60.0, 30.0;
      var phonePre, phonePrompt := 120.0, 60.0;
      var tier: Option<Timeouts> := None;
      if config.tier.Some? {
        var (name, t) := config.tier.value;
        if name == Relaxed || (name == Highway && road.relaxed) {
          tier := Some(t);
        }
      } else if dmMode == 2 {
        tier := Some(config.relaxed);
      } else if dmMode == 1 && road.relaxed {
        tier := Some(config.highway);
      }
      var poseT: Seconds, phoneT: Seconds := DISTRACTED_TIME, DISTRACTED_TIME;
      if tier.Some? {
        poseT, phoneT := tier.value.pose, tier.value.phone;
        posePre, posePrompt := Min(posePre, poseT / 2.0), Min(posePrompt, poseT / 4.0);
        phonePre, phonePrompt := Min(phonePre, phoneT / 2.0), Min(phonePrompt, phoneT / 4.0);
      } else {
        posePre, phonePre := DISTRACTED_PRE, DISTRACTED_PRE;
        posePrompt, phonePrompt := DISTRACTED_PROMPT, DISTRACTED_PROMPT;
      }
      regime := Regime(DT_DMON / poseT, DT_DMON / phoneT, posePre / poseT, posePrompt / poseT,
                       phonePre / phoneT, phonePrompt / phoneT);
    }

    method ResetAwareness()
      modifies this`awareness, this`awarenessActive, this`awarenessPassive, this`awarenessPose, this`awarenessPhone,
               this`poseClearFrames, this`phoneClearFrames
      ensures Logical() == M.Reset(old(Logical()))
      ensures awareness == awarenessActive == 1.0
    {
      awareness := 1.0;
      awarenessActive := 1.0;
      awarenessPassive := 1.0;
      awarenessPose := 1.0;
      awarenessPhone := 1.0;
      poseClearFrames := 0;
      phoneClearFrames := 0;
    }

    method SetTimers(activeMonitoring: bool)
      requires Coupled()
      modifies this`awareness, this`awarenessActive, this`awarenessPassive, this`thresholdPre, this`thresholdPrompt,
               this`stepChange, this`activeMonitoringMode
      ensures Coupled()
      ensures Logical() == M.SetTimers(old(Logical()), activeMonitoring)
    {
      if activeMonitoringMode && awareness <= thresholdPrompt {
        if activeMonitoring {
          stepChange := DT_DMON / DISTRACTED_TIME;
        } else {
          stepChange := 0.0;
        }
        return;
      } else if awareness <= 0.0 {
        return;
      }
      if activeMonitoring {
        if !activeMonitoringMode {
          awarenessPassive := awareness;
          awareness := awarenessActive;
        }
        thresholdPre := DISTRACTED_PRE / DISTRACTED_TIME;
        thresholdPrompt := DISTRACTED_PROMPT / DISTRACTED_TIME;
        stepChange := DT_DMON / DISTRACTED_TIME;
        activeMonitoringMode := true;
      } else {
        if activeMonitoringMode {
          awarenessActive := awareness;
          awareness := awarenessPassive;
        }
        thresholdPre := 15.0 / M.AWARENESS_TIME;
        thresholdPrompt := 6.0 / M.AWARENESS_TIME;
        stepChange := DT_DMON / M.AWARENESS_TIME;
        activeMonitoringMode := false;
      }
    }

    /** The road by this reading, if the mode or a JSON highway tier needs it. */
    method ReadRoad(mode: int, map_: MapRead) returns (roadRelaxed: bool, hold: nat)
      ensures Road(roadRelaxed, hold) == D.RoadBy(config, road, mode, map_)
    {
      roadRelaxed, hold := road.relaxed, road.hold;
      var jsonHighway := config.tier.Some? && config.tier.value.0 == Highway;
      if mode == 1 || jsonHighway {
        match Classify(map_) {
          case Qualifying =>
            roadRelaxed := true;
            hold := 0;
          case City =>
            roadRelaxed := false;
            hold := 0;
          case Unknown =>
            hold := hold + REFRESH_FRAMES;
            if hold >= HOLD_FRAMES {
              roadRelaxed := false;
            }
        }
      }
    }

    /** Reads the selector and the map about once a second; `mode` and `map_` are what those reads return. */
    method RefreshDmMode(mode: int, map_: MapRead)
      requires InForce()
      modifies this`dmMode, this`dmRefreshCnt, this`road, this`regime
      ensures InForce()
      ensures Unit() == D.Refreshed(config, old(Unit()), mode, map_)
    {
      ghost var before := Unit();
      dmRefreshCnt := dmRefreshCnt + 1;
      if dmRefreshCnt < REFRESH_FRAMES {
        D.RefreshSkipped(config, before, mode, map_, Unit());
        return;
      }
      dmRefreshCnt := 0;
      var roadRelaxed, hold := ReadRoad(mode, map_);
      road := road.(hold := hold);
      if mode != dmMode || roadRelaxed != road.relaxed {
        dmMode := mode;
        road := road.(relaxed := roadRelaxed);
        ApplyDmTimeouts();
      }
      D.RefreshTaken(config, before, mode, map_, Unit());
    }

    method UpdateStates(vision: Option<M.Vision>)
      requires Coupled()
      modifies this`awareness, this`awarenessActive, this`awarenessPassive, this`thresholdPre, this`thresholdPrompt,
               this`stepChange, this`activeMonitoringMode, this`eyes
      ensures Coupled()
      ensures Logical() == M.UpdateStates(old(Logical()), vision)
    {
      if vision.None? {
        return;
      }
      var v := vision.value;
      var distracted := (v.phone || v.pose || v.blink) && v.face && v.lowStd;
      var lost := 0;
      if !v.face {
        lost := eyes.faceLost + 1;
      }
      eyes := eyes.(seen := v, distracted := distracted, filter := M.Smooth(eyes.filter, distracted),
                    faceLost := lost, faceDeb := v.face || lost <= M.FACE_LOST_GRACE_FRAMES);
      assert eyes == M.See(old(eyes), v);
      var isModelUncertain := eyes.hiStds > M.HI_STD_FALLBACK_FRAMES;
      SetTimers(eyes.faceDeb && !isModelUncertain);
      if v.face && !v.lowStd && !distracted {
        eyes := eyes.(hiStds := eyes.hiStds + 1);
      } else if v.face && v.lowStd {
        eyes := eyes.(hiStds := 0);
      }
    }

    method DecayPose(f: M.Frame, alwaysOnValid: bool)
      modifies this`awarenessPose, this`poseClearFrames
      ensures (awarenessPose, poseClearFrames)
           == M.Decay(old(awarenessPose), old(poseClearFrames), regime.poseStep, (eyes.seen.pose || eyes.seen.blink) && eyes.seen.face && eyes.seen.lowStd,
                      M.Exempt(old(awarenessPose), regime.poseStep, regime.posePre, f.standstill, alwaysOnValid && !f.opEngaged))
    {
      var standstillExempt := f.standstill && awarenessPose - regime.poseStep <= regime.posePre;
      var redExempt := alwaysOnValid && !f.opEngaged && awarenessPose - regime.poseStep <= 0.0;
      if (eyes.seen.pose || eyes.seen.blink) && eyes.seen.face && eyes.seen.lowStd {
        if !(standstillExempt || redExempt) {
          awarenessPose := Max(awarenessPose - regime.poseStep, M.FLOOR);
        }
        poseClearFrames := 0;
      } else {
        poseClearFrames := poseClearFrames + 1;
        if poseClearFrames >= M.RECOVERY_DEBOUNCE_FRAMES {
          awarenessPose := 1.0;
        }
      }
    }

    method DecayPhone(f: M.Frame, alwaysOnValid: bool)
      modifies this`awarenessPhone, this`phoneClearFrames
      ensures (awarenessPhone, phoneClearFrames)
           == M.Decay(old(awarenessPhone), old(phoneClearFrames), regime.phoneStep, eyes.seen.phone && eyes.seen.face && eyes.seen.lowStd,
                      M.Exempt(old(awarenessPhone), regime.phoneStep, regime.phonePre, f.standstill, alwaysOnValid && !f.opEngaged))
    {
      var standstillExempt := f.standstill && awarenessPhone - regime.phoneStep <= regime.phonePre;
      var redExempt := alwaysOnValid && !f.opEngaged && awarenessPhone - regime.phoneStep <= 0.0;
      if eyes.seen.phone && eyes.seen.face && eyes.seen.lowStd {
        if !(standstillExempt || redExempt) {
          awarenessPhone := Max(awarenessPhone - regime.phoneStep, M.FLOOR);
        }
        phoneClearFrames := 0;
      } else {
        phoneClearFrames := phoneClearFrames + 1;
        if phoneClearFrames >= M.RECOVERY_DEBOUNCE_FRAMES {
          awarenessPhone := 1.0;
        }
      }
    }

    /** The active-mode half: two debounced counters, one combined field, the more severe alert. */
    method UpdateActive(f: M.Frame, alwaysOnValid: bool, awarenessPrev: real) returns (alert: Option<M.Alert>)
      requires Coupled() && activeMonitoringMode && awarenessPrev == awareness
      modifies this`awareness, this`awarenessPassive, this`awarenessPose, this`awarenessPhone, this`poseClearFrames,
               this`phoneClearFrames, this`terminalTime, this`terminalAlertCnt
      ensures Coupled()
      ensures (Logical(), alert) == M.ActiveEvents(old(Logical()), f, alwaysOnValid && !f.opEngaged, regime)
    {
      UpdateCounters(f, alwaysOnValid);
      alert := ClassifyActive(awarenessPrev);
    }

    method UpdateCounters(f: M.Frame, alwaysOnValid: bool)
      requires Coupled() && activeMonitoringMode
      modifies this`awareness, this`awarenessPassive, this`awarenessPose, this`awarenessPhone, this`poseClearFrames,
               this`phoneClearFrames
      ensures Coupled()
      ensures Logical() == M.ActiveCounters(old(Logical()), f, alwaysOnValid && !f.opEngaged, regime)
    {
      DecayPose(f, alwaysOnValid);
      DecayPhone(f, alwaysOnValid);
      awareness := Min(awarenessPose, awarenessPhone);
      if awareness >= 1.0 {
        awarenessPassive := Min(awarenessPassive + DT_DMON / M.AWARENESS_TIME, 1.0);
      }
    }

    /** Classifies each counter and raises the more severe alert. */
    method ClassifyActive(awarenessPrev: real) returns (alert: Option<M.Alert>)
      modifies this`terminalTime, this`terminalAlertCnt
      ensures var level := M.ActiveLevel(old(Logical()), regime);
        Logical() == M.CountTerminal(old(Logical()), level == 3, awarenessPrev) && alert == M.ActiveAlert(level)
    {
      var poseLevel := M.Level(awarenessPose, regime.posePre, regime.posePrompt);
      var phoneLevel := M.Level(awarenessPhone, regime.phonePre, regime.phonePrompt);
      var level := if poseLevel >= phoneLevel then poseLevel else phoneLevel;
      if level == 3 {
        terminalTime := terminalTime + 1;
        if awarenessPrev > 0.0 {
          terminalAlertCnt := terminalAlertCnt + 1;
        }
      }
      alert := if level == 3 then Some(M.DriverDistracted)
               else if level == 2 then Some(M.PromptDriverDistracted)
               else if level == 1 then Some(M.PreDriverDistracted)
               else None;
    }

    /** The wheel-touch countdown on the shared field, with its standstill and always-on exemptions. */
    method DecayPassive(f: M.Frame, alwaysOnValid: bool)
      requires Coupled() && !activeMonitoringMode
      modifies this`awareness
      ensures awareness == M.PassiveDecayed(old(Logical()), f, old(awareness), alwaysOnValid && !f.opEngaged)
    {
      var reachingAudible := awareness - stepChange <= thresholdPrompt;
      var reachingTerminal := awareness - stepChange <= 0.0;
      var standstillExempt := f.standstill && reachingAudible;
      var redExempt := alwaysOnValid && !f.opEngaged && reachingTerminal;
      var lowSpeedExempt := alwaysOnValid && !f.opEngaged && f.speed < M.ALWAYS_ON_ALERT_MIN_SPEED;
      var certainlyDistracted := eyes.filter > 0.63 && eyes.distracted && eyes.seen.face;
      var maybeDistracted := eyes.hiStds > M.HI_STD_FALLBACK_FRAMES || !eyes.faceDeb;
      if certainlyDistracted || maybeDistracted {
        if !(standstillExempt || redExempt || (lowSpeedExempt && reachingAudible)) {
          awareness := Max(awareness - stepChange, M.FLOOR);
        }
      }
    }

    method ClassifyPassive(alwaysOnSlow: bool, awarenessPrev: real) returns (alert: Option<M.Alert>)
      requires Coupled() && !activeMonitoringMode
      modifies this`terminalTime, this`terminalAlertCnt
      ensures Logical() == M.CountTerminal(old(Logical()), awareness <= 0.0, awarenessPrev)
      ensures alert == M.PassiveAlert(awareness, alwaysOnSlow)
    {
      alert := None;
      if awareness <= 0.0 {
        alert := Some(if activeMonitoringMode then M.DriverDistracted else M.DriverUnresponsive);
        terminalTime := terminalTime + 1;
        if awarenessPrev > 0.0 {
          terminalAlertCnt := terminalAlertCnt + 1;
        }
      } else if awareness <= thresholdPrompt {
        alert := Some(if activeMonitoringMode then M.PromptDriverDistracted else M.PromptDriverUnresponsive);
      } else if awareness <= thresholdPre && !alwaysOnSlow {
        alert := Some(if activeMonitoringMode then M.PreDriverDistracted else M.PreDriverUnresponsive);
      }
    }

    /** The passive-mode half; touching the wheel has already reset a counter above zero. */
    method UpdatePassive(f: M.Frame, alwaysOnValid: bool, awarenessPrev: real) returns (alert: Option<M.Alert>)
      requires Coupled() && !activeMonitoringMode && awarenessPrev == awareness
      requires f.driverEngaged ==> awareness <= 0.0
      modifies this`awareness, this`awarenessPassive, this`terminalTime, this`terminalAlertCnt
      ensures Coupled()
      ensures (Logical(), alert) == M.PassiveEvents(old(Logical()), f, alwaysOnValid && !f.opEngaged)
    {
      var driverAttentive := eyes.filter < 0.37;
      if driverAttentive && eyes.seen.face && eyes.seen.lowStd && awareness > 0.0 {
        awareness := Min(awareness + ((M.RECOVERY_FACTOR_MAX - M.RECOVERY_FACTOR_MIN) * (1.0 - awareness)
                                      + M.RECOVERY_FACTOR_MIN) * stepChange, 1.0);
        if awareness == 1.0 {
          awarenessPassive := Min(awarenessPassive + stepChange, 1.0);
        }
        if awareness > thresholdPrompt {
          return None;
        }
      }
      DecayPassive(f, alwaysOnValid);
      var alwaysOnSlow := alwaysOnValid && !f.opEngaged && f.speed < M.ALWAYS_ON_ALERT_MIN_SPEED;
      alert := ClassifyPassive(alwaysOnSlow, awarenessPrev);
    }

    method UpdateEvents(f: M.Frame) returns (events: M.Events)
      requires Coupled()
      modifies this`awareness, this`awarenessActive, this`awarenessPassive, this`awarenessPose, this`awarenessPhone,
               this`poseClearFrames, this`phoneClearFrames, this`terminalTime, this`terminalAlertCnt, this`tooDistracted
      ensures Coupled()
      ensures (Logical(), events) == M.UpdateEvents(old(Logical()), f, alwaysOn, regime)
    {
      events := M.Events(None, false);
      if terminalAlertCnt >= M.MAX_TERMINAL_ALERTS || terminalTime >= M.MAX_TERMINAL_FRAMES {
        tooDistracted := true;
      }
      assert Logical() == M.Lockout(old(Logical()));
      if tooDistracted || (alwaysOn && awareness <= thresholdPrompt) {
        events := events.(tooDistracted := true);
      }
      var alwaysOnValid := alwaysOn && !f.wrongGear;
      if (f.driverEngaged && awareness > 0.0 && !activeMonitoringMode)
         || (!alwaysOnValid && !f.opEngaged)
         || (alwaysOnValid && !f.opEngaged && awareness <= 0.0)
      {
        ResetAwareness();
        return;
      }
      var awarenessPrev := awareness;
      if activeMonitoringMode {
        if f.driverEngaged {
          ResetAwareness();
          return;
        }
        var alert := UpdateActive(f, alwaysOnValid, awarenessPrev);
        events := events.(alert := alert);
        return;
      }
      var alert := UpdatePassive(f, alwaysOnValid, awarenessPrev);
      events := events.(alert := alert);
    }

    /** One 20 Hz step of the daemon. */
    method RunStep(f: M.Frame, mode: int, map_: MapRead) returns (events: M.Events)
      requires Valid()
      modifies this
      ensures Valid() && alwaysOn == old(alwaysOn)
      ensures (Unit(), events) == D.Step(config, old(Unit()), D.Tick(f, alwaysOn, mode, map_))
    {
      RefreshDmMode(mode, map_);
      ghost var tick, refreshed := D.Tick(f, alwaysOn, mode, map_), Unit();
      UpdateStates(f.vision);
      ghost var seen := Logical();
      events := UpdateEvents(f);
      D.StepIs(config, old(Unit()), tick, refreshed, seen, Unit(), events);
    }
  }
}
