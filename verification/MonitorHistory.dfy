/**
 What a drive so far decides: the mode, from the faces seen; the lockout, from the red alerts raised;
 and the end of a distraction, from the frames it has been over.
 */
module MonitorHistory {
  import opened Wrappers
  import opened DmConfig
  import opened MonitorModel
  import opened MonitorTheorems
  import opened MonitorFrames
  import opened Extremes

  // ----- the mode -----

  /** What was seen in the complete frames. */
  function Seen(inputs: seq<Input>): seq<Vision>
    decreases |inputs|
  {
    if inputs == [] then []
    else
      var vision := Last(inputs).frame.vision;
      Seen(Front(inputs)) + if vision.Some? then [vision.value] else []
  }

  predicate Sure(v: Vision) {
    v.face && v.lowStd
  }

  function Faces(seen: seq<Vision>): nat
    decreases |seen|
  {
    if seen == [] then 0 else Faces(seen[..|seen| - 1]) + if seen[|seen| - 1].face then 1 else 0
  }

  /** A face was seen in one of the last 601 complete frames. */
  predicate FaceOfLate(seen: seq<Vision>) {
    exists k :: 0 <= k < |seen| && |seen| - 601 <= k && seen[k].face
  }

  /** `faceLost` counts the frames since the last face, from an expired grace before the first one. */
  ghost predicate LostSince(seen: seq<Vision>, lost: nat) {
    && (forall k :: 0 <= k < |seen| && |seen| - lost <= k ==> !seen[k].face)
    && (lost < |seen| ==> seen[|seen| - 1 - lost].face)
    && (lost >= |seen| ==> lost == 601 + |seen|)
  }

  /** From `j` on no sure face was seen, and `hiStds` counts the doubtful ones. */
  ghost predicate UnsureFrom(seen: seq<Vision>, j: nat, hiStds: nat) {
    && j <= |seen| && (j == 0 || Sure(seen[j - 1]))
    && (forall k :: j <= k < |seen| ==> !Sure(seen[k]))
    && hiStds == Faces(seen[j..])
  }

  lemma SeeOne(seen: seq<Vision>, lost: nat, j: nat, hiStds: nat, v: Vision) returns (j': nat)
    requires LostSince(seen, lost) && UnsureFrom(seen, j, hiStds)
    ensures LostSince(seen + [v], if v.face then 0 else lost + 1)
    ensures UnsureFrom(seen + [v], j', HiStdsAfter(hiStds, v))
  {
    var now := seen + [v];
    if Sure(v) {
      j' := |now|;
      assert now[j'..] == [];
    } else {
      j' := j;
      assert now[j..] == seen[j..] + [v];
      assert now[j..][..|now[j..]| - 1] == seen[j..];
    }
  }

  /** The eyes after a drive, whatever the rest of it did. */
  lemma {:induction false} EyesOf(tooDistracted: bool, inputs: seq<Input>) returns (j: nat)
    ensures var e := Drive(Fresh(tooDistracted), inputs).eyes;
      && LostSince(Seen(inputs), e.faceLost) && UnsureFrom(Seen(inputs), j, e.hiStds)
      && e.faceDeb == (e.faceLost <= 600)
    decreases |inputs|
  {
    if inputs == [] {
      j := 0;
    } else {
      j := EyesOf(tooDistracted, Front(inputs));
      var a, last := Drive(Fresh(tooDistracted), Front(inputs)), Last(inputs);
      EventsKeepMode(UpdateStates(a, last.frame.vision), last.frame, last.alwaysOn, last.regime);
      if last.frame.vision.Some? {
        j := SeeOne(Seen(Front(inputs)), a.eyes.faceLost, j, a.eyes.hiStds, last.frame.vision.value);
      } else {
        assert Seen(inputs) == Seen(Front(inputs));
      }
    }
  }

  lemma LateFace(seen: seq<Vision>, lost: nat)
    requires LostSince(seen, lost)
    ensures lost <= 600 <==> FaceOfLate(seen)
  {
    if lost <= 600 {
      assert seen[|seen| - 1 - lost].face;
    }
  }

  /**
   In a complete frame the mode follows the camera: active iff a face was seen in the last 601 complete
   frames and at most 600 doubtful ones came after the last sure one, this frame not counted. Only an
   orange or red alert in active mode, or a red one in passive mode, holds it.
   */
  lemma ModeIsHistory(tooDistracted: bool, inputs: seq<Input>) returns (j: nat)
    requires inputs != []
    ensures var before := Seen(Front(inputs));
      j <= |before| && (j == 0 || Sure(before[j - 1])) && forall k :: j <= k < |before| ==> !Sure(before[k])
    ensures var s := Fresh(tooDistracted); var a, u := Drive(s, Front(inputs)), Drive(s, inputs);
      var held := Last(inputs).frame.vision.None? || if a.activeMode then Min(a.pose, a.phone) <= 6.0 / 11.0 else a.passive <= 0.0;
      u.activeMode == if held then a.activeMode else FaceOfLate(Seen(inputs)) && Faces(Seen(Front(inputs))[j..]) <= 600
  {
    var s := Fresh(tooDistracted);
    var a, last := Drive(s, Front(inputs)), Last(inputs);
    j := EyesOf(tooDistracted, Front(inputs));
    var _ := EyesOf(tooDistracted, inputs);
    var t := UpdateStates(a, last.frame.vision);
    EventsKeepMode(t, last.frame, last.alwaysOn, last.regime);
    LateFace(Seen(inputs), t.eyes.faceLost);
  }

  // ----- the lockout -----

  predicate Red(alert: Option<Alert>) {
    alert == Some(DriverDistracted) || alert == Some(DriverUnresponsive)
  }

  /** The frames so far with a red alert. */
  function RedFrames(s: State, inputs: seq<Input>): nat
    decreases |inputs|
  {
    if inputs == [] then 0
    else RedFrames(s, Front(inputs)) + if Red(LastAlert(s, inputs)) then 1 else 0
  }

  /** Those that began one: the counter of the mode was still above zero. */
  function NewReds(s: State, inputs: seq<Input>): nat
    decreases |inputs|
  {
    if inputs == [] then 0
    else NewReds(s, Front(inputs))
           + if Red(LastAlert(s, inputs)) && Watched(Drive(s, Front(inputs)), Drive(s, inputs).activeMode) > 0.0 then 1 else 0
  }

  function LastFlag(s: State, inputs: seq<Input>): bool
    requires inputs != []
  {
    RunFrame(Drive(s, Front(inputs)), Last(inputs).frame, Last(inputs).alwaysOn, Last(inputs).regime).1.tooDistracted
  }

  lemma EventsCount(t: State, last: Input)
    ensures var (u, e) := UpdateEvents(t, last.frame, last.alwaysOn, last.regime);
      && u.terminalTime == t.terminalTime + (if Red(e.alert) then 1 else 0)
      && u.terminalCnt == t.terminalCnt + (if Red(e.alert) && Watched(t, t.activeMode) > 0.0 then 1 else 0)
      && u.tooDistracted == (t.tooDistracted || t.terminalCnt >= 10 || t.terminalTime >= 600)
      && e.tooDistracted == (u.tooDistracted || (last.alwaysOn && Watched(t, t.activeMode) <= if t.activeMode then 6.0 / 11.0 else 0.2))
  {
    assert 6.0 / 30.0 == 0.2;
  }

  /**
   Engaging is blocked for good exactly once ten red alerts have begun or red alerts have lasted 600
   frames; with always-on monitoring it is also blocked while the counter of the mode is at orange or below.
   */
  lemma {:induction false} LockoutIff(tooDistracted: bool, inputs: seq<Input>)
    ensures var s := Fresh(tooDistracted); var u := Drive(s, inputs);
      u.terminalTime == RedFrames(s, inputs) && u.terminalCnt == NewReds(s, inputs)
    ensures var s := Fresh(tooDistracted);
      Drive(s, inputs).tooDistracted <==>
        tooDistracted || (inputs != [] && (NewReds(s, Front(inputs)) >= 10 || RedFrames(s, Front(inputs)) >= 600))
    ensures var s := Fresh(tooDistracted);
      inputs != [] ==>
        (LastFlag(s, inputs) <==>
           || Drive(s, inputs).tooDistracted
           || (Last(inputs).alwaysOn
               && var active := Drive(s, inputs).activeMode;
                  Watched(Drive(s, Front(inputs)), active) <= if active then 6.0 / 11.0 else 0.2))
    decreases |inputs|
  {
    if inputs != [] {
      var s := Fresh(tooDistracted);
      LockoutIff(tooDistracted, Front(inputs));
      var a, last := Drive(s, Front(inputs)), Last(inputs);
      var t := UpdateStates(a, last.frame.vision);
      StatesKeepCounters(a, last.frame.vision);
      EventsKeepMode(t, last.frame, last.alwaysOn, last.regime);
      EventsCount(t, last);
    }
  }

  // ----- recovery -----

  /** Face visible and certain, eyes on the road, engaged, hands off. */
  predicate Watching(i: Input) {
    && i.frame.vision.Some?
    && (var v := i.frame.vision.value; v.face && v.lowStd && !v.pose && !v.blink && !v.phone)
    && i.frame.opEngaged && !i.frame.driverEngaged
  }

  lemma WatchingFrame(s: State, i: Input)
    requires Watching(i) && s.eyes.hiStds <= 600 && (s.activeMode || s.passive > 0.0)
    ensures var u := RunFrame(s, i.frame, i.alwaysOn, i.regime).0;
      && u.activeMode && u.eyes.hiStds == 0
      && u.poseClear == s.poseClear + 1 && u.phoneClear == s.phoneClear + 1
      && u.pose == (if s.poseClear >= 39 then 1.0 else s.pose)
      && u.phone == (if s.phoneClear >= 39 then 1.0 else s.phone)
  {
    var t := UpdateStates(s, i.frame.vision);
    assert t.activeMode && t.eyes.seen == i.frame.vision.value && t.eyes.hiStds == 0;
    assert !Resets(Lockout(t), i.frame, i.alwaysOn);
  }

  /** After a distraction the counters stand still for 39 attentive frames and are full from the 40th on. */
  lemma {:induction false} FullAfterTwoSeconds(s: State, inputs: seq<Input>)
    requires s.eyes.hiStds <= 600 && (s.activeMode || s.passive > 0.0) && s.poseClear == 0 && s.phoneClear == 0
    requires forall i :: i in inputs ==> Watching(i)
    ensures var u := Drive(s, inputs);
      && u.poseClear == |inputs| && u.phoneClear == |inputs| && u.eyes.hiStds <= 600 && (u.activeMode || u.passive > 0.0)
      && u.pose == (if |inputs| >= 40 then 1.0 else s.pose) && u.phone == (if |inputs| >= 40 then 1.0 else s.phone)
    decreases |inputs|
  {
    if inputs != [] {
      assert forall i :: i in Front(inputs) ==> i in inputs;
      FullAfterTwoSeconds(s, Front(inputs));
      WatchingFrame(Drive(s, Front(inputs)), Last(inputs));
    }
  }

  // ----- the distraction filter -----

  /** From `x`, after `k` frames that each cover a sixth of the way to `goal`. */
  function Closing(x: real, goal: real, k: nat): real {
    if k == 0 then x else (5.0 * Closing(x, goal, k - 1) + goal) / 6.0
  }

  /** In a complete frame the driver counts as distracted, or not, as the camera says. */
  predicate Shows(i: Input, distracted: bool) {
    && i.frame.vision.Some?
    && var v := i.frame.vision.value; (v.face && v.lowStd && (v.pose || v.blink || v.phone)) == distracted
  }

  lemma OneVerdict(a: State, last: Input, distracted: bool)
    requires Shows(last, distracted)
    ensures 6.0 * RunFrame(a, last.frame, last.alwaysOn, last.regime).0.eyes.filter
         == 5.0 * a.eyes.filter + if distracted then 1.0 else 0.0
  {
    EventsKeepMode(UpdateStates(a, last.frame.vision), last.frame, last.alwaysOn, last.regime);
  }

  /** While the verdict stays the same the filter covers a sixth of its way each frame. */
  lemma {:induction false} FilterCloses(s: State, inputs: seq<Input>, distracted: bool)
    requires forall i :: i in inputs ==> Shows(i, distracted)
    ensures Drive(s, inputs).eyes.filter == Closing(s.eyes.filter, if distracted then 1.0 else 0.0, |inputs|)
    decreases |inputs|
  {
    if inputs != [] {
      assert forall i :: i in Front(inputs) ==> i in inputs;
      FilterCloses(s, Front(inputs), distracted);
      OneVerdict(Drive(s, Front(inputs)), Last(inputs), distracted);
    }
  }

  lemma {:induction false} FilterInRange(tooDistracted: bool, inputs: seq<Input>)
    ensures 0.0 <= Drive(Fresh(tooDistracted), inputs).eyes.filter <= 1.0
    decreases |inputs|
  {
    if inputs != [] {
      FilterInRange(tooDistracted, Front(inputs));
      var a, last := Drive(Fresh(tooDistracted), Front(inputs)), Last(inputs);
      EventsKeepMode(UpdateStates(a, last.frame.vision), last.frame, last.alwaysOn, last.regime);
    }
  }

  lemma SixSteps(x: real, goal: real)
    ensures 46656.0 * Closing(x, goal, 6) == 15625.0 * x + 31031.0 * goal
  {
    assert 6.0 * Closing(x, goal, 1) == 5.0 * x + goal;
    assert 36.0 * Closing(x, goal, 2) == 25.0 * x + 11.0 * goal;
    assert 216.0 * Closing(x, goal, 3) == 125.0 * x + 91.0 * goal;
    assert 1296.0 * Closing(x, goal, 4) == 625.0 * x + 671.0 * goal;
    assert 7776.0 * Closing(x, goal, 5) == 3125.0 * x + 4651.0 * goal;
  }

  /** Six frames of the same verdict decide: the filter is then past its mark, 0.63 or 0.37, whatever went before. */
  lemma SixFramesDecide(tooDistracted: bool, before: seq<Input>, six: seq<Input>, distracted: bool)
    requires |six| == 6 && forall i :: i in six ==> Shows(i, distracted)
    ensures var x := Drive(Drive(Fresh(tooDistracted), before), six).eyes.filter;
      if distracted then x > 0.63 else x < 0.37
  {
    FilterInRange(tooDistracted, before);
    FilterCloses(Drive(Fresh(tooDistracted), before), six, distracted);
    SixSteps(Drive(Fresh(tooDistracted), before).eyes.filter, if distracted then 1.0 else 0.0);
  }
}
