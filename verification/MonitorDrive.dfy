/**
 Whole drives of the monitor with its selector and its road: which timeouts are in force in a frame,
 from the configuration and the readings taken so far, and when each alert then comes.
 */
module MonitorDrive {
  import opened Wrappers
  import opened DmConfig
  import opened RoadVerdict
  import M = MonitorModel
  import opened MonitorTheorems
  import opened Extremes

  /** One frame: its events and settings, and what the selector and the map say should they be read. */
  datatype Tick = Tick(frame: M.Frame, alwaysOn: bool, mode: int, map_: MapRead)

  /** The monitor between two frames. */
  datatype Unit = Unit(state: M.State, mode: int, cnt: nat, road: Road)

  /** A JSON highway tier makes the road matter in every mode. */
  predicate HighwayTier(c: Config) {
    c.tier.Some? && c.tier.value.0 == Highway
  }

  function Start(tooDistracted: bool, mode: int): Unit {
    Unit(M.Fresh(tooDistracted), mode, REFRESH_FRAMES, INITIAL)
  }

  /** The road after a reading. */
  function RoadBy(c: Config, road: Road, mode: int, map_: MapRead): Road {
    NextRoad(REFRESH_FRAMES - 1, road, RoadVerdict.Frame(mode, map_), HighwayTier(c)).1
  }

  function Refreshed(c: Config, a: Unit, mode: int, map_: MapRead): Unit {
    var (cnt, road) := NextRoad(a.cnt, a.road, RoadVerdict.Frame(mode, map_), HighwayTier(c));
    a.(mode := if a.cnt + 1 < REFRESH_FRAMES then a.mode else mode, cnt := cnt, road := road)
  }

  lemma RefreshSkipped(c: Config, a: Unit, mode: int, map_: MapRead, b: Unit)
    requires a.cnt + 1 < REFRESH_FRAMES && b == a.(cnt := a.cnt + 1)
    ensures b == Refreshed(c, a, mode, map_)
  {
  }

  lemma RefreshTaken(c: Config, a: Unit, mode: int, map_: MapRead, b: Unit)
    requires a.cnt + 1 >= REFRESH_FRAMES && b == a.(mode := mode, cnt := 0, road := b.road)
    requires b.road == RoadBy(c, a.road, mode, map_)
    ensures b == Refreshed(c, a, mode, map_)
  {
  }

  /** The regime in force. */
  function RegimeIn(c: Config, a: Unit): Regime {
    RegimeOf(c, a.mode, a.road.relaxed)
  }

  /** One 20 Hz step: the selector and the road are refreshed, then the frame runs under the timeouts in force. */
  function Step(c: Config, a: Unit, t: Tick): (Unit, M.Events) {
    var b := Refreshed(c, a, t.mode, t.map_);
    var (state, events) := M.RunFrame(b.state, t.frame, t.alwaysOn, RegimeIn(c, b));
    (b.(state := state), events)
  }

  lemma StepIs(c: Config, a: Unit, t: Tick, b: Unit, mid: M.State, u: Unit, events: M.Events)
    requires b == Refreshed(c, a, t.mode, t.map_) && u == b.(state := u.state)
    requires mid == M.UpdateStates(b.state, t.frame.vision)
    requires (u.state, events) == M.UpdateEvents(mid, t.frame, t.alwaysOn, RegimeIn(c, b))
    ensures (u, events) == Step(c, a, t)
  {
  }

  function Run(c: Config, a: Unit, ticks: seq<Tick>): Unit
    decreases |ticks|
  {
    if ticks == [] then a else Step(c, Run(c, a, ticks[..|ticks| - 1]), ticks[|ticks| - 1]).0
  }

  /** What the selector and the map said in each frame. */
  function Reports(ticks: seq<Tick>): (r: seq<RoadVerdict.Frame>)
    ensures |r| == |ticks| && forall i :: 0 <= i < |ticks| ==> r[i] == RoadVerdict.Frame(ticks[i].mode, ticks[i].map_)
  {
    seq(|ticks|, i requires 0 <= i < |ticks| => RoadVerdict.Frame(ticks[i].mode, ticks[i].map_))
  }

  /** Frame `k` with the regime it ran under. */
  function InputAt(c: Config, a: Unit, ticks: seq<Tick>, k: nat): Input
    requires k < |ticks|
  {
    Input(ticks[k].frame, RegimeIn(c, Run(c, a, ticks[..k + 1])), ticks[k].alwaysOn)
  }

  /** The frames of a run with the regime each of them ran under. */
  function Inputs(c: Config, a: Unit, ticks: seq<Tick>): (r: seq<Input>)
    ensures |r| == |ticks| && forall k :: 0 <= k < |ticks| ==> r[k] == InputAt(c, a, ticks, k)
  {
    seq(|ticks|, k requires 0 <= k < |ticks| => InputAt(c, a, ticks, k))
  }

  lemma InputsFront(c: Config, a: Unit, ticks: seq<Tick>, n: nat)
    requires n <= |ticks|
    ensures Inputs(c, a, ticks)[..n] == Inputs(c, a, ticks[..n])
  {
    forall k | 0 <= k < n ensures Inputs(c, a, ticks)[k] == Inputs(c, a, ticks[..n])[k] {
      assert ticks[..n][..k + 1] == ticks[..k + 1];
      assert ticks[..n][k] == ticks[k];
    }
  }

  /** A run is a drive under the regimes in force. */
  lemma {:induction false} RunIsDrive(c: Config, a: Unit, ticks: seq<Tick>)
    ensures Run(c, a, ticks).state == Drive(a.state, Inputs(c, a, ticks))
    decreases |ticks|
  {
    if ticks != [] {
      var n := |ticks| - 1;
      RunIsDrive(c, a, ticks[..n]);
      InputsFront(c, a, ticks, n);
      RunStep(c, a, ticks, Inputs(c, a, ticks)[n]);
    }
  }

  lemma RunStep(c: Config, a: Unit, ticks: seq<Tick>, last: Input)
    requires ticks != [] && last == InputAt(c, a, ticks, |ticks| - 1)
    ensures var front := Run(c, a, ticks[..|ticks| - 1]);
      (Run(c, a, ticks).state, RunAlert(c, a, ticks))
        == var (s, e) := M.RunFrame(front.state, last.frame, last.alwaysOn, last.regime); (s, e.alert)
  {
    assert ticks[..|ticks| - 1 + 1] == ticks;
  }

  /** The last alert of a run. */
  function RunAlert(c: Config, a: Unit, ticks: seq<Tick>): Option<M.Alert>
    requires ticks != []
  {
    Step(c, Run(c, a, ticks[..|ticks| - 1]), ticks[|ticks| - 1]).1.alert
  }

  lemma AlertIsDrive(c: Config, a: Unit, ticks: seq<Tick>)
    requires ticks != []
    ensures RunAlert(c, a, ticks) == LastAlert(a.state, Inputs(c, a, ticks))
  {
    var n := |ticks| - 1;
    RunIsDrive(c, a, ticks[..n]);
    InputsFront(c, a, ticks, n);
    RunStep(c, a, ticks, Inputs(c, a, ticks)[n]);
  }

  // ----- the timeouts in force -----

  lemma {:induction false} CountIsShared(frames: seq<RoadVerdict.Frame>, highway: bool)
    ensures DriveRoad(frames, highway).0 == DriveRoad(frames, false).0
  {
    RefreshCount(frames, highway);
    RefreshCount(frames, false);
  }

  lemma {:induction false} RunReads(c: Config, tooDistracted: bool, mode: int, ticks: seq<Tick>)
    ensures var a, frames := Run(c, Start(tooDistracted, mode), ticks), Reports(ticks);
      (a.cnt, a.road) == DriveRoad(frames, HighwayTier(c)) && a.mode == DriveMode(frames, mode)
    decreases |ticks|
  {
    if ticks != [] {
      var front := ticks[..|ticks| - 1];
      RunReads(c, tooDistracted, mode, front);
      CountIsShared(Reports(front), HighwayTier(c));
      assert Reports(ticks)[..|ticks| - 1] == Reports(front);
    }
  }

  /**
   Of the readings that the mode, or a JSON highway tier, had taken by now the last definite one
   qualified, and fewer than 90 unknown ones came after it.
   */
  predicate OnHighway(c: Config, ticks: seq<Tick>) {
    var taken := Taken(Reports(ticks), c.tier.Some? && c.tier.value.0 == Highway);
    LastDefinite(taken) == Qualifying && UnknownTail(taken) < 90
  }

  /** The selector in force: as it was in the last 20th frame, counted from the first. */
  function Selected(ticks: seq<Tick>): int
    requires ticks != []
  {
    var n := |ticks| - 1;
    ticks[n - n % 20].mode
  }

  /**
   The tier in force in a frame, None for the stock timing. A JSON relaxed tier applies everywhere and a
   JSON highway tier on a highway; without a tier selector 2 means the relaxed timeouts everywhere, and
   selector 1 the highway ones on a highway.
   */
  function InForce(c: Config, ticks: seq<Tick>): Option<Timeouts>
    requires ticks != []
  {
    match c.tier
    case Some((Relaxed, t)) => Some(t)
    case Some((Highway, t)) => if OnHighway(c, ticks) then Some(t) else None
    case None =>
      if Selected(ticks) == 2 then Some(c.relaxed)
      else if Selected(ticks) == 1 && OnHighway(c, ticks) then Some(c.highway)
      else None
  }

  lemma TierIsInForce(c: Config, tooDistracted: bool, mode: int, ticks: seq<Tick>)
    requires ticks != []
    ensures var a := Run(c, Start(tooDistracted, mode), ticks); TierInForce(c, a.mode, a.road.relaxed) == InForce(c, ticks)
  {
    var a := Run(c, Start(tooDistracted, mode), ticks);
    RunReads(c, tooDistracted, mode, ticks);
    assert a.mode == Selected(ticks) by { ModeAtRefresh(Reports(ticks), mode); }
    assert a.road.relaxed == OnHighway(c, ticks) by { RoadHeldIff(Reports(ticks), HighwayTier(c)); }
    TierOf(c, ticks, a.mode, a.road.relaxed);
  }

  lemma TierOf(c: Config, ticks: seq<Tick>, mode: int, road: bool)
    requires ticks != [] && mode == Selected(ticks) && road == OnHighway(c, ticks)
    ensures TierInForce(c, mode, road) == InForce(c, ticks)
  {
  }

  lemma StockRegime(c: Config, mode: int, road: bool)
    requires TierInForce(c, mode, road) == None
    ensures Stock(RegimeOf(c, mode, road))
  {
  }

  lemma TieredRegime(c: Config, mode: int, road: bool)
    requires TierInForce(c, mode, road).Some?
    ensures Tiered(RegimeOf(c, mode, road), TierInForce(c, mode, road).value)
  {
  }

  /**
   The timing a frame runs under, over any frames and any configuration: that of the tier in force by the
   readings taken so far, with its lead times, and else the stock one.
   */
  lemma TimeoutsInForce(c: Config, tooDistracted: bool, mode: int, ticks: seq<Tick>)
    requires ticks != []
    ensures var r := RegimeIn(c, Run(c, Start(tooDistracted, mode), ticks));
      match InForce(c, ticks) case Some(t) => Tiered(r, t) case None => Stock(r)
  {
    var a := Run(c, Start(tooDistracted, mode), ticks);
    TierIsInForce(c, tooDistracted, mode, ticks);
    if InForce(c, ticks).None? {
      StockRegime(c, a.mode, a.road.relaxed);
    } else {
      TieredRegime(c, a.mode, a.road.relaxed);
    }
  }

  // ----- when the alerts come -----

  /** Scaling by a positive factor keeps order, both ways. */
  lemma Scaled(x: real, y: real, t: real)
    requires t > 0.0
    ensures x <= y <==> x * t <= y * t
  {
    if x <= y {
      assert (y - x) * t >= 0.0;
    } else {
      assert (x - y) * t > 0.0;
    }
  }

  /** A counter that runs out in `t` seconds is at the mark `lead` seconds before from frame ceil(20 (t - lead)) on. */
  lemma MarkAt(k: nat, t: real, lead: real, step: real, mark: real)
    requires t > 0.0 && step * t == 0.05 && mark * t == lead && 0.0 <= lead
    ensures Fallen(k, step) <= mark <==> k >= Ceil(20.0 * (t - lead))
  {
    var kr := k as real;
    Scaled(0.0, mark, t);
    Scaled(1.0 - kr * step, mark, t);
    assert (1.0 - kr * step) * t == t - kr * (step * t);
    assert kr * (step * t) == kr * 0.05;
    assert t - kr * 0.05 <= lead <==> 20.0 * (t - lead) <= kr;
  }

  /** The frames until a counter with these lead times reaches red, orange and green. */
  predicate Marks(k: nat, step: real, preAt: real, promptAt: real, t: real, pre: real, prompt: real) {
    && (Fallen(k, step) <= 0.0 <==> k >= Ceil(20.0 * t))
    && (Fallen(k, step) <= promptAt <==> k >= Ceil(20.0 * (t - prompt)))
    && (Fallen(k, step) <= preAt <==> k >= Ceil(20.0 * (t - pre)))
  }

  lemma MarksAt(k: nat, step: real, preAt: real, promptAt: real, t: real, pre: real, prompt: real)
    requires t > 0.0 && Leads(step, preAt, promptAt, t, pre, prompt) && 0.0 <= pre && 0.0 <= prompt
    ensures Marks(k, step, preAt, promptAt, t, pre, prompt)
  {
    MarkAt(k, t, 0.0, step, 0.0);
    MarkAt(k, t, prompt, step, promptAt);
    MarkAt(k, t, pre, step, preAt);
  }

  /**
   A driver distracted without pause from full counters on: red, orange and green begin exactly when the
   time of what distracts them, less the lead time, is used up. `t` and `q` are the timeouts in force.
   */
  predicate AlertsAt(k: nat, alert: Option<M.Alert>, dp: bool, dq: bool,
                     t: real, pre: real, prompt: real, q: real, preQ: real, promptQ: real) {
    && (alert == Some(M.DriverDistracted) <==> (dp && k >= Ceil(20.0 * t)) || (dq && k >= Ceil(20.0 * q)))
    && (alert in {Some(M.PromptDriverDistracted), Some(M.DriverDistracted)} <==>
          (dp && k >= Ceil(20.0 * (t - prompt))) || (dq && k >= Ceil(20.0 * (q - promptQ))))
    && (alert == None <==> (dp ==> k < Ceil(20.0 * (t - pre))) && (dq ==> k < Ceil(20.0 * (q - preQ))))
  }

  lemma StaringAlerts(s: M.State, inputs: seq<Input>, dp: bool, dq: bool, r: Regime,
                      t: real, pre: real, prompt: real, q: real, preQ: real, promptQ: real)
    requires Ready(s) && RegimeOk(r) && inputs != [] && forall i :: i in inputs ==> Staring(i, dp, dq, r)
    requires t > 0.0 && Leads(r.poseStep, r.posePre, r.posePrompt, t, pre, prompt) && 0.0 <= pre && 0.0 <= prompt
    requires q > 0.0 && Leads(r.phoneStep, r.phonePre, r.phonePrompt, q, preQ, promptQ) && 0.0 <= preQ && 0.0 <= promptQ
    ensures AlertsAt(|inputs|, LastAlert(s, inputs), dp, dq, t, pre, prompt, q, preQ, promptQ)
  {
    StaringThrough(s, inputs, dp, dq, r);
    MarksAt(|inputs|, r.poseStep, r.posePre, r.posePrompt, t, pre, prompt);
    MarksAt(|inputs|, r.phoneStep, r.phonePre, r.phonePrompt, q, preQ, promptQ);
    AlertFromMarks(Drive(s, inputs), |inputs|, dp, dq, r, t, pre, prompt, q, preQ, promptQ);
  }

  lemma AlertFromMarks(u: M.State, k: nat, dp: bool, dq: bool, r: Regime,
                       t: real, pre: real, prompt: real, q: real, preQ: real, promptQ: real)
    requires RegimeOk(r) && Stared(u, k, dp, dq, r)
    requires Marks(k, r.poseStep, r.posePre, r.posePrompt, t, pre, prompt)
    requires Marks(k, r.phoneStep, r.phonePre, r.phonePrompt, q, preQ, promptQ)
    ensures AlertsAt(k, M.ActiveAlert(M.ActiveLevel(u, r)), dp, dq, t, pre, prompt, q, preQ, promptQ)
  {
  }

  /** With the stock timing: green after 3 s, orange after 5 s, red after 11 s. */
  lemma StockAlerts(s: M.State, inputs: seq<Input>, dp: bool, dq: bool, r: Regime)
    requires Ready(s) && RegimeOk(r) && Stock(r) && inputs != [] && forall i :: i in inputs ==> Staring(i, dp, dq, r)
    requires dp || dq
    ensures var k, alert := |inputs|, LastAlert(s, inputs);
      alert == if k < 60 then None
               else if k < 100 then Some(M.PreDriverDistracted)
               else if k < 220 then Some(M.PromptDriverDistracted)
               else Some(M.DriverDistracted)
  {
    StaringAlerts(s, inputs, dp, dq, r, 11.0, 8.0, 6.0, 11.0, 8.0, 6.0);
    StaringThrough(s, inputs, dp, dq, r);
    assert Ceil(20.0 * 3.0) == 60 && Ceil(20.0 * 5.0) == 100 && Ceil(20.0 * 11.0) == 220;
  }

  /** With a tier's: green and orange 60 and 30 s before red for pose, 120 and 60 s for phone, or as a half and a quarter of the timeout allow. */
  lemma TieredAlerts(s: M.State, inputs: seq<Input>, dp: bool, dq: bool, r: Regime, t: Timeouts)
    requires Ready(s) && RegimeOk(r) && Tiered(r, t) && inputs != [] && forall i :: i in inputs ==> Staring(i, dp, dq, r)
    ensures AlertsAt(|inputs|, LastAlert(s, inputs), dp, dq,
                     t.pose, Min(60.0, t.pose / 2.0), Min(30.0, t.pose / 4.0),
                     t.phone, Min(120.0, t.phone / 2.0), Min(60.0, t.phone / 4.0))
  {
    StaringAlerts(s, inputs, dp, dq, r, t.pose, Min(60.0, t.pose / 2.0), Min(30.0, t.pose / 4.0),
                  t.phone, Min(120.0, t.phone / 2.0), Min(60.0, t.phone / 4.0));
  }

  lemma {:induction false} RunSplits(c: Config, a: Unit, before: seq<Tick>, ticks: seq<Tick>)
    ensures Run(c, a, before + ticks) == Run(c, Run(c, a, before), ticks)
    ensures ticks != [] ==> RunAlert(c, a, before + ticks) == RunAlert(c, Run(c, a, before), ticks)
    decreases |ticks|
  {
    if ticks == [] {
      assert before + ticks == before;
    } else {
      var n := |ticks| - 1;
      RunSplits(c, a, before, ticks[..n]);
      assert (before + ticks)[..|before + ticks| - 1] == before + ticks[..n];
    }
  }

  /** Under the same tier frames have the same regime. */
  lemma RegimeOfTier(c: Config, a: Unit, b: Unit)
    requires TierInForce(c, a.mode, a.road.relaxed) == TierInForce(c, b.mode, b.road.relaxed)
    ensures RegimeIn(c, a) == RegimeIn(c, b)
  {
  }

  /** One frame of a stretch with the same tier in force. */
  lemma SameRegime(c: Config, tooDistracted: bool, mode: int, before: seq<Tick>, ticks: seq<Tick>, k: nat)
    requires k < |ticks| && InForce(c, before + ticks[..k + 1]) == InForce(c, before + ticks)
    ensures var a := Start(tooDistracted, mode);
      InputAt(c, Run(c, a, before), ticks, k)
        == Input(ticks[k].frame, RegimeIn(c, Run(c, a, before + ticks)), ticks[k].alwaysOn)
  {
    var a := Start(tooDistracted, mode);
    RunSplits(c, a, before, ticks[..k + 1]);
    TierIsInForce(c, tooDistracted, mode, before + ticks[..k + 1]);
    TierIsInForce(c, tooDistracted, mode, before + ticks);
    RegimeOfTier(c, Run(c, a, before + ticks[..k + 1]), Run(c, a, before + ticks));
  }

  /** A face for certain, distracted by pose or blink iff `dp`, by phone iff `dq`; engaged, moving, hands off. */
  predicate Distracts(f: M.Frame, dp: bool, dq: bool) {
    && f.vision.Some? && f.vision.value.face && f.vision.value.lowStd
    && (f.vision.value.pose || f.vision.value.blink) == dp && f.vision.value.phone == dq
    && f.opEngaged && !f.standstill && !f.driverEngaged
  }

  /** Frame `k` of a stretch finds the tier `t` in force, and a driver distracted by the same things. */
  predicate StretchAt(c: Config, before: seq<Tick>, ticks: seq<Tick>, k: nat, dp: bool, dq: bool, t: Option<Timeouts>)
    requires k < |ticks|
  {
    InForce(c, before + ticks[..k + 1]) == t && Distracts(ticks[k].frame, dp, dq)
  }

  predicate Stretch(c: Config, before: seq<Tick>, ticks: seq<Tick>, dp: bool, dq: bool, t: Option<Timeouts>) {
    forall k :: 0 <= k < |ticks| ==> StretchAt(c, before, ticks, k, dp, dq, t)
  }

  lemma AllStaring(c: Config, tooDistracted: bool, mode: int, before: seq<Tick>, ticks: seq<Tick>,
                   dp: bool, dq: bool, t: Option<Timeouts>)
    requires ticks != [] && Stretch(c, before, ticks, dp, dq, t)
    ensures InForce(c, before + ticks) == t
    ensures var a := Start(tooDistracted, mode);
      forall i :: i in Inputs(c, Run(c, a, before), ticks) ==> Staring(i, dp, dq, RegimeIn(c, Run(c, a, before + ticks)))
  {
    var a := Start(tooDistracted, mode);
    var b, r := Run(c, a, before), RegimeIn(c, Run(c, a, before + ticks));
    assert InForce(c, before + ticks) == t by {
      assert StretchAt(c, before, ticks, |ticks| - 1, dp, dq, t);
      assert ticks[..|ticks| - 1 + 1] == ticks;
    }
    forall k | 0 <= k < |ticks| ensures Staring(InputAt(c, b, ticks, k), dp, dq, r) {
      assert StretchAt(c, before, ticks, k, dp, dq, t);
      SameRegime(c, tooDistracted, mode, before, ticks, k);
    }
  }

  /** The alerts that the timing of `t` asks for after `k` frames. */
  predicate AlertsUnder(k: nat, alert: Option<M.Alert>, dp: bool, dq: bool, t: Option<Timeouts>) {
    match t
    case None => AlertsAt(k, alert, dp, dq, 11.0, 8.0, 6.0, 11.0, 8.0, 6.0)
    case Some(t) => AlertsAt(k, alert, dp, dq,
                             t.pose, Min(60.0, t.pose / 2.0), Min(30.0, t.pose / 4.0),
                             t.phone, Min(120.0, t.phone / 2.0), Min(60.0, t.phone / 4.0))
  }

  lemma TimedAlerts(s: M.State, inputs: seq<Input>, dp: bool, dq: bool, r: Regime, t: Option<Timeouts>)
    requires Ready(s) && RegimeOk(r) && inputs != [] && forall i :: i in inputs ==> Staring(i, dp, dq, r)
    requires match t case Some(t) => Tiered(r, t) case None => Stock(r)
    ensures AlertsUnder(|inputs|, LastAlert(s, inputs), dp, dq, t)
  {
    if t.None? {
      StaringAlerts(s, inputs, dp, dq, r, 11.0, 8.0, 6.0, 11.0, 8.0, 6.0);
    } else {
      TieredAlerts(s, inputs, dp, dq, r, t.value);
    }
  }

  /**
   Over a whole run, from any configuration file: a driver distracted without pause from full counters on
   meets green, orange and red exactly when the timing in force by file, selector and road says so.
   */
  lemma RunAlerts(file: Option<Json>, tooDistracted: bool, mode: int, before: seq<Tick>, ticks: seq<Tick>,
                  dp: bool, dq: bool, t: Option<Timeouts>)
    requires ticks != [] && Ready(Run(LoadDmTimeouts(file), Start(tooDistracted, mode), before).state)
    requires Stretch(LoadDmTimeouts(file), before, ticks, dp, dq, t)
    ensures AlertsUnder(|ticks|, RunAlert(LoadDmTimeouts(file), Start(tooDistracted, mode), before + ticks), dp, dq, t)
  {
    var c, a := LoadDmTimeouts(file), Start(tooDistracted, mode);
    var b, u := Run(c, a, before), Run(c, a, before + ticks);
    AllStaring(c, tooDistracted, mode, before, ticks, dp, dq, t);
    TimeoutsInForce(c, tooDistracted, mode, before + ticks);
    RegimeInRange(file, u.mode, u.road.relaxed);
    RunSplits(c, a, before, ticks);
    AlertIsDrive(c, b, ticks);
    TimedAlerts(b.state, Inputs(c, b, ticks), dp, dq, RegimeIn(c, u), t);
  }
}
