/**
 The steering flight recorder: running maxima taken on every 100 Hz tick, folded into a sample on every
 20th, a ring of samples, and an automaton that arms on a trigger, holds, emits one event per episode
 and then waits for a clean sample.
 */
module FlightRecorder {
  import opened Wrappers
  import opened Extremes
  import opened Rounding

  const PRE_N: nat := 12
  const POST_MAX: nat := 15
  const POST_HOLD := 0.75
  const MAX_EVENT := 5.0
  const TRIGGER_DEG := 8.0
  const SATURATION_DEG := 2.5
  const OVERRIDE_RECENT := 1.0
  const FOLD_EVERY: nat := 20

  function Abs(x: real): real {
    if x < 0.0 then -x else x
  }

  // ----- inputs, samples and events -----

  /** What every 100 Hz tick reads: |desired - actual| angle, if there is a desired angle, and saturation. */
  datatype Reading = Reading(angErr: Option<real>, saturated: bool)

  /**
   What every 20th tick reads besides: the clock, the signed angle error, the saturation flags, the lateral
   accelerations wanted and delivered, the driver's hand, and whether an event could be published then.
   */
  datatype Status = Status(
    now: real, angle: real, sat: bool, curvLim: bool, latActive: bool, wanted: real, delivered: real,
    pressed: bool, publishes: bool)

  datatype Sample = Sample(now: real, angErr: real, angErrPk: real, satAny: bool)

  datatype Event = Event(
    number: nat, onset: real, duration: real, capped: bool, driverOverride: bool, peakAngErr: real, trace: seq<Sample>)

  datatype Mode = Idle | Armed | Cooldown

  datatype State = State(
    frame: nat, acc: real, satAcc: bool, lastPressed: real, ring: seq<Sample>,
    mode: Mode, startT: real, lastTrigT: real, pre: seq<Sample>, post: seq<Sample>,
    peak: real, hadOverride: bool, eventId: nat, emitted: seq<Event>)

  const INITIAL := State(0, 0.0, false, -1000000000.0, [], Idle, 0.0, 0.0, [], [], 0.0, false, 0, [])

  function Exceeds(r: Reading): bool {
    r.saturated || (r.angErr.Some? && r.angErr.value > SATURATION_DEG)
  }

  /** The angle error as it is published. */
  function AngErr(st: Status): real {
    Round3(st.angle)
  }

  predicate AngSat(st: Status) {
    Abs(st.angle) > SATURATION_DEG
  }

  /** The car turns much less than it is asked to. */
  predicate Undershoots(st: Status) {
    Abs(st.wanted) / (0.001 + Abs(st.delivered)) > 1.2 && Abs(st.wanted) > 1.0
  }

  predicate Core(st: Status) {
    st.sat || AngSat(st) || (st.latActive && (Abs(AngErr(st)) > TRIGGER_DEG || Undershoots(st)))
  }

  function Recent(st: Status, lastPressed: real): bool {
    st.now - (if st.pressed then st.now else lastPressed) < OVERRIDE_RECENT
  }

  function Push(ring: seq<Sample>, sample: Sample): seq<Sample> {
    var longer := ring + [sample];
    if |longer| > PRE_N then longer[1..] else longer
  }

  // ----- the recorder, on values -----

  /** The 100 Hz accumulators. */
  function Accumulate(s: State, r: Reading): State {
    s.(acc := if r.angErr.Some? then Max(s.acc, r.angErr.value) else s.acc, satAcc := s.satAcc || Exceeds(r))
  }

  function EventNow(s: State, now: real): Event {
    Event(s.eventId + 1, s.startT, Round2(now - s.startT), now - s.startT >= MAX_EVENT, s.hadOverride,
          Round2(s.peak), s.pre + s.post)
  }

  function Arm(s: State, sample: Sample, override: bool): State {
    s.(mode := Armed, startT := sample.now, lastTrigT := sample.now, pre := s.ring, post := [],
       peak := sample.angErrPk, hadOverride := override)
  }

  function Follow(s: State, sample: Sample, trig: bool, pressed: bool): State {
    s.(lastTrigT := if trig then sample.now else s.lastTrigT,
       hadOverride := s.hadOverride || pressed,
       post := if |s.post| < POST_MAX then s.post + [sample] else s.post,
       peak := Max(s.peak, sample.angErrPk))
  }

  predicate IsOver(s: State, now: real, trig: bool) {
    (!trig && now - s.lastTrigT >= POST_HOLD) || now - s.startT >= MAX_EVENT
  }

  function Emit(s: State, now: real): State {
    s.(emitted := s.emitted + [EventNow(s, now)], eventId := s.eventId + 1, mode := Cooldown)
  }

  function Conclude(s: State, now: real, trig: bool, publishes: bool): State {
    if IsOver(s, now, trig) && publishes then Emit(s, now) else s
  }

  /** The automaton, on a sample already in the ring. */
  function Automaton(s: State, sample: Sample, trig: bool, pressed: bool, override: bool, publishes: bool): State {
    match s.mode
    case Idle => if trig then Arm(s, sample, override) else s
    case Armed =>
      Conclude(Follow(s, sample, trig, pressed), sample.now, trig, publishes)
    case Cooldown => if trig then s else s.(mode := Idle)
  }

  function SampleNow(s: State, st: Status): Sample {
    Sample(st.now, AngErr(st), Round2(Max(s.acc, Abs(AngErr(st)))), s.satAcc || st.sat || AngSat(st) || st.curvLim)
  }

  /** Every 20th tick: a sample is folded, the accumulators start again, and the automaton steps. */
  function FoldIn(s: State, st: Status): State {
    var recent := Recent(st, s.lastPressed);
    var sample := SampleNow(s, st);
    Automaton(
      s.(acc := 0.0, satAcc := false, lastPressed := if st.pressed then st.now else s.lastPressed, ring := Push(s.ring, sample)),
      sample, Core(st) && !recent, st.pressed, st.pressed || recent, st.publishes)
  }

  datatype Tick = Tick(r: Reading, st: Status)

  function Step(s: State, t: Tick): State {
    var s' := Accumulate(s.(frame := s.frame + 1), t.r);
    if s'.frame % FOLD_EVERY == 0 then FoldIn(s', t.st) else s'
  }

  // ----- the same, step by step on the recorder's variables -----

  class Recorder {
    var frame: nat
    var acc: real
    var satAcc: bool
    var lastPressed: real
    var ring: seq<Sample>
    var mode: Mode
    var startT: real
    var lastTrigT: real
    var pre: seq<Sample>
    var post: seq<Sample>
    var peak: real
    var hadOverride: bool
    var eventId: nat
    var emitted: seq<Event>

    ghost function Now(): State
      reads this
    {
      State(frame, acc, satAcc, lastPressed, ring, mode, startT, lastTrigT, pre, post, peak, hadOverride, eventId, emitted)
    }

    constructor ()
      ensures Now() == INITIAL
    {
      frame, acc, satAcc, lastPressed, ring := 0, 0.0, false, -1000000000.0, [];
      mode, startT, lastTrigT, pre, post := Idle, 0.0, 0.0, [], [];
      peak, hadOverride, eventId, emitted := 0.0, false, 0, [];
    }

    method Control(t: Tick)
      modifies this
      ensures Now() == Step(old(Now()), t)
    {
      frame := frame + 1;
      Gather(t.r);
      if frame % FOLD_EVERY == 0 {
        TakeSample(t.st);
      }
    }

    method Gather(r: Reading)
      modifies this`acc, this`satAcc
      ensures Now() == Accumulate(old(Now()), r)
    {
      if r.angErr.Some? {
        if r.angErr.value > acc { acc := r.angErr.value; }
        if r.angErr.value > SATURATION_DEG { satAcc := true; }
      }
      if r.saturated { satAcc := true; }
    }

    method TakeSample(st: Status)
      modifies this
      ensures Now() == FoldIn(old(Now()), st)
    {
      if st.pressed { lastPressed := st.now; }
      var recent := st.now - lastPressed < OVERRIDE_RECENT;
      assert recent == Recent(st, old(lastPressed));
      var sample := Fold(st);
      var undershoot := Abs(st.wanted) / (0.001 + Abs(st.delivered)) > 1.2 && Abs(st.wanted) > 1.0;
      var departure := st.latActive && (Abs(Round3(st.angle)) > TRIGGER_DEG || undershoot);
      var trig := (st.sat || Abs(st.angle) > SATURATION_DEG || departure) && !recent;
      Advance(sample, trig, st.pressed, st.pressed || recent, st.publishes);
    }

    method Fold(st: Status) returns (sample: Sample)
      modifies this`acc, this`satAcc, this`ring
      ensures sample == SampleNow(old(Now()), st)
      ensures Now() == old(Now()).(acc := 0.0, satAcc := false, ring := Push(old(ring), sample))
    {
      var angErr := Round3(st.angle);
      acc := Max(acc, Abs(angErr));
      satAcc := satAcc || st.sat || Abs(st.angle) > SATURATION_DEG || st.curvLim;
      sample := Sample(st.now, angErr, Round2(acc), satAcc);
      acc, satAcc := 0.0, false;
      ring := ring + [sample];
      if |ring| > PRE_N { ring := ring[1..]; }
    }

    method Advance(sample: Sample, trig: bool, pressed: bool, override: bool, publishes: bool)
      modifies this`mode, this`startT, this`lastTrigT, this`pre, this`post, this`peak, this`hadOverride, this`eventId, this`emitted
      ensures Now() == Automaton(old(Now()), sample, trig, pressed, override, publishes)
    {
      match mode {
        case Idle =>
          if trig {
            mode, startT, lastTrigT := Armed, sample.now, sample.now;
            pre, post := ring, [];
            peak, hadOverride := sample.angErrPk, override;
          }
        case Armed => Continue(sample, trig, pressed, publishes);
        case Cooldown =>
          if !trig { mode := Idle; }
      }
    }

    method Continue(sample: Sample, trig: bool, pressed: bool, publishes: bool)
      modifies this`mode, this`lastTrigT, this`post, this`peak, this`hadOverride, this`eventId, this`emitted
      ensures Now() == Conclude(Follow(old(Now()), sample, trig, pressed), sample.now, trig, publishes)
    {
      if trig { lastTrigT := sample.now; }
      if pressed { hadOverride := true; }
      if |post| < POST_MAX { post := post + [sample]; }
      peak := Max(peak, sample.angErrPk);
      EmitIfOver(sample.now, trig, publishes);
    }

    method EmitIfOver(now: real, trig: bool, publishes: bool)
      modifies this`mode, this`eventId, this`emitted
      ensures Now() == Conclude(old(Now()), now, trig, publishes)
    {
      var total := now - startT;
      var capped := total >= MAX_EVENT;
      if (!trig && now - lastTrigT >= POST_HOLD) || capped {
        var event := Event(eventId + 1, startT, Round2(total), capped, hadOverride, Round2(peak), pre + post);
        if publishes {
          emitted := emitted + [event];
          eventId := eventId + 1;
          mode := Cooldown;
        }
      }
    }
  }

  // ----- everything that was observed -----

  /** One fold: all angle errors seen since the fold before it, and what it decided on. */
  datatype Fold = Fold(
    now: real, angErr: real, seen: seq<real>, satAny: bool, trig: bool, pressed: bool, publishes: bool)

  /** The history of the inputs: those since the last fold, and all folds. */
  datatype History = History(frame: nat, window: seq<real>, windowSat: bool, lastPressed: real, folds: seq<Fold>)

  const NOTHING := History(0, [], false, -1000000000.0, [])

  function FoldOf(h: History, st: Status): Fold {
    Fold(st.now, AngErr(st), h.window + [Abs(AngErr(st))], h.windowSat || st.sat || AngSat(st) || st.curvLim,
         Core(st) && !Recent(st, h.lastPressed), st.pressed, st.publishes)
  }

  function Gathered(h: History, r: Reading): History {
    h.(window := if r.angErr.Some? then h.window + [r.angErr.value] else h.window, windowSat := h.windowSat || Exceeds(r))
  }

  function Folded(h: History, st: Status): History {
    h.(window := [], windowSat := false, lastPressed := if st.pressed then st.now else h.lastPressed,
       folds := h.folds + [FoldOf(h, st)])
  }

  function Record(h: History, t: Tick): History {
    var h' := Gathered(h.(frame := h.frame + 1), t.r);
    if h'.frame % FOLD_EVERY == 0 then Folded(h', t.st) else h'
  }

  function Largest(xs: seq<real>): real {
    if xs == [] then 0.0 else Max(Largest(xs[..|xs| - 1]), xs[|xs| - 1])
  }

  function SampleOf(f: Fold): Sample {
    Sample(f.now, f.angErr, Round2(Largest(f.seen)), f.satAny)
  }

  function Samples(fs: seq<Fold>): seq<Sample> {
    seq(|fs|, i requires 0 <= i < |fs| => SampleOf(fs[i]))
  }

  /** The largest angle error seen by the folds from `i` up to `j`, on any tick. */
  function Peak(fs: seq<Fold>, i: nat, j: nat): real
    requires i <= j <= |fs|
  {
    if i == j then 0.0 else Max(Peak(fs, i, j - 1), Largest(fs[j - 1].seen))
  }

  // ----- episodes -----

  /** An episode that armed at one fold and was emitted at another. */
  datatype Episode = Episode(arm: nat, emit: nat)

  /** The trigger was off for 0.75 s at fold `j`, or the episode had lasted 5 s. */
  ghost predicate Over(fs: seq<Fold>, arm: nat, j: nat)
    requires arm <= j < |fs|
  {
    || (!fs[j].trig && forall i :: arm <= i < j && fs[i].trig ==> fs[j].now - fs[i].now >= 0.75)
    || fs[j].now - fs[arm].now >= 5.0
  }

  /** Armed at `arm` on a trigger, and not published up to fold `j`. */
  ghost predicate Open(fs: seq<Fold>, arm: nat, j: nat) {
    arm < j <= |fs| && fs[arm].trig && forall i :: arm < i < j && Over(fs, arm, i) ==> !fs[i].publishes
  }

  /** Emitted at the first fold where the episode was over and the event could be published. */
  ghost predicate IsEpisode(fs: seq<Fold>, e: Episode) {
    e.emit < |fs| && Open(fs, e.arm, e.emit) && Over(fs, e.arm, e.emit) && fs[e.emit].publishes
  }

  /** Before fold `k` there was no trigger, since the start or since the first clean fold after `last`. */
  ghost predicate Ready(fs: seq<Fold>, last: Option<nat>, k: nat) {
    && k <= |fs|
    && if last.None? then forall i :: 0 <= i < k ==> !fs[i].trig
       else exists c :: last.value < c < k && CleanAfter(fs, last.value, c) && forall i :: c <= i < k ==> !fs[i].trig
  }

  ghost predicate CleanAfter(fs: seq<Fold>, last: nat, c: nat) {
    last < c < |fs| && !fs[c].trig && forall i :: last < i < c ==> fs[i].trig
  }

  function LastEmit(es: seq<Episode>): Option<nat> {
    if es == [] then None else Some(es[|es| - 1].emit)
  }

  /** The episodes of a history, each arming on the first trigger after the clean fold that followed the one before. */
  ghost predicate Chronicle(fs: seq<Fold>, es: seq<Episode>) {
    forall k :: 0 <= k < |es| ==> IsEpisode(fs, es[k]) && Ready(fs, LastEmit(es[..k]), es[k].arm)
  }

  function Before(arm: nat): nat {
    if arm + 1 < 12 then 0 else arm + 1 - 12
  }

  function Until(arm: nat, n: nat): nat {
    if n <= arm + 1 + 15 then n else arm + 1 + 15
  }

  ghost predicate PressedIn(fs: seq<Fold>, i: nat, j: nat) {
    exists k :: i <= k < j && k < |fs| && fs[k].pressed
  }

  /** What the event of an episode says about the history. */
  ghost predicate Reports(fs: seq<Fold>, e: Episode, number: nat, ev: Event) {
    && e.arm < e.emit < |fs|
    && ev.number == number
    && ev.onset == fs[e.arm].now
    && ev.duration == Round2(fs[e.emit].now - fs[e.arm].now)
    && (ev.capped <==> fs[e.emit].now - fs[e.arm].now >= 5.0)
    && (ev.driverOverride <==> PressedIn(fs, e.arm + 1, e.emit + 1))
    && ev.peakAngErr == Round2(Peak(fs, e.arm, e.emit + 1))
    && ev.trace == Samples(fs)[Before(e.arm)..Until(e.arm, e.emit + 1)]
  }
}
