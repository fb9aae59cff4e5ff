/**
 The flight recorder against the whole history of its inputs: its episodes are separated by clean samples,
 its events are numbered in order, and each says of its episode exactly what was observed.
 */
module FlightTheorems {
  import opened Wrappers
  import opened FlightRecorder
  import opened Extremes
  import opened Rounding

  // ----- one more fold changes nothing that was said of the others -----

  ghost predicate InTime(fs: seq<Fold>) {
    forall i, j :: 0 <= i < j < |fs| ==> fs[i].now <= fs[j].now
  }

  lemma SamplesAppend(fs: seq<Fold>, f: Fold)
    ensures Samples(fs + [f]) == Samples(fs) + [SampleOf(f)]
  {
  }

  lemma {:induction false} PeakAppend(fs: seq<Fold>, f: Fold, i: nat, j: nat)
    requires i <= j <= |fs|
    ensures Peak(fs + [f], i, j) == Peak(fs, i, j)
    decreases j
  {
    if i < j { PeakAppend(fs, f, i, j - 1); }
  }

  lemma OverAppend(fs: seq<Fold>, f: Fold, arm: nat, j: nat)
    requires arm <= j < |fs|
    ensures Over(fs + [f], arm, j) <==> Over(fs, arm, j)
  {
    var fs' := fs + [f];
    assert forall i :: 0 <= i <= j ==> fs'[i] == fs[i];
  }

  lemma OpenAppend(fs: seq<Fold>, f: Fold, arm: nat, j: nat)
    requires Open(fs, arm, j)
    ensures Open(fs + [f], arm, j)
  {
    var fs' := fs + [f];
    forall i | arm < i < j && Over(fs', arm, i) ensures !fs'[i].publishes {
      OverAppend(fs, f, arm, i);
    }
  }

  lemma EpisodeAppend(fs: seq<Fold>, f: Fold, e: Episode)
    requires IsEpisode(fs, e)
    ensures IsEpisode(fs + [f], e)
  {
    OpenAppend(fs, f, e.arm, e.emit);
    OverAppend(fs, f, e.arm, e.emit);
  }

  lemma ReadyAppend(fs: seq<Fold>, f: Fold, last: Option<nat>, k: nat)
    requires Ready(fs, last, k)
    ensures Ready(fs + [f], last, k)
  {
    var fs' := fs + [f];
    if last.Some? {
      var c :| last.value < c < k && CleanAfter(fs, last.value, c) && forall i :: c <= i < k ==> !fs[i].trig;
      assert CleanAfter(fs', last.value, c);
      assert forall i :: c <= i < k ==> !fs'[i].trig;
    }
  }

  lemma ChronicleAppend(fs: seq<Fold>, f: Fold, es: seq<Episode>)
    requires Chronicle(fs, es)
    ensures Chronicle(fs + [f], es)
  {
    forall k | 0 <= k < |es| ensures IsEpisode(fs + [f], es[k]) && Ready(fs + [f], LastEmit(es[..k]), es[k].arm) {
      EpisodeAppend(fs, f, es[k]);
      ReadyAppend(fs, f, LastEmit(es[..k]), es[k].arm);
    }
  }

  lemma ReportsAppend(fs: seq<Fold>, f: Fold, e: Episode, number: nat, ev: Event)
    requires Reports(fs, e, number, ev)
    ensures Reports(fs + [f], e, number, ev)
  {
    SamplesAppend(fs, f);
    PeakAppend(fs, f, e.arm, e.emit + 1);
    assert Samples(fs + [f])[Before(e.arm)..Until(e.arm, e.emit + 1)] == Samples(fs)[Before(e.arm)..Until(e.arm, e.emit + 1)];
    assert PressedIn(fs + [f], e.arm + 1, e.emit + 1) <==> PressedIn(fs, e.arm + 1, e.emit + 1) by {
      var fs' := fs + [f];
      if PressedIn(fs', e.arm + 1, e.emit + 1) {
        var k :| e.arm + 1 <= k < e.emit + 1 && k < |fs'| && fs'[k].pressed;
        assert fs[k].pressed;
      }
      if PressedIn(fs, e.arm + 1, e.emit + 1) {
        var k :| e.arm + 1 <= k < e.emit + 1 && k < |fs| && fs[k].pressed;
        assert fs'[k].pressed;
      }
    }
  }

  // ----- what every state says of the history -----

  /** The last trigger since `arm` was at time `t`. */
  ghost predicate LastTrigger(fs: seq<Fold>, arm: nat, t: real) {
    exists i :: arm <= i < |fs| && IsLast(fs, i, t)
  }

  ghost predicate IsLast(fs: seq<Fold>, i: nat, t: real) {
    i < |fs| && fs[i].trig && fs[i].now == t && forall j :: i < j < |fs| ==> !fs[j].trig
  }

  /** The latched values of an armed recorder. */
  ghost predicate Latched(s: State, fs: seq<Fold>, arm: nat) {
    && arm < |fs| && Traced(fs, arm, s.pre, s.post)
    && s.peak == Round2(Peak(fs, arm, |fs|))
    && s.startT == fs[arm].now && LastTrigger(fs, arm, s.lastTrigT)
    && (s.hadOverride <==> PressedIn(fs, arm + 1, |fs|))
  }

  ghost predicate Traced(fs: seq<Fold>, arm: nat, pre: seq<Sample>, post: seq<Sample>) {
    arm < |fs| && pre == Samples(fs)[Before(arm)..arm + 1] && post == Samples(fs)[arm + 1..Until(arm, |fs|)]
  }

  ghost predicate Told(fs: seq<Fold>, es: seq<Episode>, emitted: seq<Event>) {
    |emitted| == |es| && forall k :: 0 <= k < |es| ==> Reports(fs, es[k], k + 1, emitted[k])
  }

  ghost predicate PhaseOk(s: State, fs: seq<Fold>, es: seq<Episode>, arm: nat) {
    match s.mode
    case Idle => Ready(fs, LastEmit(es), |fs|)
    case Armed => Ready(fs, LastEmit(es), arm) && Open(fs, arm, |fs|) && Latched(s, fs, arm)
    case Cooldown => es != [] && forall i :: LastEmit(es).value < i < |fs| ==> fs[i].trig
  }

  ghost predicate Inv(s: State, fs: seq<Fold>, es: seq<Episode>, arm: nat) {
    && s.ring == Newest(Samples(fs), PRE_N) && s.eventId == |es|
    && Chronicle(fs, es) && Told(fs, es, s.emitted) && PhaseOk(s, fs, es, arm)
  }

  lemma TellAppend(fs: seq<Fold>, f: Fold, es: seq<Episode>, emitted: seq<Event>)
    requires Chronicle(fs, es) && Told(fs, es, emitted)
    ensures Chronicle(fs + [f], es) && Told(fs + [f], es, emitted)
  {
    ChronicleAppend(fs, f, es);
    forall k | 0 <= k < |es| ensures Reports(fs + [f], es[k], k + 1, emitted[k]) {
      ReportsAppend(fs, f, es[k], k + 1, emitted[k]);
    }
  }

  lemma PushIsNewest(xs: seq<Sample>, x: Sample)
    ensures Push(Newest(xs, PRE_N), x) == Newest(xs + [x], PRE_N)
  {
  }

  lemma {:induction false} LargestNonNegative(xs: seq<real>)
    ensures Largest(xs) >= 0.0
  {
    if xs != [] { LargestNonNegative(xs[..|xs| - 1]); }
  }

  lemma PeakStep(fs: seq<Fold>, f: Fold, i: nat)
    requires i <= |fs|
    ensures Peak(fs + [f], i, |fs| + 1) == Max(Peak(fs, i, |fs|), Largest(f.seen))
  {
    PeakAppend(fs, f, i, |fs|);
  }

  lemma ReadyStep(fs: seq<Fold>, f: Fold, last: Option<nat>)
    requires Ready(fs, last, |fs|) && !f.trig
    ensures Ready(fs + [f], last, |fs| + 1)
  {
    var fs' := fs + [f];
    if last.Some? {
      var c :| last.value < c < |fs| && CleanAfter(fs, last.value, c) && forall i :: c <= i < |fs| ==> !fs[i].trig;
      assert CleanAfter(fs', last.value, c);
      assert forall i :: c <= i < |fs'| ==> !fs'[i].trig;
    }
  }

  /** Arming: the latched values start at this fold. */
  lemma ArmLatches(s: State, fs: seq<Fold>, f: Fold)
    requires s.ring == Newest(Samples(fs) + [SampleOf(f)], PRE_N) && f.trig
    ensures Latched(Arm(s, SampleOf(f), false), fs + [f], |fs|)
  {
    var fs', n := fs + [f], |fs|;
    SamplesAppend(fs, f);
    assert s.ring == Samples(fs')[Before(n)..n + 1];
    PeakStep(fs, f, n);
    LargestNonNegative(f.seen);
    assert IsLast(fs', n, f.now);
  }

  lemma LastTriggerStep(fs: seq<Fold>, f: Fold, arm: nat, t: real)
    requires LastTrigger(fs, arm, t)
    ensures LastTrigger(fs + [f], arm, if f.trig then f.now else t)
  {
    var fs' := fs + [f];
    var i :| arm <= i < |fs| && IsLast(fs, i, t);
    if f.trig {
      assert IsLast(fs', |fs|, f.now);
    } else {
      assert IsLast(fs', i, t);
    }
  }

  lemma PressedStep(fs: seq<Fold>, f: Fold, i: nat)
    requires i <= |fs|
    ensures PressedIn(fs + [f], i, |fs| + 1) <==> PressedIn(fs, i, |fs|) || f.pressed
  {
    var fs' := fs + [f];
    if PressedIn(fs, i, |fs|) {
      var k :| i <= k < |fs| && fs[k].pressed;
      assert fs'[k].pressed;
    }
    if f.pressed { assert fs'[|fs|].pressed; }
  }

  lemma TraceStep(fs: seq<Fold>, f: Fold, arm: nat, pre: seq<Sample>, post: seq<Sample>)
    requires Traced(fs, arm, pre, post)
    ensures Traced(fs + [f], arm, pre, if |post| < POST_MAX then post + [SampleOf(f)] else post)
  {
    SamplesAppend(fs, f);
    assert Samples(fs + [f])[Before(arm)..arm + 1] == Samples(fs)[Before(arm)..arm + 1];
  }

  lemma PeakFollow(fs: seq<Fold>, f: Fold, arm: nat)
    requires arm <= |fs|
    ensures Max(Round2(Peak(fs, arm, |fs|)), SampleOf(f).angErrPk) == Round2(Peak(fs + [f], arm, |fs| + 1))
  {
    PeakStep(fs, f, arm);
    Round2Max(Peak(fs, arm, |fs|), Largest(f.seen));
  }

  lemma FollowLatches(s: State, fs: seq<Fold>, f: Fold, arm: nat)
    requires Latched(s, fs, arm)
    ensures Latched(Follow(s, SampleOf(f), f.trig, f.pressed), fs + [f], arm)
  {
    var s', fs' := Follow(s, SampleOf(f), f.trig, f.pressed), fs + [f];
    assert Traced(fs', arm, s'.pre, s'.post) by { TraceStep(fs, f, arm, s.pre, s.post); }
    assert s'.peak == Round2(Peak(fs', arm, |fs'|)) by { PeakFollow(fs, f, arm); }
    assert LastTrigger(fs', arm, s'.lastTrigT) by { LastTriggerStep(fs, f, arm, s.lastTrigT); }
    assert s'.hadOverride <==> PressedIn(fs', arm + 1, |fs'|) by { PressedStep(fs, f, arm + 1); }
  }

  /** The recorder's test for the end of an episode looks only at its last trigger. */
  lemma OverIff(s: State, fs: seq<Fold>, arm: nat)
    requires InTime(fs) && Latched(s, fs, arm) && arm + 1 < |fs|
    ensures IsOver(s, fs[|fs| - 1].now, fs[|fs| - 1].trig) <==> Over(fs, arm, |fs| - 1)
  {
    var i :| arm <= i < |fs| && IsLast(fs, i, s.lastTrigT);
    forall j | arm <= j < |fs| && fs[j].trig ensures fs[j].now <= s.lastTrigT {
      if j < i { assert fs[j].now <= fs[i].now; }
    }
  }

  lemma EmitReports(s: State, fs: seq<Fold>, arm: nat)
    requires |fs| > 0 && arm < |fs| - 1 && Latched(s, fs, arm)
    ensures Reports(fs, Episode(arm, |fs| - 1), s.eventId + 1, EventNow(s, fs[|fs| - 1].now))
  {
    var n := |fs|;
    Round2Idempotent(Peak(fs, arm, n));
    assert Samples(fs)[Before(arm)..arm + 1] + Samples(fs)[arm + 1..Until(arm, n)] == Samples(fs)[Before(arm)..Until(arm, n)];
  }

  lemma ChronicleGrows(fs: seq<Fold>, es: seq<Episode>, e: Episode)
    requires Chronicle(fs, es) && IsEpisode(fs, e) && Ready(fs, LastEmit(es), e.arm)
    ensures Chronicle(fs, es + [e])
  {
    var es' := es + [e];
    forall k | 0 <= k < |es'| ensures IsEpisode(fs, es'[k]) && Ready(fs, LastEmit(es'[..k]), es'[k].arm) {
      assert es'[..k] == es[..k];
      assert k == |es| ==> es[..k] == es;
    }
  }

  // ----- the automaton keeps it -----

  lemma IdleKeeps(s: State, fs: seq<Fold>, es: seq<Episode>, f: Fold)
    requires Inv(s, fs, es, 0) && s.mode.Idle?
    ensures var s' := s.(ring := Push(s.ring, SampleOf(f)));
      Inv(if f.trig then Arm(s', SampleOf(f), false) else s', fs + [f], es, |fs|)
  {
    var s', fs' := s.(ring := Push(s.ring, SampleOf(f))), fs + [f];
    SamplesAppend(fs, f);
    PushIsNewest(Samples(fs), SampleOf(f));
    TellAppend(fs, f, es, s.emitted);
    if f.trig {
      ReadyAppend(fs, f, LastEmit(es), |fs|);
      ArmLatches(s', fs, f);
    } else {
      ReadyStep(fs, f, LastEmit(es));
    }
  }

  lemma CooldownKeeps(s: State, fs: seq<Fold>, es: seq<Episode>, f: Fold)
    requires Inv(s, fs, es, 0) && s.mode.Cooldown?
    ensures var s' := s.(ring := Push(s.ring, SampleOf(f)));
      Inv(if f.trig then s' else s'.(mode := Idle), fs + [f], es, 0)
  {
    var fs' := fs + [f];
    SamplesAppend(fs, f);
    PushIsNewest(Samples(fs), SampleOf(f));
    TellAppend(fs, f, es, s.emitted);
    if !f.trig {
      assert IsEpisode(fs, es[|es| - 1]);
      assert CleanAfter(fs', LastEmit(es).value, |fs|);
    }
  }

  /** An armed recorder that has latched the newest fold and not yet decided on the end of the episode. */
  ghost predicate Deciding(s: State, fs: seq<Fold>, es: seq<Episode>, arm: nat) {
    && arm + 1 < |fs| && s.mode.Armed? && s.ring == Newest(Samples(fs), PRE_N) && s.eventId == |es|
    && Chronicle(fs, es) && Told(fs, es, s.emitted) && Ready(fs, LastEmit(es), arm)
    && Open(fs, arm, |fs| - 1) && Latched(s, fs, arm)
  }

  lemma FollowDecides(s: State, fs: seq<Fold>, es: seq<Episode>, arm: nat, f: Fold)
    requires Inv(s, fs, es, arm) && s.mode.Armed?
    ensures Deciding(Follow(s.(ring := Push(s.ring, SampleOf(f))), SampleOf(f), f.trig, f.pressed), fs + [f], es, arm)
  {
    SamplesAppend(fs, f);
    PushIsNewest(Samples(fs), SampleOf(f));
    TellAppend(fs, f, es, s.emitted);
    ReadyAppend(fs, f, LastEmit(es), arm);
    FollowLatches(s.(ring := Push(s.ring, SampleOf(f))), fs, f, arm);
    OpenAppend(fs, f, arm, |fs|);
  }

  lemma EmitKeeps(s: State, fs: seq<Fold>, es: seq<Episode>, arm: nat)
    requires Deciding(s, fs, es, arm) && IsEpisode(fs, Episode(arm, |fs| - 1))
    ensures Inv(Emit(s, fs[|fs| - 1].now), fs, es + [Episode(arm, |fs| - 1)], arm)
  {
    ChronicleGrows(fs, es, Episode(arm, |fs| - 1));
    EmitReports(s, fs, arm);
  }

  lemma StaysOpen(fs: seq<Fold>, arm: nat)
    requires arm + 1 < |fs| && Open(fs, arm, |fs| - 1) && (Over(fs, arm, |fs| - 1) ==> !fs[|fs| - 1].publishes)
    ensures Open(fs, arm, |fs|)
  {
  }

  lemma ConcludeKeeps(s: State, fs: seq<Fold>, es: seq<Episode>, arm: nat) returns (es': seq<Episode>)
    requires Deciding(s, fs, es, arm) && InTime(fs)
    ensures var f := fs[|fs| - 1]; Inv(Conclude(s, f.now, f.trig, f.publishes), fs, es', arm)
  {
    var f := fs[|fs| - 1];
    OverIff(s, fs, arm);
    if IsOver(s, f.now, f.trig) && f.publishes {
      es' := es + [Episode(arm, |fs| - 1)];
      EmitKeeps(s, fs, es, arm);
    } else {
      es' := es;
      StaysOpen(fs, arm);
    }
  }

  // ----- the machine reads its folds off its own accumulators -----

  ghost predicate Linked(s: State, h: History) {
    && s.frame == h.frame && s.acc == Largest(h.window) && s.satAcc == h.windowSat && s.lastPressed == h.lastPressed
  }

  lemma LargestAppend(xs: seq<real>, x: real)
    ensures Largest(xs + [x]) == Max(Largest(xs), x)
  {
    assert (xs + [x])[..|xs|] == xs;
  }

  lemma GatherLinked(s: State, h: History, r: Reading)
    requires Linked(s, h)
    ensures Linked(Accumulate(s, r), Gathered(h, r))
  {
    if r.angErr.Some? { LargestAppend(h.window, r.angErr.value); }
  }

  /** The sample is that of the fold: the accumulators hold the maximum over all ticks since the last fold. */
  lemma FoldLinked(s: State, h: History, st: Status)
    requires Linked(s, h)
    ensures Linked(FoldIn(s, st), Folded(h, st)) && SampleNow(s, st) == SampleOf(FoldOf(h, st))
  {
    LargestAppend(h.window, Abs(AngErr(st)));
  }

  function Run(ticks: seq<Tick>): State {
    if ticks == [] then INITIAL else Step(Run(ticks[..|ticks| - 1]), ticks[|ticks| - 1])
  }

  function Observed(ticks: seq<Tick>): History {
    if ticks == [] then NOTHING else Record(Observed(ticks[..|ticks| - 1]), ticks[|ticks| - 1])
  }

  // ----- every run -----

  /** A fold keeps the invariant, whatever the automaton is doing. */
  lemma FoldKeeps(s: State, h: History, es: seq<Episode>, arm: nat, st: Status) returns (es': seq<Episode>, arm': nat)
    requires Linked(s, h) && Inv(s, h.folds, es, arm) && InTime(Folded(h, st).folds)
    ensures Inv(FoldIn(s, st), Folded(h, st).folds, es', arm')
  {
    var f := FoldOf(h, st);
    FoldLinked(s, h, st);
    es', arm' := es, arm;
    var r := s.(acc := 0.0, satAcc := false, lastPressed := if st.pressed then st.now else s.lastPressed);
    InvFrame(s, r, h.folds, es, arm);
    match s.mode {
      case Idle => IdleKeeps(r, h.folds, es, f); arm' := |h.folds|;
      case Armed =>
        FollowDecides(r, h.folds, es, arm, f);
        es' := ConcludeKeeps(Follow(r.(ring := Push(r.ring, SampleOf(f))), SampleOf(f), f.trig, f.pressed), h.folds + [f], es, arm);
      case Cooldown => CooldownKeeps(r, h.folds, es, f); arm' := 0;
    }
  }

  lemma InvFrame(s: State, r: State, fs: seq<Fold>, es: seq<Episode>, arm: nat)
    requires Inv(s, fs, es, arm)
    requires r == s.(frame := r.frame, acc := r.acc, satAcc := r.satAcc, lastPressed := r.lastPressed)
    ensures Inv(r, fs, es, arm) && (!r.mode.Armed? ==> Inv(r, fs, es, 0))
  {
  }

  lemma GatherKeeps(s: State, h: History, es: seq<Episode>, arm: nat, r: Reading)
    requires Linked(s, h) && Inv(s, h.folds, es, arm)
    ensures var s', h' := Accumulate(s.(frame := s.frame + 1), r), Gathered(h.(frame := h.frame + 1), r);
      Linked(s', h') && h'.folds == h.folds && Inv(s', h'.folds, es, arm)
  {
    var s0, h0 := s.(frame := s.frame + 1), h.(frame := h.frame + 1);
    GatherLinked(s0, h0, r);
    InvFrame(s, Accumulate(s0, r), h.folds, es, arm);
  }

  ghost predicate Kept(s: State, h: History, es: seq<Episode>, arm: nat) {
    Linked(s, h) && Inv(s, h.folds, es, arm)
  }

  /** The state is that of some chronicle of the history. */
  ghost predicate Faithful(s: State, h: History) {
    exists es, arm :: Kept(s, h, es, arm)
  }

  lemma GatherFaithful(s: State, h: History, r: Reading)
    requires Faithful(s, h)
    ensures Faithful(Accumulate(s.(frame := s.frame + 1), r), Gathered(h.(frame := h.frame + 1), r))
  {
    var es, arm :| Kept(s, h, es, arm);
    GatherKeeps(s, h, es, arm, r);
    assert Kept(Accumulate(s.(frame := s.frame + 1), r), Gathered(h.(frame := h.frame + 1), r), es, arm);
  }

  lemma FoldFaithful(s: State, h: History, st: Status)
    requires Faithful(s, h) && InTime(Folded(h, st).folds)
    ensures Faithful(FoldIn(s, st), Folded(h, st))
  {
    var es, arm :| Kept(s, h, es, arm);
    FoldLinked(s, h, st);
    es, arm := FoldKeeps(s, h, es, arm, st);
    assert Kept(FoldIn(s, st), Folded(h, st), es, arm);
  }

  lemma StepIs(s: State, t: Tick)
    ensures var s' := Accumulate(s.(frame := s.frame + 1), t.r);
      Step(s, t) == if (s.frame + 1) % FOLD_EVERY == 0 then FoldIn(s', t.st) else s'
  {
  }

  lemma RecordIs(h: History, t: Tick)
    ensures var h' := Gathered(h.(frame := h.frame + 1), t.r);
      Record(h, t) == if (h.frame + 1) % FOLD_EVERY == 0 then Folded(h', t.st) else h'
  {
  }

  lemma FoldFaithfulAs(s: State, h: History, st: Status, r: State, g: History)
    requires Faithful(s, h) && InTime(g.folds) && r == FoldIn(s, st) && g == Folded(h, st)
    ensures Faithful(r, g)
  {
    FoldFaithful(s, h, st);
  }

  lemma GatherFaithfulAs(s: State, h: History, t: Tick, r: State, g: History)
    requires Faithful(s, h)
    requires r == Accumulate(s.(frame := s.frame + 1), t.r) && g == Gathered(h.(frame := h.frame + 1), t.r)
    ensures Faithful(r, g)
  {
    GatherFaithful(s, h, t.r);
  }

  lemma StepFaithful(s: State, h: History, t: Tick)
    requires Faithful(s, h) && s.frame == h.frame && InTime(Record(h, t).folds)
    ensures Faithful(Step(s, t), Record(h, t))
  {
    StepIs(s, t);
    RecordIs(h, t);
    var s', h' := Accumulate(s.(frame := s.frame + 1), t.r), Gathered(h.(frame := h.frame + 1), t.r);
    GatherFaithfulAs(s, h, t, s', h');
    if (h.frame + 1) % FOLD_EVERY == 0 {
      FoldFaithfulAs(s', h', t.st, Step(s, t), Record(h, t));
    }
  }

  lemma StartFaithful()
    ensures Faithful(INITIAL, NOTHING)
  {
    assert Kept(INITIAL, NOTHING, [], 0);
  }

  lemma {:induction false} RunFaithful(ticks: seq<Tick>)
    requires InTime(Observed(ticks).folds)
    ensures Faithful(Run(ticks), Observed(ticks))
    decreases |ticks|
  {
    if ticks == [] {
      StartFaithful();
    } else {
      var before, t := ticks[..|ticks| - 1], ticks[|ticks| - 1];
      FoldsGrow(Observed(before), t);
      RunFaithful(before);
      SameFrame(Run(before), Observed(before));
      StepFaithful(Run(before), Observed(before), t);
    }
  }

  lemma SameFrame(s: State, h: History)
    requires Faithful(s, h)
    ensures s.frame == h.frame
  {
    var es, arm :| Kept(s, h, es, arm);
  }

  lemma FoldsGrow(h: History, t: Tick)
    requires InTime(Record(h, t).folds)
    ensures InTime(h.folds)
  {
    var more := Record(h, t).folds;
    assert forall i :: 0 <= i < |h.folds| ==> more[i] == h.folds[i];
  }

  /** After the last episode there was no new trigger, or an episode is open, or no clean sample came yet. */
  ghost predicate NothingMissed(fs: seq<Fold>, es: seq<Episode>) {
    || Ready(fs, LastEmit(es), |fs|)
    || (exists arm :: Ready(fs, LastEmit(es), arm) && Open(fs, arm, |fs|))
    || (es != [] && forall i :: LastEmit(es).value < i < |fs| ==> fs[i].trig)
  }

  /**
   In any run, with any publish failures: the emitted events are those of the episodes of the history, in
   order and numbered from one. Each says, of its episode, the largest angle error on any 100 Hz tick
   since the fold before it armed, the samples around its start, whether the driver took over in it and
   whether it was cut off at 5 s.
   */
  lemma EventsAreEpisodes(ticks: seq<Tick>) returns (es: seq<Episode>)
    requires InTime(Observed(ticks).folds)
    ensures var fs, emitted := Observed(ticks).folds, Run(ticks).emitted;
      && Chronicle(fs, es) && NothingMissed(fs, es) && |emitted| == |es| == Run(ticks).eventId
      && (forall k :: 0 <= k < |es| ==> Reports(fs, es[k], k + 1, emitted[k]))
  {
    RunFaithful(ticks);
    var all, arm :| Kept(Run(ticks), Observed(ticks), all, arm);
    es := all;
    assert Run(ticks).mode.Armed? ==> Ready(Observed(ticks).folds, LastEmit(es), arm) && Open(Observed(ticks).folds, arm, |Observed(ticks).folds|);
  }

  /** Between the ends and starts of neighbouring episodes lies a sample without a trigger. */
  lemma EpisodesAreSeparated(fs: seq<Fold>, es: seq<Episode>, k: nat) returns (c: nat)
    requires Chronicle(fs, es) && k + 1 < |es|
    ensures es[k].emit < c < es[k + 1].arm && es[k + 1].arm < |fs| && !fs[c].trig && fs[es[k + 1].arm].trig
  {
    assert LastEmit(es[..k + 1]) == Some(es[k].emit);
    assert Ready(fs, LastEmit(es[..k + 1]), es[k + 1].arm) && IsEpisode(fs, es[k + 1]);
    c :| es[k].emit < c < es[k + 1].arm && CleanAfter(fs, es[k].emit, c)
      && forall i :: c <= i < es[k + 1].arm ==> !fs[i].trig;
  }

  /** A trace has at most 27 samples: up to 12 ending with the one that armed, and up to 15 after it. */
  lemma TraceIsBounded(fs: seq<Fold>, e: Episode, number: nat, ev: Event)
    requires Reports(fs, e, number, ev)
    ensures 2 <= |ev.trace| <= 27 && SampleOf(fs[e.arm]) in ev.trace
    ensures forall x :: x in ev.trace ==> x in Samples(fs)
  {
    assert ev.trace[e.arm - Before(e.arm)] == Samples(fs)[e.arm];
  }

  /** The peak bounds every angle error in the episode and, unless none was positive, is one of them. */
  lemma {:induction false} PeakIsMaximum(fs: seq<Fold>, i: nat, j: nat)
    requires i <= j <= |fs|
    ensures forall k, x :: i <= k < j && x in fs[k].seen ==> x <= Peak(fs, i, j)
    ensures Peak(fs, i, j) == 0.0 || exists k :: i <= k < j && Peak(fs, i, j) in fs[k].seen
    decreases j
  {
    if i < j {
      PeakIsMaximum(fs, i, j - 1);
      LargestIsMaximum(fs[j - 1].seen);
    }
  }

  lemma {:induction false} LargestIsMaximum(xs: seq<real>)
    ensures forall x :: x in xs ==> x <= Largest(xs)
    ensures Largest(xs) == 0.0 || Largest(xs) in xs
  {
    if xs != [] {
      LargestIsMaximum(xs[..|xs| - 1]);
      assert xs == xs[..|xs| - 1] + [xs[|xs| - 1]];
    }
  }

  /** An armed recorder has been armed for 5 s only if publishing failed on every sample since. */
  lemma ArmedAtMostFiveSeconds(ticks: seq<Tick>)
    requires InTime(Observed(ticks).folds) && Run(ticks).mode.Armed?
    ensures var fs, s := Observed(ticks).folds, Run(ticks);
      fs != [] && forall i :: 0 <= i < |fs| && fs[i].now - s.startT >= 5.0 ==> !fs[i].publishes
  {
    RunFaithful(ticks);
    var es, arm :| Kept(Run(ticks), Observed(ticks), es, arm);
    OpenLongOnlyIfFailing(Observed(ticks).folds, arm);
  }

  lemma OpenLongOnlyIfFailing(fs: seq<Fold>, arm: nat)
    requires InTime(fs) && Open(fs, arm, |fs|)
    ensures forall i :: 0 <= i < |fs| && fs[i].now - fs[arm].now >= 5.0 ==> !fs[i].publishes
  {
    forall i | 0 <= i < |fs| && fs[i].now - fs[arm].now >= 5.0 ensures !fs[i].publishes {
      if i > arm { assert Over(fs, arm, i); }
    }
  }

  // ----- triggers and driver overrides -----

  ghost predicate PressesKnown(h: History) {
    forall i :: 0 <= i < |h.folds| && h.folds[i].pressed ==> h.folds[i].now <= h.lastPressed
  }

  lemma {:induction false} PressesAreKnown(ticks: seq<Tick>)
    requires InTime(Observed(ticks).folds)
    ensures PressesKnown(Observed(ticks))
    decreases |ticks|
  {
    if ticks != [] {
      var before, t := ticks[..|ticks| - 1], ticks[|ticks| - 1];
      FoldsGrow(Observed(before), t);
      PressesAreKnown(before);
      var h, more := Observed(before), Observed(ticks);
      if |more.folds| > |h.folds| {
        assert forall i :: 0 <= i < |h.folds| ==> more.folds[i].now <= more.folds[|h.folds|].now;
      }
    }
  }

  /** A trigger is never within a second after a sample on which the driver was steering. */
  lemma {:induction false} TriggersAreUnassisted(ticks: seq<Tick>, i: nat, j: nat)
    requires InTime(Observed(ticks).folds) && i <= j < |Observed(ticks).folds|
    requires Observed(ticks).folds[i].pressed && Observed(ticks).folds[j].trig
    ensures Observed(ticks).folds[j].now - Observed(ticks).folds[i].now >= 1.0
    decreases |ticks|
  {
    var before, t := ticks[..|ticks| - 1], ticks[|ticks| - 1];
    FoldsGrow(Observed(before), t);
    PressesAreKnown(before);
    var h := Observed(before);
    if j < |h.folds| {
      assert Observed(ticks).folds[i] == h.folds[i] && Observed(ticks).folds[j] == h.folds[j];
      TriggersAreUnassisted(before, i, j);
    } else if i < j {
      assert Observed(ticks).folds[i] == h.folds[i];
    }
  }
}
