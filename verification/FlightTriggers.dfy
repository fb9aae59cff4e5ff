/**
 What makes the flight recorder speak up: its folds are every 20th tick with all that was read since, and
 a fold triggers on the inputs of that tick alone, unless the driver steered within the last second.
 */
module FlightTriggers {
  import opened Wrappers
  import opened FlightRecorder
  import opened FlightTheorems
  import opened Extremes
  import opened Rounding

  // ----- folds are ticks -----

  /** The angle errors read in the ticks, where there were any. */
  function AngleErrors(ticks: seq<Tick>): seq<real>
    decreases |ticks|
  {
    if ticks == [] then []
    else
      var r := ticks[|ticks| - 1].r;
      AngleErrors(ticks[..|ticks| - 1]) + if r.angErr.Some? then [r.angErr.value] else []
  }

  /** A tick in which steering was reported saturated, or more than 2.5 degrees off. */
  predicate Saturates(r: Reading) {
    r.saturated || (r.angErr.Some? && r.angErr.value > 2.5)
  }

  predicate AnySaturates(ticks: seq<Tick>) {
    exists i :: 0 <= i < |ticks| && Saturates(ticks[i].r)
  }

  /** What a fold says of its 20 ticks. */
  predicate Tells(f: Fold, ticks: seq<Tick>)
    requires |ticks| == 20
  {
    var st := ticks[19].st;
    && f.now == st.now && f.angErr == Round3(st.angle) && f.pressed == st.pressed && f.publishes == st.publishes
    && f.seen == AngleErrors(ticks) + [Abs(Round3(st.angle))]
    && (f.satAny <==> st.sat || Abs(st.angle) > 2.5 || st.curvLim || AnySaturates(ticks))
  }

  lemma SaturatesAppend(ticks: seq<Tick>, t: Tick)
    ensures AnySaturates(ticks + [t]) <==> AnySaturates(ticks) || Saturates(t.r)
  {
    var more := ticks + [t];
    if AnySaturates(ticks) {
      var i :| 0 <= i < |ticks| && Saturates(ticks[i].r);
      assert more[i] == ticks[i];
    }
    if Saturates(t.r) {
      assert more[|ticks|] == t;
    }
  }

  /** The ticks since the last fold, and those of fold `k`. */
  function Since(ticks: seq<Tick>): seq<Tick> {
    ticks[|ticks| - |ticks| % 20..]
  }

  function Block(ticks: seq<Tick>, k: nat): seq<Tick>
    requires 20 * k + 20 <= |ticks|
  {
    ticks[20 * k..20 * k + 20]
  }

  ghost predicate Windowed(h: History, ticks: seq<Tick>) {
    && h.frame == |ticks| && |h.folds| == |ticks| / 20
    && h.window == AngleErrors(Since(ticks)) && h.windowSat == AnySaturates(Since(ticks))
  }

  lemma GatherWindow(h: History, ticks: seq<Tick>, t: Tick)
    requires Windowed(h, ticks)
    ensures var g := Gathered(h.(frame := h.frame + 1), t.r);
      && g.window == AngleErrors(Since(ticks) + [t]) && g.windowSat == AnySaturates(Since(ticks) + [t])
  {
    var since := Since(ticks);
    SaturatesAppend(since, t);
    assert (since + [t])[..|since + [t]| - 1] == since;
  }

  lemma FoldTells(h: History, block: seq<Tick>)
    requires |block| == 20 && h.window == AngleErrors(block) && h.windowSat == AnySaturates(block)
    ensures Tells(FoldOf(h, block[19].st), block)
  {
  }

  lemma NextWindow(ticks: seq<Tick>, t: Tick)
    ensures if |ticks| % 20 == 19 then Since(ticks + [t]) == [] && Since(ticks) + [t] == Block(ticks + [t], |ticks| / 20)
            else Since(ticks + [t]) == Since(ticks) + [t]
  {
    var n, all := |ticks|, ticks + [t];
    if n % 20 == 19 {
      assert 20 * (n / 20) + 20 == n + 1;
      assert Since(ticks) + [t] == all[20 * (n / 20)..20 * (n / 20) + 20];
    } else {
      assert |all| - |all| % 20 == n - n % 20;
    }
  }

  lemma StepWindow(h: History, ticks: seq<Tick>, t: Tick)
    requires Windowed(h, ticks)
    ensures Windowed(Record(h, t), ticks + [t])
    ensures |ticks| % 20 == 19 ==>
      Record(h, t).folds == h.folds + [Record(h, t).folds[|h.folds|]] && Tells(Record(h, t).folds[|h.folds|], Block(ticks + [t], |ticks| / 20))
    ensures |ticks| % 20 != 19 ==> Record(h, t).folds == h.folds
  {
    GatherWindow(h, ticks, t);
    NextWindow(ticks, t);
    var g := Gathered(h.(frame := h.frame + 1), t.r);
    if |ticks| % 20 == 19 {
      assert (Since(ticks) + [t])[19] == t;
      FoldTells(g, Since(ticks) + [t]);
    }
  }

  lemma {:induction false} WindowsHold(ticks: seq<Tick>)
    ensures Windowed(Observed(ticks), ticks)
    decreases |ticks|
  {
    if ticks != [] {
      var n := |ticks| - 1;
      WindowsHold(ticks[..n]);
      StepWindow(Observed(ticks[..n]), ticks[..n], ticks[n]);
      assert ticks == ticks[..n] + [ticks[n]];
    }
  }

  lemma NewestBlock(ticks: seq<Tick>, t: Tick)
    requires |ticks| % 20 == 19
    ensures var fs, k := Observed(ticks + [t]).folds, |ticks| / 20; |fs| == k + 1 && Tells(fs[k], Block(ticks + [t], k))
  {
    WindowsHold(ticks);
    StepWindow(Observed(ticks), ticks, t);
    ObservedStep(ticks, t);
  }

  lemma ObservedStep(ticks: seq<Tick>, t: Tick)
    ensures Observed(ticks + [t]) == Record(Observed(ticks), t)
  {
    assert (ticks + [t])[..|ticks|] == ticks;
  }

  lemma BlockKept(ticks: seq<Tick>, t: Tick, k: nat)
    requires 20 * k + 20 <= |ticks|
    ensures k < |Observed(ticks).folds| && k < |Observed(ticks + [t]).folds|
    ensures Observed(ticks + [t]).folds[k] == Observed(ticks).folds[k] && Block(ticks + [t], k) == Block(ticks, k)
  {
    WindowsHold(ticks);
    StepWindow(Observed(ticks), ticks, t);
    ObservedStep(ticks, t);
  }

  /** There is a fold for every 20 ticks, and it tells of exactly those. */
  lemma {:induction false} FoldsAreTicks(ticks: seq<Tick>, k: nat)
    requires 20 * k + 20 <= |ticks|
    ensures |Observed(ticks).folds| == |ticks| / 20 && Tells(Observed(ticks).folds[k], Block(ticks, k))
    decreases |ticks|
  {
    var n := |ticks| - 1;
    WindowsHold(ticks);
    assert ticks == ticks[..n] + [ticks[n]];
    if 20 * k + 20 <= n {
      FoldsAreTicks(ticks[..n], k);
      BlockKept(ticks[..n], ticks[n], k);
    } else {
      NewestBlock(ticks[..n], ticks[n]);
    }
  }

  // ----- triggers -----

  /** The driver steered at fold `i`, less than a second before `now`. */
  predicate SteeredAt(fs: seq<Fold>, i: nat, now: real) {
    i < |fs| && fs[i].pressed && now - fs[i].now < 1.0
  }

  predicate Steered(fs: seq<Fold>, now: real) {
    exists i :: 0 <= i < |fs| && SteeredAt(fs, i, now)
  }

  ghost predicate LastPress(fs: seq<Fold>, i: nat, t: real) {
    i < |fs| && fs[i].pressed && fs[i].now == t && forall k :: i < k < |fs| ==> !fs[k].pressed
  }

  /** The time kept is that of the last fold with the driver steering, long past if there was none. */
  ghost predicate PressKept(fs: seq<Fold>, t: real) {
    if forall k :: 0 <= k < |fs| ==> !fs[k].pressed then t == -1000000000.0 else exists i: nat :: LastPress(fs, i, t)
  }

  lemma PressStep(fs: seq<Fold>, f: Fold, t: real)
    requires PressKept(fs, t)
    ensures PressKept(fs + [f], if f.pressed then f.now else t)
  {
    var more := fs + [f];
    if f.pressed {
      assert LastPress(more, |fs|, f.now);
    } else if k :| 0 <= k < |fs| && fs[k].pressed {
      var i: nat :| LastPress(fs, i, t);
      assert LastPress(more, i, t);
      assert more[k].pressed;
    } else {
      assert forall k :: 0 <= k < |more| ==> !more[k].pressed;
    }
  }

  /** Recent is the last press, or any press: in time they are the same. */
  lemma RecentIff(fs: seq<Fold>, f: Fold, st: Status, t: real)
    requires PressKept(fs, t) && InTime(fs + [f]) && f.pressed == st.pressed && f.now == st.now && st.now >= 0.0
    ensures Recent(st, t) <==> Steered(fs + [f], st.now)
  {
    var more, n := fs + [f], |fs|;
    if st.pressed {
      assert SteeredAt(more, n, st.now);
    } else if k :| 0 <= k < n && fs[k].pressed {
      var i: nat :| LastPress(fs, i, t);
      assert more[i] == fs[i];
      if Steered(more, st.now) {
        var j :| 0 <= j < |more| && SteeredAt(more, j, st.now);
        assert j <= i && (j < i ==> more[j].now <= more[i].now);
      }
      if Recent(st, t) {
        assert SteeredAt(more, i, st.now);
      }
    } else {
      assert forall j :: 0 <= j < |more| ==> !more[j].pressed;
    }
  }

  lemma {:induction false} PressesKept(ticks: seq<Tick>)
    ensures PressKept(Observed(ticks).folds, Observed(ticks).lastPressed)
    decreases |ticks|
  {
    if ticks != [] {
      var n := |ticks| - 1;
      var h, g := Observed(ticks[..n]), Observed(ticks);
      PressesKept(ticks[..n]);
      if g.folds != h.folds {
        PressStep(h.folds, g.folds[|h.folds|], h.lastPressed);
      }
    }
  }

  /** What the inputs of one tick say, apart from the driver's hand. */
  predicate Departs(st: Status) {
    || st.sat || Abs(st.angle) > 2.5
    || (st.latActive && (Abs(Round3(st.angle)) > 8.0 || (Abs(st.wanted) > 1.0 && Abs(st.wanted) > 1.2 * (0.001 + Abs(st.delivered)))))
  }

  lemma DepartsIff(st: Status)
    ensures Core(st) <==> Departs(st)
  {
    Ratio(Abs(st.wanted), 0.001 + Abs(st.delivered), 1.2);
  }

  lemma Ratio(w: real, d: real, k: real)
    requires d > 0.0
    ensures w / d > k <==> w > k * d
  {
    var q := w / d;
    assert q * d == w;
    if q > k { Product(q - k, d); } else if q < k { Product(k - q, d); }
    assert (q - k) * d == q * d - k * d;
  }

  lemma Product(x: real, y: real)
    requires x > 0.0 && y > 0.0
    ensures x * y > 0.0
  {
  }

  lemma LastFoldTrigger(h: History, st: Status)
    requires PressKept(h.folds, h.lastPressed) && InTime(h.folds + [FoldOf(h, st)]) && st.now >= 0.0
    ensures FoldOf(h, st).trig <==> Departs(st) && !Steered(h.folds + [FoldOf(h, st)], st.now)
  {
    DepartsIff(st);
    RecentIff(h.folds, FoldOf(h, st), st, h.lastPressed);
  }

  /** The tick that fold `k` is taken in. */
  function At(ticks: seq<Tick>, k: nat): Status
    requires 20 * k + 20 <= |ticks|
  {
    ticks[20 * k + 19].st
  }

  /** The driver did not steer in the tick of fold `j`, nor at a fold less than a second before. */
  predicate HandsOff(ticks: seq<Tick>, j: nat)
    requires 20 * j + 20 <= |ticks|
  {
    forall i :: 0 <= i <= j && At(ticks, i).pressed ==> At(ticks, j).now - At(ticks, i).now >= 1.0
  }

  lemma {:induction false} FoldTriggers(ticks: seq<Tick>, j: nat)
    requires InTime(Observed(ticks).folds) && 20 * j + 20 <= |ticks| && At(ticks, j).now >= 0.0
    ensures |Observed(ticks).folds| == |ticks| / 20
    ensures var fs := Observed(ticks).folds; fs[j].trig <==> Departs(At(ticks, j)) && !Steered(fs[..j + 1], At(ticks, j).now)
    decreases |ticks|
  {
    var n := |ticks| - 1;
    var front, t := ticks[..n], ticks[n];
    var h := Observed(front);
    WindowsHold(front);
    WindowsHold(ticks);
    FoldsGrow(h, t);
    if 20 * j + 20 <= n {
      FoldTriggers(front, j);
      StepWindow(h, front, t);
      assert Observed(ticks).folds[..j + 1] == h.folds[..j + 1];
    } else {
      PressesKept(front);
      var g := Gathered(h.(frame := h.frame + 1), t.r);
      assert Observed(ticks).folds == g.folds + [FoldOf(g, t.st)];
      LastFoldTrigger(g, t.st);
      assert Observed(ticks).folds[..j + 1] == Observed(ticks).folds;
    }
  }

  /**
   A fold is a trigger exactly if its tick reports saturation, an angle error above 2.5 degrees, or, while
   openpilot steers, one above 8 degrees or a car that turns less than five sixths of what is asked; and
   the driver did not steer in it or at a fold less than a second before.
   */
  lemma {:induction false} TriggersIff(ticks: seq<Tick>, j: nat)
    requires InTime(Observed(ticks).folds) && 20 * j + 20 <= |ticks| && At(ticks, j).now >= 0.0
    ensures |Observed(ticks).folds| == |ticks| / 20
    ensures Observed(ticks).folds[j].trig <==> Departs(At(ticks, j)) && HandsOff(ticks, j)
  {
    var fs := Observed(ticks).folds;
    FoldTriggers(ticks, j);
    forall i | 0 <= i <= j
      ensures SteeredAt(fs[..j + 1], i, At(ticks, j).now) <==> At(ticks, i).pressed && At(ticks, j).now - At(ticks, i).now < 1.0
    {
      FoldsAreTicks(ticks, i);
    }
    if !Steered(fs[..j + 1], At(ticks, j).now) {
      forall i | 0 <= i <= j && At(ticks, i).pressed ensures At(ticks, j).now - At(ticks, i).now >= 1.0 {
        assert !SteeredAt(fs[..j + 1], i, At(ticks, j).now);
      }
    } else {
      var i :| 0 <= i < |fs[..j + 1]| && SteeredAt(fs[..j + 1], i, At(ticks, j).now);
      assert At(ticks, i).pressed;
    }
  }

  /**
   The 8 degrees never decide: an error that large is above 2.5 degrees too. So while openpilot does not
   steer only saturation and an error above 2.5 degrees count, and while it does an undershoot besides.
   */
  lemma EightDegreesNeverDecide(st: Status)
    ensures Departs(st) <==>
              || st.sat || Abs(st.angle) > 2.5
              || (st.latActive && Abs(st.wanted) > 1.0 && Abs(st.wanted) > 1.2 * (0.001 + Abs(st.delivered)))
  {
    Round3IsClose(st.angle);
  }

  // ----- no trigger goes untold -----

  /** Fold `j` lies in an episode, or every fold since an episode's event was a trigger. */
  ghost predicate ToldBy(fs: seq<Fold>, e: Episode, j: nat) {
    e.arm <= j <= e.emit || (e.emit < j < |fs| && forall i :: e.emit < i <= j ==> fs[i].trig)
  }

  /** The episodes before `k` end before the one at `k` arms. */
  lemma {:induction false} EmitsAscend(fs: seq<Fold>, es: seq<Episode>, j: nat, k: nat)
    requires Chronicle(fs, es) && j < k < |es|
    ensures es[j].emit < es[k].arm
    decreases k
  {
    var c := EpisodesAreSeparated(fs, es, k - 1);
    if j < k - 1 {
      EmitsAscend(fs, es, j, k - 1);
      assert IsEpisode(fs, es[k - 1]);
    }
  }

  /** Up to a fold that a next episode could arm at, every trigger is told by the last episode before. */
  lemma ReadyTells(fs: seq<Fold>, last: Episode, arm: nat, j: nat)
    requires Ready(fs, Some(last.emit), arm) && last.emit < j < arm && fs[j].trig
    ensures ToldBy(fs, last, j)
  {
  }

  /** With the first `n` episodes: a trigger before the last of them ends is told by one of them. */
  lemma {:induction false} ToldUpTo(fs: seq<Fold>, es: seq<Episode>, n: nat, j: nat) returns (k: nat)
    requires Chronicle(fs, es) && 0 < n <= |es| && j <= es[n - 1].emit && j < |fs| && fs[j].trig
    ensures k < n && ToldBy(fs, es[k], j)
    decreases n
  {
    k := n - 1;
    assert IsEpisode(fs, es[k]) && Ready(fs, LastEmit(es[..k]), es[k].arm);
    if j < es[k].arm {
      if k == 0 {
        assert false;
      } else if j <= es[k - 1].emit {
        k := ToldUpTo(fs, es, n - 1, j);
      } else {
        assert LastEmit(es[..k]) == Some(es[k - 1].emit);
        ReadyTells(fs, es[k - 1], es[k].arm, j);
        k := k - 1;
      }
    }
  }

  lemma ToldBefore(fs: seq<Fold>, es: seq<Episode>, arm: nat, j: nat) returns (k: nat)
    requires Chronicle(fs, es) && Ready(fs, LastEmit(es), arm) && j < arm && j < |fs| && fs[j].trig
    ensures k < |es| && ToldBy(fs, es[k], j)
  {
    if es == [] {
      assert false;
    }
    k := |es| - 1;
    if j <= es[k].emit {
      k := ToldUpTo(fs, es, |es|, j);
    } else {
      ReadyTells(fs, es[k], arm, j);
    }
  }

  /** Fold `j` lies in an episode that was reported, in the one still open, or in an unbroken stretch after an event. */
  ghost predicate IsTold(fs: seq<Fold>, es: seq<Episode>, j: nat) {
    || (exists k :: 0 <= k < |es| && ToldBy(fs, es[k], j))
    || (exists arm: nat :: arm <= j && Open(fs, arm, |fs|))
  }

  lemma EveryTriggerIsTold(fs: seq<Fold>, es: seq<Episode>, j: nat)
    requires Chronicle(fs, es) && NothingMissed(fs, es) && j < |fs| && fs[j].trig
    ensures IsTold(fs, es, j)
  {
    if Ready(fs, LastEmit(es), |fs|) {
      var k := ToldBefore(fs, es, |fs|, j);
    } else if arm: nat :| Ready(fs, LastEmit(es), arm) && Open(fs, arm, |fs|) {
      if j < arm {
        var k := ToldBefore(fs, es, arm, j);
      }
    } else if j <= es[|es| - 1].emit {
      var k := ToldUpTo(fs, es, |es|, j);
    } else {
      assert ToldBy(fs, es[|es| - 1], j);
    }
  }

  /**
   In any run, with any publish failures: a tick that departs with the driver's hands off for a second lies
   in an episode that was reported, in the one still open, or in a stretch that triggers without pause from
   an event on. And an episode arms on nothing else.
   */
  lemma {:induction false} EveryDepartureIsTold(ticks: seq<Tick>, fs: seq<Fold>, es: seq<Episode>, j: nat)
    requires fs == Observed(ticks).folds && InTime(fs) && Chronicle(fs, es) && NothingMissed(fs, es)
    requires 20 * j + 20 <= |ticks| && At(ticks, j).now >= 0.0
    ensures Departs(At(ticks, j)) && HandsOff(ticks, j) ==> IsTold(fs, es, j)
    ensures forall k :: 0 <= k < |es| && es[k].arm == j ==> Departs(At(ticks, j)) && HandsOff(ticks, j)
  {
    TriggersIff(ticks, j);
    forall k | 0 <= k < |es| && es[k].arm == j ensures fs[j].trig {
      assert IsEpisode(fs, es[k]);
    }
    if fs[j].trig {
      EveryTriggerIsTold(fs, es, j);
    }
  }
}
