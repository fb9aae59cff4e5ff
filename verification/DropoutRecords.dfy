/**
 The dropout logger and its channels together: a record is built on the tick that emits its event, from
 everything fed so far. At the pace of the card loop every record is complete.
 */
module DropoutRecords {
  import opened Wrappers
  import opened ChangeChannel
  import opened ChannelRecords
  import opened AccDropLogger
  import opened DropoutRuns

  /** A tick of the card loop, and what it feeds to one channel; a channel is fed at most once a tick. */
  datatype CardTick = CardTick(tick: Tick, fed: Option<seq<Signal>>)

  function Ticks(cts: seq<CardTick>): seq<Tick> {
    seq(|cts|, i requires 0 <= i < |cts| => cts[i].tick)
  }

  /** Everything fed to the channel. */
  function Fed(cts: seq<CardTick>): seq<Sample> {
    if cts == [] then []
    else
      var last := cts[|cts| - 1];
      Fed(cts[..|cts| - 1]) + if last.fed.Some? then [Sample(last.tick.now, last.fed.value)] else []
  }

  /** Ticks in time, of which no 511 in a row come within less than 4 s: at 100 Hz they span 5.1 s. */
  ghost predicate Paced(cts: seq<CardTick>) {
    && (forall i, j :: 0 <= i < j < |cts| ==> cts[i].tick.now <= cts[j].tick.now)
    && (forall i, j :: 0 <= i && i + 510 <= j < |cts| ==> cts[j].tick.now - cts[i].tick.now >= 4.0)
  }

  /** Samples that are `k` apart were fed on ticks at least `k` apart. */
  lemma {:induction false} FedFar(cts: seq<CardTick>, i: nat, k: nat) returns (p: nat, q: nat)
    requires i + k < |Fed(cts)|
    ensures p + k <= q < |cts| && Fed(cts)[i].t == cts[p].tick.now && Fed(cts)[i + k].t == cts[q].tick.now
    decreases |cts|, k
  {
    var front := cts[..|cts| - 1];
    if i + k < |Fed(front)| {
      p, q := FedFar(front, i, k);
    } else if k == 0 {
      p, q := |cts| - 1, |cts| - 1;
    } else {
      p, q := FedFar(front, i, k - 1);
      q := |cts| - 1;
    }
  }

  lemma FedIsUnhurried(cts: seq<CardTick>)
    requires Paced(cts)
    ensures Ordered(Fed(cts)) && Unhurried(Fed(cts))
  {
    var h := Fed(cts);
    forall i, j | 0 <= i < j < |h| ensures h[i].t <= h[j].t {
      var p, q := FedFar(cts, i, j - i);
    }
    forall i, j | 0 <= i && i + 510 <= j < |h| ensures h[j].t - h[i].t >= 4.0 {
      var p, q := FedFar(cts, i, j - i);
    }
  }

  /** The events emitted on the last tick were still waiting on the one before, less than 1 s after their edge. */
  lemma EmittedWasWaiting(ticks: seq<Tick>, i: nat)
    requires InTime(ticks) && ticks != []
    requires |Run(ticks[..|ticks| - 1]).emitted| <= i < |Run(ticks).emitted|
    ensures |ticks| > 1 && ticks[|ticks| - 2].now - Run(ticks).emitted[i].mono < 1.0
  {
    EmittedOnceInOrder(ticks);
    assert Accepted(Run(ticks))[i] == Run(ticks).emitted[i];
    NotNew(ticks, i);
    WasPending(Run(ticks[..|ticks| - 1]), Run(ticks), i);
    PendingIsFresh(ticks[..|ticks| - 1], Run(ticks).emitted[i]);
  }

  lemma WasPending(was: State, s: State, i: nat)
    requires Accepted(was) <= Accepted(s) && |was.emitted| <= i < |s.emitted| && i < |Accepted(was)|
    ensures s.emitted[i] in was.pending
  {
    assert s.emitted[i] == Accepted(s)[i] == Accepted(was)[i] == was.pending[i - |was.emitted|];
  }

  lemma PendingIsFresh(ticks: seq<Tick>, e: Event)
    requires InTime(ticks) && e in Run(ticks).pending
    ensures ticks != [] && ticks[|ticks| - 1].now - e.mono < 1.0
  {
    SomeTicks(ticks);
    RunKeeps(ticks);
  }

  lemma NotNew(ticks: seq<Tick>, i: nat)
    requires InTime(ticks) && ticks != [] && i < |Accepted(Run(ticks))|
    requires Accepted(Run(ticks))[i].mono != ticks[|ticks| - 1].now
    ensures i < |Accepted(Run(ticks[..|ticks| - 1]))|
  {
    AcceptedNow(ticks);
  }

  lemma SomeTicks(ticks: seq<Tick>)
    requires Accepted(Run(ticks)) != []
    ensures ticks != []
  {
  }

  /** A tick accepts at most one event, with its own time. */
  lemma AcceptedNow(ticks: seq<Tick>)
    requires InTime(ticks) && ticks != []
    ensures var n := |ticks| - 1; var was, now := Accepted(Run(ticks[..n])), Accepted(Run(ticks));
      now == was || (|now| == |was| + 1 && was <= now && now[|was|].mono == ticks[n].now)
  {
    var n := |ticks| - 1;
    var s, last := Run(ticks[..n]), ticks[n];
    BeforeLast(ticks);
    if IsEdge(s.acc, last.cs) { OnEdgeKeeps(s, last.now, s.acc.value, StateOf(last.cs)); }
    SenseKeeps(s, States(ticks[..n]), last.now, last.cs);
    PendingOrdered(Sense(s, last.now, last.cs), last.now);
    EmitDueKeeps(Sense(s, last.now, last.cs), last.now);
  }

  lemma PacedInTime(cts: seq<CardTick>)
    requires Paced(cts)
    ensures InTime(Ticks(cts))
  {
  }

  lemma TicksFront(cts: seq<CardTick>)
    requires cts != []
    ensures Ticks(cts)[..|cts| - 1] == Ticks(cts[..|cts| - 1])
  {
  }

  /** When a record is built, only the newest sample can be past the end of its window. */
  lemma FedBeforeEnd(cts: seq<CardTick>, i: nat)
    requires Paced(cts) && cts != []
    requires |Run(Ticks(cts[..|cts| - 1])).emitted| <= i < |Run(Ticks(cts)).emitted|
    ensures BeforeEnd(Fed(cts), Run(Ticks(cts)).emitted[i].mono)
  {
    PacedInTime(cts);
    TicksFront(cts);
    EmittedWasWaiting(Ticks(cts), i);
    FedBefore(cts, Run(Ticks(cts)).emitted[i].mono);
  }

  lemma {:induction false} FedBefore(cts: seq<CardTick>, edge: real)
    requires Paced(cts) && |cts| > 1 && cts[|cts| - 2].tick.now < edge + 1.0
    ensures BeforeEnd(Fed(cts), edge)
  {
    var h := Fed(cts);
    forall i | 0 <= i < |h| - 1 ensures h[i].t < edge + 1.0 {
      var p, q := FedFar(cts, i, |h| - 1 - i);
      assert p <= |cts| - 2;
    }
  }

  /**
   Whenever an event is emitted, the record of every channel reads back right everywhere in its window. It
   has its incoming state, or nothing of the channel was ever dropped; it never says "truncated".
   */
  lemma RecordsAreComplete(cols: seq<string>, cts: seq<CardTick>, i: nat, isCan: bool)
    requires Distinct(cols) && cols != [] && Fits(cols, Fed(cts)) && Paced(cts) && cts != []
    requires |Run(Ticks(cts[..|cts| - 1])).emitted| <= i < |Run(Ticks(cts)).emitted|
    ensures var h, edge := Fed(cts), Run(Ticks(cts)).emitted[i].mono; var r := RecordOf(cols, h, edge, isCan);
      && r.why != Some(Truncated(512))
      && (r.into.Some? || Dropped(h) == 0)
      && (forall x :: OnClock(x) ==> RightAt(cols, h, edge, isCan, x))
  {
    FedIsUnhurried(cts);
    FedBeforeEnd(cts, i);
    UnhurriedIsRight(cols, Fed(cts), Run(Ticks(cts)).emitted[i].mono, isCan);
  }

  lemma UnhurriedIsRight(cols: seq<string>, h: seq<Sample>, edge: real, isCan: bool)
    requires Distinct(cols) && cols != [] && Fits(cols, h) && Ordered(h) && Unhurried(h) && BeforeEnd(h, edge)
    ensures var r := RecordOf(cols, h, edge, isCan);
      && r.why != Some(Truncated(512))
      && (r.into.Some? || Dropped(h) == 0)
      && (forall x :: OnClock(x) ==> RightAt(cols, h, edge, isCan, x))
  {
    NeverTruncated(cols, h, edge, isCan);
    if RecordOf(cols, h, edge, isCan).into.Some? {
      Lossless(cols, h, edge, isCan);
    } else {
      forall x | OnClock(x) ensures RightAt(cols, h, edge, isCan, x) {
        NothingLost(cols, h, edge, isCan, x);
      }
    }
  }
}
