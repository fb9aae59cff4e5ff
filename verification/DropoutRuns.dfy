/**
 The dropout logger over whole runs: no more than ten records in any 60 s, every change of the ACC state
 counted, every record written once and in time.
 */
module DropoutRuns {
  import opened Wrappers
  import opened ChangeChannel
  import opened AccDropLogger

  datatype Tick = Tick(now: real, cs: CarState)

  predicate InTime(ticks: seq<Tick>) {
    forall i, j :: 0 <= i < j < |ticks| ==> ticks[i].now <= ticks[j].now
  }

  function Run(ticks: seq<Tick>): State {
    if ticks == [] then INITIAL
    else var last := ticks[|ticks| - 1]; Update(Run(ticks[..|ticks| - 1]), last.now, last.cs)
  }

  /** The ACC states as seen: none before the first tick with a valid CAN, then that of every tick. */
  function States(ticks: seq<Tick>): seq<AccState> {
    if ticks == [] then []
    else NextStates(States(ticks[..|ticks| - 1]), ticks[|ticks| - 1].cs)
  }

  function NextStates(states: seq<AccState>, cs: CarState): seq<AccState> {
    if states == [] && !cs.canValid then [] else states + [StateOf(cs)]
  }

  /** How often neighbouring states differ. */
  function Switches(states: seq<AccState>): nat {
    var n := |states|;
    if n < 2 then 0 else Switches(states[..n - 1]) + if states[n - 1] != states[n - 2] then 1 else 0
  }

  lemma SwitchesAppend(states: seq<AccState>, st: AccState)
    ensures Switches(states + [st])
         == Switches(states) + if states != [] && states[|states| - 1] != st then 1 else 0
  {
    assert (states + [st])[..|states|] == states;
  }

  ghost predicate Holds(s: State, states: seq<AccState>, now: real) {
    && s.acc == (if states == [] then None else Some(states[|states| - 1]))
    && RateOk(Times(Accepted(s)), s.recent, now)
    && Counted(s) == Switches(states)
    && (forall e :: e in Accepted(s) ==> e.was != e.now)
  }

  /** The changes of state that are in a record, or counted in one, or will be counted in the next. */
  function Counted(s: State): nat {
    |Accepted(s)| + Suppressed(Accepted(s)) + s.suppressed
  }

  ghost predicate Inv(s: State, states: seq<AccState>, now: real) {
    Holds(s, states, now) && forall e :: e in s.pending ==> now - e.mono < 1.0
  }

  lemma OnEdgeCounts(s: State, now: real, was: AccState, acc: AccState)
    requires RateOk(Times(Accepted(s)), s.recent, now)
    ensures Counted(OnEdge(s, now, was, acc)) == Counted(s) + 1
  {
    OnEdgeKeeps(s, now, was, acc);
    SuppressedAppend(Accepted(s), Event(now, was, acc, s.suppressed));
  }

  lemma SenseSame(s: State, acc: Option<AccState>)
    ensures var r := s.(acc := acc); Accepted(r) == Accepted(s) && r.recent == s.recent && Counted(r) == Counted(s)
  {
  }

  lemma SenseKeeps(s: State, states: seq<AccState>, now: real, cs: CarState)
    requires Holds(s, states, now)
    ensures Holds(Sense(s, now, cs), NextStates(states, cs), now)
  {
    SwitchesAppend(states, StateOf(cs));
    if IsEdge(s.acc, cs) {
      OnEdgeKeeps(s, now, s.acc.value, StateOf(cs));
      OnEdgeCounts(s, now, s.acc.value, StateOf(cs));
      SenseSame(OnEdge(s, now, s.acc.value, StateOf(cs)), Seen(s.acc, cs));
    } else {
      SenseSame(s, Seen(s.acc, cs));
    }
  }

  lemma EmitKeeps(s: State, states: seq<AccState>, now: real)
    requires Holds(s, states, now)
    ensures Inv(EmitDue(s, now), states, now)
  {
    PendingOrdered(s, now);
    EmitDueKeeps(s, now);
    HoldsAs(s, EmitDue(s, now), states, now);
  }

  /** What holds depends only on the accepted events, the state and the limiter. */
  lemma HoldsAs(s: State, r: State, states: seq<AccState>, now: real)
    requires Holds(s, states, now) && Accepted(r) == Accepted(s)
    requires (r.acc, r.recent, r.suppressed) == (s.acc, s.recent, s.suppressed)
    ensures Holds(r, states, now)
  {
  }

  lemma UpdateKeeps(s: State, states: seq<AccState>, now: real, cs: CarState)
    requires Holds(s, states, now)
    ensures Inv(Update(s, now, cs), NextStates(states, cs), now)
  {
    SenseKeeps(s, states, now, cs);
    EmitKeeps(Sense(s, now, cs), NextStates(states, cs), now);
  }

  lemma Later(s: State, states: seq<AccState>, now: real, later: real)
    requires Holds(s, states, now) && now <= later
    ensures Holds(s, states, later)
  {
    RateLater(Times(Accepted(s)), s.recent, now, later);
  }

  lemma InitialHolds(now: real)
    ensures Holds(INITIAL, [], now)
  {
  }

  /** The state before the last tick, at the time of that tick. */
  lemma {:induction false} BeforeLast(ticks: seq<Tick>)
    requires InTime(ticks) && ticks != []
    ensures var n := |ticks| - 1; Holds(Run(ticks[..n]), States(ticks[..n]), ticks[n].now)
    decreases |ticks|, 0
  {
    var n := |ticks| - 1;
    if n == 0 {
      InitialHolds(ticks[0].now);
    } else {
      RunKeeps(ticks[..n]);
      Later(Run(ticks[..n]), States(ticks[..n]), ticks[..n][n - 1].now, ticks[n].now);
    }
  }

  lemma {:induction false} RunKeeps(ticks: seq<Tick>)
    requires InTime(ticks) && ticks != []
    ensures Inv(Run(ticks), States(ticks), ticks[|ticks| - 1].now)
    decreases |ticks|, 1
  {
    var n := |ticks| - 1;
    BeforeLast(ticks);
    UpdateKeeps(Run(ticks[..n]), States(ticks[..n]), ticks[n].now, ticks[n].cs);
  }

  /** No more than ten records belong to any 60 s, and they are in the order of their edges. */
  lemma AtMostTenPerMinute(ticks: seq<Tick>, i: nat, j: nat)
    requires InTime(ticks) && i < j < |Accepted(Run(ticks))|
    ensures var a := Accepted(Run(ticks)); a[i].mono <= a[j].mono && (j - i >= 10 ==> a[j].mono - a[i].mono > 60.0)
  {
    RunKeeps(ticks);
    var times := Times(Accepted(Run(ticks)));
    if j - i >= 10 {
      assert times[i + 10] - times[i] > 60.0;
      assert times[j] >= times[i + 10];
    } else {
      assert times[i] <= times[j];
    }
  }

  /** Every change of the ACC state is a record or is counted in one, except those still to be counted in the next. */
  lemma EveryChangeIsCounted(ticks: seq<Tick>)
    requires InTime(ticks)
    ensures Counted(Run(ticks)) == Switches(States(ticks))
  {
    if ticks != [] { RunKeeps(ticks); }
  }

  /** One tick: records are handed over once, in order, on the first tick 1 s after their edge or later. */
  lemma EmittedOnceInOrder(ticks: seq<Tick>)
    requires InTime(ticks) && ticks != []
    ensures var n := |ticks| - 1;
      var was, s := Run(ticks[..n]), Run(ticks);
      && Accepted(was) <= Accepted(s) && was.emitted <= s.emitted
      && (forall i :: |was.emitted| <= i < |s.emitted| ==> ticks[n].now - s.emitted[i].mono >= 1.0)
      && (forall e :: e in s.pending ==> ticks[n].now - e.mono < 1.0)
  {
    var n := |ticks| - 1;
    var s, last := Run(ticks[..n]), ticks[n];
    BeforeLast(ticks);
    if IsEdge(s.acc, last.cs) { OnEdgeKeeps(s, last.now, s.acc.value, StateOf(last.cs)); }
    SenseKeeps(s, States(ticks[..n]), last.now, last.cs);
    var r := Sense(s, last.now, last.cs);
    PendingOrdered(r, last.now);
    EmitDueKeeps(r, last.now);
  }

  // ----- what the records say -----

  /** The state of the ACC by its signals: a fault hides everything, and being engaged hides being available. */
  predicate Shows(cs: CarState, st: AccState) {
    match st
    case Fault => cs.accFaulted
    case Active => cs.enabled && !cs.accFaulted
    case Standby => cs.available && !cs.enabled && !cs.accFaulted
    case Off => !cs.available && !cs.enabled && !cs.accFaulted
  }

  /** The event was taken at tick `j`: from what the tick before showed to what this one shows. */
  predicate TakenAt(ticks: seq<Tick>, j: nat, e: Event) {
    && 0 < j < |ticks| && e.mono == ticks[j].now
    && Shows(ticks[j - 1].cs, e.was) && Shows(ticks[j].cs, e.now) && e.was != e.now
    && exists i :: 0 <= i < j && ticks[i].cs.canValid
  }

  predicate IsChange(ticks: seq<Tick>, e: Event) {
    exists j :: 0 < j < |ticks| && TakenAt(ticks, j, e)
  }

  lemma ChangeAppend(ticks: seq<Tick>, t: Tick, e: Event)
    requires IsChange(ticks, e)
    ensures IsChange(ticks + [t], e)
  {
    var more := ticks + [t];
    var j :| 0 < j < |ticks| && TakenAt(ticks, j, e);
    var i :| 0 <= i < j && ticks[i].cs.canValid;
    assert more[i] == ticks[i] && more[j] == ticks[j] && more[j - 1] == ticks[j - 1];
    assert TakenAt(more, j, e);
  }

  /** The state kept is what the last tick showed, once the CAN was valid. */
  lemma {:induction false} KeptIsShown(ticks: seq<Tick>)
    ensures var acc := Run(ticks).acc;
      && (acc.Some? <==> exists i :: 0 <= i < |ticks| && ticks[i].cs.canValid)
      && (acc.Some? ==> Shows(ticks[|ticks| - 1].cs, acc.value))
    decreases |ticks|
  {
    if ticks != [] {
      var n := |ticks| - 1;
      KeptIsShown(ticks[..n]);
      EmitsNothingElse(Sense(Run(ticks[..n]), ticks[n].now, ticks[n].cs), ticks[n].now);
      if i :| 0 <= i < |ticks| && ticks[i].cs.canValid && i < n {
        assert ticks[..n][i] == ticks[i];
      }
    }
  }

  lemma {:induction false} EmitsNothingElse(s: State, now: real)
    ensures EmitDue(s, now).acc == s.acc && Accepted(EmitDue(s, now)) == Accepted(s)
    decreases |s.pending|
  {
    if s.pending != [] && now - s.pending[0].mono >= 1.0 {
      var s' := s.(pending := s.pending[1..], emitted := s.emitted + [s.pending[0]]);
      assert Accepted(s') == Accepted(s);
      EmitsNothingElse(s', now);
    }
  }

  /** Every record, written or waiting, is of a change between two neighbouring ticks, after a tick with a valid CAN. */
  lemma {:induction false} RecordsAreChanges(ticks: seq<Tick>)
    ensures forall e :: e in Accepted(Run(ticks)) ==> IsChange(ticks, e)
    decreases |ticks|
  {
    if ticks != [] {
      var n := |ticks| - 1;
      var front, t := ticks[..n], ticks[n];
      var s := Run(front);
      assert ticks == front + [t];
      RecordsAreChanges(front);
      KeptIsShown(front);
      EmitsNothingElse(Sense(s, t.now, t.cs), t.now);
      forall e | e in Accepted(Run(ticks)) ensures IsChange(ticks, e) {
        if e in Accepted(s) {
          ChangeAppend(front, t, e);
        } else {
          NewRecord(s, t, e);
          var i :| 0 <= i < n && front[i].cs.canValid;
          assert ticks[i] == front[i] && ticks[n - 1] == front[n - 1];
          assert TakenAt(ticks, n, e);
        }
      }
    }
  }

  lemma NewRecord(s: State, t: Tick, e: Event)
    requires e in Accepted(Sense(s, t.now, t.cs)) && e !in Accepted(s)
    ensures s.acc.Some? && e.was == s.acc.value && e.now == StateOf(t.cs) && e.mono == t.now && e.was != e.now
  {
  }
}
