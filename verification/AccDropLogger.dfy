/**
 The stock-ACC dropout logger: which changes of the ACC state become records, how many are suppressed
 by the rate limit and where they are counted, and when a record is written.
 */
module AccDropLogger {
  import opened Wrappers
  import opened ChangeChannel

  const MAX_EVENTS_PER_MIN: nat := 10
  const MINUTE := 60.0

  datatype AccState = Off | Standby | Active | Fault

  datatype CarState = CarState(accFaulted: bool, enabled: bool, available: bool, canValid: bool)

  function StateOf(cs: CarState): AccState {
    if cs.accFaulted then Fault else if cs.enabled then Active else if cs.available then Standby else Off
  }

  datatype Event = Event(mono: real, was: AccState, now: AccState, suppressed: nat)

  /** The logger; `emitted` are the events handed to the writer, in order. */
  datatype State = State(
    acc: Option<AccState>, pending: seq<Event>, recent: seq<real>, suppressed: nat, emitted: seq<Event>)

  const INITIAL := State(None, [], [], 0, [])

  function Purge(recent: seq<real>, now: real): seq<real> {
    if recent != [] && now - recent[0] > MINUTE then Purge(recent[1..], now) else recent
  }

  function OnEdge(s: State, now: real, was: AccState, acc: AccState): State {
    var recent := Purge(s.recent, now);
    if |recent| >= MAX_EVENTS_PER_MIN then s.(recent := recent, suppressed := s.suppressed + 1)
    else s.(recent := recent + [now], pending := s.pending + [Event(now, was, acc, s.suppressed)], suppressed := 0)
  }

  function EmitDue(s: State, now: real): State
    decreases |s.pending|
  {
    if s.pending != [] && now - s.pending[0].mono >= POST_S
    then EmitDue(s.(pending := s.pending[1..], emitted := s.emitted + [s.pending[0]]), now)
    else s
  }

  /** The ACC state a tick is seen in; there is none until the CAN is first valid. */
  function Seen(s: Option<AccState>, cs: CarState): Option<AccState> {
    if s.None? && !cs.canValid then None else Some(StateOf(cs))
  }

  predicate IsEdge(s: Option<AccState>, cs: CarState) {
    s.Some? && Seen(s, cs) != s
  }

  /** What a tick does up to the emission of what is due. */
  function Sense(s: State, now: real, cs: CarState): State {
    (if IsEdge(s.acc, cs) then OnEdge(s, now, s.acc.value, StateOf(cs)) else s).(acc := Seen(s.acc, cs))
  }

  /** One tick of the card loop. */
  function Update(s: State, now: real, cs: CarState): State {
    EmitDue(Sense(s, now, cs), now)
  }

  // ----- the same, step by step -----

  class Logger {
    var acc: Option<AccState>
    var pending: seq<Event>
    var recent: seq<real>
    var suppressed: nat
    var emitted: seq<Event>

    ghost function Now(): State
      reads this
    {
      State(acc, pending, recent, suppressed, emitted)
    }

    constructor ()
      ensures Now() == INITIAL
    {
      acc, pending, recent, suppressed, emitted := None, [], [], 0, [];
    }

    method HandleEdge(now: real, was: AccState, st: AccState)
      modifies this`pending, this`recent, this`suppressed
      ensures Now() == OnEdge(old(Now()), now, was, st)
    {
      while recent != [] && now - recent[0] > MINUTE
        invariant Purge(recent, now) == Purge(old(recent), now)
        invariant pending == old(pending) && suppressed == old(suppressed)
        decreases |recent|
      {
        recent := recent[1..];
      }
      if |recent| >= MAX_EVENTS_PER_MIN {
        suppressed := suppressed + 1;
        return;
      }
      recent := recent + [now];
      pending := pending + [Event(now, was, st, suppressed)];
      suppressed := 0;
    }

    method Tick(now: real, cs: CarState)
      modifies this
      ensures Now() == Update(old(Now()), now, cs)
    {
      var st := if acc.None? && !cs.canValid then None else Some(StateOf(cs));
      if acc.Some? && st != acc {
        HandleEdge(now, acc.value, StateOf(cs));
      }
      acc := st;
      ghost var sensed := Now();
      assert sensed == Sense(old(Now()), now, cs);
      while pending != [] && now - pending[0].mono >= POST_S
        invariant EmitDue(Now(), now) == EmitDue(sensed, now)
        decreases |pending|
      {
        emitted := emitted + [pending[0]];
        pending := pending[1..];
      }
    }
  }

  // ----- what every run keeps -----

  /** The events accepted so far, in order. */
  function Accepted(s: State): seq<Event> {
    s.emitted + s.pending
  }

  function Times(acc: seq<Event>): seq<real> {
    seq(|acc|, i requires 0 <= i < |acc| => acc[i].mono)
  }

  /** At most 10 events in any 60 s, and `recent` remembers all that matter for the next ones. */
  ghost predicate RateOk(times: seq<real>, recent: seq<real>, now: real) {
    && |recent| <= |times| && |recent| <= 10 && recent == times[|times| - |recent|..]
    && (forall i :: 0 <= i < |times| - |recent| ==> now - times[i] > 60.0)
    && (forall i :: 0 <= i < |times| ==> times[i] <= now)
    && (forall i, j :: 0 <= i < j < |times| ==> times[i] <= times[j])
    && (forall i, j :: 0 <= i < j < |times| && j == i + 10 ==> times[j] - times[i] > 60.0)
  }

  lemma RateLater(times: seq<real>, recent: seq<real>, now: real, later: real)
    requires RateOk(times, recent, now) && now <= later
    ensures RateOk(times, recent, later)
  {
  }

  lemma {:induction false} PurgeExact(times: seq<real>, recent: seq<real>, now: real)
    requires RateOk(times, recent, now)
    ensures RateOk(times, Purge(recent, now), now)
    ensures forall t :: t in Purge(recent, now) ==> now - t <= 60.0
    ensures |Purge(recent, now)| >= 10
       <==> |times| >= 10 && now - times[|times| - 10] <= 60.0
    decreases |recent|
  {
    if recent != [] && now - recent[0] > 60.0 {
      assert recent[1..] == times[|times| - |recent[1..]|..];
      PurgeExact(times, recent[1..], now);
    } else {
      forall t | t in recent ensures now - t <= 60.0 {}
    }
  }

  lemma RateAppend(times: seq<real>, recent: seq<real>, now: real)
    requires RateOk(times, recent, now) && |recent| < 10
    ensures RateOk(times + [now], recent + [now], now)
  {
    var longer := times + [now];
    assert recent + [now] == longer[|longer| - |recent + [now]|..];
    forall i, j | 0 <= i < j < |longer| && j == i + 10 ensures longer[j] - longer[i] > 60.0 {
      if j == |times| { assert i < |times| - |recent|; }
    }
  }

  function Suppressed(acc: seq<Event>): nat {
    if acc == [] then 0 else Suppressed(acc[..|acc| - 1]) + acc[|acc| - 1].suppressed
  }

  lemma SuppressedAppend(acc: seq<Event>, e: Event)
    ensures Suppressed(acc + [e]) == Suppressed(acc) + e.suppressed
  {
    assert (acc + [e])[..|acc|] == acc;
  }

  lemma {:induction false} EmitDueKeeps(s: State, now: real)
    requires forall i, j :: 0 <= i < j < |s.pending| ==> s.pending[i].mono <= s.pending[j].mono
    ensures var r := EmitDue(s, now);
      && Accepted(r) == Accepted(s) && s.emitted <= r.emitted
      && (r.acc, r.recent, r.suppressed) == (s.acc, s.recent, s.suppressed)
      && (forall i :: |s.emitted| <= i < |r.emitted| ==> now - r.emitted[i].mono >= 1.0)
      && (forall e :: e in r.pending ==> now - e.mono < 1.0)
    decreases |s.pending|
  {
    if s.pending != [] && now - s.pending[0].mono >= 1.0 {
      var s' := s.(pending := s.pending[1..], emitted := s.emitted + [s.pending[0]]);
      assert Accepted(s') == Accepted(s);
      EmitDueKeeps(s', now);
      var r := EmitDue(s, now);
      assert r.emitted[|s.emitted|] == s'.emitted[|s.emitted|];
    }
  }

  lemma AcceptedAppend(s: State, e: Event, recent: seq<real>)
    ensures var r := s.(recent := recent, pending := s.pending + [e], suppressed := 0);
      Accepted(r) == Accepted(s) + [e] && Times(Accepted(r)) == Times(Accepted(s)) + [e.mono]
  {
    var r := s.(recent := recent, pending := s.pending + [e], suppressed := 0);
    assert Accepted(r) == Accepted(s) + [e];
  }

  /** The ten newest events before an edge at `now` all lie in the 60 s before it. */
  ghost predicate Full(s: State, now: real) {
    var a := Accepted(s);
    |a| >= 10 && now - a[|a| - 10].mono <= 60.0
  }

  lemma PurgeExactly(s: State, now: real)
    requires RateOk(Times(Accepted(s)), s.recent, now)
    ensures RateOk(Times(Accepted(s)), Purge(s.recent, now), now)
    ensures |Purge(s.recent, now)| >= 10 <==> Full(s, now)
  {
    PurgeExact(Times(Accepted(s)), s.recent, now);
    TenthNewest(Accepted(s));
  }

  lemma TenthNewest(a: seq<Event>)
    ensures |Times(a)| == |a|
    ensures |a| >= 10 ==> Times(a)[|a| - 10] == a[|a| - 10].mono
  {
  }

  /** An edge is accepted exactly if fewer than ten were in the last 60 s; otherwise it is counted. */
  lemma OnEdgeKeeps(s: State, now: real, was: AccState, acc: AccState)
    requires RateOk(Times(Accepted(s)), s.recent, now)
    ensures var r := OnEdge(s, now, was, acc);
      && RateOk(Times(Accepted(r)), r.recent, now) && r.emitted == s.emitted && r.acc == s.acc
      && Accepted(r) == (if Full(s, now) then Accepted(s) else Accepted(s) + [Event(now, was, acc, s.suppressed)])
      && r.suppressed == (if Full(s, now) then s.suppressed + 1 else 0)
  {
    var recent := Purge(s.recent, now);
    PurgeExactly(s, now);
    if |recent| < 10 {
      RateAppend(Times(Accepted(s)), recent, now);
      AcceptedAppend(s, Event(now, was, acc, s.suppressed), recent + [now]);
    }
  }

  lemma PendingOrdered(s: State, now: real)
    requires RateOk(Times(Accepted(s)), s.recent, now)
    ensures forall i, j :: 0 <= i < j < |s.pending| ==> s.pending[i].mono <= s.pending[j].mono
  {
    var times, k := Times(Accepted(s)), |s.emitted|;
    forall i, j | 0 <= i < j < |s.pending| ensures s.pending[i].mono <= s.pending[j].mono {
      assert times[k + i] == s.pending[i].mono && times[k + j] == s.pending[j].mono;
    }
  }
}
