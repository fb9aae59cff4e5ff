/**
 The asynchronous parameter writer: one producer pushes puts onto a queue and starts a writer thread on
 demand; the writer pops and stores until it finds the queue empty. Every interleaving of the atomic steps.
 */
module AsyncParams {
  import opened Wrappers

  datatype Item = Item(key: string, value: string)

  /** A put that was carried out; `stored` when its file replaced the old one. */
  datatype Put = Put(item: Item, stored: bool)

  /** A writer is about to pop, holds an item, has found the queue empty, or its future is ready. */
  datatype Writer = Popping | Writing(item: Item) | Exiting | Done

  /** `checking`: the producer has pushed and has not looked at the future yet. */
  datatype State = State(
    queue: seq<Item>, checking: bool, writers: seq<Writer>, future: Option<nat>, store: map<string, string>,
    pushed: seq<Item>, puts: seq<Put>, missed: bool)

  const INITIAL := State([], false, [], None, map[], [], [], false)

  datatype Event = Push(item: Item) | Check | Pop(w: nat) | Store(w: nat, stored: bool) | Finish(w: nat)

  predicate Ready(s: State) {
    s.future.None? || (s.future.value < |s.writers| && s.writers[s.future.value].Done?)
  }

  /** The future's writer has found the queue empty but is not done. */
  predicate IsExiting(s: State) {
    s.future.Some? && s.future.value < |s.writers| && s.writers[s.future.value].Exiting?
  }

  function PushStep(s: State, item: Item): State {
    s.(queue := s.queue + [item], pushed := s.pushed + [item], checking := true)
  }

  /** Starts a writer if none is running; `missed` notes that one was running which will not pop again. */
  function CheckStep(s: State): State {
    if Ready(s) then
      s.(writers := s.writers + [Popping], future := Some(|s.writers|), checking := false, missed := false)
    else s.(checking := false, missed := IsExiting(s) && s.queue != [])
  }

  function PopStep(s: State, w: nat): State
    requires w < |s.writers|
  {
    if s.queue == [] then s.(writers := s.writers[w := Exiting])
    else s.(writers := s.writers[w := Writing(s.queue[0])], queue := s.queue[1..])
  }

  function StoreStep(s: State, w: nat, stored: bool): State
    requires w < |s.writers| && s.writers[w].Writing?
  {
    var item := s.writers[w].item;
    s.(writers := s.writers[w := Popping], puts := s.puts + [Put(item, stored)],
       store := if stored then s.store[item.key := item.value] else s.store)
  }

  /** One atomic step of the producer or of a writer; a step that is not enabled does nothing. */
  function Next(s: State, e: Event): State {
    match e
    case Push(item) => if s.checking then s else PushStep(s, item)
    case Check => if s.checking then CheckStep(s) else s
    case Pop(w) => if w < |s.writers| && s.writers[w].Popping? then PopStep(s, w) else s
    case Store(w, stored) => if w < |s.writers| && s.writers[w].Writing? then StoreStep(s, w, stored) else s
    case Finish(w) => if w < |s.writers| && s.writers[w].Exiting? then s.(writers := s.writers[w := Done]) else s
  }

  // ----- the same on the objects -----

  class SafeQueue<T> {
    var q: seq<T>

    constructor ()
      ensures q == []
    {
      q := [];
    }

    method Push(v: T)
      modifies this
      ensures q == old(q) + [v]
    {
      q := q + [v];
    }

    /** With no timeout: takes the oldest element, or says that there is none. */
    method TryPop() returns (v: Option<T>)
      modifies this
      ensures old(q) == [] ==> v.None? && q == []
      ensures old(q) != [] ==> v.Some? && [v.value] + q == old(q)
    {
      if q == [] {
        return None;
      }
      v := Some(q[0]);
      q := q[1..];
    }
  }

  class Params {
    const queue: SafeQueue<Item>
    var checking: bool
    var writers: seq<Writer>
    var future: Option<nat>
    var store: map<string, string>
    ghost var pushed: seq<Item>
    ghost var puts: seq<Put>
    ghost var missed: bool

    ghost function Now(): State
      reads this, queue
    {
      State(queue.q, checking, writers, future, store, pushed, puts, missed)
    }

    constructor ()
      ensures Now() == INITIAL && fresh(queue)
    {
      queue := new SafeQueue<Item>();
      checking, writers, future, store, pushed, puts, missed := false, [], None, map[], [], [], false;
    }

    /** The first half of a non-blocking put. */
    method PushItem(item: Item)
      requires !checking
      modifies this, queue
      ensures Now() == Next(old(Now()), Event.Push(item))
    {
      queue.Push(item);
      checking := true;
      pushed := pushed + [item];
    }

    /** The second half: a writer is started on demand. */
    method CheckFuture()
      requires checking
      modifies this
      ensures Now() == Next(old(Now()), Check)
    {
      missed := !Ready(Now()) && IsExiting(Now()) && queue.q != [];
      if future.None? || (future.value < |writers| && writers[future.value].Done?) {
        future := Some(|writers|);
        writers := writers + [Popping];
      }
      checking := false;
    }

    /** A writer's turn of its loop: the pop. */
    method WriterPop(w: nat)
      requires w < |writers| && writers[w].Popping?
      modifies this, queue
      ensures Now() == Next(old(Now()), Pop(w))
    {
      var p := queue.TryPop();
      writers := writers[w := if p.Some? then Writing(p.value) else Exiting];
    }

    /** A writer's turn of its loop: the put, which replaces the file or leaves it. */
    method WriterPut(w: nat, stored: bool)
      requires w < |writers| && writers[w].Writing?
      modifies this
      ensures Now() == Next(old(Now()), Store(w, stored))
    {
      var item := writers[w].item;
      if stored {
        store := store[item.key := item.value];
      }
      puts := puts + [Put(item, stored)];
      writers := writers[w := Popping];
    }

    /** The writer has returned and its future is ready. */
    method WriterFinish(w: nat)
      requires w < |writers| && writers[w].Exiting?
      modifies this
      ensures Now() == Next(old(Now()), Finish(w))
    {
      writers := writers[w := Done];
    }
  }

  // ----- every interleaving -----

  function Items(puts: seq<Put>): seq<Item> {
    seq(|puts|, i requires 0 <= i < |puts| => puts[i].item)
  }

  /** The value a key has after the puts: that of its last stored one. */
  function LastValue(puts: seq<Put>, key: string): Option<string> {
    if puts == [] then None
    else
      var p := puts[|puts| - 1];
      if p.stored && p.item.key == key then Some(p.item.value) else LastValue(puts[..|puts| - 1], key)
  }

  function Lookup(store: map<string, string>, key: string): Option<string> {
    if key in store then Some(store[key]) else None
  }

  function Held(s: State): seq<Item> {
    if s.writers != [] && s.writers[|s.writers| - 1].Writing? then [s.writers[|s.writers| - 1].item] else []
  }

  ghost predicate OneWriter(s: State) {
    && s.future == (if s.writers == [] then None else Some(|s.writers| - 1))
    && forall i :: 0 <= i < |s.writers| - 1 ==> s.writers[i].Done?
  }

  ghost predicate InOrder(s: State) {
    && Items(s.puts) + Held(s) + s.queue == s.pushed
    && forall key :: Lookup(s.store, key) == LastValue(s.puts, key)
  }

  /** With the producer idle, items wait for a writer that is past its last pop only if the check missed it. */
  ghost predicate Noted(s: State) {
    !s.checking ==>
      if Ready(s) || IsExiting(s) then (s.queue != [] <==> s.missed) else !s.missed
  }

  ghost predicate Inv(s: State) {
    OneWriter(s) && InOrder(s) && Noted(s)
  }

  lemma ItemsAppend(puts: seq<Put>, p: Put)
    ensures Items(puts + [p]) == Items(puts) + [p.item]
  {
  }

  lemma StoreKeeps(s: State, w: nat, stored: bool)
    requires Inv(s) && w < |s.writers| && s.writers[w].Writing?
    ensures Inv(StoreStep(s, w, stored))
  {
    var item, r := s.writers[w].item, StoreStep(s, w, stored);
    assert w == |s.writers| - 1;
    ItemsAppend(s.puts, Put(item, stored));
    assert Items(r.puts) + Held(r) + r.queue == Items(s.puts) + Held(s) + s.queue;
    forall key ensures Lookup(r.store, key) == LastValue(r.puts, key) {
      assert r.puts[..|r.puts| - 1] == s.puts;
      assert Lookup(s.store, key) == LastValue(s.puts, key);
    }
  }

  lemma PopKeeps(s: State, w: nat)
    requires Inv(s) && w < |s.writers| && s.writers[w].Popping?
    ensures Inv(PopStep(s, w))
  {
    var r := PopStep(s, w);
    assert w == |s.writers| - 1;
    if s.queue != [] {
      assert Items(s.puts) + [] + s.queue == Items(s.puts) + [s.queue[0]] + s.queue[1..];
    }
  }

  lemma PushKeeps(s: State, item: Item)
    requires Inv(s)
    ensures Inv(PushStep(s, item))
  {
    assert Items(s.puts) + Held(s) + (s.queue + [item]) == (Items(s.puts) + Held(s) + s.queue) + [item];
  }

  lemma CheckKeeps(s: State)
    requires Inv(s)
    ensures Inv(CheckStep(s))
  {
  }

  lemma EventKeeps(s: State, e: Event)
    requires Inv(s)
    ensures Inv(Next(s, e))
  {
    match e {
      case Push(item) => if !s.checking { PushKeeps(s, item); }
      case Check => if s.checking { CheckKeeps(s); }
      case Pop(w) => if w < |s.writers| && s.writers[w].Popping? { PopKeeps(s, w); }
      case Store(w, stored) => if w < |s.writers| && s.writers[w].Writing? { StoreKeeps(s, w, stored); }
      case Finish(w) =>
    }
  }

  function Run(s: State, es: seq<Event>): State {
    if es == [] then s else Next(Run(s, es[..|es| - 1]), es[|es| - 1])
  }

  lemma {:induction false} RunKeeps(s: State, es: seq<Event>)
    requires Inv(s)
    ensures Inv(Run(s, es))
    decreases |es|
  {
    if es != [] {
      RunKeeps(s, es[..|es| - 1]);
      EventKeeps(Run(s, es[..|es| - 1]), es[|es| - 1]);
    }
  }

  lemma OnlyNewestRuns(s: State, i: nat, j: nat)
    requires OneWriter(s) && i < |s.writers| && j < |s.writers| && !s.writers[i].Done? && !s.writers[j].Done?
    ensures i == j && s.future == Some(i)
  {
  }

  /** In every interleaving at most one writer is not done, and it is the one the future stands for. */
  lemma AtMostOneWriter(es: seq<Event>, i: nat, j: nat)
    requires var s := Run(INITIAL, es); i < |s.writers| && j < |s.writers| && !s.writers[i].Done? && !s.writers[j].Done?
    ensures i == j && Run(INITIAL, es).future == Some(i)
  {
    RunFromStart(es);
    OnlyNewestRuns(Run(INITIAL, es), i, j);
  }

  lemma InitialHolds()
    ensures Inv(INITIAL)
  {
  }

  lemma RunFromStart(es: seq<Event>)
    ensures Inv(Run(INITIAL, es))
  {
    InitialHolds();
    RunKeeps(INITIAL, es);
  }

  /**
   In every interleaving the puts are the pushes in order: those carried out, at most one held by the writer,
   and those still queued. Each key has the value of its last stored put among those carried out.
   */
  lemma PutsAreAPrefix(es: seq<Event>)
    ensures var s := Run(INITIAL, es);
      && Items(s.puts) + Held(s) + s.queue == s.pushed && |Held(s)| <= 1
      && (forall key :: Lookup(s.store, key) == LastValue(s.puts, key))
  {
    RunKeeps(INITIAL, es);
  }

  /** The producer is between puts and no writer is running. */
  predicate Settled(s: State) {
    !s.checking && Ready(s)
  }

  /** The state in which the producer last looked at the future. */
  function LastCheck(es: seq<Event>): Option<State> {
    if es == [] then None
    else
      var before := Run(INITIAL, es[..|es| - 1]);
      if es[|es| - 1].Check? && before.checking then Some(before) else LastCheck(es[..|es| - 1])
  }

  lemma {:induction false} MissedIff(es: seq<Event>)
    ensures Run(INITIAL, es).missed
       <==> LastCheck(es).Some? && IsExiting(LastCheck(es).value) && LastCheck(es).value.queue != []
    decreases |es|
  {
    if es != [] {
      MissedIff(es[..|es| - 1]);
    }
  }

  /**
   When all is at rest, the queue is empty, as the destructor asserts, exactly unless the producer's last
   look at the future met a writer that had found the queue empty and was not done, with an item queued.
   */
  lemma StrandedIff(es: seq<Event>)
    requires Settled(Run(INITIAL, es))
    ensures Run(INITIAL, es).queue != []
       <==> LastCheck(es).Some? && IsExiting(LastCheck(es).value) && LastCheck(es).value.queue != []
    ensures Run(INITIAL, es).queue == [] ==> Items(Run(INITIAL, es).puts) == Run(INITIAL, es).pushed
  {
    RunFromStart(es);
    MissedIff(es);
    var s := Run(INITIAL, es);
    assert Held(s) == [];
    assert Items(s.puts) + [] + [] == Items(s.puts);
  }

  /** It can happen: the second put is pushed after the writer's last pop and checked before it is done. */
  lemma StrandedIsReachable(a: Item, b: Item) returns (es: seq<Event>)
    ensures Settled(Run(INITIAL, es)) && Run(INITIAL, es).queue == [b] && Run(INITIAL, es).pushed == [a, b]
  {
    var first, second := [Event.Push(a), Check, Pop(0), Store(0, true)], [Pop(0), Event.Push(b), Check, Finish(0)];
    es := first + second;
    FirstPut(a);
    LatePut(OnePut(a), b);
    RunConcat(INITIAL, first, second);
  }

  /** One put has been carried out and its writer is about to look at the queue again. */
  function OnePut(a: Item): State {
    State([], false, [Popping], Some(0), map[a.key := a.value], [a], [Put(a, true)], false)
  }

  lemma FirstPut(a: Item)
    ensures Run(INITIAL, [Event.Push(a), Check, Pop(0), Store(0, true)]) == OnePut(a)
  {
    RunFour(INITIAL, [Event.Push(a), Check, Pop(0), Store(0, true)]);
  }

  lemma LatePut(s: State, b: Item)
    requires !s.checking && s.queue == [] && s.writers == [Popping] && s.future == Some(0)
    ensures var r := Run(s, [Pop(0), Event.Push(b), Check, Finish(0)]);
      Settled(r) && r.queue == [b] && r.pushed == s.pushed + [b]
  {
    RunFour(s, [Pop(0), Event.Push(b), Check, Finish(0)]);
  }

  /** Writer steps alone, from a state whose writer is about to pop. */
  function Drain(n: nat, w: nat, stored: bool): seq<Event> {
    if n == 0 then [Pop(w), Finish(w)] else [Pop(w), Store(w, stored)] + Drain(n - 1, w, stored)
  }

  lemma {:induction false} RunConcat(s: State, a: seq<Event>, b: seq<Event>)
    ensures Run(s, a + b) == Run(Run(s, a), b)
    decreases |b|
  {
    if b == [] {
      assert a + b == a;
    } else {
      RunConcat(s, a, b[..|b| - 1]);
      assert (a + b)[..|a + b| - 1] == a + b[..|b| - 1];
    }
  }

  lemma RunTwo(s: State, x: Event, y: Event)
    ensures Run(s, [x, y]) == Next(Next(s, x), y)
  {
    assert [x, y][..1] == [x] && [x][..0] == [];
    assert Run(s, [x]) == Next(Run(s, []), x);
  }

  lemma RunFour(s: State, es: seq<Event>)
    requires |es| == 4
    ensures Run(s, es) == Next(Next(Next(Next(s, es[0]), es[1]), es[2]), es[3])
  {
    assert es == es[..2] + es[2..];
    RunConcat(s, es[..2], es[2..]);
    RunTwo(s, es[0], es[1]);
    RunTwo(Run(s, es[..2]), es[2], es[3]);
  }

  ghost predicate AboutToPop(s: State) {
    Inv(s) && !s.checking && s.writers != [] && s.writers[|s.writers| - 1].Popping?
  }

  lemma TurnState(s: State, w: nat, stored: bool) returns (r: State)
    ensures Turned(s, w, stored, r)
  {
    r := Run(s, [Pop(w), Store(w, stored)]);
  }

  ghost predicate Turned(s: State, w: nat, stored: bool, r: State) {
    r == Run(s, [Pop(w), Store(w, stored)])
  }

  lemma TurnKeeps(s: State, stored: bool, r: State)
    requires AboutToPop(s) && s.queue != [] && Turned(s, |s.writers| - 1, stored, r)
    ensures AboutToPop(r) && r.queue == s.queue[1..] && |r.writers| == |s.writers| && r.pushed == s.pushed
  {
    var w := |s.writers| - 1;
    RunTwo(s, Pop(w), Store(w, stored));
    EventKeeps(s, Pop(w));
    EventKeeps(Next(s, Pop(w)), Store(w, stored));
  }

  lemma DrainTurn(s: State, n: nat, w: nat, stored: bool, r: State)
    requires n > 0 && Turned(s, w, stored, r)
    ensures Run(s, Drain(n, w, stored)) == Run(r, Drain(n - 1, w, stored))
  {
    RunConcat(s, [Pop(w), Store(w, stored)], Drain(n - 1, w, stored));
  }

  /** One turn of the writer's loop. */
  lemma WriterTurn(s: State, n: nat, w: nat, stored: bool) returns (r: State)
    requires AboutToPop(s) && |s.queue| == n > 0 && |s.writers| == w + 1
    ensures AboutToPop(r) && |r.queue| == n - 1 && |r.writers| == w + 1 && r.pushed == s.pushed
    ensures Run(s, Drain(n, w, stored)) == Run(r, Drain(n - 1, w, stored))
  {
    r := TurnState(s, w, stored);
    assert AboutToPop(r) && |r.queue| == n - 1 && |r.writers| == w + 1 && r.pushed == s.pushed by {
      TurnKeeps(s, stored, r);
    }
    DrainTurn(s, n, w, stored, r);
  }

  lemma WriterEnds(s: State)
    requires AboutToPop(s) && s.queue == []
    ensures var w := |s.writers| - 1; var r := Run(s, [Pop(w), Finish(w)]);
      Settled(r) && r.queue == [] && r.pushed == s.pushed && Items(r.puts) == s.pushed
  {
    var w := |s.writers| - 1;
    RunTwo(s, Pop(w), Finish(w));
    assert Items(s.puts) + [] + [] == Items(s.puts);
  }

  lemma {:induction false} DrainsFrom(s: State, n: nat, w: nat, stored: bool, r: State)
    requires AboutToPop(s) && |s.queue| == n && |s.writers| == w + 1 && r == Run(s, Drain(n, w, stored))
    ensures Settled(r) && r.queue == [] && r.pushed == s.pushed && Items(r.puts) == s.pushed
    decreases n
  {
    if n == 0 {
      WriterEnds(s);
    } else {
      var s' := WriterTurn(s, n, w, stored);
      DrainsFrom(s', n - 1, w, stored, r);
    }
  }

  /** Left alone, a popping writer carries out everything queued and ends. */
  lemma WriterDrains(s: State, stored: bool)
    requires AboutToPop(s)
    ensures var r := Run(s, Drain(|s.queue|, |s.writers| - 1, stored));
      Settled(r) && r.queue == [] && r.pushed == s.pushed && Items(r.puts) == s.pushed
  {
    DrainsFrom(s, |s.queue|, |s.writers| - 1, stored, Run(s, Drain(|s.queue|, |s.writers| - 1, stored)));
  }

  /** The next put rescues stranded items: it starts a writer, which carries out all of them. */
  lemma NextPutRescues(es: seq<Event>, item: Item, stored: bool) returns (more: seq<Event>)
    requires Settled(Run(INITIAL, es))
    ensures var s, r := Run(INITIAL, es), Run(INITIAL, es + [Event.Push(item), Check] + more);
      Settled(r) && r.queue == [] && Items(r.puts) == r.pushed == s.pushed + [item]
  {
    RunKeeps(INITIAL, es);
    var s, two := Run(INITIAL, es), [Event.Push(item), Check];
    RunTwo(s, two[0], two[1]);
    EventKeeps(s, two[0]);
    EventKeeps(Next(s, two[0]), two[1]);
    RunConcat(INITIAL, es, two);
    var r := Run(INITIAL, es + two);
    more := Drain(|r.queue|, |r.writers| - 1, stored);
    WriterDrains(r, stored);
    RunConcat(INITIAL, es + two, more);
  }
}
