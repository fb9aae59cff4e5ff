/**
 What a user gets who picks a backend: the token and the identity in force once the reconcile that
 began under that choice has returned, from the stored values themselves.
 */
module ConnectSwitch {
  import opened Wrappers
  import opened ConnectUrl
  import opened ConnectBackend
  import opened ConnectRuns

  /** The stored choice asks for `t`, read off the two parameters. */
  predicate Asks(sel: Selector, digest: string -> string, t: Token) {
    var custom := sel.index == Index(2) && sel.url.Some? && PythonAccepts(sel.url.value);
    match t
    case Konik => sel.index == Index(1)
    case Offline => sel.index == Index(3)
    case Custom(key) => custom && key == digest(StripRight(sel.url.value, '/'))
    case Pnw => sel.index != Index(1) && sel.index != Index(3) && !custom
    case Foreign(_) => false
  }

  /** The token reconciled is the one token the stored values ask for. */
  lemma TokenIsAsked(sel: Selector, digest: string -> string, t: Token)
    ensures t == TargetToken(sel, digest) <==> Asks(sel, digest, t)
  {
    PnwIsTheDefault(sel);
    if sel.url.None? {
      assert !StartsWith("", SCHEME);
    }
  }

  /** Python's acceptance in characters: the scheme, then a host, and no white space before the trailing slashes. */
  lemma PythonAcceptsIff(raw: string, n: nat)
    requires n <= |raw| && (n > 0 ==> raw[n - 1] != '/') && forall i :: n <= i < |raw| ==> raw[i] == '/'
    ensures PythonAccepts(raw) <==>
              n > 8 && raw[..8] == ['h', 't', 't', 'p', 's', ':', '/', '/'] && raw[8] != '/' && !PythonSpace(raw[n - 1])
  {
    var u := StripRight(raw, '/');
    assert |u| == n && u == raw[..n];
    assert SCHEME == ['h', 't', 't', 'p', 's', ':', '/', '/'];
    HostNonEmpty(u);
    if n >= 8 {
      assert u[..8] == raw[..8];
    }
  }

  /** The shell's acceptance in characters of what it reads, without NULs and trailing newlines. */
  lemma ShellAcceptsIff(raw: string, n: nat)
    requires var read := DropNuls(raw);
      n <= |read| && (n > 0 ==> read[n - 1] != '\n') && forall i :: n <= i < |read| ==> read[i] == '\n'
    ensures var read := DropNuls(raw);
      ShellAccepts(raw) <==>
        n > 8 && read[..8] == ['h', 't', 't', 'p', 's', ':', '/', '/'] && read[8] != '/' && !ShellSpace(read[n - 1])
  {
    var read, v := DropNuls(raw), ShellText(raw);
    assert |v| == n && v == read[..n];
    assert SCHEME == ['h', 't', 't', 'p', 's', ':', '/', '/'];
    HostNonEmpty(v);
    if n >= 8 {
      assert v[..8] == read[..8];
    }
    if StartsWith(v, SCHEME) {
      assert v[0] == 'h' && RemovePrefix(v, SCHEME) == v[8..];
      assert |RemovePrefix(v, SCHEME)| < |v|;
    }
  }

  predicate InFlight(pc: Pc) {
    pc.Stashed? || pc.Cleared? || pc.Committed? || pc.Done?
  }

  /** From the first step of a reconcile at `j` up to state `i` there were only its steps and changes of the selector. */
  ghost predicate BeganAt(states: seq<Sys>, events: seq<Event>, j: nat, i: nat)
    requires |states| == |events| + 1
  {
    && j < i < |states|
    && states[j].pc == Boot && events[j] == Advance
    && forall k :: j < k < i ==> InFlight(states[k].pc) && (events[k].Advance? || events[k].Choose?)
  }

  /** The target is the token selected as the reconcile began; one for Offline has left DongleId alone. */
  ghost predicate SinceStart(start: Sys, a: Sys, digest: string -> string)
    requires InFlight(a.pc)
  {
    && a.pc.target == TargetToken(start.selector, digest)
    && (a.pc.target == Offline ==> a.store.dongle == start.store.dongle)
  }

  /** The step out of Boot. */
  lemma BootStep(a: Sys, digest: string -> string, b: Sys)
    requires a.pc == Boot && b == After(a, Advance, digest)
    ensures InFlight(b.pc) && SinceStart(a, b, digest)
  {
    var target := TargetToken(a.selector, digest);
    var (next, ws) := Step(a.pc, a.store, target);
    if a.store.dongle.Some? {
      WritesOfSlot(a.store, Active(a.store), a.store.dongle.value);
    }
    WritesOfRestore(a.store, target);
    if ws == [PutActive(target)] {
      assert ApplyAll(a.store, ws) == Apply(a.store, ws[0]);
    }
  }

  /** The steps after it. */
  lemma LaterStep(start: Sys, a: Sys, digest: string -> string, b: Sys)
    requires InFlight(a.pc) && Running(a.pc) && SinceStart(start, a, digest) && b == After(a, Advance, digest)
    requires !a.pc.Stashed? ==> a.pc.target != Offline
    ensures InFlight(b.pc) && SinceStart(start, b, digest)
  {
    var (next, ws) := Step(a.pc, a.store, TargetToken(a.selector, digest));
    if ws != [] {
      assert ApplyAll(a.store, ws) == Apply(a.store, ws[0]);
    }
  }

  /** Every reconcile under way has a beginning, and its target is what the selector asked for then. */
  lemma {:induction false} StartOf(states: seq<Sys>, events: seq<Event>, owner: string -> Token, digest: string -> string, i: nat)
    returns (j: nat)
    requires IsRun(states, events, owner, digest) && i < |states| && InFlight(states[i].pc)
    ensures BeganAt(states, events, j, i) && SinceStart(states[j], states[i], digest)
  {
    var a, e := states[i - 1], events[i - 1];
    assert Enabled(a, e, owner) && states[i] == After(a, e, digest);
    RunKeeps(states, events, owner, digest, i - 1);
    if a.pc == Boot && e == Advance {
      j := i - 1;
      BootStep(a, digest, states[i]);
    } else {
      j := StartOf(states, events, owner, digest, i - 1);
      if e == Advance {
        LaterStep(states[j], a, digest, states[i]);
      }
    }
  }

  /**
   When a reconcile has returned, the token the stored values asked for as it began is active. A
   registered DongleId was then issued by that backend, and is the last one it issued if that was PNW
   or Konik; going offline leaves DongleId as it was.
   */
  lemma SwitchDelivers(states: seq<Sys>, events: seq<Event>, owner: string -> Token, digest: string -> string, i: nat)
    returns (j: nat)
    requires IsRun(states, events, owner, digest) && i < |states| && states[i].pc.Done?
    ensures BeganAt(states, events, j, i)
    ensures var s := states[i].store; var t := Active(s);
      && Asks(states[j].selector, digest, t)
      && (t == Offline ==> s.dongle == states[j].store.dongle)
      && (t != Offline && s.dongle.Some? && s.dongle.value != "UnregisteredDevice" ==> owner(s.dongle.value) == t)
      && (t in {Pnw, Konik} && t in states[i].last ==> s.dongle == Some(states[i].last[t]))
  {
    j := StartOf(states, events, owner, digest, i);
    var a := states[i];
    RunKeeps(states, events, owner, digest, i);
    TokenIsAsked(states[j].selector, digest, a.pc.target);
    var t := Active(a.store);
    if t in {Pnw, Konik} && t in a.last {
      assert Current(a, t) || Kept(a, t);
    }
  }
}
