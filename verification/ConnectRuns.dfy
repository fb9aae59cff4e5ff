/**
 Runs of the device: reconciles interrupted after any write, reboots, selector changes and
 registrations, in any order. Ownership of identities and their survival, in every reachable state.
 */
module ConnectRuns {
  import opened Wrappers
  import opened ConnectUrl
  import opened ConnectBackend
  import opened CustomCache
  import opened Extremes

  /** `last` (identity last issued by each backend) and `log` (Custom slots written) are history only. */
  datatype Sys = Sys(store: Store, pc: Pc, selector: Selector, last: map<Token, string>, log: seq<Entry>)

  /** `Refuse` and `Keep` are the endings of `register` that issue nothing. */
  datatype Event = Advance | Reboot | Choose(selector: Selector) | Issue(id: string) | Refuse | Keep

  predicate Genuine(id: string) {
    id != "" && id != UNREGISTERED
  }

  /** Registration contacts a backend only after a reconcile for a real one left DongleId unset. */
  predicate Enabled(a: Sys, e: Event, owner: string -> Token) {
    match e
    case Advance => Running(a.pc)
    case Reboot => true
    case Choose(_) => true
    case Issue(id) =>
      a.pc.Done? && a.pc.target != Offline && a.store.dongle.None? && Genuine(id) && owner(id) == a.pc.target
    case Refuse => a.pc.Done?
    case Keep => a.pc.Done?
  }

  function Logged(ws: seq<Write>): seq<Entry> {
    if |ws| == 1 && ws[0].PutCustom? && ws[0].cache != [] then [ws[0].cache[|ws[0].cache| - 1]] else []
  }

  function After(a: Sys, e: Event, digest: string -> string): Sys
    requires e.Advance? ==> Running(a.pc)
    requires e.Issue? ==> a.pc.Done?
  {
    match e
    case Advance =>
      var (next, ws) := Step(a.pc, a.store, TargetToken(a.selector, digest));
      a.(store := ApplyAll(a.store, ws), pc := next, log := a.log + Logged(ws))
    case Reboot => a.(pc := Boot)
    case Choose(selector) => a.(selector := selector)
    case Issue(id) => a.(store := a.store.(dongle := Some(id)), pc := Idle, last := a.last[a.pc.target := id])
    case Refuse => a.(store := a.store.(dongle := Some(UNREGISTERED)), pc := Idle)
    case Keep => a.(pc := Idle)
  }

  /** A device before its first boot with the selector: at most a PNW identity, empty caches. */
  ghost predicate Initial(a: Sys, owner: string -> Token) {
    && a.pc == Boot && a.log == []
    && a.store.active in {None, Some(Pnw)}
    && a.store.cachePnw == None && a.store.cacheKonik == None && a.store.cacheCustom == []
    && (Registered(a.store) ==> Genuine(a.store.dongle.value) && owner(a.store.dongle.value) == Pnw)
    && a.last == (if Registered(a.store) then map[Pnw := a.store.dongle.value] else map[])
  }

  /** A run: `states[i + 1]` follows from `states[i]` by `events[i]`. */
  ghost predicate IsRun(states: seq<Sys>, events: seq<Event>, owner: string -> Token, digest: string -> string) {
    && |states| == |events| + 1
    && Initial(states[0], owner)
    && forall i :: 0 <= i < |events| ==>
         Enabled(states[i], events[i], owner) && states[i + 1] == After(states[i], events[i], digest)
  }

  // ----- the invariant -----

  /** Slot `t` is empty or holds the identity last issued by `t` itself. */
  ghost predicate SlotOwned(a: Sys, t: Token, owner: string -> Token) {
    var slot := CacheRead(a.store, t);
    slot.Some? ==> Genuine(slot.value) && owner(slot.value) == t && t in a.last && a.last[t] == slot.value
  }

  ghost predicate SlotsOwned(a: Sys, owner: string -> Token) {
    forall t :: SlotOwned(a, t, owner)
  }

  /** Under a real backend a registered DongleId is that backend's own; offline it is also in its owner's slot. */
  ghost predicate DongleOwned(a: Sys, owner: string -> Token) {
    Registered(a.store) ==>
      var id := a.store.dongle.value;
      && Genuine(id)
      && owner(id) in a.last && a.last[owner(id)] == id
      && if Active(a.store) == Offline then CacheRead(a.store, owner(id)) == Some(id)
         else owner(id) == Active(a.store)
  }

  /** Stashed where it belongs: in its own slot, or for a Custom backend written to it. */
  ghost predicate Kept(a: Sys, t: Token) {
    t in a.last &&
    match t
    case Pnw => a.store.cachePnw == Some(a.last[t])
    case Konik => a.store.cacheKonik == Some(a.last[t])
    case Custom(key) => LastLogged(a.log, key) == Some(a.last[t])
    case Offline => false
    case Foreign(_) => false
  }

  ghost predicate Current(a: Sys, t: Token) {
    t in a.last && Active(a.store) == t && a.store.dongle == Some(a.last[t])
  }

  ghost predicate NothingLost(a: Sys) {
    forall t :: t in a.last ==> Current(a, t) || Kept(a, t)
  }

  ghost predicate CacheIsWindow(a: Sys) {
    a.store.cacheCustom == Newest(Order(a.log), CUSTOM_CACHE_MAX)
  }

  ghost predicate PcHolds(a: Sys) {
    && !Active(a.store).Foreign?
    && match a.pc
       case Boot => true
       case Idle => true
       case Stashed(target) =>
         && !target.Foreign? && target != Active(a.store)
         && (Registered(a.store) && Active(a.store) != Offline ==> CacheRead(a.store, Active(a.store)) == a.store.dongle)
       case Cleared(target) =>
         !target.Foreign? && target != Offline && target != Active(a.store) && a.store.dongle.None?
       case Committed(target) =>
         target != Offline && target == Active(a.store) && a.store.dongle.None?
       case Done(target) =>
         && target == Active(a.store)
         && (target != Offline ==>
              && (Registered(a.store) ==> CacheRead(a.store, target) == a.store.dongle)
              && (!Registered(a.store) ==> CacheRead(a.store, target).None?))
  }

  /** Whatever was issued was issued by a real backend. */
  ghost predicate IssuedOwned(a: Sys, owner: string -> Token) {
    forall t :: t in a.last ==> !t.Offline? && !t.Foreign? && Genuine(a.last[t]) && owner(a.last[t]) == t
  }

  ghost predicate Inv(a: Sys, owner: string -> Token) {
    IssuedOwned(a, owner) && SlotsOwned(a, owner) && DongleOwned(a, owner) && NothingLost(a) && CacheIsWindow(a) && PcHolds(a)
  }

  lemma InitialHolds(a: Sys, owner: string -> Token)
    requires Initial(a, owner)
    ensures Inv(a, owner)
  {
    forall t ensures SlotOwned(a, t, owner) {
      assert CacheRead(a.store, t) == None;
    }
  }

  // ----- stashing an identity -----

  /** After the stash of `id` in the slot of `t`. */
  function StashedAs(a: Sys, t: Token, id: string): Sys {
    var ws := CacheWrites(a.store, t, id);
    a.(store := ApplyAll(a.store, ws), log := a.log + Logged(ws))
  }

  /** The slot holds `id`, every other slot is unchanged or (Custom) evicted. */
  ghost predicate SlotHolds(a: Sys, b: Sys, t: Token, id: string) {
    && CacheIsWindow(b)
    && CacheRead(b.store, t) == Some(id)
    && (t.Custom? ==> LastLogged(b.log, t.key) == Some(id))
    && (forall u :: u != t ==> CacheRead(b.store, u) in {None, CacheRead(a.store, u)})
    && (forall u :: u != t && !u.Custom? ==> CacheRead(b.store, u) == CacheRead(a.store, u))
    && (forall key :: t != Custom(key) ==> LastLogged(b.log, key) == LastLogged(a.log, key))
    && b == a.(store := a.store.(cachePnw := b.store.cachePnw, cacheKonik := b.store.cacheKonik, cacheCustom := b.store.cacheCustom),
               log := b.log)
  }

  lemma StashEffect(a: Sys, t: Token, id: string, b: Sys)
    requires CacheIsWindow(a) && (t.Pnw? || t.Konik? || t.Custom?) && b == StashedAs(a, t, id)
    ensures SlotHolds(a, b, t, id)
  {
    if t.Custom? { CustomStashEffect(a, t.key, id, b); } else { PlainStashEffect(a, t, id, b); }
  }

  lemma PlainStashEffect(a: Sys, t: Token, id: string, b: Sys)
    requires CacheIsWindow(a) && (t.Pnw? || t.Konik?) && b == StashedAs(a, t, id)
    ensures SlotHolds(a, b, t, id)
  {
    OneWrite(a.store, if t.Pnw? then PutPnw(id) else PutKonik(id));
    assert a.log + [] == a.log;
  }

  /** What a stash does to the dictionary of Custom identities and its log. */
  ghost predicate CustomSlotHolds(was: seq<Entry>, now: seq<Entry>, oldLog: seq<Entry>, newLog: seq<Entry>, key: string, id: string) {
    && now == Newest(Order(newLog), CUSTOM_CACHE_MAX)
    && Lookup(now, key) == Some(id) == LastLogged(newLog, key)
    && (forall other :: other != key ==> Lookup(now, other) in {None, Lookup(was, other)})
    && (forall other :: other != key ==> LastLogged(newLog, other) == LastLogged(oldLog, other))
  }

  lemma CustomStashEffect(a: Sys, key: string, id: string, b: Sys)
    requires CacheIsWindow(a) && b == StashedAs(a, Custom(key), id)
    ensures SlotHolds(a, b, Custom(key), id)
  {
    if CacheWrites(a.store, Custom(key), id) == [] {
      AlreadyStashed(a.store.cacheCustom, a.log, key, id);
      assert a.log + [] == a.log;
    } else {
      StashedIsTouched(a, key, id, b);
      NewlyStashed(a.store.cacheCustom, b.store.cacheCustom, a.log, key, id);
    }
    CustomSlot(a, b, key, id);
  }

  lemma StashedIsTouched(a: Sys, key: string, id: string, b: Sys)
    requires CacheWrites(a.store, Custom(key), id) != [] && b == StashedAs(a, Custom(key), id)
    ensures b == a.(store := a.store.(cacheCustom := Newest(Touch(a.store.cacheCustom, key, id), CUSTOM_CACHE_MAX)),
                    log := a.log + [Entry(key, id)])
  {
    var now := Newest(Touch(a.store.cacheCustom, key, id), CUSTOM_CACHE_MAX);
    OneWrite(a.store, PutCustom(now));
    assert now[|now| - 1] == Entry(key, id);
  }

  lemma CustomSlot(a: Sys, b: Sys, key: string, id: string)
    requires CustomSlotHolds(a.store.cacheCustom, b.store.cacheCustom, a.log, b.log, key, id)
    requires b == a.(store := a.store.(cacheCustom := b.store.cacheCustom), log := b.log)
    ensures SlotHolds(a, b, Custom(key), id)
  {
  }

  lemma AlreadyStashed(was: seq<Entry>, log: seq<Entry>, key: string, id: string)
    requires was == Newest(Order(log), CUSTOM_CACHE_MAX) && Lookup(was, key) == Some(id)
    ensures CustomSlotHolds(was, was, log, log, key, id)
  {
    if LastLogged(log, key).None? { NeverWritten(log, key); } else { HeldIff(log, key); }
  }

  lemma NewlyStashed(was: seq<Entry>, now: seq<Entry>, log: seq<Entry>, key: string, id: string)
    requires was == Newest(Order(log), CUSTOM_CACHE_MAX) && now == Newest(Touch(was, key, id), CUSTOM_CACHE_MAX)
    ensures CustomSlotHolds(was, now, log, log + [Entry(key, id)], key, id)
  {
    var longer := log + [Entry(key, id)];
    assert longer[..|longer| - 1] == log;
    OrderIsTheLog(log, key);
    CapCommutes(Order(log), key, id, CUSTOM_CACHE_MAX);
    HeldIff(longer, key);
    forall other | other != key
      ensures Lookup(now, other) in {None, Lookup(was, other)} && LastLogged(longer, other) == LastLogged(log, other)
    {
      OtherHeld(log, longer, key, other);
    }
  }

  /** One more logged write evicts another key or leaves it alone. */
  lemma OtherHeld(log: seq<Entry>, longer: seq<Entry>, key: string, other: string)
    requires other != key && longer != [] && longer[..|longer| - 1] == log && longer[|longer| - 1].key == key
    ensures LastLogged(longer, other) == LastLogged(log, other)
    ensures Lookup(Newest(Order(longer), CUSTOM_CACHE_MAX), other) in {None, Lookup(Newest(Order(log), CUSTOM_CACHE_MAX), other)}
  {
    if LastLogged(log, other).None? {
      NeverWritten(longer, other);
    } else {
      HeldIff(log, other);
      HeldIff(longer, other);
      SubsetSize(KeysSince(log, other), key);
    }
  }

  lemma OneWrite(s: Store, w: Write)
    ensures ApplyAll(s, [w]) == Apply(s, w)
  {
    assert [w][1..] == [];
    assert ApplyAll(Apply(s, w), []) == Apply(s, w);
  }

  lemma SubsetSize(s: set<string>, x: string)
    ensures |s| <= |s + {x}|
  {
    if x !in s {
      assert |s + {x}| == |s| + 1;
    } else {
      assert s + {x} == s;
    }
  }

  /** What a Custom slot holds is what was last written to it. */
  lemma SlotIsLogged(a: Sys, key: string)
    requires CacheIsWindow(a) && CacheRead(a.store, Custom(key)).Some?
    ensures LastLogged(a.log, key) == CacheRead(a.store, Custom(key))
  {
    if LastLogged(a.log, key).None? {
      NeverWritten(a.log, key);
    } else {
      HeldIff(a.log, key);
    }
  }

  lemma SlotIsKept(a: Sys, t: Token)
    requires CacheIsWindow(a) && t in a.last && CacheRead(a.store, t) == Some(a.last[t])
    ensures Kept(a, t)
  {
    if t.Custom? {
      SlotIsLogged(a, t.key);
    }
  }

  // ----- every step keeps the invariant -----

  /** Stashing the registered DongleId of a real active backend. */
  lemma StashKeeps(a: Sys, owner: string -> Token, b: Sys)
    requires Inv(a, owner) && a.pc.Boot? && Registered(a.store) && Active(a.store) != Offline
    requires b == StashedAs(a, Active(a.store), a.store.dongle.value)
    ensures Inv(b, owner) && CacheRead(b.store, Active(b.store)) == b.store.dongle
    ensures b.store.active == a.store.active && b.store.dongle == a.store.dongle
  {
    var t, id := Active(a.store), a.store.dongle.value;
    StashEffect(a, t, id, b);
    StashKeepsSlots(a, owner, b, t, id);
  }

  lemma StashKeepsSlots(a: Sys, owner: string -> Token, b: Sys, t: Token, id: string)
    requires Inv(a, owner) && a.pc.Boot? && Registered(a.store) && t == Active(a.store) && t != Offline && id == a.store.dongle.value
    requires SlotHolds(a, b, t, id)
    ensures Inv(b, owner)
  {
    forall u ensures SlotOwned(b, u, owner) {
      assert SlotOwned(a, u, owner);
    }
    forall u | u in b.last ensures Current(b, u) || Kept(b, u) {
      assert Current(a, u) || Kept(a, u);
      assert u != t ==> CacheRead(b.store, u) in {None, CacheRead(a.store, u)};
    }
  }

  /** Writing nothing but DongleId and ActiveBackend leaves the slots and their log alone. */
  lemma SlotsUnchanged(a: Sys, b: Sys, owner: string -> Token)
    requires SlotsOwned(a, owner) && CacheIsWindow(a)
    requires b.last == a.last && b.log == a.log
    requires b.store == a.store.(active := b.store.active, dongle := b.store.dongle)
    ensures SlotsOwned(b, owner) && CacheIsWindow(b)
    ensures forall t :: CacheRead(b.store, t) == CacheRead(a.store, t)
    ensures forall t :: Kept(a, t) == Kept(b, t)
  {
    forall t ensures SlotOwned(b, t, owner) && CacheRead(b.store, t) == CacheRead(a.store, t) {
      assert SlotOwned(a, t, owner);
    }
  }

  lemma BootKeeps(a: Sys, owner: string -> Token, digest: string -> string)
    requires Inv(a, owner) && a.pc.Boot?
    ensures Inv(After(a, Advance, digest), owner)
  {
    var target := TargetToken(a.selector, digest);
    var t := Active(a.store);
    var (next, ws) := Step(Boot, a.store, target);
    var b := After(a, Advance, digest);
    if Registered(a.store) && t != Offline && next in {Done(t), Stashed(target)} {
      BootWithStash(a, owner, b, next, ws);
    } else {
      BootWithoutStash(a, owner, digest, b);
    }
  }

  lemma BootWithStash(a: Sys, owner: string -> Token, b: Sys, next: Pc, ws: seq<Write>)
    requires Inv(a, owner) && a.pc.Boot? && Registered(a.store) && Active(a.store) != Offline
    requires ws == CacheWrites(a.store, Active(a.store), a.store.dongle.value)
          || (ws == [] && CacheRead(a.store, Active(a.store)) == a.store.dongle)
    requires b == a.(store := ApplyAll(a.store, ws), pc := next, log := a.log + Logged(ws))
    requires next == Done(Active(a.store)) || (next.Stashed? && !next.target.Foreign? && next.target != Active(a.store))
    ensures Inv(b, owner)
  {
    if ws == [] {
      assert a.log + [] == a.log;
      SlotsUnchanged(a, b, owner);
      forall u | u in b.last ensures Current(b, u) || Kept(b, u) {
        assert Current(a, u) || Kept(a, u);
      }
      StashedNothing(a);
    } else {
      var c := StashedAs(a, Active(a.store), a.store.dongle.value);
      StashKeeps(a, owner, c);
      SlotsUnchanged(c, b, owner);
      forall u | u in b.last ensures Current(b, u) || Kept(b, u) {
        assert Current(c, u) || Kept(c, u);
      }
    }
  }

  /** Nothing is written to a slot only if it holds the identity already. */
  lemma StashedNothing(a: Sys)
    requires Registered(a.store) && !Active(a.store).Offline? && !Active(a.store).Foreign?
    requires CacheWrites(a.store, Active(a.store), a.store.dongle.value) == [] || CacheRead(a.store, Active(a.store)) == a.store.dongle
    ensures CacheRead(a.store, Active(a.store)) == a.store.dongle
  {
  }

  lemma BootWithoutStash(a: Sys, owner: string -> Token, digest: string -> string, b: Sys)
    requires Inv(a, owner) && a.pc.Boot? && b == After(a, Advance, digest)
    requires var target := TargetToken(a.selector, digest);
      !(Registered(a.store) && Active(a.store) != Offline && Step(Boot, a.store, target).0 in {Done(Active(a.store)), Stashed(target)})
    ensures Inv(b, owner)
  {
    var target := TargetToken(a.selector, digest);
    var (next, ws) := Step(Boot, a.store, target);
    assert b.log == a.log;
    assert ws == [] || ws == [ws[0]];
    if ws != [] { OneWrite(a.store, ws[0]); }
    SlotsUnchanged(a, b, owner);
    assert SlotOwned(a, target, owner);
    forall u | u in b.last ensures Current(b, u) || Kept(b, u) {
      assert Current(a, u) || Kept(a, u);
    }
  }

  lemma SwitchKeeps(a: Sys, owner: string -> Token, digest: string -> string)
    requires Inv(a, owner) && (a.pc.Stashed? || a.pc.Cleared? || a.pc.Committed?)
    ensures Inv(After(a, Advance, digest), owner)
  {
    var (next, ws) := Step(a.pc, a.store, TargetToken(a.selector, digest));
    var b := After(a, Advance, digest);
    assert ws == [] || ws == [ws[0]];
    if ws != [] { OneWrite(a.store, ws[0]); }
    assert b.log == a.log;
    SlotsUnchanged(a, b, owner);
    assert SlotOwned(a, a.pc.target, owner);
    forall u | u in b.last ensures Current(b, u) || Kept(b, u) {
      assert Current(a, u) || Kept(a, u);
      if Current(a, u) && a.pc.Stashed? {
        SlotIsKept(a, u);
      }
    }
  }

  lemma RegisterKeeps(a: Sys, e: Event, owner: string -> Token, digest: string -> string)
    requires Inv(a, owner) && Enabled(a, e, owner) && !e.Advance?
    ensures Inv(After(a, e, digest), owner)
  {
    var b := After(a, e, digest);
    forall t ensures CacheRead(b.store, t) == CacheRead(a.store, t) {}
    forall t ensures SlotOwned(b, t, owner) {
      assert SlotOwned(a, t, owner);
    }
    forall t | t in b.last ensures Current(b, t) || Kept(b, t) {
      if t in a.last {
        assert Current(a, t) || Kept(a, t);
        if Current(a, t) && e.Refuse? {
          SlotIsKept(a, t);
        }
      }
    }
  }

  lemma EventKeeps(a: Sys, e: Event, owner: string -> Token, digest: string -> string)
    requires Inv(a, owner) && Enabled(a, e, owner)
    ensures Inv(After(a, e, digest), owner)
  {
    if !e.Advance? {
      RegisterKeeps(a, e, owner, digest);
    } else if a.pc.Boot? {
      BootKeeps(a, owner, digest);
    } else {
      SwitchKeeps(a, owner, digest);
    }
  }

  lemma {:induction false} RunKeeps(states: seq<Sys>, events: seq<Event>, owner: string -> Token, digest: string -> string, i: nat)
    requires IsRun(states, events, owner, digest) && i < |states|
    ensures Inv(states[i], owner)
  {
    if i == 0 {
      InitialHolds(states[0], owner);
    } else {
      RunKeeps(states, events, owner, digest, i - 1);
      EventKeeps(states[i - 1], events[i - 1], owner, digest);
    }
  }
}
