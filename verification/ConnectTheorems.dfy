/**
 What the crash-safety note of `reconcile_backend` promises, for every run: identities stay with the
 backend that issued them, none is lost, and a crash after any write changes nothing in the end.
 */
module ConnectTheorems {
  import opened Wrappers
  import opened ConnectUrl
  import opened ConnectBackend
  import opened CustomCache
  import opened ConnectRuns
  import opened Extremes

  // ----- safety over whole runs -----

  /** No slot and no DongleId under a real backend ever holds another backend's identity. */
  lemma IdentitiesStayHome(states: seq<Sys>, events: seq<Event>, owner: string -> Token, digest: string -> string, i: nat)
    requires IsRun(states, events, owner, digest) && i < |states|
    ensures forall t :: CacheRead(states[i].store, t).Some? ==> owner(CacheRead(states[i].store, t).value) == t
    ensures var s := states[i].store;
      s.dongle.Some? && s.dongle.value != "UnregisteredDevice" && Active(s) != Offline ==> owner(s.dongle.value) == Active(s)
    ensures |states[i].store.cacheCustom| <= 8
  {
    var a := states[i];
    RunKeeps(states, events, owner, digest, i);
    forall t | CacheRead(a.store, t).Some? ensures owner(CacheRead(a.store, t).value) == t {
      assert SlotOwned(a, t, owner);
    }
  }

  /** In a run the short-circuit fires exactly when leaving Offline for the backend that issued DongleId. */
  lemma ShortCircuitIff(states: seq<Sys>, events: seq<Event>, owner: string -> Token, digest: string -> string, i: nat)
    requires IsRun(states, events, owner, digest) && i < |states|
    ensures var target := TargetToken(states[i].selector, digest);
      ShortCircuits(states[i].store, target) <==>
        && Active(states[i].store) == Offline
        && Registered(states[i].store)
        && owner(states[i].store.dongle.value) == target
  {
    var a := states[i];
    RunKeeps(states, events, owner, digest, i);
    var target := TargetToken(a.selector, digest);
    assert SlotOwned(a, target, owner);
  }

  /** A PNW or Konik identity is always in DongleId with its backend active, or in its own slot. */
  lemma NoIdentityLost(states: seq<Sys>, events: seq<Event>, owner: string -> Token, digest: string -> string, i: nat, t: Token)
    requires IsRun(states, events, owner, digest) && i < |states|
    requires t in {Pnw, Konik} && t in states[i].last
    ensures var s, id := states[i].store, states[i].last[t];
      (Active(s) == t && s.dongle == Some(id)) || CacheRead(s, t) == Some(id)
  {
    RunKeeps(states, events, owner, digest, i);
    assert Current(states[i], t) || Kept(states[i], t);
  }

  /**
   A Custom identity is in DongleId with its backend active, or it is what was last written to its
   slot; that slot still holds it iff fewer than eight other Custom slots were written since.
   */
  lemma CustomIdentitySurvivesIff(states: seq<Sys>, events: seq<Event>, owner: string -> Token, digest: string -> string, i: nat, key: string)
    requires IsRun(states, events, owner, digest) && i < |states|
    requires Custom(key) in states[i].last
    ensures var a := states[i]; var id := a.last[Custom(key)];
      || (Active(a.store) == Custom(key) && a.store.dongle == Some(id))
      || (LastLogged(a.log, key) == Some(id)
          && (CacheRead(a.store, Custom(key)) == Some(id) <==> |KeysSince(a.log, key)| < 8)
          && (CacheRead(a.store, Custom(key)) == None <==> |KeysSince(a.log, key)| >= 8))
  {
    var a := states[i];
    RunKeeps(states, events, owner, digest, i);
    assert Current(a, Custom(key)) || Kept(a, Custom(key));
    if Kept(a, Custom(key)) {
      HeldIff(a.log, key);
    }
  }

  /**
   The comment beside the short-circuit calls it unreachable from a clean run. It is not: register
   with PNW, go offline, come back.
   */
  lemma ShortCircuitIsReachable(digest: string -> string) returns (states: seq<Sys>, events: seq<Event>)
    ensures IsRun(states, events, (id: string) => Pnw, digest)
    ensures states[|states| - 1].pc == Boot
    ensures ShortCircuits(states[|states| - 1].store, TargetToken(states[|states| - 1].selector, digest))
  {
    var pnw, offline := Selector(Unset, None), Selector(Index(3), None);
    var s0 := Sys(Store(None, Some("id"), None, None, []), Boot, pnw, map[Pnw := "id"], []);
    events := [Advance, Choose(offline), Reboot, Advance, Advance, Choose(pnw), Reboot];
    var s1 := s0.(store := s0.store.(cachePnw := Some("id")), pc := Done(Pnw));
    var s2 := s1.(selector := offline);
    var s3 := s2.(pc := Boot);
    var s4 := s3.(pc := Stashed(Offline));
    var s5 := s4.(store := s4.store.(active := Some(Offline)), pc := Done(Offline));
    var s6 := s5.(selector := pnw);
    var s7 := s6.(pc := Boot);
    assert After(s0, Advance, digest) == s1 by { OneWrite(s0.store, PutPnw("id")); }
    assert After(s3, Advance, digest) == s4 by { OneWrite(s3.store, PutPnw("id")); }
    assert After(s4, Advance, digest) == s5 by { OneWrite(s4.store, PutActive(Offline)); }
    StartsRegistered(s0);
    states := [s0, s1, s2, s3, s4, s5, s6, s7];
  }

  lemma StartsRegistered(a: Sys)
    requires a == Sys(Store(None, Some("id"), None, None, []), Boot, Selector(Unset, None), map[Pnw := "id"], [])
    ensures Initial(a, (id: string) => Pnw)
  {
    assert |"id"| != |UNREGISTERED|;
  }

  // ----- crash transparency -----

  lemma {:induction false} NewestLookup(cache: seq<Entry>, n: nat, key: string)
    requires DistinctKeys(cache)
    ensures Lookup(Newest(cache, n), key) in {None, Lookup(cache, key)}
  {
    var held := Newest(cache, n);
    if Lookup(held, key).Some? {
      var j := LookupFinds(held, key);
      LookupAt(cache, j + |cache| - |held|);
    }
  }

  /** Stashing twice is stashing once, and a stash touches no other slot except to evict it. */
  lemma StashTwice(s: Store)
    requires DistinctKeys(s.cacheCustom)
    ensures var s1 := ApplyAll(s, Stash(s));
      && s1.active == s.active && s1.dongle == s.dongle && DistinctKeys(s1.cacheCustom)
      && ApplyAll(s1, Stash(s1)) == s1
      && (Registered(s) && !Active(s).Offline? && !Active(s).Foreign? ==> CacheRead(s1, Active(s)) == s.dongle)
      && forall t :: t != Active(s) ==> CacheRead(s1, t) in {None, CacheRead(s, t)}
  {
    var s1 := ApplyAll(s, Stash(s));
    if Stash(s) != [] {
      OneWrite(s, Stash(s)[0]);
      assert s1 == Apply(s, Stash(s)[0]);
      var t, id := Active(s), s.dongle.value;
      if t.Custom? {
        var touched := Touch(s.cacheCustom, t.key, id);
        TouchKeeps(s.cacheCustom, t.key, id);
        var cache := Newest(touched, CUSTOM_CACHE_MAX);
        assert cache[|cache| - 1] == Entry(t.key, id);
        LookupAt(cache, |cache| - 1);
        forall key | key != t.key ensures Lookup(cache, key) in {None, Lookup(s.cacheCustom, key)} {
          LookupOther(s.cacheCustom, t.key, id, key);
          NewestLookup(touched, CUSTOM_CACHE_MAX, key);
        }
        assert Stash(s1) == [];
      } else {
        OneWrite(s1, Stash(s1)[0]);
      }
    }
  }

  lemma RestoreTwice(s: Store, target: Token)
    requires Active(s) == target && s.active.Some? && !Registered(s)
    ensures Reconcile(s, target) == ApplyAll(s, Restore(s, target))
    ensures Reconcile(ApplyAll(s, Restore(s, target)), target) == ApplyAll(s, Restore(s, target))
  {
    BootWrites(s, target);
    var r := ApplyAll(s, Restore(s, target));
    BootWrites(r, target);
    if Truthy(CacheRead(s, target)) {
      OneWrite(s, PutDongle(CacheRead(s, target).value));
      assert CacheRead(r, target) == CacheRead(s, target);
      OneWrite(r, PutDongle(CacheRead(s, target).value));
    }
  }

  /** A second run right after the first one changes nothing. */
  lemma ReconcileTwice(s: Store, target: Token)
    requires DistinctKeys(s.cacheCustom)
    ensures Reconcile(Reconcile(s, target), target) == Reconcile(s, target)
  {
    BootWrites(s, target);
    var r := Reconcile(s, target);
    BootWrites(r, target);
    var s1 := ApplyAll(s, Stash(s));
    StashTwice(s);
    if target == Active(s) {
      if Registered(s) {
        StashTwice(s1);
        assert WritesFrom(Boot, s, target) in {[], Stash(s)};
        assert r in {s, s1};
      } else {
        SameTokenRestore(s, target);
      }
    } else if ShortCircuits(s, target) {
      OneWrite(s, PutActive(target));
    } else if target == Offline {
      assert Active(r) == Offline;
    } else {
      RestoreTwice(s1.(dongle := None, active := Some(target)), target);
    }
  }

  lemma SameTokenRestore(s: Store, target: Token)
    requires Active(s) == target && !Registered(s)
    ensures Reconcile(ApplyAll(s, Restore(s, target)), target) == ApplyAll(s, Restore(s, target))
  {
    var r := ApplyAll(s, Restore(s, target));
    BootWrites(r, target);
    if Truthy(CacheRead(s, target)) {
      OneWrite(s, PutDongle(CacheRead(s, target).value));
      assert CacheRead(r, target) == CacheRead(s, target);
      OneWrite(r, PutDongle(CacheRead(s, target).value));
    }
  }

  /** The four places a switch can be cut: nothing lost so far, stashed, cleared, committed. */
  lemma SwitchResumes(s: Store, target: Token)
    requires DistinctKeys(s.cacheCustom)
    requires target != Active(s) && target != Offline && !ShortCircuits(s, target)
    ensures var s1 := ApplyAll(s, Stash(s));
      && Reconcile(s1, target) == Reconcile(s, target)
      && Reconcile(s1.(dongle := None), target) == Reconcile(s, target)
      && Reconcile(s1.(dongle := None, active := Some(target)), target) == Reconcile(s, target)
  {
    var s1 := ApplyAll(s, Stash(s));
    var s2 := s1.(dongle := None);
    var s3 := s2.(active := Some(target));
    StashTwice(s);
    assert CacheRead(s1, target) in {None, CacheRead(s, target)};
    BootWrites(s, target);
    BootWrites(s1, target);
    BootWrites(s2, target);
    BootWrites(s3, target);
    assert ApplyAll(s2, Stash(s2)) == s2;
    assert Restore(s1, target) == Restore(s2, target) == Restore(s3, target);
  }

  /** A crash leaves one of five stores, all of them with a well-formed cache. */
  lemma CrashPoints(s: Store, target: Token, k: nat)
    requires DistinctKeys(s.cacheCustom)
    ensures var s1 := ApplyAll(s, Stash(s)); var c := CrashAfter(s, target, k);
      && DistinctKeys(c.cacheCustom)
      && (|| c == s
          || c == Reconcile(s, target)
          || (target != Active(s) && !ShortCircuits(s, target) && c == s1)
          || (target != Active(s) && !ShortCircuits(s, target) && target != Offline
              && c in {s1.(dongle := None), s1.(dongle := None, active := Some(target))}))
  {
    var ws, st := WritesFrom(Boot, s, target), Stash(s);
    var s1 := ApplyAll(s, st);
    BootWrites(s, target);
    StashTwice(s);
    ReconcileKeepsKeys(s, target);
    if k == 0 {
      assert ws[..0] == [];
    } else if k >= |ws| {
      assert ws[..|ws|] == ws;
    } else if k == |st| {
      assert ws[..k] == st;
    } else {
      SwitchPrefix(s, target, k);
    }
  }

  lemma ReconcileKeepsKeys(s: Store, target: Token)
    requires DistinctKeys(s.cacheCustom)
    ensures DistinctKeys(Reconcile(s, target).cacheCustom)
  {
    BootWrites(s, target);
    StashTwice(s);
    var ws := WritesFrom(Boot, s, target);
    var s1 := ApplyAll(s, Stash(s));
    if target == Active(s) && Registered(s) {
      assert ws in {[], Stash(s)};
    } else if target == Active(s) {
      RestoreKeepsCache(s, target);
    } else if ShortCircuits(s, target) {
      OneWrite(s, PutActive(target));
    } else if target != Offline {
      RestoreKeepsCache(s1, target);
      RestoreKeepsCache(s1.(dongle := None, active := Some(target)), target);
    }
  }

  lemma RestoreKeepsCache(s: Store, target: Token)
    ensures ApplyAll(s, Restore(s, target)).cacheCustom == s.cacheCustom
    ensures forall s' : Store :: CacheRead(s', target) == CacheRead(s, target) ==> Restore(s', target) == Restore(s, target)
  {
    if Truthy(CacheRead(s, target)) {
      OneWrite(s, PutDongle(CacheRead(s, target).value));
    }
  }

  /** A proper prefix of a switch that goes past the stash. */
  lemma SwitchPrefix(s: Store, target: Token, k: nat)
    requires |Stash(s)| < k < |WritesFrom(Boot, s, target)|
    requires target != Active(s) && !ShortCircuits(s, target)
    ensures target != Offline
    ensures var s1 := ApplyAll(s, Stash(s));
      CrashAfter(s, target, k) in {s1.(dongle := None), s1.(dongle := None, active := Some(target))}
  {
    var ws, st := WritesFrom(Boot, s, target), Stash(s);
    var s1 := ApplyAll(s, st);
    BootWrites(s, target);
    assert ws == st + ([RemoveDongle, PutActive(target)] + Restore(s1, target));
    OneWrite(s1, RemoveDongle);
    if k == |st| + 1 {
      assert ws[..k] == st + [RemoveDongle];
      ApplyAllSplits(s, st, [RemoveDongle]);
    } else {
      assert ws[..k] == st + ([RemoveDongle] + [PutActive(target)]);
      ApplyAllSplits(s, st, [RemoveDongle] + [PutActive(target)]);
      ApplyAllSplits(s1, [RemoveDongle], [PutActive(target)]);
      OneWrite(s1.(dongle := None), PutActive(target));
    }
  }

  /** One crash, after any number of writes, does not change where the resumed run ends. */
  lemma CrashOnce(s: Store, target: Token, k: nat)
    requires DistinctKeys(s.cacheCustom)
    ensures Reconcile(CrashAfter(s, target, k), target) == Reconcile(s, target)
  {
    CrashPoints(s, target, k);
    ReconcileTwice(s, target);
    if target != Active(s) && !ShortCircuits(s, target) {
      if target == Offline {
        StashTwice(s);
        BootWrites(s, target);
        BootWrites(ApplyAll(s, Stash(s)), target);
      } else {
        SwitchResumes(s, target);
      }
    }
  }

  /** The store after a series of boots, boot `i` losing power after `crashes[i]` writes. */
  function CrashAll(s: Store, target: Token, crashes: seq<nat>): Store
    decreases |crashes|
  {
    if crashes == [] then s else CrashAll(CrashAfter(s, target, crashes[0]), target, crashes[1..])
  }

  /** Any number of crashes, each after any write, and then one full run: the result of one full run. */
  lemma {:induction false} CrashTransparency(s: Store, target: Token, crashes: seq<nat>)
    requires DistinctKeys(s.cacheCustom)
    ensures Reconcile(CrashAll(s, target, crashes), target) == Reconcile(s, target)
    decreases |crashes|
  {
    if crashes != [] {
      CrashPoints(s, target, crashes[0]);
      CrashOnce(s, target, crashes[0]);
      CrashTransparency(CrashAfter(s, target, crashes[0]), target, crashes[1..]);
    }
  }
}
