/**
 The connect-backend selector: tokens, the per-backend identity cache, and `reconcile_backend`
 as a machine that makes at most one parameter write per step.
 */
module ConnectBackend {
  import opened Wrappers
  import opened ConnectUrl
  import opened Extremes

  const UNREGISTERED := "UnregisteredDevice"
  const CUSTOM_CACHE_MAX: nat := 8

  /** The active-backend token. `Foreign` is any other text found in the parameter. */
  datatype Token = Pnw | Konik | Offline | Custom(key: string) | Foreign(text: string)

  /** One binding of the JSON dictionary that holds the Custom identities. */
  datatype Entry = Entry(key: string, id: string)

  /** The parameters that `reconcile_backend` reads and writes; one field per key. */
  datatype Store = Store(
    active: Option<Token>,
    dongle: Option<string>,
    cachePnw: Option<string>,
    cacheKonik: Option<string>,
    cacheCustom: seq<Entry>)

  /** A single atomic parameter write. */
  datatype Write =
    | PutActive(token: Token)
    | PutDongle(id: string)
    | RemoveDongle
    | PutPnw(id: string)
    | PutKonik(id: string)
    | PutCustom(cache: seq<Entry>)

  function Apply(s: Store, w: Write): Store {
    match w
    case PutActive(token) => s.(active := Some(token))
    case PutDongle(id) => s.(dongle := Some(id))
    case RemoveDongle => s.(dongle := None)
    case PutPnw(id) => s.(cachePnw := Some(id))
    case PutKonik(id) => s.(cacheKonik := Some(id))
    case PutCustom(cache) => s.(cacheCustom := cache)
  }

  function ApplyAll(s: Store, ws: seq<Write>): Store
    decreases |ws|
  {
    if ws == [] then s else ApplyAll(Apply(s, ws[0]), ws[1..])
  }

  /** The token of the selected backend; `digest` is the 16-digit key of a URL. */
  function TargetToken(sel: Selector, digest: string -> string): Token {
    match ConnectBackendOf(sel)
    case BackendPnw => Pnw
    case BackendKonik => Konik
    case BackendCustom => Custom(digest(CustomUrl(sel)))
    case BackendOffline => Offline
  }

  // ----- the Custom cache as an insertion-ordered dictionary -----

  function Lookup(cache: seq<Entry>, key: string): Option<string> {
    if cache == [] then None
    else if cache[0].key == key then Some(cache[0].id)
    else Lookup(cache[1..], key)
  }

  function Drop(cache: seq<Entry>, key: string): seq<Entry> {
    if cache == [] then []
    else (if cache[0].key == key then [] else [cache[0]]) + Drop(cache[1..], key)
  }

  /** The dictionary after `key` was dropped and reinserted at the end, with no cap. */
  function Touch(cache: seq<Entry>, key: string, id: string): seq<Entry> {
    Drop(cache, key) + [Entry(key, id)]
  }

  ghost predicate DistinctKeys(cache: seq<Entry>) {
    forall i, j :: 0 <= i < j < |cache| ==> cache[i].key != cache[j].key
  }

  // ----- reading and stashing an identity -----

  function Active(s: Store): Token {
    if s.active.None? then Pnw else s.active.value
  }

  predicate Registered(s: Store) {
    s.dongle.Some? && s.dongle.value != UNREGISTERED
  }

  function CacheRead(s: Store, t: Token): Option<string> {
    match t
    case Pnw => s.cachePnw
    case Konik => s.cacheKonik
    case Custom(key) => Lookup(s.cacheCustom, key)
    case Offline => None
    case Foreign(_) => None
  }

  /** Python's truth test on an optional text. */
  predicate Truthy(v: Option<string>) {
    v.Some? && v.value != ""
  }

  /** The write, if any, that stashes `id` in the slot of `t`. */
  function CacheWrites(s: Store, t: Token, id: string): seq<Write> {
    match t
    case Pnw => [PutPnw(id)]
    case Konik => [PutKonik(id)]
    case Custom(key) =>
      if Lookup(s.cacheCustom, key) == Some(id) then []
      else [PutCustom(Newest(Touch(s.cacheCustom, key, id), CUSTOM_CACHE_MAX))]
    case Offline => []
    case Foreign(_) => []
  }

  // ----- reconcile_backend, one write at a time -----

  /** Where a boot stands. `Done` is the return of `reconcile_backend`; `Idle` the end of `register`. */
  datatype Pc = Boot | Stashed(target: Token) | Cleared(target: Token) | Committed(target: Token) | Done(target: Token) | Idle

  predicate Running(pc: Pc) {
    pc.Boot? || pc.Stashed? || pc.Cleared? || pc.Committed?
  }

  /** The guard of the defensive short-circuit ahead of the stash. */
  predicate ShortCircuits(s: Store, target: Token) {
    && target != Active(s)
    && Registered(s)
    && target != Offline
    && CacheRead(s, target) == s.dongle
  }

  function Restore(s: Store, target: Token): seq<Write> {
    var cached := CacheRead(s, target);
    if Truthy(cached) then [PutDongle(cached.value)] else []
  }

  /** One step of a reconcile: the writes it makes (none or one) and where it goes next. */
  function Step(pc: Pc, s: Store, selected: Token): (Pc, seq<Write>)
    requires Running(pc)
  {
    match pc
    case Boot =>
      if selected == Active(s) then
        if Registered(s) then
          (Done(selected), if CacheRead(s, selected) != s.dongle then CacheWrites(s, selected, s.dongle.value) else [])
        else
          (Done(selected), Restore(s, selected))
      else if ShortCircuits(s, selected) then
        (Done(selected), [PutActive(selected)])
      else
        (Stashed(selected), if Registered(s) then CacheWrites(s, Active(s), s.dongle.value) else [])
    case Stashed(target) =>
      if target == Offline then (Done(target), [PutActive(target)])
      else (Cleared(target), [RemoveDongle])
    case Cleared(target) => (Committed(target), [PutActive(target)])
    case Committed(target) => (Done(target), Restore(s, target))
  }

  function Rank(pc: Pc): nat {
    match pc
    case Boot => 4
    case Stashed(_) => 3
    case Cleared(_) => 2
    case Committed(_) => 1
    case Done(_) => 0
    case Idle => 0
  }

  /** The writes a reconcile still makes from `pc`, in order. */
  function WritesFrom(pc: Pc, s: Store, selected: Token): seq<Write>
    decreases Rank(pc)
  {
    if !Running(pc) then []
    else
      var (next, ws) := Step(pc, s, selected);
      ws + WritesFrom(next, ApplyAll(s, ws), selected)
  }

  function Reconcile(s: Store, selected: Token): Store {
    ApplyAll(s, WritesFrom(Boot, s, selected))
  }

  /** The store left behind when power is lost after the first `k` writes. */
  function CrashAfter(s: Store, selected: Token, k: nat): Store {
    var ws := WritesFrom(Boot, s, selected);
    ApplyAll(s, if k <= |ws| then ws[..k] else ws)
  }

  // ----- the code itself, over a parameter directory that changes write by write -----

  /** The parameter directory. `log` records every write in the order it reached the disk. */
  class Params {
    var selector: Selector
    var store: Store
    const digest: string -> string
    ghost var log: seq<Write>

    constructor (selector: Selector, initial: Store, digest: string -> string)
      ensures this.selector == selector && store == initial && this.digest == digest && log == []
    {
      this.selector := selector;
      this.digest := digest;
      store := initial;
      log := [];
    }

    method Put(w: Write)
      modifies this`store, this`log
      ensures store == Apply(old(store), w)
      ensures log == old(log) + [w]
    {
      store := Apply(store, w);
      log := log + [w];
    }

    method CacheWrite(token: Token, id: string)
      modifies this`store, this`log
      ensures log == old(log) + CacheWrites(old(store), token, id)
      ensures store == ApplyAll(old(store), CacheWrites(old(store), token, id))
    {
      match token {
        case Pnw => Put(PutPnw(id));
        case Konik => Put(PutKonik(id));
        case Custom(key) =>
          var cache := store.cacheCustom;
          if Lookup(cache, key) != Some(id) {
            cache := Drop(cache, key);
            cache := cache + [Entry(key, id)];
            ghost var full := cache;
            while |cache| > CUSTOM_CACHE_MAX
              invariant |cache| <= |full| && cache == full[|full| - |cache|..]
              invariant |full| > CUSTOM_CACHE_MAX ==> |cache| >= CUSTOM_CACHE_MAX
              invariant |full| <= CUSTOM_CACHE_MAX ==> cache == full
            {
              cache := cache[1..];
            }
            Put(PutCustom(cache));
          }
        case Offline =>
        case Foreign(_) =>
      }
    }

    method ReconcileBackend() returns (result: Backend)
      modifies this`store, this`log
      ensures result == ConnectBackendOf(selector)
      ensures log == old(log) + WritesFrom(Boot, old(store), TargetToken(selector, digest))
      ensures store == Reconcile(old(store), TargetToken(selector, digest))
      ensures match result
        case BackendPnw => Active(store) == Pnw
        case BackendKonik => Active(store) == Konik
        case BackendCustom => Active(store) == Custom(digest(CustomUrl(selector)))
        case BackendOffline => Active(store) == Offline && store.dongle == old(store.dongle)
    {
      result := ConnectBackendOf(selector);
      ReconcileCommits(store, TargetToken(selector, digest));
      var target := TargetToken(selector, digest);
      var active := Active(store);
      var dongle := store.dongle;
      var registered := Registered(store);
      BootWrites(store, target);
      if target == active {
        KeepOrHeal(target);
        return;
      }
      if registered && target != Offline && CacheRead(store, target) == dongle {
        Put(PutActive(target));
        return;
      }
      Switch(target);
    }

    /** The token matches: the cache is kept fresh, or a restore that was cut off is finished. */
    method KeepOrHeal(target: Token)
      requires target == Active(store)
      modifies this`store, this`log
      ensures log == old(log) + WritesFrom(Boot, old(store), target)
      ensures store == Reconcile(old(store), target)
    {
      var dongle := store.dongle;
      BootWrites(store, target);
      if Registered(store) {
        if CacheRead(store, target) != dongle {
          CacheWrite(target, dongle.value);
        }
      } else {
        var cached := CacheRead(store, target);
        if Truthy(cached) {
          Put(PutDongle(cached.value));
        }
      }
    }

    /** The backend changed: stash, clear, commit, restore. */
    method Switch(target: Token)
      requires target != Active(store) && !ShortCircuits(store, target)
      modifies this`store, this`log
      ensures log == old(log) + WritesFrom(Boot, old(store), target)
      ensures store == Reconcile(old(store), target)
    {
      BootWrites(store, target);
      if Registered(store) {
        CacheWrite(Active(store), store.dongle.value);
      }
      assert log == old(log) + Stash(old(store)) && store == ApplyAll(old(store), Stash(old(store)));
      if target == Offline {
        Put(PutActive(target));
        Append3(old(log), Stash(old(store)), [PutActive(target)]);
        return;
      }
      ghost var stashed, s1 := log, store;
      ClearCommitRestore(target);
      Append3(old(log), Stash(old(store)), [RemoveDongle, PutActive(target)] + Restore(s1, target));
    }

    method ClearCommitRestore(target: Token)
      modifies this`store, this`log
      ensures log == old(log) + ([RemoveDongle, PutActive(target)] + Restore(old(store), target))
      ensures store == ApplyAll(old(store).(dongle := None, active := Some(target)), Restore(old(store), target))
    {
      Put(RemoveDongle);
      Put(PutActive(target));
      assert log == old(log) + [RemoveDongle, PutActive(target)];
      var cached := CacheRead(store, target);
      assert cached == CacheRead(old(store), target);
      if Truthy(cached) {
        Put(PutDongle(cached.value));
      }
    }
  }

  lemma Append3(a: seq<Write>, b: seq<Write>, c: seq<Write>)
    ensures (a + b) + c == a + (b + c)
  {
  }

  lemma {:induction false} ApplyAllSplits(s: Store, a: seq<Write>, b: seq<Write>)
    ensures ApplyAll(s, a + b) == ApplyAll(ApplyAll(s, a), b)
    decreases |a|
  {
    if a == [] {
      assert a + b == b;
    } else {
      assert (a + b)[0] == a[0] && (a + b)[1..] == a[1..] + b;
      ApplyAllSplits(Apply(s, a[0]), a[1..], b);
    }
  }

  /** The clear, commit and restore that follow a stash, spelled out. */
  lemma TailWrites(s: Store, target: Token)
    requires target != Offline
    ensures WritesFrom(Stashed(target), s, target)
         == [RemoveDongle, PutActive(target)] + Restore(s, target)
    ensures ApplyAll(s, WritesFrom(Stashed(target), s, target))
         == ApplyAll(s.(dongle := None, active := Some(target)), Restore(s, target))
  {
    var s2 := s.(dongle := None);
    var s3 := s2.(active := Some(target));
    assert ApplyAll(s, [RemoveDongle]) == s2;
    assert ApplyAll(s2, [PutActive(target)]) == s3;
    assert CacheRead(s3, target) == CacheRead(s, target);
    assert WritesFrom(Committed(target), s3, target) == Restore(s, target);
    assert WritesFrom(Cleared(target), s2, target) == [PutActive(target)] + Restore(s, target);
    ApplyAllSplits(s, [RemoveDongle, PutActive(target)], Restore(s, target));
    assert ApplyAll(s, [RemoveDongle, PutActive(target)]) == s3 by {
      ApplyAllSplits(s, [RemoveDongle], [PutActive(target)]);
      assert [RemoveDongle, PutActive(target)] == [RemoveDongle] + [PutActive(target)];
    }
    assert [RemoveDongle] + ([PutActive(target)] + Restore(s, target)) == [RemoveDongle, PutActive(target)] + Restore(s, target);
  }

  /** The stash ahead of a switch. */
  function Stash(s: Store): seq<Write> {
    if Registered(s) then CacheWrites(s, Active(s), s.dongle.value) else []
  }

  /** Every write of a reconcile, in order, and the store it ends in. */
  lemma BootWrites(s: Store, target: Token)
    ensures var ws := WritesFrom(Boot, s, target);
      if target == Active(s) && Registered(s) then
        ws == (if CacheRead(s, target) != s.dongle then CacheWrites(s, target, s.dongle.value) else [])
      else if target == Active(s) then ws == Restore(s, target)
      else if ShortCircuits(s, target) then ws == [PutActive(target)]
      else if target == Offline then ws == Stash(s) + [PutActive(target)]
      else ws == Stash(s) + ([RemoveDongle, PutActive(target)] + Restore(ApplyAll(s, Stash(s)), target))
    ensures var s1 := ApplyAll(s, Stash(s));
      && (target == Active(s) || ShortCircuits(s, target) ==> Reconcile(s, target) == ApplyAll(s, WritesFrom(Boot, s, target)))
      && (target != Active(s) && target == Offline ==> Reconcile(s, target) == s1.(active := Some(target)))
      && (target != Active(s) && target != Offline && !ShortCircuits(s, target) ==>
            Reconcile(s, target) == ApplyAll(s1.(dongle := None, active := Some(target)), Restore(s1, target)))
  {
    var (next, ws) := Step(Boot, s, target);
    var s1 := ApplyAll(s, ws);
    if next.Done? {
      assert ws + [] == ws;
    } else {
      ApplyAllSplits(s, ws, WritesFrom(Stashed(target), s1, target));
      if target == Offline {
        assert WritesFrom(Stashed(target), s1, target) == [PutActive(target)];
      } else {
        TailWrites(s1, target);
      }
    }
  }

  lemma WritesOfSlot(s: Store, t: Token, id: string)
    ensures var r := ApplyAll(s, CacheWrites(s, t, id)); r.active == s.active && r.dongle == s.dongle
  {
    var ws := CacheWrites(s, t, id);
    if ws != [] {
      assert ws == [ws[0]];
      assert ApplyAll(s, ws) == Apply(s, ws[0]);
    }
  }

  lemma WritesOfRestore(s: Store, target: Token)
    ensures ApplyAll(s, Restore(s, target)).active == s.active
    ensures target == Offline ==> Restore(s, target) == []
  {
    var ws := Restore(s, target);
    if ws != [] {
      assert ApplyAll(s, ws) == Apply(s, ws[0]);
    }
  }

  /** A full run leaves its target active, and one for Offline leaves DongleId alone. */
  lemma ReconcileCommits(s: Store, target: Token)
    ensures Active(Reconcile(s, target)) == target
    ensures target == Offline ==> Reconcile(s, target).dongle == s.dongle
  {
    BootWrites(s, target);
    if s.dongle.Some? {
      WritesOfSlot(s, Active(s), s.dongle.value);
    }
    WritesOfRestore(s, target);
    var s1 := ApplyAll(s, Stash(s));
    WritesOfRestore(s1, target);
    WritesOfRestore(s1.(dongle := None, active := Some(target)), target);
  }
}
