/**
 The capped dictionary of Custom identities against the full log of its writes: it holds exactly
 the keys after whose last write fewer than eight other keys have been written.
 */
module CustomCache {
  import opened Wrappers
  import opened ConnectBackend
  import opened Extremes

  /** The dictionary that the logged writes would build if nothing were ever evicted. */
  function Order(log: seq<Entry>): seq<Entry>
    decreases |log|
  {
    if log == [] then []
    else Touch(Order(log[..|log| - 1]), log[|log| - 1].key, log[|log| - 1].id)
  }

  /** The identity last written for `key`. */
  function LastLogged(log: seq<Entry>, key: string): Option<string>
    decreases |log|
  {
    if log == [] then None
    else if log[|log| - 1].key == key then Some(log[|log| - 1].id)
    else LastLogged(log[..|log| - 1], key)
  }

  /** The distinct other keys written after the last write of `key`. */
  function KeysSince(log: seq<Entry>, key: string): set<string>
    decreases |log|
  {
    if log == [] || log[|log| - 1].key == key then {}
    else KeysSince(log[..|log| - 1], key) + {log[|log| - 1].key}
  }

  /** The entries behind the entry for `key`. */
  function Behind(cache: seq<Entry>, key: string): seq<Entry> {
    if cache == [] then [] else if cache[0].key == key then cache[1..] else Behind(cache[1..], key)
  }

  ghost function KeysOf(cache: seq<Entry>): set<string> {
    set e | e in cache :: e.key
  }

  // ----- lookups in a dictionary with distinct keys -----

  lemma {:induction false} LookupAt(cache: seq<Entry>, i: nat)
    requires DistinctKeys(cache) && i < |cache|
    ensures Lookup(cache, cache[i].key) == Some(cache[i].id)
    ensures Behind(cache, cache[i].key) == cache[i + 1..]
  {
    if i != 0 {
      assert cache[0].key != cache[i].key;
      LookupAt(cache[1..], i - 1);
    }
  }

  lemma {:induction false} LookupFinds(cache: seq<Entry>, key: string) returns (i: nat)
    requires Lookup(cache, key).Some?
    ensures i < |cache| && cache[i] == Entry(key, Lookup(cache, key).value)
  {
    if cache[0].key == key {
      i := 0;
    } else {
      i := LookupFinds(cache[1..], key);
      i := i + 1;
    }
  }

  lemma {:induction false} LookupMissing(cache: seq<Entry>, key: string)
    ensures Lookup(cache, key).None? <==> key !in KeysOf(cache)
  {
    if cache != [] {
      LookupMissing(cache[1..], key);
      assert KeysOf(cache) == {cache[0].key} + KeysOf(cache[1..]);
    }
  }

  lemma {:induction false} DropKeeps(cache: seq<Entry>, key: string)
    requires DistinctKeys(cache)
    ensures DistinctKeys(Drop(cache, key)) && KeysOf(Drop(cache, key)) == KeysOf(cache) - {key}
    ensures forall e :: e in Drop(cache, key) <==> e in cache && e.key != key
  {
    if cache != [] {
      DropKeeps(cache[1..], key);
      assert KeysOf(cache) == {cache[0].key} + KeysOf(cache[1..]);
      var d := Drop(cache, key);
      if cache[0].key == key {
        assert key !in KeysOf(cache[1..]);
      } else {
        assert d == [cache[0]] + Drop(cache[1..], key);
        assert cache[0].key !in KeysOf(cache[1..]);
        assert KeysOf(d) == {cache[0].key} + KeysOf(Drop(cache[1..], key));
        forall i, j | 0 <= i < j < |d| ensures d[i].key != d[j].key {
          assert d[j].key in KeysOf(Drop(cache[1..], key));
        }
      }
    }
  }

  lemma {:induction false} LookupOther(cache: seq<Entry>, key: string, id: string, other: string)
    requires other != key
    ensures Lookup(Touch(cache, key, id), other) == Lookup(cache, other)
  {
    if cache == [] {
    } else {
      LookupOther(cache[1..], key, id, other);
      if cache[0].key != key {
        assert Touch(cache, key, id) == [cache[0]] + Touch(cache[1..], key, id);
        assert Touch(cache, key, id)[1..] == Touch(cache[1..], key, id);
      } else {
        assert Touch(cache, key, id) == Touch(cache[1..], key, id);
      }
    }
  }

  lemma TouchKeeps(cache: seq<Entry>, key: string, id: string)
    requires DistinctKeys(cache)
    ensures DistinctKeys(Touch(cache, key, id))
    ensures Lookup(Touch(cache, key, id), key) == Some(id)
    ensures Behind(Touch(cache, key, id), key) == []
  {
    DropKeeps(cache, key);
    var t := Touch(cache, key, id);
    forall i, j | 0 <= i < j < |t| ensures t[i].key != t[j].key {
      if j == |t| - 1 {
        assert t[i].key in KeysOf(Drop(cache, key));
      }
    }
    LookupAt(t, |t| - 1);
  }

  lemma {:induction false} BehindTouch(cache: seq<Entry>, key: string, id: string, other: string)
    requires DistinctKeys(cache) && other != key && other in KeysOf(cache)
    ensures Behind(Touch(cache, key, id), other) == Touch(Behind(cache, other), key, id)
  {
    assert KeysOf(cache) == {cache[0].key} + KeysOf(cache[1..]);
    var t := Touch(cache, key, id);
    if cache[0].key == other {
      assert t == [cache[0]] + Touch(cache[1..], key, id);
    } else {
      BehindTouch(cache[1..], key, id, other);
      if cache[0].key == key {
        assert t == Touch(cache[1..], key, id);
      } else {
        assert t == [cache[0]] + Touch(cache[1..], key, id);
        assert t[1..] == Touch(cache[1..], key, id);
      }
    }
  }

  // ----- the log and its order -----

  lemma {:induction false} OrderIsTheLog(log: seq<Entry>, key: string)
    ensures DistinctKeys(Order(log))
    ensures Lookup(Order(log), key) == LastLogged(log, key)
    ensures LastLogged(log, key).Some? ==> KeysOf(Behind(Order(log), key)) == KeysSince(log, key)
    decreases |log|
  {
    if log != [] {
      var front, e := log[..|log| - 1], log[|log| - 1];
      OrderIsTheLog(front, key);
      TouchKeeps(Order(front), e.key, e.id);
      if e.key != key {
        LookupOther(Order(front), e.key, e.id, key);
        if LastLogged(log, key).Some? {
          LookupMissing(Order(front), key);
          BehindTouch(Order(front), e.key, e.id, key);
          BehindIsSuffix(Order(front), key);
          DropKeeps(Behind(Order(front), key), e.key);
          var t := Touch(Behind(Order(front), key), e.key, e.id);
          assert KeysOf(t) == KeysOf(Drop(Behind(Order(front), key), e.key)) + {e.key};
        }
      }
    }
  }

  lemma {:induction false} BehindIsSuffix(cache: seq<Entry>, key: string)
    requires DistinctKeys(cache)
    ensures |Behind(cache, key)| <= |cache| && Behind(cache, key) == cache[|cache| - |Behind(cache, key)|..]
    ensures DistinctKeys(Behind(cache, key))
  {
    if cache != [] && cache[0].key != key {
      BehindIsSuffix(cache[1..], key);
    }
  }

  lemma {:induction false} DistinctCount(cache: seq<Entry>)
    requires DistinctKeys(cache)
    ensures |KeysOf(cache)| == |cache|
  {
    if cache != [] {
      DistinctCount(cache[1..]);
      assert KeysOf(cache) == {cache[0].key} + KeysOf(cache[1..]);
      assert cache[0].key !in KeysOf(cache[1..]);
    }
  }

  // ----- the cap -----

  lemma {:induction false} DropAppend(a: seq<Entry>, b: seq<Entry>, key: string)
    ensures Drop(a + b, key) == Drop(a, key) + Drop(b, key)
  {
    if a == [] {
      assert a + b == b;
    } else {
      assert (a + b)[1..] == a[1..] + b;
      DropAppend(a[1..], b, key);
    }
  }

  lemma {:induction false} DropAbsent(cache: seq<Entry>, key: string)
    requires key !in KeysOf(cache)
    ensures Drop(cache, key) == cache
  {
    if cache != [] {
      assert KeysOf(cache) == {cache[0].key} + KeysOf(cache[1..]);
      DropAbsent(cache[1..], key);
    }
  }

  lemma {:induction false} DropLength(cache: seq<Entry>, key: string)
    requires DistinctKeys(cache)
    ensures |Drop(cache, key)| == if key in KeysOf(cache) then |cache| - 1 else |cache|
  {
    DropKeeps(cache, key);
    DistinctCount(cache);
    DistinctCount(Drop(cache, key));
  }

  /** Dropping the front part of a dictionary before or after a touch makes no difference to the newest entries. */
  lemma TouchSplit(old_: seq<Entry>, recent: seq<Entry>, key: string, id: string, cap: nat)
    requires DistinctKeys(old_ + recent) && |recent| == cap > 0
    ensures Touch(old_ + recent, key, id) == Drop(old_, key) + Touch(recent, key, id)
    ensures |Touch(recent, key, id)| >= cap
  {
    DropAppend(old_, recent, key);
    assert DistinctKeys(recent) by {
      forall i, j | 0 <= i < j < |recent| ensures recent[i].key != recent[j].key {
        assert (old_ + recent)[|old_| + i] == recent[i] && (old_ + recent)[|old_| + j] == recent[j];
      }
    }
    DropLength(recent, key);
  }

  lemma NewestOfLater(front: seq<Entry>, later: seq<Entry>, cap: nat)
    requires |later| >= cap
    ensures Newest(front + later, cap) == Newest(later, cap)
  {
  }

  /** Touching the capped dictionary gives the capped form of touching the full one. */
  lemma CapCommutes(full: seq<Entry>, key: string, id: string, cap: nat)
    requires DistinctKeys(full) && cap > 0
    ensures Newest(Touch(Newest(full, cap), key, id), cap) == Newest(Touch(full, key, id), cap)
  {
    if |full| > cap {
      var old_, recent := full[..|full| - cap], full[|full| - cap..];
      assert full == old_ + recent;
      TouchSplit(old_, recent, key, id, cap);
      NewestOfLater(Drop(old_, key), Touch(recent, key, id), cap);
    }
  }

  /** A key that was ever written is in the capped cache iff fewer than eight other keys followed it. */
  lemma HeldIff(log: seq<Entry>, key: string)
    requires LastLogged(log, key).Some?
    ensures Lookup(Newest(Order(log), CUSTOM_CACHE_MAX), key)
         == if |KeysSince(log, key)| < CUSTOM_CACHE_MAX then LastLogged(log, key) else None
  {
    var full := Order(log);
    OrderIsTheLog(log, key);
    var i := LookupFinds(full, key);
    LookupAt(full, i);
    DistinctCount(full[i + 1..]);
    HeldAt(full, i, CUSTOM_CACHE_MAX);
  }

  /** The entry at `i` is among the newest exactly if it is not too far back. */
  lemma HeldAt(full: seq<Entry>, i: nat, cap: nat)
    requires DistinctKeys(full) && i < |full|
    ensures Lookup(Newest(full, cap), full[i].key) == if |full| - i <= cap then Some(full[i].id) else None
  {
    var held := Newest(full, cap);
    if |full| - i <= cap {
      LookupAt(held, i - (|full| - |held|));
    } else {
      LookupMissing(held, full[i].key);
      forall e | e in held ensures e.key != full[i].key {
        var j :| 0 <= j < |held| && held[j] == e;
        assert full[|full| - |held| + j] == e;
      }
    }
  }

  /** A key that was never written is not in the cache. */
  lemma NeverWritten(log: seq<Entry>, key: string)
    requires LastLogged(log, key).None?
    ensures Lookup(Newest(Order(log), CUSTOM_CACHE_MAX), key).None?
  {
    OrderIsTheLog(log, key);
    var held := Newest(Order(log), CUSTOM_CACHE_MAX);
    LookupMissing(held, key);
    LookupMissing(Order(log), key);
    if key in KeysOf(held) {
      var j := LookupFinds(held, key);
      assert false;
    }
  }
}
