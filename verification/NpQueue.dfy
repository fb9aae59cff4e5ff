/** A bounded queue of rows: it grows to its limit and then shifts in place. */
module NpQueue {
  import opened Wrappers
  import opened Extremes

  class Queue {
    const maxlen: nat
    var arr: array<seq<real>>
    ghost var history: seq<seq<real>>

    ghost predicate Valid()
      reads this, arr
    {
      arr[..] == Newest(history, maxlen)
    }

    constructor (maxlen: nat)
      ensures Valid() && history == [] && this.maxlen == maxlen && fresh(arr)
    {
      this.maxlen := maxlen;
      arr := new seq<real>[0];
      history := [];
    }

    /** With no room at all, the last element cannot be written. */
    method Append(pt: seq<real>) returns (r: Result<(), string>)
      requires Valid()
      modifies this, arr
      ensures Valid() && (arr == old(arr) || fresh(arr))
      ensures r.Ok? <==> maxlen > 0
      ensures history == if r.Ok? then old(history) + [pt] else old(history)
    {
      if arr.Length < maxlen {
        NewestAppend(history, maxlen, pt);
        var longer := new seq<real>[arr.Length + 1];
        forall i | 0 <= i < arr.Length { longer[i] := arr[i]; }
        longer[arr.Length] := pt;
        assert longer[..] == old(arr[..]) + [pt];
        arr := longer;
      } else if arr.Length == 0 {
        return Err("index -1 is out of bounds");
      } else {
        NewestAppend(history, maxlen, pt);
        var n := arr.Length;
        forall i | 0 <= i < n - 1 { arr[i] := arr[i + 1]; }
        arr[n - 1] := pt;
        assert arr[..] == old(arr[..])[1..] + [pt];
      }
      history := history + [pt];
      r := Ok(());
    }
  }
}
