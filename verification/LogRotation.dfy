/**
 The rotating log handler: after every rollover it keeps the longest newest-first run of all logs it ever
 had that meets both caps, and never less than the open file.
 */
module LogRotation {
  import opened Wrappers
  import opened LogNames

  /** A cap that is not positive is off. */
  datatype Config = Config(base: string, backupCount: int, maxTotalBytes: int)

  /** `files` is newest first; `sizes` has the closed files whose size could be read. */
  datatype State = State(files: seq<string>, sizes: map<string, nat>, total: int, lastIdx: int, open: bool)

  /** Whether the next file can be opened, and the size the closed file is found to have, if it can be read. */
  datatype Outcome = Outcome(opens: bool, size: Option<nat>)

  function Size(sizes: map<string, nat>, f: string): nat {
    if f in sizes then sizes[f] else 0
  }

  function Sum(files: seq<string>, sizes: map<string, nat>): nat {
    if files == [] then 0 else Sum(files[..|files| - 1], sizes) + Size(sizes, files[|files| - 1])
  }

  predicate OverCaps(c: Config, n: nat, total: int) {
    (c.backupCount > 0 && n > c.backupCount) || (c.maxTotalBytes > 0 && total > c.maxTotalBytes)
  }

  // ----- the handler, on values -----

  /** The highest index among the names, or -1. */
  function MaxIndex(files: seq<string>): int {
    if files == [] then -1
    else
      var m, i := MaxIndex(files[..|files| - 1]), Index(files[|files| - 1]);
      if i.Some? && i.value > m then i.value else m
  }

  /** The handler over the existing logs, `files` being their names in descending order. */
  function Start(files: seq<string>, sizes: map<string, nat>): State {
    State(files, sizes, Sum(files, sizes), MaxIndex(files), false)
  }

  function OpenNext(c: Config, s: State): State
    requires s.lastIdx >= -1
  {
    s.(files := [NameOf(c.base, s.lastIdx + 1)] + s.files, lastIdx := s.lastIdx + 1, open := true)
  }

  function CountClosed(s: State, closed: string, size: Option<nat>): State {
    if size.None? then s else s.(sizes := s.sizes[closed := size.value], total := s.total + size.value)
  }

  function Trim(c: Config, s: State): State
    decreases |s.files|
  {
    var n := |s.files|;
    if n > 1 && OverCaps(c, n, s.total) then
      var oldest := s.files[n - 1];
      Trim(c, s.(files := s.files[..n - 1], sizes := s.sizes - {oldest}, total := s.total - Size(s.sizes, oldest)))
    else s
  }

  function Rollover(c: Config, s: State, o: Outcome): State
    requires s.lastIdx >= -1 && (s.open ==> s.files != [])
  {
    if !o.opens then s.(lastIdx := s.lastIdx + 1)
    else
      var s' := OpenNext(c, s);
      Trim(c, if s.open then CountClosed(s', s.files[0], o.size) else s')
  }

  // ----- the same, step by step -----

  class Handler {
    const c: Config
    var files: seq<string>
    var sizes: map<string, nat>
    var total: int
    var lastIdx: int
    var open: bool

    ghost function Now(): State
      reads this
    {
      State(files, sizes, total, lastIdx, open)
    }

    constructor (c: Config, files: seq<string>, sizes: map<string, nat>)
      ensures Now() == Start(files, sizes) && this.c == c
    {
      this.c := c;
      var sum, i := 0, 0;
      var best: int := -1;
      while i < |files|
        invariant i <= |files| && sum == Sum(files[..i], sizes) && best == MaxIndex(files[..i])
      {
        assert files[..i + 1][..i] == files[..i];
        sum := sum + Size(sizes, files[i]);
        var idx := Index(files[i]);
        if idx.Some? && idx.value > best { best := idx.value; }
        i := i + 1;
      }
      assert files[..i] == files;
      this.files, this.sizes, total, lastIdx, open := files, sizes, sum, best, false;
    }

    method DoRollover(o: Outcome)
      requires lastIdx >= -1 && (open ==> files != [])
      modifies this
      ensures Now() == Rollover(c, old(Now()), o)
    {
      var closed := if open then Some(files[0]) else None;
      if !o.opens {
        lastIdx := lastIdx + 1;
        return;
      }
      OpenFile();
      if closed.Some? {
        CountClosedFile(closed.value, o.size);
      }
      DeleteOldest();
    }

    method OpenFile()
      requires lastIdx >= -1
      modifies this`files, this`lastIdx, this`open
      ensures Now() == OpenNext(c, old(Now()))
    {
      lastIdx := lastIdx + 1;
      files := [NameOf(c.base, lastIdx)] + files;
      open := true;
    }

    method CountClosedFile(closed: string, size: Option<nat>)
      modifies this`sizes, this`total
      ensures Now() == CountClosed(old(Now()), closed, size)
    {
      if size.Some? {
        sizes := sizes[closed := size.value];
        total := total + size.value;
      }
    }

    method DeleteOldest()
      modifies this`files, this`sizes, this`total
      ensures Now() == Trim(c, old(Now()))
    {
      while |files| > 1 && OverCaps(c, |files|, total)
        invariant Trim(c, Now()) == Trim(c, old(Now()))
        decreases |files|
      {
        var oldest := files[|files| - 1];
        files := files[..|files| - 1];
        total := total - Size(sizes, oldest);
        sizes := sizes - {oldest};
      }
    }
  }

  // ----- everything the handler ever had -----

  /** All log names, newest first, and all sizes that were recorded, deleted files included. */
  datatype History = History(all: seq<string>, recorded: map<string, nat>)

  function Record(c: Config, s: State, h: History, o: Outcome): History
    requires s.lastIdx >= -1 && (s.open ==> s.files != [])
  {
    if !o.opens then h
    else History([NameOf(c.base, s.lastIdx + 1)] + h.all,
                 if s.open && o.size.Some? then h.recorded[s.files[0] := o.size.value] else h.recorded)
  }

  predicate Distinct(files: seq<string>) {
    forall i, j :: 0 <= i < j < |files| ==> files[i] != files[j]
  }

  /** No run of more than `k` of the newest logs meets the caps. */
  ghost predicate NoLonger(c: Config, h: History, k: nat) {
    forall n :: k < n <= |h.all| ==> OverCaps(c, n, Sum(h.all[..n], h.recorded))
  }

  /** The newest `k` logs: the most that meet both caps, or only the newest. */
  ghost predicate Longest(c: Config, h: History, k: nat) {
    && 1 <= k <= |h.all| && NoLonger(c, h, k)
    && (k > 1 ==> !OverCaps(c, k, Sum(h.all[..k], h.recorded)))
  }

  /** The books agree with the history. */
  ghost predicate Books(s: State, h: History) {
    && |s.files| <= |h.all| && s.files == h.all[..|s.files|] && Distinct(h.all)
    && (forall f :: f in s.sizes ==> f in s.files) && (forall f :: f in h.recorded ==> f in h.all)
    && (forall f :: f in s.files ==> Size(s.sizes, f) == Size(h.recorded, f))
    && s.total == Sum(s.files, h.recorded)
  }

  ghost predicate Inv(c: Config, s: State, h: History) {
    && Books(s, h) && NoLonger(c, h, |s.files|) && s.lastIdx >= -1
    && (forall f :: f in h.all && Index(f).Some? ==> Index(f).value <= s.lastIdx)
    && (s.open ==> s.files != [] && s.files[0] !in h.recorded)
  }

  // ----- sums -----

  lemma {:induction false} SumFront(f: string, files: seq<string>, sizes: map<string, nat>)
    ensures Sum([f] + files, sizes) == Size(sizes, f) + Sum(files, sizes)
    decreases |files|
  {
    var longer := [f] + files;
    if files == [] {
      assert longer[..0] == [];
    } else {
      SumFront(f, files[..|files| - 1], sizes);
      assert longer[..|longer| - 1] == [f] + files[..|files| - 1];
    }
  }

  /** Recording the size of one file adds it to the sum exactly if that file is there. */
  lemma {:induction false} SumRecord(files: seq<string>, sizes: map<string, nat>, f: string, size: nat)
    requires Distinct(files) && f !in sizes
    ensures Sum(files, sizes[f := size]) == Sum(files, sizes) + if f in files then size else 0
    decreases |files|
  {
    if files != [] {
      var front, last := files[..|files| - 1], files[|files| - 1];
      SumRecord(front, sizes, f, size);
      assert files == front + [last];
      assert last !in front;
    }
  }

  lemma {:induction false} SumSame(files: seq<string>, a: map<string, nat>, b: map<string, nat>)
    requires forall f :: f in files ==> Size(a, f) == Size(b, f)
    ensures Sum(files, a) == Sum(files, b)
    decreases |files|
  {
    if files != [] {
      SumSame(files[..|files| - 1], a, b);
    }
  }

  // ----- opening, counting, trimming -----

  /** A new name is not among the old ones. */
  lemma NewName(c: Config, s: State, h: History)
    requires Inv(c, s, h)
    ensures NameOf(c.base, s.lastIdx + 1) !in h.all
  {
    IndexOfName(c.base, s.lastIdx + 1);
  }

  /** Opening a file, of size not known yet, leaves every longer run over the caps. */
  lemma OpenKeepsNoLonger(c: Config, h: History, k: nat, name: string)
    requires NoLonger(c, h, k)
    ensures NoLonger(c, h.(all := [name] + h.all), k + 1)
  {
    var h' := h.(all := [name] + h.all);
    forall n | k + 1 < n <= |h'.all| ensures OverCaps(c, n, Sum(h'.all[..n], h'.recorded)) {
      assert h'.all[..n] == [name] + h.all[..n - 1];
      SumFront(name, h.all[..n - 1], h.recorded);
    }
  }

  lemma RecordKeepsNoLonger(c: Config, h: History, k: nat, f: string, size: nat)
    requires NoLonger(c, h, k) && Distinct(h.all) && f !in h.recorded
    ensures NoLonger(c, h.(recorded := h.recorded[f := size]), k)
  {
    forall n | k < n <= |h.all| ensures OverCaps(c, n, Sum(h.all[..n], h.recorded[f := size])) {
      SumRecord(h.all[..n], h.recorded, f, size);
    }
  }

  lemma OpenKeeps(c: Config, s: State, h: History)
    requires Inv(c, s, h)
    ensures var name := NameOf(c.base, s.lastIdx + 1);
      && Books(OpenNext(c, s), h.(all := [name] + h.all)) && name !in h.all
      && NoLonger(c, h.(all := [name] + h.all), |s.files| + 1)
  {
    var name := NameOf(c.base, s.lastIdx + 1);
    NewName(c, s, h);
    OpenKeepsNoLonger(c, h, |s.files|, name);
    assert Size(h.recorded, name) == 0;
    OpenBooks(s, h, name, OpenNext(c, s));
  }

  lemma OpenBooks(s: State, h: History, name: string, s': State)
    requires Books(s, h) && name !in h.all && s'.files == [name] + s.files && s'.sizes == s.sizes && s'.total == s.total
    ensures Books(s', h.(all := [name] + h.all))
  {
    SumFront(name, s.files, h.recorded);
    assert s'.files == ([name] + h.all)[..|s'.files|];
  }

  /** The size of the closed file is now counted. */
  lemma CountKeeps(c: Config, s: State, h: History, k: nat, f: string, size: nat)
    requires Books(s, h) && NoLonger(c, h, k) && f in s.files && f !in h.recorded
    ensures var h' := h.(recorded := h.recorded[f := size]);
      Books(CountClosed(s, f, Some(size)), h') && NoLonger(c, h', k)
  {
    SumRecord(s.files, h.recorded, f, size);
    RecordKeepsNoLonger(c, h, k, f, size);
  }

  lemma TrimNoLonger(c: Config, h: History, n: nat)
    requires 1 < n <= |h.all| && NoLonger(c, h, n) && OverCaps(c, n, Sum(h.all[..n], h.recorded))
    ensures NoLonger(c, h, n - 1)
  {
    forall k | n - 1 < k <= |h.all| ensures OverCaps(c, k, Sum(h.all[..k], h.recorded)) {}
  }

  lemma NewestPart(all: seq<string>, n: nat)
    requires 0 < n <= |all| && Distinct(all)
    ensures all[..n][..n - 1] == all[..n - 1] && all[n - 1] !in all[..n - 1]
    ensures forall f :: f in all[..n] <==> f == all[n - 1] || f in all[..n - 1]
  {
    assert all[..n] == all[..n - 1] + [all[n - 1]];
  }

  lemma TrimBooks(s: State, h: History, s': State)
    requires Books(s, h) && |s.files| > 1
    requires var oldest := s.files[|s.files| - 1];
      && s'.files == s.files[..|s.files| - 1] && s'.sizes == s.sizes - {oldest} && s'.total == s.total - Size(s.sizes, oldest)
    ensures Books(s', h)
  {
    var n := |s.files|;
    var oldest := s.files[n - 1];
    NewestPart(h.all, n);
    assert Sum(s.files, h.recorded) == Sum(s'.files, h.recorded) + Size(h.recorded, oldest);
    assert s'.total == Sum(s'.files, h.recorded);
    forall f | f in s'.files ensures Size(s'.sizes, f) == Size(h.recorded, f) {
      assert f != oldest && f in s.files;
    }
  }

  /** Trimming stops at the longest run. */
  lemma {:induction false} TrimIsLongest(c: Config, s: State, h: History, r: State)
    requires Books(s, h) && s.files != [] && NoLonger(c, h, |s.files|) && r == Trim(c, s)
    ensures Books(r, h) && Longest(c, h, |r.files|)
    ensures r.lastIdx == s.lastIdx && r.open == s.open && r.files != [] && r.files[0] == s.files[0]
    decreases |s.files|
  {
    var n := |s.files|;
    if n > 1 && OverCaps(c, n, s.total) {
      var s' := TrimmedOnce(c, s, r);
      TrimNoLonger(c, h, n);
      TrimBooks(s, h, s');
      TrimIsLongest(c, s', h, r);
    } else {
      StopsAtLongest(c, s, h);
    }
  }

  lemma TrimmedOnce(c: Config, s: State, r: State) returns (s': State)
    requires |s.files| > 1 && OverCaps(c, |s.files|, s.total) && r == Trim(c, s)
    ensures var oldest := s.files[|s.files| - 1];
      && s'.files == s.files[..|s.files| - 1] && s'.sizes == s.sizes - {oldest} && s'.total == s.total - Size(s.sizes, oldest)
    ensures r == Trim(c, s') && s'.lastIdx == s.lastIdx && s'.open == s.open
  {
    var n := |s.files|;
    var oldest := s.files[n - 1];
    s' := s.(files := s.files[..n - 1], sizes := s.sizes - {oldest}, total := s.total - Size(s.sizes, oldest));
  }

  lemma StopsAtLongest(c: Config, s: State, h: History)
    requires Books(s, h) && s.files != [] && NoLonger(c, h, |s.files|)
    requires |s.files| == 1 || !OverCaps(c, |s.files|, s.total)
    ensures Longest(c, h, |s.files|)
  {
  }

  // ----- every run -----

  lemma RolloverKeeps(c: Config, s: State, h: History, o: Outcome)
    requires Inv(c, s, h)
    ensures var s', h' := Rollover(c, s, o), Record(c, s, h, o);
      Inv(c, s', h') && (o.opens ==> s'.open && Longest(c, h', |s'.files|) && s'.files[0] == NameOf(c.base, s.lastIdx + 1))
  {
    if o.opens {
      var name := NameOf(c.base, s.lastIdx + 1);
      OpenKeeps(c, s, h);
      IndexOfName(c.base, s.lastIdx + 1);
      var s1, h1 := OpenNext(c, s), h.(all := [name] + h.all);
      if s.open && o.size.Some? {
        CountKeeps(c, s1, h1, |s1.files|, s.files[0], o.size.value);
        s1, h1 := CountClosed(s1, s.files[0], o.size), h1.(recorded := h1.recorded[s.files[0] := o.size.value]);
      }
      TrimIsLongest(c, s1, h1, Rollover(c, s, o));
    }
  }

  function Run(c: Config, files: seq<string>, sizes: map<string, nat>, os: seq<Outcome>): State
    ensures var s := Run(c, files, sizes, os); s.lastIdx >= -1 && (s.open ==> s.files != [])
  {
    if os == [] then
      MaxIndexBounds(files);
      Start(files, sizes)
    else
      var s := Run(c, files, sizes, os[..|os| - 1]);
      RolloverOpen(c, s, os[|os| - 1]);
      Rollover(c, s, os[|os| - 1])
  }

  function Past(c: Config, files: seq<string>, sizes: map<string, nat>, os: seq<Outcome>): History {
    if os == [] then History(files, sizes)
    else
      var before := os[..|os| - 1];
      Record(c, Run(c, files, sizes, before), Past(c, files, sizes, before), os[|os| - 1])
  }

  lemma {:induction false} MaxIndexBounds(files: seq<string>)
    ensures MaxIndex(files) >= -1
    ensures forall f :: f in files && Index(f).Some? ==> Index(f).value <= MaxIndex(files)
    ensures MaxIndex(files) >= 0 ==> exists f :: f in files && Index(f) == Some(MaxIndex(files))
  {
    if files != [] {
      MaxIndexBounds(files[..|files| - 1]);
      assert files == files[..|files| - 1] + [files[|files| - 1]];
    }
  }

  lemma {:induction false} TrimKeepsNewest(c: Config, s: State)
    requires s.files != []
    ensures var r := Trim(c, s); r.files != [] && r.lastIdx == s.lastIdx && r.open == s.open
    decreases |s.files|
  {
    var n := |s.files|;
    if n > 1 && OverCaps(c, n, s.total) {
      var oldest := s.files[n - 1];
      TrimKeepsNewest(c, s.(files := s.files[..n - 1], sizes := s.sizes - {oldest}, total := s.total - Size(s.sizes, oldest)));
    }
  }

  lemma RolloverOpen(c: Config, s: State, o: Outcome)
    requires s.lastIdx >= -1 && (s.open ==> s.files != [])
    ensures var r := Rollover(c, s, o); r.lastIdx == s.lastIdx + 1 && (r.open ==> r.files != [])
  {
    if o.opens {
      var s' := OpenNext(c, s);
      TrimKeepsNewest(c, if s.open then CountClosed(s', s.files[0], o.size) else s');
    }
  }

  lemma {:induction false} RunKeeps(c: Config, files: seq<string>, sizes: map<string, nat>, os: seq<Outcome>)
    requires Distinct(files) && (forall f :: f in sizes ==> f in files)
    ensures Inv(c, Run(c, files, sizes, os), Past(c, files, sizes, os))
    decreases |os|
  {
    if os == [] {
      MaxIndexBounds(files);
    } else {
      var before := os[..|os| - 1];
      RunKeeps(c, files, sizes, before);
      RolloverKeeps(c, Run(c, files, sizes, before), Past(c, files, sizes, before), os[|os| - 1]);
    }
  }

  /**
   After every rollover that opened a file, over the whole life of the handler: what is kept is the newest
   part of all logs there ever were, as long as both caps allow and at least the open file; its names are
   distinct, and the running total is the sum of the sizes recorded for it.
   */
  lemma RetainedIsLongest(c: Config, files: seq<string>, sizes: map<string, nat>, os: seq<Outcome>)
    requires Distinct(files) && (forall f :: f in sizes ==> f in files)
    requires os != [] && os[|os| - 1].opens
    ensures var s, h := Run(c, files, sizes, os), Past(c, files, sizes, os);
      && |s.files| <= |h.all| && s.files == h.all[..|s.files|] && Distinct(h.all)
      && Longest(c, h, |s.files|)
      && s.total == Sum(s.files, h.recorded) == Sum(s.files, s.sizes)
  {
    var before := os[..|os| - 1];
    RunKeeps(c, files, sizes, before);
    RolloverKeeps(c, Run(c, files, sizes, before), Past(c, files, sizes, before), os[|os| - 1]);
    var s, h := Run(c, files, sizes, os), Past(c, files, sizes, os);
    SumSame(s.files, s.sizes, h.recorded);
  }

  /** The newest `n` logs are more, or larger, than a cap that is on allows. */
  predicate Breaks(c: Config, h: History, n: nat) {
    n <= |h.all| && ((0 < c.backupCount < n) || (0 < c.maxTotalBytes < Sum(h.all[..n], h.recorded)))
  }

  /** What the longest run means for the two caps. */
  lemma LongestMeans(c: Config, h: History, k: nat, total: int)
    requires Longest(c, h, k) && total == Sum(h.all[..k], h.recorded)
    ensures k > 1 && c.backupCount > 0 ==> k <= c.backupCount
    ensures k > 1 && c.maxTotalBytes > 0 ==> total <= c.maxTotalBytes
    ensures forall n: nat :: k < n <= |h.all| ==> Breaks(c, h, n)
  {
    forall n: nat | k < n <= |h.all| ensures Breaks(c, h, n) {
      assert OverCaps(c, n, Sum(h.all[..n], h.recorded));
    }
  }

  /**
   In terms of the caps: more than one log is kept only within both of those that are positive, and one
   more of the older logs would have broken one of them.
   */
  lemma RetainedMeetsCaps(c: Config, files: seq<string>, sizes: map<string, nat>, os: seq<Outcome>, s: State, h: History)
    requires Distinct(files) && (forall f :: f in sizes ==> f in files)
    requires os != [] && os[|os| - 1].opens && s == Run(c, files, sizes, os) && h == Past(c, files, sizes, os)
    ensures |s.files| >= 1
    ensures |s.files| > 1 && c.backupCount > 0 ==> |s.files| <= c.backupCount
    ensures |s.files| > 1 && c.maxTotalBytes > 0 ==> s.total <= c.maxTotalBytes
    ensures forall n: nat :: |s.files| < n <= |h.all| ==> Breaks(c, h, n)
  {
    RetainedIsLongest(c, files, sizes, os);
    LongestMeans(c, h, |s.files|, s.total);
  }

  /** Between rollovers that fail to open a file nothing is forgotten, and no index is used twice. */
  lemma FailedRolloverKeeps(c: Config, s: State, h: History, o: Outcome)
    requires Inv(c, s, h) && !o.opens
    ensures Rollover(c, s, o) == s.(lastIdx := s.lastIdx + 1) && Inv(c, Rollover(c, s, o), h)
  {
    RolloverKeeps(c, s, h, o);
  }

  // ----- the order of the names -----

  ghost predicate Descending(files: seq<string>) {
    forall i, j :: 0 <= i < j < |files| ==> Less(files[j], files[i])
  }

  /** All names were made by the handler, with indices up to `last`, the newest first. */
  ghost predicate Numbered(c: Config, files: seq<string>, last: int) {
    exists idx: seq<nat> :: |idx| == |files| && NumberedBy(c, files, last, idx)
  }

  ghost predicate NumberedBy(c: Config, files: seq<string>, last: int, idx: seq<nat>)
    requires |idx| == |files|
  {
    && (forall i :: 0 <= i < |files| ==> files[i] == NameOf(c.base, idx[i]) && idx[i] <= last)
    && (forall i, j :: 0 <= i < j < |files| ==> idx[j] < idx[i])
  }

  lemma NumberedDescends(c: Config, files: seq<string>, last: int)
    requires Numbered(c, files, last) && last < Pow10(WIDTH)
    ensures Descending(files)
  {
    var idx: seq<nat> :| |idx| == |files| && NumberedBy(c, files, last, idx);
    forall i, j | 0 <= i < j < |files| ensures Less(files[j], files[i]) {
      NamesOrdered(c.base, idx[j], idx[i]);
    }
  }

  lemma NumberedLonger(c: Config, files: seq<string>, last: nat, idx: seq<nat>)
    requires |idx| == |files| && NumberedBy(c, files, last - 1, idx)
    ensures NumberedBy(c, [NameOf(c.base, last)] + files, last, [last] + idx)
  {
  }

  lemma NumberedGrows(c: Config, files: seq<string>, last: int)
    requires Numbered(c, files, last) && last >= -1
    ensures Numbered(c, [NameOf(c.base, last + 1)] + files, last + 1) && Numbered(c, files, last + 1)
  {
    var idx: seq<nat> :| |idx| == |files| && NumberedBy(c, files, last, idx);
    assert NumberedBy(c, files, last + 1, idx);
    NumberedLonger(c, files, last + 1, idx);
  }

  lemma NumberedStep(c: Config, s: State, h: History, o: Outcome, r: State, h': History)
    requires s.lastIdx >= -1 && (s.open ==> s.files != []) && Numbered(c, h.all, s.lastIdx)
    requires r == Rollover(c, s, o) && h' == Record(c, s, h, o)
    ensures Numbered(c, h'.all, r.lastIdx) && r.lastIdx == s.lastIdx + 1
  {
    RolloverOpen(c, s, o);
    NumberedGrows(c, h.all, s.lastIdx);
  }

  lemma {:induction false} RunNumbered(c: Config, files: seq<string>, sizes: map<string, nat>, os: seq<Outcome>)
    requires Numbered(c, files, MaxIndex(files))
    ensures Numbered(c, Past(c, files, sizes, os).all, Run(c, files, sizes, os).lastIdx)
    ensures Run(c, files, sizes, os).lastIdx == MaxIndex(files) + |os|
    decreases |os|
  {
    if os != [] {
      var before := os[..|os| - 1];
      RunNumbered(c, files, sizes, before);
      NumberedStep(c, Run(c, files, sizes, before), Past(c, files, sizes, before), os[|os| - 1],
                   Run(c, files, sizes, os), Past(c, files, sizes, os));
    }
  }

  /** Over the logs a handler wrote, names stay in descending order of text as long as ten digits suffice. */
  lemma NamesDescend(c: Config, files: seq<string>, sizes: map<string, nat>, os: seq<Outcome>)
    requires Numbered(c, files, MaxIndex(files)) && MaxIndex(files) + |os| < 10000000000
    ensures Descending(Past(c, files, sizes, os).all)
  {
    TenDigits();
    RunNumbered(c, files, sizes, os);
    NumberedDescends(c, Past(c, files, sizes, os).all, Run(c, files, sizes, os).lastIdx);
  }
}
