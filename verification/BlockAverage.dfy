/**
 The lag estimator's ring of block means, against the plain history of its samples. Blocks that were
 valid before the first update count as blocks of samples that all had the initial value.
 */
module BlockAverage {
  import opened Wrappers
  import opened Sums
  import opened Positions
  import opened Extremes

  // ----- a history as blocks of equal size and a rest -----

  function Flatten(blocks: seq<seq<real>>): seq<real>
    decreases |blocks|
  {
    if blocks == [] then [] else Flatten(blocks[..|blocks| - 1]) + blocks[|blocks| - 1]
  }

  ghost predicate Blocks(blocks: seq<seq<real>>, size: nat) {
    forall q :: 0 <= q < |blocks| ==> |blocks[q]| == size
  }

  function Means(blocks: seq<seq<real>>): seq<real>
    requires forall q :: 0 <= q < |blocks| ==> blocks[q] != []
  {
    seq(|blocks|, q requires 0 <= q < |blocks| => Mean(blocks[q]))
  }

  lemma {:induction false} FlattenLength(blocks: seq<seq<real>>, size: nat)
    requires Blocks(blocks, size)
    ensures |Flatten(blocks)| == |blocks| * size
    decreases |blocks|
  {
    if blocks != [] {
      FlattenLength(blocks[..|blocks| - 1], size);
      assert |blocks| * size == (|blocks| - 1) * size + size;
    }
  }

  lemma {:induction false} FlattenConcat(a: seq<seq<real>>, b: seq<seq<real>>)
    ensures Flatten(a + b) == Flatten(a) + Flatten(b)
    decreases |b|
  {
    if b == [] {
      assert a + b == a;
    } else {
      var front, last := b[..|b| - 1], b[|b| - 1];
      assert (a + b)[..|a + b| - 1] == a + front;
      FlattenConcat(a, front);
      assert Flatten(a + b) == (Flatten(a) + Flatten(front)) + last;
    }
  }

  function Scaled(size: nat, x: real): real {
    size as real * x
  }

  lemma AddMean(size: nat, s: real, b: real)
    requires size > 0
    ensures Scaled(size, s + b / size as real) == Scaled(size, s) + b
  {
  }

  /** Size times the sum of the block means is the sum of the samples in the blocks. */
  lemma {:induction false} SumOfMeans(blocks: seq<seq<real>>, size: nat)
    requires size > 0 && Blocks(blocks, size)
    ensures Scaled(size, Sum(Means(blocks))) == Sum(Flatten(blocks))
    decreases |blocks|
  {
    if blocks != [] {
      var front, last := blocks[..|blocks| - 1], blocks[|blocks| - 1];
      SumOfMeans(front, size);
      assert Means(blocks) == Means(front) + [Mean(last)];
      SumAppend(Means(front), Mean(last));
      AddMean(size, Sum(Means(front)), Sum(last));
      SumConcat(Flatten(front), last);
    }
  }

  lemma Ratio(a: real, b: real, n: real, size: real)
    requires n > 0.0 && size > 0.0 && size * a == b
    ensures a / n == b / (n * size)
  {
    assert a / n * (n * size) == a * size;
  }

  lemma SameMean(means: real, samples: real, n: nat, size: nat, length: nat)
    requires n > 0 && size > 0 && length == n * size && length > 0
    requires Scaled(size, means) == samples
    ensures means / n as real == samples / length as real
  {
    RealProduct(n, size);
    Ratio(means, samples, n as real, size as real);
  }

  /** The mean of block means is the plain mean of the samples. */
  lemma MeanOfMeans(blocks: seq<seq<real>>, size: nat)
    requires size > 0 && blocks != [] && Blocks(blocks, size)
    ensures Flatten(blocks) != [] && Mean(Means(blocks)) == Mean(Flatten(blocks))
  {
    FlattenLength(blocks, size);
    Multiple(|blocks|, size);
    SumOfMeans(blocks, size);
    SameMean(Sum(Means(blocks)), Sum(Flatten(blocks)), |blocks|, size, |Flatten(blocks)|);
  }

  /** The running update of a block: its first sample overwrites what the slot held. */
  lemma MeanStep(partial: seq<real>, held: real, value: real)
    requires partial != [] ==> held == Mean(partial)
    ensures (|partial| as real * held + value) / (|partial| + 1) as real == Mean(partial + [value])
  {
    SumAppend(partial, value);
    if partial != [] {
      assert |partial| as real * Mean(partial) == Sum(partial);
    }
  }

  lemma ConstantMean(n: nat, x: real)
    requires n > 0
    ensures Mean(seq(n, _ => x)) == x
  {
    SumConstant(n, x);
  }

  // ----- the ring -----

  /** Every completed block less than one lap back has its mean in its slot. */
  ghost predicate InSlots(ring: seq<real>, blocks: seq<seq<real>>)
    requires ring != [] && forall q :: 0 <= q < |blocks| ==> blocks[q] != []
  {
    forall q: nat :: q < |blocks| < q + |ring| ==> ring[q % |ring|] == Mean(blocks[q])
  }

  /** Filling the slot under the next block disturbs no other. */
  lemma WriteKeeps(ring: seq<real>, blocks: seq<seq<real>>, x: real)
    requires ring != [] && forall q :: 0 <= q < |blocks| ==> blocks[q] != []
    requires InSlots(ring, blocks)
    ensures InSlots(ring[|blocks| % |ring| := x], blocks)
  {
    forall q: nat | q < |blocks| < q + |ring| ensures q % |ring| != |blocks| % |ring| {
      SlotsDistinct(q, |blocks|, |ring|);
    }
  }

  lemma CompleteKeeps(ring: seq<real>, blocks: seq<seq<real>>, block: seq<real>)
    requires ring != [] && block != [] && forall q :: 0 <= q < |blocks| ==> blocks[q] != []
    requires InSlots(ring, blocks) && ring[|blocks| % |ring|] == Mean(block)
    ensures InSlots(ring, blocks + [block])
  {
  }

  /** A ring and its counters follow a history of completed blocks and a partial one. */
  ghost predicate Follows(ring: seq<real>, size: nat, idx: nat, blockIdx: nat, blocks: seq<seq<real>>, partial: seq<real>) {
    && size > 0 && ring != [] && Blocks(blocks, size) && |partial| < size
    && idx == |partial| && blockIdx == |blocks| % |ring|
    && InSlots(ring, blocks)
    && (partial != [] ==> ring[blockIdx] == Mean(partial))
  }

  lemma FlattenLast(done: seq<seq<real>>, block: seq<real>)
    ensures Flatten(done + [block]) == Flatten(done) + block
  {
    assert (done + [block])[..|done|] == done;
  }

  /** A sample joins the partial block. */
  lemma JoinsPartial(ring: seq<real>, size: nat, idx: nat, blockIdx: nat, blocks: seq<seq<real>>, partial: seq<real>, value: real)
    requires Follows(ring, size, idx, blockIdx, blocks, partial) && idx + 1 < size
    ensures Follows(ring[blockIdx := Mean(partial + [value])], size, idx + 1, blockIdx, blocks, partial + [value])
    ensures Flatten(blocks) + (partial + [value]) == Flatten(blocks) + partial + [value]
  {
    WriteKeeps(ring, blocks, Mean(partial + [value]));
  }

  /** A sample completes a block. */
  lemma CompletesBlock(ring: seq<real>, size: nat, idx: nat, blockIdx: nat, blocks: seq<seq<real>>, partial: seq<real>, value: real)
    requires Follows(ring, size, idx, blockIdx, blocks, partial) && idx + 1 == size
    ensures Follows(ring[blockIdx := Mean(partial + [value])], size, 0, (blockIdx + 1) % |ring|, blocks + [partial + [value]], [])
    ensures Flatten(blocks + [partial + [value]]) + [] == Flatten(blocks) + partial + [value]
  {
    var filled := partial + [value];
    WriteKeeps(ring, blocks, Mean(filled));
    CompleteKeeps(ring[blockIdx := Mean(filled)], blocks, filled);
    NextSlot(|blocks|, |ring|);
    FlattenLast(blocks, filled);
  }

  class BlockAverage {
    const numBlocks: nat
    const blockSize: nat
    var values: array<real>
    var idx: nat
    var blockIdx: nat
    var validBlocks: nat
    ghost var blocks: seq<seq<real>>
    ghost var partial: seq<real>

    /** Every sample so far. */
    ghost function Samples(): seq<real>
      reads this
    {
      Flatten(blocks) + partial
    }

    /** The ring follows the history: the last `numBlocks - 1` blocks are in their slots. */
    ghost predicate RingValid()
      reads this, values
    {
      values.Length == numBlocks && Follows(values[..], blockSize, idx, blockIdx, blocks, partial)
    }

    /** And so does the number of valid blocks. */
    ghost predicate Valid()
      reads this, values
    {
      RingValid() && (validBlocks == Least(|blocks|, numBlocks) || (Overfull() && validBlocks == |blocks|))
    }

    /** Constructed with more valid blocks than there are slots, and no block completed since. */
    predicate Overfull()
      reads this
    {
      validBlocks > numBlocks
    }

    constructor (numBlocks: nat, blockSize: nat, validBlocks: nat, initialValue: real)
      requires numBlocks > 0 && blockSize > 0
      ensures Valid() && fresh(values)
      ensures this.numBlocks == numBlocks && this.blockSize == blockSize
      ensures blocks == seq(validBlocks, _ => seq(blockSize, _ => initialValue)) && partial == []
      ensures Overfull() <==> validBlocks > numBlocks
    {
      this.numBlocks := numBlocks;
      this.blockSize := blockSize;
      blockIdx := validBlocks % numBlocks;
      idx := 0;
      values := new real[numBlocks](_ => initialValue);
      this.validBlocks := validBlocks;
      blocks := seq(validBlocks, _ => seq(blockSize, _ => initialValue));
      partial := [];
      new;
      ConstantMean(blockSize, initialValue);
      assert forall q :: 0 <= q < |blocks| ==> blocks[q] == seq(blockSize, _ => initialValue);
    }

    /** Folds a sample into the slot under the current block. */
    method Fold(value: real)
      requires blockIdx < values.Length && idx == |partial| && (partial != [] ==> values[blockIdx] == Mean(partial))
      modifies values
      ensures values[..] == old(values[..])[blockIdx := Mean(partial + [value])]
    {
      var held := values[blockIdx];
      MeanStep(partial, held, value);
      var folded := (idx as real * held + value) / (idx + 1) as real;
      assert folded == Mean(partial + [value]);
      values[blockIdx] := folded;
    }

    method Update(value: real)
      requires Valid()
      modifies this`idx, this`blockIdx, this`validBlocks, this`blocks, this`partial, values
      ensures Valid() && Samples() == old(Samples()) + [value]
      ensures Overfull() <==> old(Overfull()) && |blocks| == |old(blocks)|
    {
      UpdateRing(value);
      if idx == 0 {
        validBlocks := if validBlocks + 1 <= numBlocks then validBlocks + 1 else numBlocks;
      }
    }

    method UpdateRing(value: real)
      requires RingValid()
      modifies this`idx, this`blockIdx, this`blocks, this`partial, values
      ensures RingValid() && Samples() == old(Samples()) + [value]
      ensures |blocks| == |old(blocks)| + if idx == 0 then 1 else 0
    {
      ghost var ring, was, filled := values[..], idx, partial + [value];
      Wrap(idx, blockSize);
      Fold(value);
      idx := (idx + 1) % blockSize;
      if idx == 0 {
        CompletesBlock(ring, blockSize, was, blockIdx, blocks, partial, value);
        blocks, partial := blocks + [filled], [];
        blockIdx := (blockIdx + 1) % numBlocks;
      } else {
        JoinsPartial(ring, blockSize, was, blockIdx, blocks, partial, value);
        partial := filled;
      }
    }

    /** The blocks that `Get` averages: the last `numBlocks - 1` completed ones, or all of fewer. */
    ghost function Window(): seq<seq<real>>
      reads this, values
      requires Valid()
    {
      blocks[|blocks| - Least(|blocks|, numBlocks - 1)..]
    }

    /**
     Means and variances (of the block means), without and with the block being filled; None is nan. On an
     overfull ring a slot that does not exist is read, which raises.
     */
    method Get() returns (raises: bool, validMean: Option<real>, validVar: Option<real>, currentMean: Option<real>, currentVar: Option<real>)
      requires Valid()
      ensures raises == Overfull()
      ensures var w := Means(Window()); !raises ==>
        && validMean == MeanOf(w) && validVar == VarianceOf(w)
        && currentMean == MeanOf(w + PartialMean(partial)) && currentVar == VarianceOf(w + PartialMean(partial))
      ensures !raises && Window() != [] ==> validMean == Some(Mean(Flatten(Window())))
    {
      if validBlocks > numBlocks {
        return true, None, None, None, None;
      }
      raises := false;
      var chosen := Chosen();
      var current := chosen + (if idx > 0 then [values[blockIdx]] else []);
      validMean, validVar, currentMean, currentVar := MeanOf(chosen), VarianceOf(chosen), MeanOf(current), VarianceOf(current);
      ChosenStatistics(values[..], blocks, chosen, Means(Window()), PartialMean(partial));
      if Window() != [] {
        MeanOfMeans(Window(), blockSize);
      }
    }

    /** The means of the valid blocks but for the one being filled. */
    method Chosen() returns (chosen: seq<real>)
      requires validBlocks <= values.Length
      ensures chosen == Others(values[..], validBlocks, blockIdx)
    {
      chosen := [];
      for i := 0 to validBlocks
        invariant chosen == Others(values[..], i, blockIdx)
      {
        if i != blockIdx {
          chosen := chosen + [values[i]];
        }
      }
    }
  }

  function MeanOf(s: seq<real>): Option<real> {
    if s == [] then None else Some(Mean(s))
  }

  function VarianceOf(s: seq<real>): Option<real> {
    if s == [] then None else Some(Variance(s))
  }

  function PartialMean(partial: seq<real>): seq<real> {
    if partial == [] then [] else [Mean(partial)]
  }

  /** The first `n` slots without slot `b`. */
  function Others(ring: seq<real>, n: nat, b: nat): seq<real>
    requires n <= |ring|
  {
    if b < n then ring[..b] + ring[b + 1..n] else ring[..n]
  }

  /** The block in slot `late` or `early` past the current one. */
  lemma WindowSlot(ring: seq<real>, blocks: seq<seq<real>>, i: nat)
    requires (forall q :: 0 <= q < |blocks| ==> blocks[q] != []) && |blocks| >= |ring| > i + 1 && InSlots(ring, blocks)
    ensures var k, n := |blocks|, |ring|;
      var b := k % n;
      Mean(blocks[k - (n - 1) + i]) == ring[if b + 1 + i < n then b + 1 + i else b + 1 + i - n]
  {
    var k, n := |blocks|, |ring|;
    var q := k - (n - 1) + i;
    Lap(q, n);
    SlotAhead(k, i + 1, n);
    assert q < k < q + n;
    assert ring[q % n] == Mean(blocks[q]);
  }

  /** On a full ring the window is the slots after the current one, then those before it. */
  lemma FullWindow(ring: seq<real>, blocks: seq<seq<real>>)
    requires (forall q :: 0 <= q < |blocks| ==> blocks[q] != []) && |blocks| >= |ring| > 0 && InSlots(ring, blocks)
    ensures var b := |blocks| % |ring|; Means(blocks[|blocks| - (|ring| - 1)..]) == ring[b + 1..] + ring[..b]
  {
    var b := |blocks| % |ring|;
    var w, r := Means(blocks[|blocks| - (|ring| - 1)..]), ring[b + 1..] + ring[..b];
    forall i | 0 <= i < |w| ensures w[i] == r[i] {
      WindowSlot(ring, blocks, i);
    }
  }

  lemma ShortWindow(ring: seq<real>, blocks: seq<seq<real>>)
    requires (forall q :: 0 <= q < |blocks| ==> blocks[q] != []) && |blocks| < |ring| && InSlots(ring, blocks)
    ensures Means(blocks) == ring[..|blocks|] && |blocks| % |ring| == |blocks|
  {
    DivMod(|blocks|, |ring|, 0, |blocks|);
    forall q | 0 <= q < |blocks| ensures ring[q] == Mean(blocks[q]) {
      DivMod(q, |ring|, 0, q);
      assert ring[q % |ring|] == Mean(blocks[q]);
    }
  }

  lemma SameStatistics(a: seq<real>, b: seq<real>, extra: seq<real>)
    ensures MeanOf(a + b) == MeanOf(b + a) && VarianceOf(a + b) == VarianceOf(b + a)
    ensures MeanOf(a + b + extra) == MeanOf(b + a + extra) && VarianceOf(a + b + extra) == VarianceOf(b + a + extra)
  {
    assert a + b + [] == a + b && b + a + [] == b + a;
    if a + b != [] { Rotated(a, b, []); }
    if a + b + extra != [] { Rotated(a, b, extra); }
  }

  /** Slot order and time order differ by a rotation only. */
  lemma OthersAreWindow(ring: seq<real>, blocks: seq<seq<real>>) returns (early: seq<real>, late: seq<real>)
    requires ring != [] && (forall q :: 0 <= q < |blocks| ==> blocks[q] != []) && InSlots(ring, blocks)
    ensures Others(ring, Least(|blocks|, |ring|), |blocks| % |ring|) == early + late
    ensures Means(blocks[|blocks| - Least(|blocks|, |ring| - 1)..]) == late + early
  {
    if |blocks| < |ring| {
      ShortWindow(ring, blocks);
      assert blocks[0..] == blocks;
      early, late := ring[..|blocks|], [];
      assert late + early == early;
    } else {
      FullWindow(ring, blocks);
      var b := |blocks| % |ring|;
      early, late := ring[..b], ring[b + 1..];
    }
  }

  ghost predicate SameStats(a: seq<real>, b: seq<real>) {
    MeanOf(a) == MeanOf(b) && VarianceOf(a) == VarianceOf(b)
  }

  /** The chosen slots have the statistics of the window. */
  lemma ChosenStatistics(ring: seq<real>, blocks: seq<seq<real>>, chosen: seq<real>, means: seq<real>, extra: seq<real>)
    requires ring != [] && (forall q :: 0 <= q < |blocks| ==> blocks[q] != []) && InSlots(ring, blocks)
    requires chosen == Others(ring, Least(|blocks|, |ring|), |blocks| % |ring|)
    requires means == Means(blocks[|blocks| - Least(|blocks|, |ring| - 1)..])
    ensures SameStats(chosen, means) && SameStats(chosen + extra, means + extra)
  {
    var early, late := OthersAreWindow(ring, blocks);
    SameStatistics(early, late, extra);
  }

  // ----- the closed forms -----

  /** The history of a valid ring determines all its counters. */
  lemma ClosedForms(r: BlockAverage)
    requires r.Valid()
    ensures r.idx == |r.Samples()| % r.blockSize
    ensures r.blockIdx == |r.Samples()| / r.blockSize % r.numBlocks
    ensures r.validBlocks == if r.Overfull() then |r.Samples()| / r.blockSize else Least(|r.Samples()| / r.blockSize, r.numBlocks)
  {
    FlattenLength(r.blocks, r.blockSize);
    DivMod(|r.Samples()|, r.blockSize, |r.blocks|, |r.partial|);
  }

  /** The averaged window is the stretch of the last completed samples before the partial block. */
  lemma WindowIsSuffix(r: BlockAverage)
    requires r.Valid()
    ensures var n := |r.Samples()| / r.blockSize;
      var m := Least(n, r.numBlocks - 1);
      && 0 <= (n - m) * r.blockSize <= n * r.blockSize <= |r.Samples()|
      && Flatten(r.Window()) == r.Samples()[(n - m) * r.blockSize..n * r.blockSize]
      && r.partial == r.Samples()[n * r.blockSize..]
  {
    ClosedForms(r);
    SuffixOfSamples(r.blocks, r.partial, r.blockSize, Least(|r.blocks|, r.numBlocks - 1));
    FlattenLength(r.blocks, r.blockSize);
    DivMod(|r.Samples()|, r.blockSize, |r.blocks|, |r.partial|);
  }

  lemma SuffixOfSamples(blocks: seq<seq<real>>, partial: seq<real>, size: nat, m: nat)
    requires size > 0 && Blocks(blocks, size) && m <= |blocks|
    ensures var n, samples := |blocks|, Flatten(blocks) + partial;
      && 0 <= (n - m) * size <= n * size <= |samples|
      && Flatten(blocks[n - m..]) == samples[(n - m) * size..n * size]
      && partial == samples[n * size..]
  {
    var n := |blocks|;
    FlattenLength(blocks, size);
    FlattenLength(blocks[..n - m], size);
    assert blocks == blocks[..n - m] + blocks[n - m..];
    FlattenConcat(blocks[..n - m], blocks[n - m..]);
  }
}
