/** Quotients and remainders of running counters, and slots of a ring. */
module Positions {

  lemma Multiple(j: int, size: nat)
    ensures j >= 1 ==> j * size >= size
    ensures j <= -1 ==> j * size <= -(size as int)
  {
    if j >= 1 {
      assert (j - 1) * size >= 0;
    } else if j <= -1 {
      assert (-j - 1) * size >= 0;
    }
  }

  lemma DivMod(n: nat, size: nat, k: nat, r: nat)
    requires r < size && n == k * size + r
    ensures n / size == k && n % size == r
  {
    var q := n / size;
    assert n == q * size + n % size;
    assert (q - k) * size == r - n % size;
    Multiple(q - k, size);
  }

  /** Two positions less than one lap apart fall in different slots. */
  lemma SlotsDistinct(p: nat, q: nat, slots: nat)
    requires p < q < p + slots
    ensures p % slots != q % slots
  {
    var a, r := p / slots, p % slots;
    assert p == a * slots + r;
    if r + (q - p) < slots {
      DivMod(q, slots, a, r + (q - p));
    } else {
      assert (a + 1) * slots == a * slots + slots;
      DivMod(q, slots, a + 1, r + (q - p) - slots);
    }
  }

  /** The slot after the slot of `k`. */
  lemma NextSlot(k: nat, slots: nat)
    requires slots > 0
    ensures (k + 1) % slots == (if k % slots + 1 == slots then 0 else k % slots + 1)
    ensures (k + 1) % slots == (k % slots + 1) % slots
  {
    var q, r := k / slots, k % slots;
    assert k == q * slots + r;
    if r + 1 < slots {
      DivMod(k + 1, slots, q, r + 1);
      DivMod(r + 1, slots, 0, r + 1);
    } else {
      assert (q + 1) * slots == q * slots + slots;
      DivMod(k + 1, slots, q + 1, 0);
      DivMod(r + 1, slots, 1, 0);
    }
  }

  lemma Wrap(i: nat, size: nat)
    requires i < size
    ensures (i + 1) % size == if i + 1 == size then 0 else i + 1
  {
    if i + 1 < size { DivMod(i + 1, size, 0, i + 1); } else { DivMod(i + 1, size, 1, 0); }
  }

  /** Slot `i` past position `k` on a full lap. */
  lemma SlotAhead(k: nat, i: nat, slots: nat)
    requires i < slots
    ensures (k + i) % slots == (if k % slots + i < slots then k % slots + i else k % slots + i - slots)
  {
    var q, r := k / slots, k % slots;
    assert k == q * slots + r;
    if r + i < slots {
      DivMod(k + i, slots, q, r + i);
    } else {
      assert (q + 1) * slots == q * slots + slots;
      DivMod(k + i, slots, q + 1, r + i - slots);
    }
  }

  lemma Lap(p: nat, slots: nat)
    requires slots > 0
    ensures (p + slots) % slots == p % slots
  {
    var q, r := p / slots, p % slots;
    assert p == q * slots + r;
    assert (q + 1) * slots == q * slots + slots;
    DivMod(p + slots, slots, q + 1, r);
  }

  lemma RealProduct(a: nat, b: nat)
    ensures (a * b) as real == a as real * b as real
  {
  }
}
