/** Bitmaps of processed Merkle leaves, kept as bytes in slices of an account's trailing data. */
module Bitmaps {
  type Bytes = seq<bv8>

  /** `ByteFlags::bit`. */
  predicate Bit(b: bv8, i: nat) {
    i < 8 && b & (1 << i) != 0
  }

  /** `ByteFlags::set_bit(i, true)`. */
  function SetBit(b: bv8, i: nat): bv8 {
    if i < 8 then b | (1 << i) else b
  }

  lemma SetBitSetsOneBit(b: bv8, i: nat, j: nat)
    requires i < 8
    ensures Bit(SetBit(b, i), j) <==> Bit(b, j) || i == j
  {}

  function Zeros(n: nat): Bytes {
    seq(n, _ => 0)
  }

  /** ceil(n / 8): the bytes that hold n bits. */
  function BytesFor(n: nat): (bytes: nat)
    ensures n <= 8 * bytes < n + 8
  {
    if n % 8 == 0 then n / 8 else n / 8 + 1
  }

  /** `&data[lo..hi]`; the empty slice stands for a range that would panic. */
  function Slice(data: Bytes, lo: nat, hi: nat): Bytes {
    if lo <= hi <= |data| then data[lo..hi] else []
  }

  /** The leaf indices whose bit is set. */
  ghost function Leaves(bytes: Bytes): set<nat> {
    set i | 0 <= i < 8 * |bytes| && Bit(bytes[i / 8], i % 8)
  }

  ghost function LeavesIn(data: Bytes, lo: nat, hi: nat): set<nat> {
    Leaves(Slice(data, lo, hi))
  }

  /** The slice is in bounds, the leaf has a bit in it, and that bit is clear. */
  predicate CanMark(data: Bytes, lo: nat, hi: nat, leaf: nat) {
    && lo <= hi <= |data|
    && lo + leaf / 8 < hi
    && !Bit(data[lo + leaf / 8], leaf % 8)
  }

  function Mark(data: Bytes, lo: nat, hi: nat, leaf: nat): Bytes
    requires CanMark(data, lo, hi, leaf)
  {
    data[lo + leaf / 8 := SetBit(data[lo + leaf / 8], leaf % 8)]
  }

  /** A bit can be set exactly when the leaf has one and is not in the set yet. */
  lemma CanMarkIsFreshLeaf(data: Bytes, lo: nat, hi: nat, leaf: nat)
    requires lo <= hi <= |data|
    ensures CanMark(data, lo, hi, leaf) <==> leaf < 8 * (hi - lo) && leaf !in LeavesIn(data, lo, hi)
  {}

  /** Marking adds that leaf to the set of its own slice and nothing else. */
  lemma MarkAddsLeaf(data: Bytes, lo: nat, hi: nat, leaf: nat)
    requires CanMark(data, lo, hi, leaf)
    ensures leaf !in LeavesIn(data, lo, hi)
    ensures LeavesIn(Mark(data, lo, hi, leaf), lo, hi) == LeavesIn(data, lo, hi) + {leaf}
  {
    var before, after := data[lo..hi], Mark(data, lo, hi, leaf)[lo..hi];
    forall i: nat | i < 8 * |before|
      ensures Bit(after[i / 8], i % 8) <==> Bit(before[i / 8], i % 8) || i == leaf
    {
      if i / 8 == leaf / 8 {
        SetBitSetsOneBit(before[i / 8], leaf % 8, i % 8);
      }
    }
  }

  /** A slice that shares no byte with the marked one keeps its set of leaves. */
  lemma MarkKeepsOthers(data: Bytes, lo: nat, hi: nat, leaf: nat, lo': nat, hi': nat)
    requires CanMark(data, lo, hi, leaf)
    requires hi' <= lo || hi <= lo'
    ensures LeavesIn(Mark(data, lo, hi, leaf), lo', hi') == LeavesIn(data, lo', hi')
  {
    assert Slice(Mark(data, lo, hi, leaf), lo', hi') == Slice(data, lo', hi');
  }

  /** Growing the data keeps every slice of it, and the new bytes hold no leaf. */
  lemma GrowKeepsLeaves(data: Bytes, n: nat, lo: nat, hi: nat)
    requires hi <= |data|
    ensures LeavesIn(data + Zeros(n), lo, hi) == LeavesIn(data, lo, hi)
  {
    assert Slice(data + Zeros(n), lo, hi) == Slice(data, lo, hi);
  }

  lemma GrowAddsNoLeaf(data: Bytes, n: nat)
    ensures LeavesIn(data + Zeros(n), |data|, |data| + n) == {}
  {
    assert Slice(data + Zeros(n), |data|, |data| + n) == Zeros(n);
  }

  lemma LeavesBounded(bytes: Bytes)
    ensures |Leaves(bytes)| <= 8 * |bytes|
  {
    SetBelow(Leaves(bytes), 8 * |bytes|);
  }

  lemma {:induction false} SetBelow(s: set<nat>, n: nat)
    requires forall i :: i in s ==> i < n
    ensures |s| <= n
    decreases n
  {
    if n == 0 {
      assert s == {};
    } else {
      SetBelow(s - {n - 1}, n - 1);
    }
  }

  /** A set of n numbers below n is all of them. */
  lemma {:induction false} FullSet(s: set<nat>, n: nat)
    requires forall i :: i in s ==> i < n
    requires |s| == n
    ensures forall i: nat :: i < n ==> i in s
    decreases n
  {
    if n != 0 {
      if n - 1 !in s {
        SetBelow(s, n - 1);
      }
      FullSet(s - {n - 1}, n - 1);
      forall i: nat | i < n
        ensures i in s
      {
        assert i == n - 1 || i in s - {n - 1};
      }
    }
  }
}
