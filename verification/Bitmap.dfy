/** The allocation bitmap of the page allocator (lib/libbmk_core/pgalloc.c): one bit
    per managed page in an array of 64-bit words, and the word-at-a-time loops that
    set and clear the bits of a range of pages.

    `Marked` gives the bitmap its meaning, the set of page numbers whose bit is set;
    the two loops are proved against it. */
module Bitmap {

  /** The machine word holding the bit offset `n`. */
  function Word(n: nat): (w: bv64)
    requires n < 64
    ensures (n < 2 ==> w < 2) && (n < 4 ==> w < 4) && (n < 8 ==> w < 8)
    ensures (n < 16 ==> w < 16) && (n < 32 ==> w < 32) && w < 64
  {
    if n == 0 then 0 else 2 * Word(n / 2) + (if n % 2 == 0 then 0 else 1)
  }

  lemma {:induction false} WordOrder(m: nat, n: nat)
    requires m < 64 && n < 64
    ensures Word(m) < Word(n) <==> m < n
    decreases m + n
  {
    if m != 0 || n != 0 {
      WordOrder(m / 2, n / 2);
      WordOrder(n / 2, m / 2);
    }
  }

  predicate TestBit(w: bv64, j: bv64)
    requires j < 64
  {
    w & OneBit(j) != 0
  }

  function OneBit(j: bv64): bv64
    requires j < 64
  {
    1 << j
  }

  lemma MaskFrom(s: bv64, j: bv64)
    requires s < 64 && j < 64
    ensures TestBit(0 - (1 << s), j) <==> s <= j
  {
  }

  lemma MaskBelow(e: bv64, j: bv64)
    requires e < 64 && j < 64
    ensures TestBit((1 << e) - 1, j) <==> j < e
  {
  }

  lemma MaskOr(a: bv64, b: bv64, j: bv64)
    requires j < 64
    ensures TestBit(a | b, j) <==> TestBit(a, j) || TestBit(b, j)
  {
    Distribute(a, b, OneBit(j));
    OrZero(a & OneBit(j), b & OneBit(j));
  }

  lemma Distribute(a: bv64, b: bv64, m: bv64)
    ensures (a | b) & m == (a & m) | (b & m)
  {
  }

  lemma OrZero(a: bv64, b: bv64)
    ensures a | b == 0 <==> a == 0 && b == 0
  {
  }

  lemma MaskAnd(a: bv64, b: bv64, j: bv64)
    requires j < 64
    ensures TestBit(a & b, j) <==> TestBit(a, j) && TestBit(b, j)
  {
  }

  /** Bit `n` of a word, tested as `w & (1UL << n)`. */
  predicate Bit(w: bv64, n: nat)
    requires n < 64
  {
    TestBit(w, Word(n))
  }

  /** `-(1UL << start)` */
  function BitsFrom(start: nat): bv64
    requires start < 64
  {
    0 - (1 << Word(start))
  }

  /** `(1UL << end) - 1` */
  function BitsBelow(end: nat): bv64
    requires end < 64
  {
    (1 << Word(end)) - 1
  }

  /** The hint above the loops in the source: the first mask holds exactly the bits
      from `start` up, the second exactly the bits below `end`. */
  lemma BitsFromMask(start: nat, n: nat)
    requires start < 64 && n < 64
    ensures Bit(BitsFrom(start), n) <==> start <= n
  {
    WordOrder(n, start);
    assert Bit(BitsFrom(start), n) <==> Word(start) <= Word(n) by {
      MaskFrom(Word(start), Word(n));
    }
  }

  lemma BitsBelowMask(end: nat, n: nat)
    requires end < 64 && n < 64
    ensures Bit(BitsBelow(end), n) <==> n < end
  {
    WordOrder(n, end);
    assert Bit(BitsBelow(end), n) <==> Word(n) < Word(end) by {
      MaskBelow(Word(end), Word(n));
    }
  }

  function Or(a: bv64, b: bv64): bv64 { a | b }

  function And(a: bv64, b: bv64): bv64 { a & b }

  lemma BitOr(a: bv64, b: bv64, n: nat)
    requires n < 64
    ensures Bit(Or(a, b), n) <==> Bit(a, n) || Bit(b, n)
  {
    MaskOr(a, b, Word(n));
  }

  lemma BitAnd(a: bv64, b: bv64, n: nat)
    requires n < 64
    ensures Bit(And(a, b), n) <==> Bit(a, n) && Bit(b, n)
  {
    MaskAnd(a, b, Word(n));
  }

  const ALL_ONES: bv64 := 0xFFFF_FFFF_FFFF_FFFF

  lemma BitConst(n: nat)
    requires n < 64
    ensures Bit(ALL_ONES, n) && !Bit(0, n)
  {
  }

  /** Is page number `p` marked in the bitmap? */
  predicate BitAt(words: seq<bv64>, p: nat)
    requires p / 64 < |words|
  {
    Bit(words[p / 64], p % 64)
  }

  /** The page numbers whose bit is set. */
  ghost function Marked(words: seq<bv64>): set<nat>
  {
    set p: nat | 0 <= p < 64 * |words| && p / 64 < |words| && BitAt(words, p)
  }

  /** The bits of one word after an operation on the pages [first, first + n): those
      of the range hold `value`, the others what they held before. */
  ghost predicate WordDone(before: bv64, after: bv64, idx: nat, first: nat, n: nat, value: bool)
  {
    forall j: nat | j < 64 ::
      Bit(after, j) == (if first <= 64 * idx + j < first + n then value else Bit(before, j))
  }

  /** A mask with exactly the bits of the word's pages in the range. */
  ghost predicate MaskOf(mask: bv64, idx: nat, first: nat, n: nat)
  {
    forall j: nat | j < 64 :: Bit(mask, j) <==> first <= 64 * idx + j < first + n
  }

  lemma WordAllocated(w: bv64, mask: bv64, idx: nat, first: nat, n: nat)
    requires MaskOf(mask, idx, first, n)
    ensures WordDone(w, Or(w, mask), idx, first, n, true)
  {
    hide Bit, Or;
    forall j: nat | j < 64 ensures Bit(Or(w, mask), j) == (Bit(w, j) || Bit(mask, j)) {
      BitOr(w, mask, j);
    }
  }

  /** A mask with every bit but those of the word's pages in the range. */
  ghost predicate CoMaskOf(mask: bv64, idx: nat, first: nat, n: nat)
  {
    forall j: nat | j < 64 :: Bit(mask, j) <==> !(first <= 64 * idx + j < first + n)
  }

  lemma WordFreed(w: bv64, mask: bv64, idx: nat, first: nat, n: nat)
    requires CoMaskOf(mask, idx, first, n)
    ensures WordDone(w, And(w, mask), idx, first, n, false)
  {
    hide Bit, And;
    forall j: nat | j < 64 ensures Bit(And(w, mask), j) == (Bit(w, j) && Bit(mask, j)) {
      BitAnd(w, mask, j);
    }
  }

  lemma WordUntouched(w: bv64, idx: nat, first: nat, n: nat, value: bool)
    requires 64 * (idx + 1) <= first || first + n <= 64 * idx
    ensures WordDone(w, w, idx, first, n, value)
  {
    hide Bit;
  }

  lemma WordWhole(w: bv64, idx: nat, first: nat, n: nat)
    requires first <= 64 * idx && 64 * (idx + 1) <= first + n
    ensures WordDone(w, ALL_ONES, idx, first, n, true)
    ensures WordDone(w, 0, idx, first, n, false)
  {
    hide Bit;
    forall j: nat | j < 64 ensures Bit(ALL_ONES, j) && !Bit(0, j) {
      BitConst(j);
    }
  }

  /** The masks used when the range lies in one word, and for the first and the last
      of several words. */
  lemma SingleWordMasks(first: nat, n: nat)
    requires first / 64 == (first + n) / 64
    ensures MaskOf(And(BitsBelow((first + n) % 64), BitsFrom(first % 64)), first / 64, first, n)
    ensures CoMaskOf(Or(BitsFrom((first + n) % 64), BitsBelow(first % 64)), first / 64, first, n)
  {
    hide Bit, Or, And, BitsFrom, BitsBelow;
    var start, end := first % 64, (first + n) % 64;
    forall j: nat | j < 64
      ensures Bit(And(BitsBelow(end), BitsFrom(start)), j) <==> start <= j < end
      ensures Bit(Or(BitsFrom(end), BitsBelow(start)), j) <==> j < start || end <= j
    {
      BitsFromMask(start, j);
      BitsFromMask(end, j);
      BitsBelowMask(start, j);
      BitsBelowMask(end, j);
      BitAnd(BitsBelow(end), BitsFrom(start), j);
      BitOr(BitsFrom(end), BitsBelow(start), j);
    }
  }

  lemma EndWordMasks(first: nat, n: nat)
    requires first / 64 < (first + n) / 64
    ensures MaskOf(BitsFrom(first % 64), first / 64, first, n)
    ensures MaskOf(BitsBelow((first + n) % 64), (first + n) / 64, first, n)
    ensures CoMaskOf(BitsBelow(first % 64), first / 64, first, n)
    ensures CoMaskOf(BitsFrom((first + n) % 64), (first + n) / 64, first, n)
  {
    hide Bit, BitsFrom, BitsBelow;
    var start, end := first % 64, (first + n) % 64;
    forall j: nat | j < 64
      ensures Bit(BitsFrom(start), j) <==> start <= j
      ensures Bit(BitsFrom(end), j) <==> end <= j
      ensures Bit(BitsBelow(start), j) <==> j < start
      ensures Bit(BitsBelow(end), j) <==> j < end
    {
      BitsFromMask(start, j);
      BitsFromMask(end, j);
      BitsBelowMask(start, j);
      BitsBelowMask(end, j);
    }
  }

  lemma RangeDone(before: seq<bv64>, after: seq<bv64>, first: nat, n: nat, value: bool)
    requires |before| == |after|
    requires forall i | 0 <= i < |before| :: WordDone(before[i], after[i], i, first, n, value)
    ensures forall p: nat | p < 64 * |before| ::
              p in Marked(after) <==> (if first <= p < first + n then value else p in Marked(before))
  {
    hide Bit;
    forall p: nat | p < 64 * |before|
      ensures BitAt(after, p) == (if first <= p < first + n then value else BitAt(before, p))
    {
      assert WordDone(before[p / 64], after[p / 64], p / 64, first, n, value);
      assert Bit(after[p / 64], p % 64) ==
             (if first <= 64 * (p / 64) + p % 64 < first + n then value else Bit(before[p / 64], p % 64));
    }
  }

  /** map_alloc: sets the bits of the pages [first, first + n) and no others. The word
      of page first + n is touched even when the range ends on a word boundary, so it
      too must exist. */
  method MapAlloc(words: array<bv64>, first: nat, n: nat)
    requires (first + n) / 64 < words.Length
    modifies words
    ensures forall p: nat | p < 64 * words.Length ::
              p in Marked(words[..]) <==> first <= p < first + n || p in Marked(old(words[..]))
  {
    hide *;
    var curr, start := first / 64, first % 64;
    var endIdx, end := (first + n) / 64, (first + n) % 64;
    ghost var was := words[..];
    forall i | 0 <= i < |was| && (i < curr || endIdx < i)
      ensures WordDone(was[i], was[i], i, first, n, true)
    {
      WordUntouched(was[i], i, first, n, true);
    }
    if curr == endIdx {
      SingleWordMasks(first, n);
      words[curr] := Or(words[curr], And(BitsBelow(end), BitsFrom(start)));
      WordAllocated(was[curr], And(BitsBelow(end), BitsFrom(start)), curr, first, n);
    } else {
      EndWordMasks(first, n);
      words[curr] := Or(words[curr], BitsFrom(start));
      WordAllocated(was[curr], BitsFrom(start), curr, first, n);
      curr := curr + 1;
      while curr < endIdx
        invariant first / 64 < curr <= endIdx
        invariant forall i | 0 <= i < words.Length && (i < first / 64 || curr <= i) :: words[i] == was[i]
        invariant forall i | first / 64 <= i < curr :: WordDone(was[i], words[i], i, first, n, true)
      {
        words[curr] := ALL_ONES;
        WordWhole(was[curr], curr, first, n);
        curr := curr + 1;
      }
      words[curr] := Or(words[curr], BitsBelow(end));
      WordAllocated(was[curr], BitsBelow(end), curr, first, n);
    }
    RangeDone(was, words[..], first, n, true);
  }

  /** map_free: clears the bits of the pages [first, first + n) and no others. */
  method MapFree(words: array<bv64>, first: nat, n: nat)
    requires (first + n) / 64 < words.Length
    modifies words
    ensures forall p: nat | p < 64 * words.Length ::
              p in Marked(words[..]) <==> !(first <= p < first + n) && p in Marked(old(words[..]))
  {
    hide *;
    var curr, start := first / 64, first % 64;
    var endIdx, end := (first + n) / 64, (first + n) % 64;
    ghost var was := words[..];
    forall i | 0 <= i < |was| && (i < curr || endIdx < i)
      ensures WordDone(was[i], was[i], i, first, n, false)
    {
      WordUntouched(was[i], i, first, n, false);
    }
    if curr == endIdx {
      SingleWordMasks(first, n);
      words[curr] := And(words[curr], Or(BitsFrom(end), BitsBelow(start)));
      WordFreed(was[curr], Or(BitsFrom(end), BitsBelow(start)), curr, first, n);
    } else {
      EndWordMasks(first, n);
      words[curr] := And(words[curr], BitsBelow(start));
      WordFreed(was[curr], BitsBelow(start), curr, first, n);
      curr := curr + 1;
      while curr != endIdx
        invariant first / 64 < curr <= endIdx
        invariant forall i | 0 <= i < words.Length && (i < first / 64 || curr <= i) :: words[i] == was[i]
        invariant forall i | first / 64 <= i < curr :: WordDone(was[i], words[i], i, first, n, false)
        decreases endIdx - curr
      {
        words[curr] := 0;
        WordWhole(was[curr], curr, first, n);
        curr := curr + 1;
      }
      words[curr] := And(words[curr], BitsFrom(end));
      WordFreed(was[curr], BitsFrom(end), curr, first, n);
    }
    RangeDone(was, words[..], first, n, false);
  }
}
