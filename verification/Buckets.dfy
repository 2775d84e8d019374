/** The arithmetic of memalloc.c: block sizes, the choice of a bucket and the place of the
    payload in its block. */
module Buckets {
  import opened Arith
  import opened Blocks

  const MINSHIFT: nat := 5
  const LOCALBUCKETS: nat := 7
  const MINALIGN: nat := 16
  const HDRSIZE: nat := 8

  /** The size of the blocks of a bucket. */
  function BlockSize(bucket: nat): nat
  {
    Pow2(bucket + MINSHIFT)
  }

  /** The bucket memalloc computes with __builtin_clzl. */
  function BucketOf(allocbytes: nat): (bucket: nat)
  {
    if allocbytes < 32 then 0
    else
      var b := FloorLog2(allocbytes / 32) + 1;
      if PowerOfTwo(allocbytes) then b - 1 else b
  }

  /** It is the smallest bucket whose blocks are large enough. */
  lemma BucketSmallest(allocbytes: nat, b: nat)
    ensures allocbytes <= BlockSize(b) <==> BucketOf(allocbytes) <= b
  {
    hide Pow2, FloorLog2;
    Pow2Five();
    if allocbytes < 32 {
      Pow2Monotonic(MINSHIFT, b + MINSHIFT);
    } else {
      Log2Shift(allocbytes);
      AtMostPow2(allocbytes, b + MINSHIFT);
    }
  }

  lemma Pow2Five()
    ensures Pow2(5) == 32
  {
  }

  /** Shifting right by five takes five off the logarithm. */
  lemma Log2Shift(n: nat)
    requires n >= 32
    ensures FloorLog2(n) == FloorLog2(n / 32) + 5
  {
    hide Pow2, FloorLog2;
    Pow2Five();
    var e := FloorLog2(n / 32);
    Pow2Sum(e, 5);
    Log2Unique(n, e + 5);
  }

  lemma AtMostPow2(n: nat, e: nat)
    requires n > 0
    ensures n <= Pow2(e) <==> (if PowerOfTwo(n) then FloorLog2(n) else FloorLog2(n) + 1) <= e
  {
    hide Pow2, FloorLog2;
    var f := FloorLog2(n);
    if e <= f {
      Pow2Monotonic(e, f);
    } else {
      Pow2Monotonic(f, e);
    }
  }

  lemma Log2Unique(n: nat, e: nat)
    requires n > 0 && Pow2(e) <= n < 2 * Pow2(e)
    ensures FloorLog2(n) == e
  {
    var f := FloorLog2(n);
    if f < e {
      Pow2Monotonic(f, e);
    } else if f > e {
      Pow2Monotonic(e, f);
    }
  }

  /** The alignment memalloc works with. */
  function EffectiveAlign(align: nat): nat
  {
    if align < MINALIGN then MINALIGN else align
  }

  /** The header size rounded up to the alignment, `(sizeof(*hdr)+(align-1)) & ~(align-1)`. */
  function RoundUp(n: nat, align: nat): nat
    requires align > 0
  {
    (n + (align - 1)) - (n + (align - 1)) % align
  }

  lemma HeaderRoundsToAlign(align: nat)
    requires align >= MINALIGN
    ensures RoundUp(HDRSIZE, align) == align
  {
    DivModUnique(HDRSIZE + (align - 1), align, 1, HDRSIZE - 1);
  }

  /** The payload starts one alignment after an aligned block address: the first aligned
      address that leaves room for the header. */
  lemma PayloadAddress(block: nat, align: nat)
    requires align >= MINALIGN && block % align == 0
    ensures RoundUp(block + HDRSIZE, align) == block + align
  {
    var q := block / align;
    assert block + HDRSIZE + (align - 1) == (q + 1) * align + (HDRSIZE - 1) by {
      assert (q + 1) * align == q * align + align;
    }
    DivModUnique(block + HDRSIZE + (align - 1), align, q + 1, HDRSIZE - 1);
  }

  /** A block as large as an alignment, at a multiple of its size, is so aligned: this is
      where the natural alignment of the page allocator is needed. */
  lemma BlockIsAligned(block: nat, bucket: nat, align: nat)
    requires PowerOfTwo(align) && align <= BlockSize(bucket) && block % BlockSize(bucket) == 0
    ensures block % align == 0
  {
    var e := FloorLog2(align);
    if e > bucket + MINSHIFT {
      Pow2Monotonic(bucket + MINSHIFT, e);
    } else {
      Pow2Divides(e, bucket + MINSHIFT);
      MultipleTrans(block, BlockSize(bucket), align);
    }
  }

  lemma MinAlignPower()
    ensures PowerOfTwo(MINALIGN)
  {
    FloorLog2Exact(4);
    assert Pow2(4) == 16;
  }

  /** The number of blocks in a page. */
  function PerPage(bucket: nat): nat
    requires bucket < LOCALBUCKETS
  {
    Pow2(LOCALBUCKETS - bucket)
  }

  lemma SmallBlocks(bucket: nat)
    requires bucket < LOCALBUCKETS
    ensures PerPage(bucket) > 1 && PerPage(bucket) * BlockSize(bucket) == PAGE_SIZE
    ensures PAGE_SIZE % BlockSize(bucket) == 0 && PAGE_SIZE / BlockSize(bucket) == PerPage(bucket) && BlockSize(bucket) >= 32
  {
    Pow2Sum(bucket + MINSHIFT, LOCALBUCKETS - bucket);
    assert Pow2(12) == PAGE_SIZE by {
      SizeAtLeastPage(0);
    }
    Pow2Monotonic(1, LOCALBUCKETS - bucket);
    assert Pow2(1) == 2 && Pow2(5) == 32;
    Pow2Monotonic(5, bucket + MINSHIFT);
    MultipleMod(Pow2(LOCALBUCKETS - bucket), BlockSize(bucket));
  }

  /** bmk_memcalloc's overflow test on 64-bit words. */
  lemma CallocTest(n: nat, size: nat)
    requires n < Pow2(64) && 0 < size < Pow2(64)
    ensures ((n * size) % Pow2(64)) / size == n <==> n * size < Pow2(64)
  {
    hide Pow2;
    var w := Pow2(64);
    var tot := (n * size) % w;
    if n * size < w {
      DivModUnique(n * size, w, 0, n * size);
      MultipleMod(n, size);
    } else {
      assert tot < w <= n * size;
      var q := tot / size;
      assert q * size <= tot;
      MulOrder(q, n, size);
      MulOrder(n, q, size);
    }
  }
}
