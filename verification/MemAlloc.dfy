/** The malloc of lib/libbmk_core/memalloc.c over the page allocator: free lists of
    power-of-two blocks below the page size, page chunks above, and a header in front of
    every payload. */
module MemAlloc {
  import opened Arith
  import opened Blocks
  import opened Buckets
  import opened MemState
  import opened PageAlloc
  import opened BuddySteps

  const MAGIC: nat := 0xef
  const MEMWHO_USER: nat := 2

  /** struct memalloc_hdr */
  datatype MemHdr = MemHdr(alignpad: nat, magic: nat, index: nat, who: nat)

  /** nmalloc counts the live blocks of each bucket. */
  ghost predicate CountsOk(nmalloc: seq<nat>, live: map<nat, Alloc>)
  {
    |nmalloc| == LOCALBUCKETS && forall b | 0 <= b < LOCALBUCKETS :: nmalloc[b] == |Used(live, b)|
  }

  lemma CountAdd(nmalloc: seq<nat>, live: map<nat, Alloc>, r: nat, a: Alloc)
    requires CountsOk(nmalloc, live) && r !in live && Injective(live[r := a])
    ensures a.bucket < LOCALBUCKETS ==> CountsOk(nmalloc[a.bucket := nmalloc[a.bucket] + 1], live[r := a])
    ensures a.bucket >= LOCALBUCKETS ==> CountsOk(nmalloc, live[r := a])
  {
    var live' := live[r := a];
    assert r in live' && live'[r] == a;
    forall q | q in live ensures live[q].block != a.block {
      assert q in live' && live'[q] == live[q];
    }
    forall b | 0 <= b < LOCALBUCKETS
      ensures |Used(live', b)| == |Used(live, b)| + if a.bucket == b then 1 else 0
    {
      UsedAdd(live, r, a, b);
      assert a.block !in Used(live, b);
    }
  }

  lemma CountRemove(nmalloc: seq<nat>, live: map<nat, Alloc>, r: nat)
    requires CountsOk(nmalloc, live) && r in live && Injective(live)
    ensures live[r].bucket < LOCALBUCKETS ==>
              nmalloc[live[r].bucket] > 0 &&
              CountsOk(nmalloc[live[r].bucket := nmalloc[live[r].bucket] - 1], live - {r})
    ensures live[r].bucket >= LOCALBUCKETS ==> CountsOk(nmalloc, live - {r})
  {
    var a := live[r];
    assert a.block in Used(live, a.bucket);
    forall b | 0 <= b < LOCALBUCKETS
      ensures |Used(live - {r}, b)| == |Used(live, b)| - if a.bucket == b then 1 else 0
    {
      UsedRemove(live, r, b);
    }
  }

  /** The header of every live pointer describes its block. */
  ghost predicate HdrsOk(header: map<nat, MemHdr>, live: map<nat, Alloc>)
  {
    forall r | r in live :: r in header && HdrOf(header[r], r, live[r])
  }

  predicate HdrOf(h: MemHdr, r: nat, a: Alloc)
  {
    h.alignpad == r - a.block && h.magic == MAGIC && h.index == a.bucket && h.who == a.who
  }

  /** The byte at an address. */
  function Byte(mem: map<nat, bv8>, x: nat): bv8
  {
    if x in mem then mem[x] else 0
  }

  /** mem' is mem with n bytes from b on set to c. */
  ghost predicate Filled(mem: map<nat, bv8>, mem': map<nat, bv8>, b: nat, c: bv8, n: nat)
  {
    forall x: nat :: Byte(mem', x) == if b <= x < b + n then c else Byte(mem, x)
  }

  /** mem' is mem with the n bytes from src on copied to d. */
  ghost predicate Copied(mem: map<nat, bv8>, mem': map<nat, bv8>, d: nat, src: nat, n: nat)
  {
    forall x: nat {:trigger Byte(mem', x)} :: Byte(mem', x) == if d <= x < d + n then Byte(mem, src + (x - d)) else Byte(mem, x)
  }

  lemma FilledOne(mem: map<nat, bv8>, mem': map<nat, bv8>, b: nat, c: bv8, i: nat)
    requires Filled(mem, mem', b, c, i)
    ensures Filled(mem, mem'[b + i := c], b, c, i + 1)
  {
    var mem'' := mem'[b + i := c];
    forall x: nat ensures Byte(mem'', x) == if x == b + i then c else Byte(mem', x) {
    }
  }

  lemma CopiedOne(mem: map<nat, bv8>, mem': map<nat, bv8>, d: nat, src: nat, i: nat, n: nat)
    requires Copied(mem, mem', d, src, i) && i < n && (d + n <= src || src + n <= d)
    ensures Copied(mem, mem'[d + i := Byte(mem', src + i)], d, src, i + 1)
  {
    var y := src + i;
    assert Byte(mem', y) == Byte(mem, y);
    var mem'' := mem'[d + i := Byte(mem', y)];
    forall x: nat ensures Byte(mem'', x) == if x == d + i then Byte(mem, y) else Byte(mem', x) {
    }
  }

  function Product(n: nat, size: nat): nat { n * size }

  /** Is there a block for the bucket, on its list or from the page allocator? */
  ghost predicate CanServe(bucket: nat, freebuckets: seq<seq<nat>>, free: set<nat>)
    requires |freebuckets| == LOCALBUCKETS
  {
    if bucket < LOCALBUCKETS
    then freebuckets[bucket] != [] || HasBlock(0, free)
    else HasBlock(bucket - LOCALBUCKETS, free)
  }

  /** Where the payload goes: aligned, behind a header, and inside the block to its last byte. */
  lemma Payload(nbytes: nat, align: nat, a: Alloc)
    requires PowerOfTwo(align) && align >= MINALIGN
    requires a.bucket == BucketOf(nbytes + align) && a.block % BlockSize(a.bucket) == 0
    ensures RoundUp(a.block + HDRSIZE, align) == a.block + align
    ensures (a.block + align) % align == 0
    ensures PointerOk(a.block + align, a)
    ensures a.block + align + nbytes <= a.block + BlockSize(a.bucket)
  {
    hide PowerOfTwo, BlockSize, BucketOf;
    BucketSmallest(nbytes + align, a.bucket);
    BlockIsAligned(a.block, a.bucket, align);
    PayloadAddress(a.block, align);
    MultipleSum(a.block, align, align);
  }

  lemma LargeBlock(c: Chunk)
    requires Aligned(c)
    ensures c.addr % BlockSize(c.order + LOCALBUCKETS) == 0
  {
    assert c.order + LOCALBUCKETS + MINSHIFT == c.order + PAGE_SHIFT;
  }

  lemma BucketBound(allocbytes: nat)
    requires allocbytes <= Pow2(63)
    ensures BucketOf(allocbytes) < FREELIST_LEVELS + LOCALBUCKETS
  {
    hide BucketOf, Pow2;
    BucketSmallest(allocbytes, 58);
  }

  lemma EffectivePower(align: nat)
    requires align == 0 || PowerOfTwo(align)
    ensures PowerOfTwo(EffectiveAlign(align)) && EffectiveAlign(align) >= MINALIGN
  {
    MinAlignPower();
  }

  lemma PageChunk(c: Chunk)
    requires Aligned(c) && c.order == 0
    ensures c.addr % PAGE_SIZE == 0
  {
    SizeAtLeastPage(0);
  }

  lemma HeadBlock(free: seq<seq<nat>>, pages: seq<set<nat>>, live: map<nat, Alloc>, chunks: set<Chunk>, b: nat)
    requires Consistent(free, pages, live, chunks) && b < LOCALBUCKETS && free[b] != []
    ensures free[b][0] % BlockSize(b) == 0
    ensures (forall c, x | c in chunks && In(x, c) :: x > 0) ==> free[b][0] > 0
  {
    hide BlockSize, PerPage;
    assert BucketOk(free[b], Used(live, b), pages[b], b);
    assert free[b][0] in free[b];
    var x := free[b][0];
    var a := Alloc(x, b, 0);
    SmallBlocks(b);
    assert InBlock(x, a);
    var c := ChunkOf(a, pages, chunks, x);
  }

  class MemAllocator {
    const pa: PageAllocator
    var freebuckets: seq<seq<nat>>
    var nmalloc: seq<nat>
    var header: map<nat, MemHdr>
    var mem: map<nat, bv8>
    ghost var pages: seq<set<nat>>
    ghost var live: map<nat, Alloc>

    ghost predicate Valid()
      reads this, pa, pa.bitmap
    {
      && pa.Valid()
      && Consistent(freebuckets, pages, live, pa.live)
      && PointersOk(live)
      && CountsOk(nmalloc, live)
      && HdrsOk(header, live)
    }

    /** Nothing but the contents of memory may have changed. */
    twostate predicate SameState()
      reads this, pa
    {
      && freebuckets == old(freebuckets) && nmalloc == old(nmalloc) && header == old(header)
      && pages == old(pages) && live == old(live) && pa.live == old(pa.live) && pa.free == old(pa.free)
    }

    /** In each local bucket the free list and the count of live blocks add up to the blocks
        of the pages it has obtained. */
    lemma Accounting(b: nat)
      requires Valid() && b < LOCALBUCKETS
      ensures |freebuckets| == |pages| == |nmalloc| == LOCALBUCKETS
      ensures |freebuckets[b]| + nmalloc[b] == |pages[b]| * PerPage(b)
      ensures PerPage(b) * BlockSize(b) == PAGE_SIZE
    {
      hide PageAllocator.Valid, PerPage, BlockSize;
      SmallBlocks(b);
      assert BucketOk(freebuckets[b], Used(live, b), pages[b], b);
    }

    /** No byte of a live block is in another live block, free in the page allocator, or in a
        block on a free list. */
    lemma NoSharing(r: nat, x: nat)
      requires Valid() && r in live && InBlock(x, live[r])
      ensures forall q | q in live && InBlock(x, live[q]) :: q == r
      ensures x !in pa.free
      ensures forall b, y | 0 <= b < |freebuckets| && y in freebuckets[b] :: !InBlock(x, Alloc(y, b, 0))
    {
      hide PageAllocator.Valid, Consistent, InBlock, Disjoint, In;
      SameLengths(freebuckets, pages, live, pa.live);
      pa.LiveBlocks();
      forall q | q in live && InBlock(x, live[q]) ensures q == r {
        LiveDisjoint(freebuckets, pages, live, pa.live, r, q, x);
      }
      forall b, y | 0 <= b < |freebuckets| && y in freebuckets[b] ensures !InBlock(x, Alloc(y, b, 0)) {
        FreeDisjoint(freebuckets, pages, live, pa.live, r, b, y, x);
      }
      var c := LiveChunk(freebuckets, pages, live, pa.live, r, x);
    }

    /** bmk_memalloc_init */
    constructor Init(pa: PageAllocator)
      requires pa.Valid()
      ensures Valid() && this.pa == pa && live == map[] && freebuckets == seq(LOCALBUCKETS, _ => [])
    {
      hide PageAllocator.Valid;
      this.pa := pa;
      freebuckets := seq(LOCALBUCKETS, _ => []);
      nmalloc := seq(LOCALBUCKETS, _ => 0);
      header, mem, live := map[], map[], map[];
      pages := seq(LOCALBUCKETS, _ => {});
      new;
      NothingYet(freebuckets, pages, pa.live);
    }

    /** morecore: a page from the page allocator, cut into blocks; all but the first go on
        the free list. */
    method MoreCore(bucket: nat) returns (rv: nat)
      requires Valid() && bucket < LOCALBUCKETS
      modifies this`freebuckets, this`pages, pa, pa.bitmap
      ensures pa.Valid() && |freebuckets| == LOCALBUCKETS
      ensures rv != 0 <==> HasBlock(0, old(pa.free))
      ensures rv == 0 ==> freebuckets == old(freebuckets) && pages == old(pages) &&
                          pa.live == old(pa.live) && pa.free == old(pa.free)
      ensures rv != 0 ==> Consistent(freebuckets[bucket := [rv] + freebuckets[bucket]], pages, live, pa.live)
      ensures rv != 0 ==> pages == old(pages)[bucket := old(pages[bucket]) + {rv}]
    {
      hide PageAllocator.Valid, Consistent, BlockSize, PerPage, Cut, HasBlock, Disjoint, Aligned, PointersOk, CountsOk, HdrsOk;
      assert |freebuckets| == LOCALBUCKETS && |pages| == LOCALBUCKETS by { SameLengths(freebuckets, pages, live, pa.live); }
      SmallBlocks(bucket);
      var sz := BlockSize(bucket);
      var nblks := PAGE_SIZE / sz;
      var p;
      rv := pa.Pgalloc(0);
      if rv == 0 {
        return;
      }
      p := rv;
      pa.LiveBlocks();
      PageChunk(Chunk(rv, 0));
      NewPage(freebuckets, pages, live, old(pa.live), bucket, rv);
      nblks := nblks - 1;
      CutMore(rv, bucket, 0, freebuckets[bucket]);
      while nblks > 0
        invariant 0 <= nblks < PerPage(bucket)
        invariant p == BlockAt(rv, bucket, PerPage(bucket) - 1 - nblks)
        invariant freebuckets ==
                  old(freebuckets)[bucket := Cut(rv, bucket, PerPage(bucket) - 1 - nblks) + old(freebuckets[bucket])]
        modifies this`freebuckets
      {
        ghost var k := PerPage(bucket) - 1 - nblks;
        IndexIsBlock(rv, bucket, k);
        CutMore(rv, bucket, k, old(freebuckets[bucket]));
        p := p + sz;
        freebuckets := freebuckets[bucket := [p] + freebuckets[bucket]];
        nblks := nblks - 1;
      }
      pages := pages[bucket := pages[bucket] + {rv}];
      assert freebuckets[bucket := [rv] + freebuckets[bucket]] ==
             old(freebuckets)[bucket := [rv] + (Cut(rv, bucket, PerPage(bucket) - 1) + old(freebuckets[bucket]))];
    }

    /** bucketalloc: the block is off its list and not yet live. */
    method BucketAlloc(bucket: nat) returns (frb: nat)
      requires Valid() && bucket < LOCALBUCKETS
      modifies this`freebuckets, this`pages, this`nmalloc, pa, pa.bitmap
      ensures pa.Valid() && |freebuckets| == LOCALBUCKETS
      ensures frb != 0 <==> CanServe(bucket, old(freebuckets), old(pa.free))
      ensures frb == 0 ==> freebuckets == old(freebuckets) && pages == old(pages) && nmalloc == old(nmalloc) &&
                           pa.live == old(pa.live) && pa.free == old(pa.free)
      ensures frb != 0 ==> Consistent(freebuckets[bucket := [frb] + freebuckets[bucket]], pages, live, pa.live)
      ensures frb != 0 ==> |nmalloc| == LOCALBUCKETS && nmalloc == old(nmalloc)[bucket := old(nmalloc[bucket]) + 1]
    {
      hide PageAllocator.Valid, Consistent, HasBlock, PointersOk, HdrsOk, Used;
      SameLengths(freebuckets, pages, live, pa.live);
      if freebuckets[bucket] == [] {
        frb := MoreCore(bucket);
        if frb == 0 {
          return;
        }
      } else {
        HeadBlock(freebuckets, pages, live, pa.live, bucket);
        pa.LiveBlocks();
        frb := freebuckets[bucket][0];
        freebuckets := freebuckets[bucket := freebuckets[bucket][1..]];
        assert [frb] + freebuckets[bucket] == old(freebuckets[bucket]);
        assert freebuckets[bucket := [frb] + freebuckets[bucket]] == old(freebuckets);
      }
      nmalloc := nmalloc[bucket := nmalloc[bucket] + 1];
    }

    /** bmk_memalloc */
    method Memalloc(nbytes: nat, align0: nat, who: nat) returns (rv: nat)
      requires Valid()
      requires align0 == 0 || PowerOfTwo(align0) ==> align0 <= Pow2(31) && nbytes + EffectiveAlign(align0) <= Pow2(63)
      modifies this`freebuckets, this`pages, this`nmalloc, this`header, this`live, pa, pa.bitmap
      ensures Valid() && |old(freebuckets)| == LOCALBUCKETS
      ensures var align := EffectiveAlign(align0);
              var bucket := BucketOf(nbytes + align);
              && (rv != 0 <==> (align0 == 0 || PowerOfTwo(align0)) && CanServe(bucket, old(freebuckets), old(pa.free)))
              && (rv == 0 ==> SameState())
              && (rv != 0 ==>
                    && rv >= align && rv !in old(live)
                    && live == old(live)[rv := Alloc(rv - align, bucket, who)]
                    && header == old(header)[rv := MemHdr(align, MAGIC, bucket, who)]
                    && rv % align == 0
                    && rv + nbytes <= rv - align + BlockSize(bucket))
    {
      hide PageAllocator.Valid, Consistent, HasBlock, Used, BucketOf, BlockSize, PowerOfTwo, Pow2, Disjoint, Aligned;
      SameLengths(freebuckets, pages, live, pa.live);
      if !(align0 == 0 || PowerOfTwo(align0)) {
        return 0;
      }
      EffectivePower(align0);
      var align := EffectiveAlign(align0);
      HeaderRoundsToAlign(align);
      var allocbytes := nbytes + RoundUp(HDRSIZE, align);
      var bucket := BucketOf(allocbytes);
      BucketBound(allocbytes);
      var hdr;
      if bucket >= LOCALBUCKETS {
        hdr := pa.Pgalloc(bucket + MINSHIFT - PAGE_SHIFT);
      } else {
        hdr := BucketAlloc(bucket);
      }
      if hdr == 0 {
        return 0;
      }
      pa.LiveBlocks();
      ghost var a := Alloc(hdr, bucket, who);
      if bucket >= LOCALBUCKETS {
        LargeBlock(Chunk(hdr, bucket - LOCALBUCKETS));
      } else {
        HeadBlock(freebuckets[bucket := [hdr] + freebuckets[bucket]], pages, live, pa.live, bucket);
      }
      Payload(nbytes, align, a);
      rv := RoundUp(hdr + HDRSIZE, align);
      var alignpad := rv - hdr;
      if bucket >= LOCALBUCKETS {
        TakeLarge(freebuckets, pages, live, old(pa.live), a, rv);
      } else {
        TakeSmallBlock(freebuckets, pages, live, pa.live, a, rv);
      }
      CountTaken(old(nmalloc), live, rv, a, freebuckets, pages, pa.live);
      header := header[rv := MemHdr(alignpad, MAGIC, bucket, who)];
      live := live[rv := a];
    }

    /** bmk_memfree: halts on the wrong owner, ignores what does not look like a block. */
    method Memfree(cp: nat, who: nat) returns (halted: bool)
      requires Valid()
      requires cp == 0 || cp in live || cp !in header || header[cp].magic != MAGIC
      modifies this`freebuckets, this`nmalloc, this`live, pa, pa.bitmap
      ensures Valid()
      ensures halted <==> cp != 0 && old(cp in live && live[cp].who != who)
      ensures cp == 0 || cp !in old(live) || halted ==> SameState()
      ensures cp != 0 && cp in old(live) && !halted ==> live == old(live) - {cp}
      ensures cp != 0 && cp in old(live) && !halted && old(live[cp]).bucket < LOCALBUCKETS ==>
                var a := old(live[cp]);
                && |old(freebuckets)| == LOCALBUCKETS
                && freebuckets == old(freebuckets)[a.bucket := [a.block] + old(freebuckets)[a.bucket]]
                && pa.live == old(pa.live) && pa.free == old(pa.free)
      ensures cp != 0 && cp in old(live) && !halted && old(live[cp]).bucket >= LOCALBUCKETS ==>
                var c := Chunk(old(live[cp]).block, old(live[cp]).bucket - LOCALBUCKETS);
                freebuckets == old(freebuckets) && pa.live == old(pa.live) - {c} && pa.free == old(pa.free) + Bytes(c)
    {
      hide PageAllocator.Valid, Consistent, Used, BlockSize, Bytes;
      if cp == 0 {
        return false;
      }
      if cp !in header || header[cp].magic != MAGIC {
        return false;
      }
      if header[cp].who != who {
        return true;
      }
      SameLengths(freebuckets, pages, live, pa.live);
      var index := header[cp].index;
      var origp := cp - header[cp].alignpad;
      CountFreed(nmalloc, live, cp, freebuckets, pages, pa.live);
      halted := false;
      if index >= LOCALBUCKETS {
        ReturnLarge(freebuckets, pages, live, pa.live, cp);
        pa.Pgfree(origp, index + MINSHIFT - PAGE_SHIFT);
      } else {
        ReturnSmall(freebuckets, pages, live, pa.live, cp);
        freebuckets := freebuckets[index := [origp] + freebuckets[index]];
        nmalloc := nmalloc[index := nmalloc[index] - 1];
      }
      live := live - {cp};
    }

    /** bmk_memcalloc: refuses sizes whose product does not fit a word, and clears. */
    method Memcalloc(n: nat, size: nat, who: nat) returns (v: nat)
      requires Valid() && n < Pow2(64) && size < Pow2(64)
      requires Product(n, size) < Pow2(64) ==> Product(n, size) + MINALIGN <= Pow2(63)
      modifies this, pa, pa.bitmap
      ensures Valid() && |old(freebuckets)| == LOCALBUCKETS
      ensures v != 0 <==> Product(n, size) < Pow2(64) && CanServe(BucketOf(Product(n, size) + MINALIGN), old(freebuckets), old(pa.free))
      ensures v == 0 ==> SameState() && mem == old(mem)
      ensures v != 0 ==> v >= MINALIGN && v !in old(live) && v % MINALIGN == 0 &&
                         live == old(live)[v := Alloc(v - MINALIGN, BucketOf(Product(n, size) + MINALIGN), who)]
      ensures v != 0 ==> Filled(old(mem), mem, v, 0, Product(n, size))
    {
      hide Product, PageAllocator.Valid, Consistent, CanServe, BucketOf, BlockSize, Pow2, Used, PowerOfTwo;
      SameLengths(freebuckets, pages, live, pa.live);
      var tot := Product(n, size) % Pow2(64);
      WordProduct(n, size);
      if size != 0 && tot / size != n {
        return 0;
      }
      assert tot == Product(n, size);
      SmallAlign();
      v := Memalloc(tot, MINALIGN, who);
      if v != 0 {
        Memset(v, 0, tot);
      }
    }

    /** bmk_memset */
    method Memset(b: nat, c: bv8, n: nat)
      modifies this`mem
      ensures Filled(old(mem), mem, b, c, n)
    {
      var i := 0;
      while i < n
        invariant 0 <= i <= n
        invariant Filled(old(mem), mem, b, c, i)
      {
        FilledOne(old(mem), mem, b, c, i);
        mem := mem[b + i := c];
        i := i + 1;
      }
    }

    /** bmk_memcpy of regions that do not overlap */
    method Memcpy(d: nat, src: nat, n: nat)
      requires d + n <= src || src + n <= d
      modifies this`mem
      ensures Copied(old(mem), mem, d, src, n)
    {
      var i := 0;
      while i < n
        invariant 0 <= i <= n
        invariant Copied(old(mem), mem, d, src, i)
      {
        CopiedOne(old(mem), mem, d, src, i, n);
        mem := mem[d + i := Byte(mem, src + i)];
        i := i + 1;
      }
    }

    /** A user block of nbytes at np, beside the rest. */
    ghost predicate UserBlock(np: nat, nbytes: nat, rest: map<nat, Alloc>)
      reads this`live
    {
      var bucket := BucketOf(nbytes + MINALIGN);
      && np >= MINALIGN && np % MINALIGN == 0
      && np + nbytes <= np - MINALIGN + BlockSize(bucket)
      && live == rest[np := Alloc(np - MINALIGN, bucket, MEMWHO_USER)]
    }

    /** bmk_memrealloc_user: allocate, free, stay, or move with every byte of the old
        block's capacity. */
    method Memrealloc(cp: nat, nbytes: nat) returns (np: nat, halted: bool)
      requires Valid() && nbytes + MINALIGN <= Pow2(63)
      requires cp == 0 || (cp in live && live[cp].bucket + MINSHIFT < 31)
      modifies this, pa, pa.bitmap
      ensures Valid() && |old(freebuckets)| == LOCALBUCKETS
      ensures halted <==> && cp != 0 && old(live[cp]).who != MEMWHO_USER
                          && (nbytes == 0 || (Room(cp, old(live[cp])) < nbytes &&
                                              CanServe(BucketOf(nbytes + MINALIGN), old(freebuckets), old(pa.free))))
      ensures cp == 0 ==>
                && (np != 0 <==> CanServe(BucketOf(nbytes + MINALIGN), old(freebuckets), old(pa.free)))
                && (np == 0 ==> SameState()) && (np != 0 ==> UserBlock(np, nbytes, old(live))) && mem == old(mem)
      ensures !halted && cp != 0 && nbytes == 0 ==> np == 0 && mem == old(mem) && live == old(live) - {cp}
      ensures !halted && cp != 0 && nbytes > 0 ==>
                var room := Room(cp, old(live[cp]));
                && (room >= nbytes ==> np == cp && SameState() && mem == old(mem))
                && (room < nbytes ==>
                      && (np != 0 <==> CanServe(BucketOf(nbytes + MINALIGN), old(freebuckets), old(pa.free)))
                      && (np == 0 ==> SameState() && mem == old(mem))
                      && (np != 0 ==> np !in old(live) && UserBlock(np, nbytes, old(live) - {cp}) &&
                                      0 <= room && Copied(old(mem), mem, np, cp, room)))
    {
      hide PageAllocator.Valid, Consistent, CanServe, BucketOf, BlockSize, Pow2, Used, PowerOfTwo, CountsOk, Copied, PointersOk;
      SameLengths(freebuckets, pages, live, pa.live);
      SmallAlign();
      halted := false;
      if cp == 0 {
        np := Memalloc(nbytes, MINALIGN, MEMWHO_USER);
        return;
      }
      if nbytes == 0 {
        np := 0;
        halted := Memfree(cp, MEMWHO_USER);
        return;
      }
      var size := header[cp].index;
      var alignpad := header[cp].alignpad;
      RoomInBlock(live, cp);
      if BlockSize(size) - alignpad >= nbytes {
        return cp, false;
      }
      np := Memalloc(nbytes, 8, MEMWHO_USER);
      if np == 0 {
        return;
      }
      pa.LiveBlocks();
      Apart(freebuckets, pages, live, pa.live, np, cp, BlockSize(size) - alignpad);
      Memcpy(np, cp, BlockSize(size) - alignpad);
      halted := Memfree(cp, MEMWHO_USER);
      assert !halted ==> live == (old(live) - {cp})[np := Alloc(np - MINALIGN, BucketOf(nbytes + MINALIGN), MEMWHO_USER)];
    }
  }

  /** The bytes from a pointer to the end of its block. */
  function Room(r: nat, a: Alloc): int
  {
    a.block + BlockSize(a.bucket) - r
  }

  lemma RoomInBlock(live: map<nat, Alloc>, r: nat)
    requires PointersOk(live) && r in live
    ensures 0 <= Room(r, live[r]) && r >= live[r].block
  {
  }

  /** The payloads of two live blocks do not overlap. */
  lemma Apart(free: seq<seq<nat>>, pages: seq<set<nat>>, live: map<nat, Alloc>, chunks: set<Chunk>, r: nat, q: nat, n: nat)
    requires Consistent(free, pages, live, chunks) && Disjoint(chunks)
    requires r in live && q in live && r != q && live[r].block <= r && live[q].block <= q
    requires n <= Room(r, live[r]) && n <= Room(q, live[q])
    ensures r + n <= q || q + n <= r
  {
    if r < q + n && q < r + n {
      LiveDisjoint(free, pages, live, chunks, r, q, if r < q then q else r);
    }
  }

  lemma NothingYet(free: seq<seq<nat>>, pages: seq<set<nat>>, chunks: set<Chunk>)
    requires |free| == LOCALBUCKETS && forall b | 0 <= b < LOCALBUCKETS :: free[b] == []
    requires |pages| == LOCALBUCKETS && forall b | 0 <= b < LOCALBUCKETS :: pages[b] == {}
    ensures Consistent(free, pages, map[], chunks)
  {
    forall b | 0 <= b < LOCALBUCKETS ensures BucketOk(free[b], Used(map[], b), pages[b], b) {
      assert Used(map[], b) == {};
    }
  }

  lemma TakeSmallBlock(free: seq<seq<nat>>, pages: seq<set<nat>>, live: map<nat, Alloc>, chunks: set<Chunk>, a: Alloc, r: nat)
    requires |free| == LOCALBUCKETS && a.bucket < LOCALBUCKETS && PointerOk(r, a)
    requires Consistent(free[a.bucket := [a.block] + free[a.bucket]], pages, live, chunks) && PointersOk(live) && Disjoint(chunks)
    ensures r !in live && Consistent(free, pages, live[r := a], chunks) && PointersOk(live[r := a])
  {
    hide Consistent, PointerOk, PointersOk, Disjoint;
    var free' := free[a.bucket := [a.block] + free[a.bucket]];
    assert free'[a.bucket][1..] == free[a.bucket];
    assert free'[a.bucket := free'[a.bucket][1..]] == free;
    TakeSmall(free', pages, live, chunks, a.bucket, r, a.who);
  }

  /** The counter that the bucket path has already raised. */
  lemma CountTaken(nmalloc: seq<nat>, live: map<nat, Alloc>, r: nat, a: Alloc,
                   free: seq<seq<nat>>, pages: seq<set<nat>>, chunks: set<Chunk>)
    requires CountsOk(nmalloc, live) && r !in live && Consistent(free, pages, live[r := a], chunks)
    ensures a.bucket < LOCALBUCKETS ==> CountsOk(nmalloc[a.bucket := nmalloc[a.bucket] + 1], live[r := a])
    ensures a.bucket >= LOCALBUCKETS ==> CountsOk(nmalloc, live[r := a])
  {
    CountAdd(nmalloc, live, r, a);
  }

  lemma CountFreed(nmalloc: seq<nat>, live: map<nat, Alloc>, r: nat,
                   free: seq<seq<nat>>, pages: seq<set<nat>>, chunks: set<Chunk>)
    requires CountsOk(nmalloc, live) && r in live && Consistent(free, pages, live, chunks)
    ensures live[r].bucket < LOCALBUCKETS ==>
              nmalloc[live[r].bucket] > 0 &&
              CountsOk(nmalloc[live[r].bucket := nmalloc[live[r].bucket] - 1], live - {r})
    ensures live[r].bucket >= LOCALBUCKETS ==> CountsOk(nmalloc, live - {r})
  {
    CountRemove(nmalloc, live, r);
  }

  /** The overflow test of memcalloc. */
  lemma WordProduct(n: nat, size: nat)
    requires n < Pow2(64) && size < Pow2(64)
    ensures size != 0 && (Product(n, size) % Pow2(64)) / size != n <==> Product(n, size) >= Pow2(64)
    ensures Product(n, size) < Pow2(64) ==> Product(n, size) % Pow2(64) == Product(n, size)
  {
    hide Pow2;
    if size > 0 {
      CallocTest(n, size);
    }
  }

  lemma SmallAlign()
    ensures 8 <= MINALIGN <= Pow2(31) && PowerOfTwo(8) && PowerOfTwo(MINALIGN)
  {
    MinAlignPower();
    Pow2Monotonic(4, 31);
    assert Pow2(4) == 16 && Pow2(3) == 8;
    FloorLog2Exact(3);
  }

  lemma CutMore(p: nat, b: nat, k: nat, rest: seq<nat>)
    ensures Cut(p, b, 0) + rest == rest
    ensures Cut(p, b, k + 1) + rest == [BlockAt(p, b, k + 1)] + (Cut(p, b, k) + rest)
  {
  }

  lemma LiveChunk(free: seq<seq<nat>>, pages: seq<set<nat>>, live: map<nat, Alloc>, chunks: set<Chunk>, r: nat, x: nat)
    returns (c: Chunk)
    requires Consistent(free, pages, live, chunks) && r in live && InBlock(x, live[r])
    ensures c in chunks && In(x, c)
  {
    LiveLocated(free, pages, live, chunks, r);
    c := ChunkOf(live[r], pages, chunks, x);
  }

  lemma SameLengths(free: seq<seq<nat>>, pages: seq<set<nat>>, live: map<nat, Alloc>, chunks: set<Chunk>)
    requires Consistent(free, pages, live, chunks)
    ensures |free| == LOCALBUCKETS && |pages| == LOCALBUCKETS
  {
  }
}
