/** The page allocator of lib/libbmk_core/pgalloc.c: per-order free lists, the allocation
    bitmap, chunk headers inside free memory, and the kB counters.

    Addresses are byte addresses. Three ghost fields say what the concrete fields mean:
    `free` is the set of free bytes, `live` the blocks handed out and not yet freed, and
    `initial` the chunks carved when the memory was loaded. */
module PageAlloc {
  import opened Arith
  import opened Blocks
  import opened BuddySteps
  import opened Bitmap
  import opened FreeLists

  const CHUNKMAGIC: nat := 0x11020217

  /** struct chunk, without its list links. */
  datatype Header = Header(level: nat, magic: nat)

  function RoundPage(n: nat): nat { TruncPage(n + (PAGE_SIZE - 1)) }

  function TruncPage(n: nat): nat { n - n % PAGE_SIZE }

  /** The bytes loadmem sets aside for the bitmap of the range [lo, hi). */
  function BitmapSize(lo: nat, hi: nat): nat
    requires lo <= hi
  {
    RoundPage((hi - lo) / 32768 + 1)
  }

  /** The bitmap and the free bytes agree: a managed byte is free exactly when the bit of
      its page is clear. */
  ghost predicate MapAgrees(words: seq<bv64>, lo: nat, hi: nat, free: set<nat>)
  {
    && lo <= hi
    && (hi - lo) / PAGE_SIZE / 64 < |words|
    && forall x | lo <= x < hi :: x in free <==> (x - lo) / PAGE_SIZE !in Marked(words)
  }

  lemma SizeInPages(k: nat)
    ensures Size(k) == Pow2(k) * PAGE_SIZE
  {
    Pow2Sum(k, PAGE_SHIFT);
    SizeAtLeastPage(0);
  }

  /** The bytes of a page-aligned block are the bytes of its pages. */
  lemma BlockPages(lo: nat, c: Chunk, x: nat)
    requires lo <= c.addr && PageMultiple(lo) && PageMultiple(c.addr) && lo <= x
    ensures var first := (c.addr - lo) / PAGE_SIZE;
            In(x, c) <==> first <= (x - lo) / PAGE_SIZE < first + Pow2(c.order)
  {
    SizeInPages(c.order);
    hide Size, Pow2;
    var first, n := (c.addr - lo) / PAGE_SIZE, Pow2(c.order);
    assert c.addr - lo == first * PAGE_SIZE by {
      MultipleSum(c.addr, lo, PAGE_SIZE);
    }
  }

  lemma BlockBound(lo: nat, hi: nat, c: Chunk)
    requires lo <= c.addr && c.End() <= hi && PageMultiple(lo) && PageMultiple(c.addr)
    ensures (c.addr - lo) / PAGE_SIZE + Pow2(c.order) <= (hi - lo) / PAGE_SIZE
  {
    SizeInPages(c.order);
    hide Size, Pow2;
    assert c.addr - lo == (c.addr - lo) / PAGE_SIZE * PAGE_SIZE by {
      MultipleSum(c.addr, lo, PAGE_SIZE);
    }
  }

  lemma MapAgreesAfter(words: seq<bv64>, words': seq<bv64>, lo: nat, hi: nat, free: set<nat>, free': set<nat>,
                       c: Chunk, taken: bool)
    requires MapAgrees(words, lo, hi, free) && |words| == |words'|
    requires lo <= c.addr && c.End() <= hi && PageMultiple(lo) && PageMultiple(c.addr)
    requires forall p: nat | p < 64 * |words| ::
               p in Marked(words') <==>
               if (c.addr - lo) / PAGE_SIZE <= p < (c.addr - lo) / PAGE_SIZE + Pow2(c.order)
               then taken else p in Marked(words)
    requires forall x | lo <= x < hi :: x in free' <==> if In(x, c) then !taken else x in free
    ensures MapAgrees(words', lo, hi, free')
  {
    hide Marked, Size, Pow2;
    forall x | lo <= x < hi ensures x in free' <==> (x - lo) / PAGE_SIZE !in Marked(words') {
      BlockPages(lo, c, x);
      PageWordBound(x - lo, hi - lo, |words|);
    }
  }

  lemma PageWordBound(x: nat, len: nat, n: nat)
    requires x <= len && len / PAGE_SIZE / 64 < n
    ensures x / PAGE_SIZE < 64 * n
  {
  }

  /** What loadmem computes leaves room in the bitmap for every bit the range loops touch. */
  lemma BitmapSizeSuffices(lo: nat, hi: nat)
    requires lo <= hi && lo + BitmapSize(lo, hi) <= hi
    ensures BitmapSize(lo, hi) % PAGE_SIZE == 0 && BitmapSize(lo, hi) > 0
    ensures (hi - (lo + BitmapSize(lo, hi))) / PAGE_SIZE / 64 < BitmapSize(lo, hi) / 8
  {
  }

  /** A chunk of order k is the first that carving cuts from a range. */
  ghost predicate CutsFirst(addr: nat, range: nat, k: int)
    requires addr > 0 && range > 0 && PageMultiple(addr) && PageMultiple(range)
  {
    && 0 <= k < FREELIST_LEVELS && 0 < Size(k) <= range
    && PageMultiple(addr + Size(k)) && PageMultiple(range - Size(k))
    && CarveSet(addr, range) == {Chunk(addr, k)} + CarveSet(addr + Size(k), range - Size(k))
  }

  lemma CarveFirst(addr: nat, range: nat, limit: nat)
    requires addr > 0 && range > 0 && PageMultiple(addr) && PageMultiple(range)
    requires addr + range <= limit <= Pow2(64)
    ensures CutsFirst(addr, range, CarveOrder(addr, range))
  {
    hide Pow2, Size, CarveOrder, PageMultiple;
    CarveStep(addr, range);
    OrderBound(Chunk(addr, CarveOrder(addr, range)), limit);
  }

  /** One round of the carving loop. */
  lemma CarveIteration(addr: nat, range: nat, limit: nat)
    requires addr > 0 && range > 0 && PageMultiple(addr) && PageMultiple(range)
    requires addr + range <= limit <= Pow2(64)
    ensures var i, r := TrailingZeros(addr), FloorLog2(range);
            CutsFirst(addr, range, (if i > r then r else i) - PAGE_SHIFT)
  {
    hide Pow2, Size, TrailingZeros, FloorLog2, PageMultiple, CutsFirst;
    CarveExponent(addr, range);
    CarveFirst(addr, range, limit);
  }

  lemma CarveNothing(addr: nat)
    requires addr > 0 && PageMultiple(addr)
    ensures CarveSet(addr, 0) == {}
  {
  }

  lemma EmptyLists(lists: seq<seq<nat>>, n: nat)
    requires n <= |lists| && forall i | 0 <= i < |lists| :: lists[i] == []
    ensures ListsOk(lists) && ChunkSet(lists) == {} && ListBytes(lists, n) == 0
  {
  }

  lemma LoadedMap(words: seq<bv64>, lo: nat, hi: nat)
    requires lo <= hi && PageMultiple(lo) && PageMultiple(hi)
    requires (hi - lo) / PAGE_SIZE / 64 < |words|
    requires forall p: nat | p < 64 * |words| :: p in Marked(words) ==> p >= (hi - lo) / PAGE_SIZE
    ensures MapAgrees(words, lo, hi, Range(lo, hi))
  {
    hide Marked;
    MultipleSum(hi, lo, PAGE_SIZE);
    forall x: nat | Between(x, lo, hi) ensures (x - lo) / PAGE_SIZE !in Marked(words) {
      assert (x - lo) / PAGE_SIZE < (hi - lo) / PAGE_SIZE;
      PageWordBound(x - lo, hi - lo, |words|);
    }
  }

  /** The figures loadmem derives from its arguments. */
  lemma LoadedRange(lo: nat, hi: nat)
    requires RoundPage(lo) <= TruncPage(hi)
    requires RoundPage(lo) + BitmapSize(RoundPage(lo), TruncPage(hi)) <= TruncPage(hi)
    ensures var min, max := RoundPage(lo) + BitmapSize(RoundPage(lo), TruncPage(hi)), TruncPage(hi);
            && 0 < min && max <= hi && PageMultiple(min) && PageMultiple(max) && PageMultiple(max - min)
            && 1024 * ((max - min) / 1024) == max - min
            && (max - min) / PAGE_SIZE / 64 < BitmapSize(RoundPage(lo), TruncPage(hi)) / 8
  {
    var min, max := RoundPage(lo), TruncPage(hi);
    BitmapSizeSuffices(min, max);
    assert RoundPage(lo) == TruncPage(lo + (PAGE_SIZE - 1));
    Truncated(lo + (PAGE_SIZE - 1));
    Truncated(hi);
    hide RoundPage, TruncPage, BitmapSize;
    MultipleSum(min, BitmapSize(min, max), PAGE_SIZE);
    MultipleSum(max, min + BitmapSize(min, max), PAGE_SIZE);
    WholeKilobytes(max - (min + BitmapSize(min, max)));
  }

  lemma Truncated(n: nat)
    ensures TruncPage(n) <= n && TruncPage(n) % PAGE_SIZE == 0
  {
  }

  /** If no chunk of sufficient order has an aligned head, then no free, naturally aligned
      block of the order exists at an aligned address. */
  lemma NoHeadNoBlock(chunks: set<Chunk>, free: set<nat>, order: nat, align: nat, b: Chunk)
    requires Canonical(chunks, free) && PowerOfTwo(align)
    requires forall c | c in chunks && c.order >= order :: c.addr % align != 0
    requires b.order == order && Aligned(b) && b.addr % align == 0
    ensures !AllFree(b, free)
  {
    if AllFree(b, free) {
      var c := FreeBlockInChunk(chunks, free, b);
      var e := FloorLog2(align);
      if e <= c.order + PAGE_SHIFT {
        Pow2Divides(e, c.order + PAGE_SHIFT);
        MultipleTrans(c.addr, Size(c.order), align);
      } else {
        Pow2Divides(c.order + PAGE_SHIFT, e);
        MultipleTrans(b.addr, align, Size(c.order));
        assert In(b.addr, b) && In(b.addr, c);
        assert In(b.addr, Chunk(b.addr, c.order));
        Nested(Chunk(b.addr, c.order), c, b.addr);
      }
    }
  }

  ghost predicate HeadersOk(header: map<nat, Header>, chunks: set<Chunk>)
  {
    forall c | c in chunks :: c.addr in header && header[c.addr] == Header(c.order, CHUNKMAGIC)
  }

  lemma HeadersLink(header: map<nat, Header>, chunks: set<Chunk>, c: Chunk)
    requires HeadersOk(header, chunks) && forall d | d in chunks :: d.addr != c.addr
    ensures HeadersOk(header[c.addr := Header(c.order, CHUNKMAGIC)], chunks + {c})
  {
  }

  lemma EmptyState(lists: seq<seq<nat>>, header: map<nat, Header>, lo: nat, hi: nat)
    requires forall i | 0 <= i < |lists| :: lists[i] == []
    ensures ListsOk(lists) && ChunkSet(lists) == {} && FreeBytes(lists) == 0
    ensures HeadersOk(header, {}) && Tiles({}, Range(lo, hi) - Range(lo, hi))
    ensures |Range(lo, hi) - Range(lo, hi)| == 0
  {
    EmptyLists(lists, |lists|);
  }

  lemma HeadersDrop(header: map<nat, Header>, chunks: set<Chunk>, c: Chunk)
    requires HeadersOk(header, chunks) && c in chunks && Disjoint(chunks)
    ensures c.addr in header && header[c.addr] == Header(c.order, CHUNKMAGIC)
    ensures HeadersOk(ClearMagic(header, c.addr), chunks - {c})
  {
    OthersElsewhere(chunks, c);
  }

  lemma MapBound(words: seq<bv64>, lo: nat, hi: nat, free: set<nat>)
    requires MapAgrees(words, lo, hi, free)
    ensures lo <= hi && (hi - lo) / PAGE_SIZE / 64 < |words|
  {
  }

  lemma MapTaken(words: seq<bv64>, words': seq<bv64>, lo: nat, hi: nat, free: set<nat>, b: Chunk)
    requires MapAgrees(words, lo, hi, free) && |words| == |words'|
    requires lo <= b.addr && b.End() <= hi && PageMultiple(lo) && PageMultiple(b.addr)
    requires var first := (b.addr - lo) / PAGE_SIZE;
             forall p: nat | p < 64 * |words| ::
               p in Marked(words') <==> first <= p < first + Pow2(b.order) || p in Marked(words)
    ensures MapAgrees(words', lo, hi, free - Bytes(b))
  {
    hide Marked, Size, Pow2;
    MapAgreesAfter(words, words', lo, hi, free, free - Bytes(b), b, true);
  }

  lemma MapReleased(words: seq<bv64>, words': seq<bv64>, lo: nat, hi: nat, free: set<nat>, b: Chunk)
    requires MapAgrees(words, lo, hi, free) && |words| == |words'|
    requires lo <= b.addr && b.End() <= hi && PageMultiple(lo) && PageMultiple(b.addr)
    requires var first := (b.addr - lo) / PAGE_SIZE;
             forall p: nat | p < 64 * |words| ::
               p in Marked(words') <==> !(first <= p < first + Pow2(b.order)) && p in Marked(words)
    ensures MapAgrees(words', lo, hi, free + Bytes(b))
  {
    hide Marked, Size, Pow2;
    MapAgreesAfter(words, words', lo, hi, free, free + Bytes(b), b, false);
  }

  /** An aligned block inside the managed range, measured in pages and kB. */
  lemma BlockFigures(lo: nat, hi: nat, b: Chunk, n: nat)
    requires lo <= b.addr && b.End() <= hi && PageMultiple(lo) && Aligned(b)
    requires (hi - lo) / PAGE_SIZE / 64 < n
    ensures PageMultiple(b.addr) && 0 < Size(b.order) && 1024 * (Size(b.order) / 1024) == Size(b.order)
    ensures ((b.addr - lo) / PAGE_SIZE + Pow2(b.order)) / 64 < n
  {
    hide Pow2;
    SizeAtLeastPage(b.order);
    MultipleTrans(b.addr, Size(b.order), PAGE_SIZE);
    BlockBound(lo, hi, b);
    hide Size;
    WholeKilobytes(Size(b.order));
    WordBound((b.addr - lo) / PAGE_SIZE + Pow2(b.order), (hi - lo) / PAGE_SIZE, n);
  }

  lemma WholeKilobytes(size: nat)
    requires size % PAGE_SIZE == 0
    ensures 1024 * (size / 1024) == size
  {
    MultipleTrans(size, PAGE_SIZE, 1024);
  }

  lemma WordBound(x: nat, y: nat, n: nat)
    requires x <= y && y / 64 < n
    ensures x / 64 < n
  {
  }

  /** Splitting a chunk, seen from the whole state. */
  lemma SplitFacts(lists: seq<seq<nat>>, free: set<nat>, live: set<Chunk>, lo: nat, hi: nat, c: Chunk, order: nat)
    requires Canonical(ChunkSet(lists), free) && c in ChunkSet(lists) && order <= c.order
    requires free <= Range(lo, hi) && Tiles(live, Range(lo, hi) - free) && 0 < lo
    ensures c.order < |lists| && c.addr in lists[c.order] && Disjoint(ChunkSet(lists))
    ensures lo <= c.addr && c.End() <= hi && Size(order) <= Size(c.order)
    ensures var b, rest := Chunk(c.addr, order), Size(c.order) - Size(order);
            && Aligned(b) && AllFree(b, free) && b !in live
            && PageMultiple(b.End()) && PageMultiple(rest)
            && (forall d | d in ChunkSet(lists) - {c} :: !Between(d.addr, b.End(), c.End()))
            && Canonical(ChunkSet(lists) - {c} + CarveSet(b.End(), rest), free - Bytes(b))
            && free - Bytes(b) <= Range(lo, hi)
            && Tiles(live + {b}, Range(lo, hi) - (free - Bytes(b)))
            && |Range(lo, hi) - (free - Bytes(b))| == |Range(lo, hi) - free| + Size(order)
  {
    hide Size, ChunkSet, CarveSet, PageMultiple, Coalesced, Canonical, Tiles, Disjoint, Aligned;
    var b := Chunk(c.addr, order);
    ChunkFacts(lists, free, lo, hi, c);
    AllocStep(ChunkSet(lists), free, c, order);
    TilesAdd(live, Range(lo, hi) - free, b);
    UsedGrows(Range(lo, hi), free, b);
    assert Range(lo, hi) - free + Bytes(b) == Range(lo, hi) - (free - Bytes(b));
  }

  lemma ChunkFacts(lists: seq<seq<nat>>, free: set<nat>, lo: nat, hi: nat, c: Chunk)
    requires Canonical(ChunkSet(lists), free) && c in ChunkSet(lists) && free <= Range(lo, hi)
    ensures c.order < |lists| && c.addr in lists[c.order] && Disjoint(ChunkSet(lists))
    ensures lo <= c.addr && c.End() <= hi
  {
    hide Size, Coalesced;
    assert 0 < Size(c.order) by {
      SizeAtLeastPage(c.order);
    }
    assert In(c.addr, c) && In(c.End() - 1, c);
  }

  /** Freeing a live block, seen from the whole state, before any merging. */
  lemma FreeFacts(lists: seq<seq<nat>>, free: set<nat>, live: set<Chunk>, lo: nat, hi: nat, b: Chunk)
    requires Canonical(ChunkSet(lists), free) && b in live
    requires free <= Range(lo, hi) && Tiles(live, Range(lo, hi) - free)
    ensures Aligned(b) && lo <= b.addr && b.End() <= hi
    ensures Merging(ChunkSet(lists), b, free + Bytes(b))
    ensures free + Bytes(b) <= Range(lo, hi)
    ensures Tiles(live - {b}, Range(lo, hi) - (free + Bytes(b)))
    ensures |Range(lo, hi) - free| == |Range(lo, hi) - (free + Bytes(b))| + Size(b.order)
  {
    hide Size, ChunkSet, Coalesced;
    assert 0 < Size(b.order) by {
      SizeAtLeastPage(b.order);
    }
    assert In(b.addr, b) && In(b.End() - 1, b);
    StartMerge(ChunkSet(lists), free, b);
    TilesRemove(live, Range(lo, hi) - free, b);
    UsedShrinks(Range(lo, hi), free, b);
    assert Range(lo, hi) - free - Bytes(b) == Range(lo, hi) - (free + Bytes(b));
  }

  lemma MergingBlock(chunks: set<Chunk>, freed: Chunk, free: set<nat>, lo: nat, hi: nat)
    requires Merging(chunks, freed, free) && free <= Range(lo, hi) && 0 < lo && hi < Pow2(64)
    ensures Aligned(freed) && lo <= freed.addr && freed.End() <= hi
    ensures freed.order < FREELIST_LEVELS && Disjoint(chunks)
    ensures forall c | c in chunks :: c.addr != freed.addr
  {
    var all := chunks + {freed};
    assert freed in all;
    assert In(freed.addr, freed) && In(freed.End() - 1, freed);
    OrderBound(freed, hi);
    forall c | c in chunks ensures c.addr != freed.addr {
      assert In(c.addr, c) && c in all;
    }
    assert Disjoint(chunks) by {
      forall c, d, x | c in chunks && d in chunks && In(x, c) && In(x, d) ensures c == d {
        assert c in all && d in all;
      }
    }
  }

  lemma BuddyFree(chunks: set<Chunk>, freed: Chunk, free: set<nat>)
    requires Merging(chunks, freed, free)
    ensures Buddy(freed) in chunks ==> Buddy(freed).addr in free
  {
    if Buddy(freed) in chunks {
      assert Buddy(freed) in chunks + {freed};
      assert In(Buddy(freed).addr, Buddy(freed));
    }
  }

  lemma NotLinked(chunks: set<Chunk>, freed: Chunk, free: set<nat>)
    requires Merging(chunks, freed, free)
    ensures freed !in chunks
  {
  }

  lemma UnlinkMember(lists: seq<seq<nat>>, c: Chunk)
    requires c in ChunkSet(lists)
    ensures c.order < |lists| && c.addr in lists[c.order]
  {
  }

  /** With nothing live everything is free, and the chunks are the initial ones. */
  lemma AllReturned(chunks: set<Chunk>, initial: set<Chunk>, free: set<nat>, lo: nat, hi: nat)
    requires Canonical(chunks, free) && Canonical(initial, Range(lo, hi))
    requires Tiles({}, Range(lo, hi) - free) && free <= Range(lo, hi)
    ensures chunks == initial
  {
    var used := Range(lo, hi) - free;
    assert used == {};
    forall x | x in Range(lo, hi) ensures x in free {
      assert x !in used;
    }
    assert free == Range(lo, hi);
    CanonicalUnique(chunks, initial, free);
  }

  lemma StoreKeeps(header: map<nat, Header>, chunks: set<Chunk>, free: set<nat>, a: nat, h: Header)
    requires HeadersOk(header, chunks) && Tiles(chunks, free) && a !in free
    ensures HeadersOk(header[a := h], chunks)
  {
    forall c | c in chunks ensures c.addr != a {
      assert In(c.addr, c);
    }
  }

  lemma HeadersKept(header: map<nat, Header>, chunks: set<Chunk>, a: nat)
    requires HeadersOk(header, chunks) && forall c | c in chunks :: c.addr != a
    ensures HeadersOk(ClearMagic(header, a), chunks)
  {
  }

  /** A block pgalloc_align may return. */
  ghost predicate Fits(b: Chunk, order: nat, align: nat, free: set<nat>)
    requires align > 0
  {
    b.order == order && Aligned(b) && b.addr % align == 0 && AllFree(b, free)
  }

  /** Is there a free, naturally aligned block of the order? */
  ghost predicate HasBlock(order: nat, free: set<nat>)
  {
    exists b :: Fits(b, order, PAGE_SIZE, free)
  }

  lemma NothingFits(chunks: set<Chunk>, free: set<nat>, order: nat, align: nat)
    requires Canonical(chunks, free) && PowerOfTwo(align)
    requires forall c | c in chunks && c.order >= order :: c.addr % align != 0
    ensures !exists b :: Fits(b, order, align, free)
  {
    forall b ensures !Fits(b, order, align, free) {
      if b.order == order && Aligned(b) && b.addr % align == 0 {
        NoHeadNoBlock(chunks, free, order, align, b);
      }
    }
  }

  function ClearMagic(header: map<nat, Header>, a: nat): map<nat, Header>
  {
    header[a := Header(if a in header then header[a].level else 0, 0)]
  }

  lemma PagePower()
    ensures PowerOfTwo(PAGE_SIZE)
  {
    SizeAtLeastPage(0);
    FloorLog2Exact(PAGE_SHIFT);
  }

  class PageAllocator {
    var minpage: nat
    var maxpage: nat
    var totalkb: nat
    var usedkb: nat
    const bitmap: array<bv64>
    var freelist: seq<seq<nat>>
    var header: map<nat, Header>
    ghost var free: set<nat>
    ghost var live: set<Chunk>
    ghost var initial: set<Chunk>

    ghost function Chunks(): set<Chunk>
      reads this
    {
      ChunkSet(freelist)
    }

    ghost predicate Bounds()
      reads this
    {
      && 0 < minpage <= maxpage < Pow2(64)
      && PageMultiple(minpage) && PageMultiple(maxpage) && PageMultiple(maxpage - minpage)
      && free <= Range(minpage, maxpage)
    }

    ghost predicate ListsValid()
      reads this
    {
      && |freelist| == FREELIST_LEVELS && ListsOk(freelist)
      && HeadersOk(header, Chunks())
    }

    /** The invariant of every state reachable by loading, allocating and freeing. */
    ghost predicate Valid()
      reads this, bitmap
    {
      && Bounds()
      && ListsValid()
      && MapAgrees(bitmap[..], minpage, maxpage, free)
      && Canonical(Chunks(), free)
      && Tiles(live, Range(minpage, maxpage) - free)
      && FreeBytes(freelist) + 1024 * usedkb == 1024 * totalkb == maxpage - minpage
      && 1024 * usedkb == |Range(minpage, maxpage) - free|
      && Canonical(initial, Range(minpage, maxpage))
    }

    /** The initial chunks are the ones carverange cuts from the whole managed range. */
    ghost predicate InitiallyCarved()
      reads this
    {
      && 0 < minpage <= maxpage && PageMultiple(minpage) && PageMultiple(maxpage - minpage)
      && initial == CarveSet(minpage, maxpage - minpage)
    }

    /** Blocks handed out do not overlap and are naturally aligned. */
    lemma LiveBlocks()
      requires Valid()
      ensures Disjoint(live) && (forall c | c in live :: Aligned(c))
      ensures forall c, x | c in live && In(x, c) :: x > 0 && x !in free
    {
      hide ListsOk, MapAgrees, Canonical, FreeBytes, HeadersOk;
    }

    predicate Managed(a: nat)
      reads this
    {
      minpage <= a < maxpage
    }

    /** allocated_in_map */
    predicate AllocatedInMap(a: nat)
      requires Managed(a) && (a - minpage) / PAGE_SIZE / 64 < bitmap.Length
      reads this, bitmap
    {
      BitAt(bitmap[..], (a - minpage) / PAGE_SIZE)
    }

    /** freechunk_link */
    method FreechunkLink(c: Chunk)
      requires |freelist| == FREELIST_LEVELS && ListsOk(freelist)
      requires c.order < FREELIST_LEVELS && c !in Chunks()
      modifies this`freelist, this`header
      ensures |freelist| == FREELIST_LEVELS && ListsOk(freelist)
      ensures Chunks() == old(Chunks()) + {c}
      ensures FreeBytes(freelist) == old(FreeBytes(freelist)) + Size(c.order)
      ensures header == old(header)[c.addr := Header(c.order, CHUNKMAGIC)]
    {
      LinkChunk(freelist, c);
      header := header[c.addr := Header(c.order, CHUNKMAGIC)];
      freelist := freelist[c.order := [c.addr] + freelist[c.order]];
    }

    /** carverange */
    method CarveRange(start: nat, len: nat)
      requires |freelist| == FREELIST_LEVELS && ListsOk(freelist) && HeadersOk(header, Chunks())
      requires start > 0 && PageMultiple(start) && PageMultiple(len) && start + len <= Pow2(64)
      requires forall c | c in Chunks() :: !Between(c.addr, start, start + len)
      modifies this`freelist, this`header
      ensures |freelist| == FREELIST_LEVELS && ListsOk(freelist) && HeadersOk(header, Chunks())
      ensures Chunks() == old(Chunks()) + CarveSet(start, len)
      ensures FreeBytes(freelist) == old(FreeBytes(freelist)) + len
    {
      hide Size, Pow2, ListsOk, ChunkSet, FreeBytes, TrailingZeros, FloorLog2, HeadersOk, CarveSet, CarveOrder, PageMultiple;
      var addr: nat, range: nat := start, len;
      while range > 0
        invariant addr >= start && addr + range == start + len
        invariant PageMultiple(addr) && PageMultiple(range)
        invariant |freelist| == FREELIST_LEVELS && ListsOk(freelist) && HeadersOk(header, Chunks())
        invariant Chunks() + CarveSet(addr, range) == old(Chunks()) + CarveSet(start, len)
        invariant forall c | c in Chunks() :: !Between(c.addr, addr, addr + range)
        invariant FreeBytes(freelist) + range == old(FreeBytes(freelist)) + len
      {
        CarveIteration(addr, range, start + len);
        var i := TrailingZeros(addr);
        var r := FloorLog2(range);
        if i > r {
          i := r;
        }
        i := i - PAGE_SHIFT;
        HeadersLink(header, Chunks(), Chunk(addr, i));
        FreechunkLink(Chunk(addr, i));
        addr := addr + Size(i);
        range := range - Size(i);
      }
      CarveNothing(addr);
    }

    /** bmk_pgalloc_loadmem: the memory [lo, hi), rounded inward to pages, less the
        pages of the bitmap, all free. */
    constructor LoadMem(lo: nat, hi: nat)
      requires lo < hi < Pow2(64)
      requires RoundPage(lo) <= TruncPage(hi)
      requires RoundPage(lo) + BitmapSize(RoundPage(lo), TruncPage(hi)) <= TruncPage(hi)
      ensures Valid() && fresh(bitmap)
      ensures initial == Chunks() && InitiallyCarved()
      ensures minpage == RoundPage(lo) + BitmapSize(RoundPage(lo), TruncPage(hi)) && maxpage == TruncPage(hi)
      ensures free == Range(minpage, maxpage) && live == {} && usedkb == 0
    {
      hide Size, Pow2, ListsOk, ChunkSet, FreeBytes, HeadersOk, CarveSet, PageMultiple, BitmapSize, RoundPage, TruncPage,
           Marked, MapAgrees, Tiles, Canonical, Range, Aligned, Disjoint, Coalesced, In, Bytes;
      var min, max := RoundPage(lo), TruncPage(hi);
      var bitmapSize := BitmapSize(min, max);
      LoadedRange(lo, hi);
      var words := new bv64[bitmapSize / 8](_ => ALL_ONES);
      bitmap := words;
      min := min + bitmapSize;
      var range := max - min;
      minpage, maxpage := min, max;
      totalkb, usedkb := range / 1024, 0;
      freelist := seq(FREELIST_LEVELS, _ => []);
      header := map[];
      free := Range(min, max);
      live := {};
      initial := {};
      new;
      EmptyState(freelist, header, min, max);
      ClearMap();
      CarveRange(minpage, range);
      assert Chunks() == CarveSet(minpage, range);
      CarveCanonical(minpage, range);
      initial := Chunks();
    }

    /** The whole bitmap marks no managed page. */
    method ClearMap()
      requires minpage <= maxpage && PageMultiple(minpage) && PageMultiple(maxpage)
      requires (maxpage - minpage) / PAGE_SIZE / 64 < bitmap.Length
      modifies bitmap
      ensures MapAgrees(bitmap[..], minpage, maxpage, Range(minpage, maxpage))
    {
      hide PageMultiple, Marked, MapAgrees, Range;
      MapFree(bitmap, 0, (maxpage - minpage) / PAGE_SIZE);
      LoadedMap(bitmap[..], minpage, maxpage);
    }

    /** satisfies_p: the first chunk of list i with an aligned head. */
    method SatisfiesP(i: nat, align: nat) returns (found: bool, p: nat)
      requires i < |freelist| && align > 0
      ensures found ==> p in freelist[i] && p % align == 0
      ensures !found ==> forall a | a in freelist[i] :: a % align != 0
    {
      found, p := false, 0;
      var j := 0;
      while j < |freelist[i]| && !found
        invariant 0 <= j <= |freelist[i]|
        invariant found ==> p in freelist[i] && p % align == 0
        invariant !found ==> forall m | 0 <= m < j :: freelist[i][m] % align != 0
        decreases |freelist[i]| - j, !found
      {
        if freelist[i][j] % align == 0 {
          found, p := true, freelist[i][j];
        } else {
          j := j + 1;
        }
      }
    }

    /** The bucket search of pgalloc_align. */
    method FindChunk(order: nat, align: nat) returns (found: bool, c: Chunk)
      requires |freelist| == FREELIST_LEVELS && order < FREELIST_LEVELS && align > 0
      ensures found ==> c in Chunks() && c.order >= order && c.addr % align == 0
      ensures forall d | d in Chunks() && order <= d.order && (found ==> d.order < c.order) :: d.addr % align != 0
    {
      var bucket := order;
      var p;
      found, p := false, 0;
      while bucket < FREELIST_LEVELS
        invariant order <= bucket <= FREELIST_LEVELS && !found
        invariant forall d | d in Chunks() && order <= d.order < bucket :: d.addr % align != 0
      {
        found, p := SatisfiesP(bucket, align);
        if found {
          break;
        }
        bucket := bucket + 1;
      }
      c := Chunk(p, bucket);
    }

    /** A chunk leaves its list, and what is left of it after len bytes is carved up. */
    method SplitChunk(c: Chunk, len: nat)
      requires |freelist| == FREELIST_LEVELS && ListsOk(freelist) && HeadersOk(header, Chunks())
      requires c in Chunks() && Disjoint(Chunks()) && len <= Size(c.order) && c.End() <= Pow2(64)
      requires c.addr + len > 0 && PageMultiple(c.addr + len) && PageMultiple(Size(c.order) - len)
      requires forall d | d in Chunks() - {c} :: !Between(d.addr, c.addr + len, c.End())
      modifies this`freelist, this`header
      ensures |freelist| == FREELIST_LEVELS && ListsOk(freelist) && HeadersOk(header, Chunks())
      ensures Chunks() == old(Chunks()) - {c} + CarveSet(c.addr + len, Size(c.order) - len)
      ensures FreeBytes(freelist) == old(FreeBytes(freelist)) - len
    {
      hide Size, Pow2, ListsOk, FreeBytes, HeadersOk, CarveSet, PageMultiple, Disjoint, In;
      UnlinkChunk(freelist, c);
      hide ChunkSet;
      freelist := Unlink(freelist, c);
      HeadersDrop(header, old(Chunks()), c);
      assert header[c.addr].magic == CHUNKMAGIC;
      header := ClearMagic(header, c.addr);
      CarveRange(c.addr + len, Size(c.order) - len);
    }

    /** The pages of a block are marked as allocated, and no others change. */
    method MarkBlock(b: Chunk)
      requires MapAgrees(bitmap[..], minpage, maxpage, free) && minpage <= b.addr && b.End() <= maxpage
      requires PageMultiple(minpage) && PageMultiple(b.addr)
      requires ((b.addr - minpage) / PAGE_SIZE + Pow2(b.order)) / 64 < bitmap.Length
      modifies bitmap
      ensures MapAgrees(bitmap[..], minpage, maxpage, free - Bytes(b))
    {
      hide Size, Pow2, PageMultiple, Marked, MapAgrees, Bytes;
      MapAlloc(bitmap, (b.addr - minpage) / PAGE_SIZE, Pow2(b.order));
      MapTaken(old(bitmap[..]), bitmap[..], minpage, maxpage, free, b);
    }

    /** The second half of pgalloc_align: unlink the chunk, carve up what the block leaves
        of it, and mark the block. */
    method TakeFrom(c: Chunk, order: nat)
      requires Valid() && c in Chunks() && order <= c.order
      modifies this`freelist, this`header, this`usedkb, this`free, this`live, bitmap
      ensures Valid() && c.addr > 0
      ensures var b := Chunk(c.addr, order);
              && Aligned(b) && AllFree(b, old(free)) && b !in old(live)
              && free == old(free) - Bytes(b) && live == old(live) + {b}
              && 1024 * usedkb == 1024 * old(usedkb) + Size(order)
    {
      hide Size, Pow2, ListsOk, FreeBytes, HeadersOk, CarveSet, PageMultiple, Marked, MapAgrees, ChunkSet,
           Tiles, Canonical, Range, Bytes, Aligned, AllFree, Disjoint, In;
      var b := Chunk(c.addr, order);
      SplitFacts(freelist, free, live, minpage, maxpage, c, order);
      assert MapAgrees(bitmap[..], minpage, maxpage, free);
      MapBound(bitmap[..], minpage, maxpage, free);
      BlockFigures(minpage, maxpage, b, bitmap.Length);
      var len := Size(order);
      SplitChunk(c, len);
      MarkBlock(b);
      usedkb := usedkb + len / 1024;
      free := free - Bytes(b);
      live := live + {b};
    }

    /** bmk_pgalloc_align: a naturally aligned block of the order whose address is a
        multiple of align, or 0. It fails only when there is no such block in free
        memory, and the chunk it splits is of the least order that offers one. */
    method AllocAlign(order: nat, align: nat) returns (p: nat)
      requires Valid()
      requires order < FREELIST_LEVELS && align >= PAGE_SIZE && PowerOfTwo(align)
      modifies this`freelist, this`header, this`usedkb, this`free, this`live, bitmap
      ensures Valid()
      ensures p != 0 <==> exists b :: Fits(b, order, align, old(free))
      ensures p == 0 ==> freelist == old(freelist) && header == old(header) && usedkb == old(usedkb) &&
                         free == old(free) && live == old(live)
      ensures p != 0 ==>
                var b := Chunk(p, order);
                && Fits(b, order, align, old(free)) && b !in old(live)
                && free == old(free) - Bytes(b) && live == old(live) + {b}
                && 1024 * usedkb == 1024 * old(usedkb) + Size(order)
      ensures p != 0 ==> exists c :: c in old(Chunks()) && c.addr == p && order <= c.order &&
                                     forall d | d in old(Chunks()) && order <= d.order < c.order :: d.addr % align != 0
    {
      hide Size, Pow2, ListsOk, FreeBytes, HeadersOk, MapAgrees, ChunkSet, PowerOfTwo, Tiles, Canonical, Range, Bytes;
      var found, c := FindChunk(order, align);
      if !found {
        NothingFits(Chunks(), free, order, align);
        return 0;
      }
      TakeFrom(c, order);
      p := c.addr;
      assert Fits(Chunk(p, order), order, align, old(free));
    }

    /** The test of the merge loop: may the block be merged with its buddy? A managed and
        unallocated buddy address is always the head of a chunk, so that the magic
        number chunklevel asserts is there. */
    method Mergeable(freed: nat, order: nat) returns (ok: bool, toMerge: nat)
      requires Bounds() && ListsValid() && MapAgrees(bitmap[..], minpage, maxpage, free)
      requires Merging(Chunks(), Chunk(freed, order), free)
      ensures toMerge == Buddy(Chunk(freed, order)).addr
      ensures ok <==> Buddy(Chunk(freed, order)) in Chunks()
    {
      hide Pow2, ListsOk, ChunkSet, Tiles, Coalesced;
      ghost var b := Buddy(Chunk(freed, order));
      MergingBlock(Chunks(), Chunk(freed, order), free, minpage, maxpage);
      BuddyPair(Chunk(freed, order));
      var mask := Size(order);
      if (freed / mask) % 2 == 1 {
        toMerge := freed - mask;
      } else {
        toMerge := freed + mask;
      }
      BuddyFree(Chunks(), Chunk(freed, order), free);
      if !Managed(toMerge) {
        return false, toMerge;
      }
      PageWordBound(toMerge - minpage, maxpage - minpage, bitmap.Length);
      if AllocatedInMap(toMerge) {
        return false, toMerge;
      }
      ghost var d := BuddyIsHead(Chunks(), Chunk(freed, order), free);
      assert d in Chunks();
      assert header[toMerge].magic == CHUNKMAGIC;
      ok := header[toMerge].level == order;
    }

    /** The state of the merge loop of pgfree. */
    ghost predicate Coalescing(block: Chunk)
      reads this, bitmap
    {
      && Bounds() && ListsValid()
      && MapAgrees(bitmap[..], minpage, maxpage, free)
      && Merging(Chunks(), block, free)
      && FreeBytes(freelist) + Size(block.order) + 1024 * usedkb == maxpage - minpage
    }

    /** One round of the merge loop: the buddy leaves its list and joins the block. */
    method Merge(freed: nat, order: nat, toMerge: nat) returns (freed': nat)
      requires Coalescing(Chunk(freed, order))
      requires Buddy(Chunk(freed, order)) in Chunks() && toMerge == Buddy(Chunk(freed, order)).addr
      modifies this`freelist, this`header
      ensures Chunk(freed', order + 1) == Parent(Chunk(freed, order))
      ensures Coalescing(Chunk(freed', order + 1))
    {
      hide Size, Pow2, ListsOk, HeadersOk, ChunkSet, Tiles, Coalesced, MapAgrees, Range, FreeBytes, Merging, PageMultiple;
      ghost var block := Chunk(freed, order);
      MergingBlock(Chunks(), block, free, minpage, maxpage);
      MergeBuddy(Chunks(), block, free);
      SizeDoubles(order);
      HeadersKept(header, Chunks(), freed);
      header := ClearMagic(header, freed);
      freed' := if toMerge < freed then toMerge else freed;
      HeadersDrop(header, Chunks(), Buddy(block));
      header := ClearMagic(header, toMerge);
      UnlinkMember(freelist, Buddy(block));
      UnlinkChunk(freelist, Buddy(block));
      freelist := Unlink(freelist, Chunk(toMerge, order));
    }

    /** The beginning of pgfree: the block is cleared in the bitmap and no longer live. */
    method ReleaseBlock(pointer: nat, order0: nat)
      requires Valid() && Chunk(pointer, order0) in live
      modifies this`usedkb, this`free, this`live, bitmap
      ensures Coalescing(Chunk(pointer, order0))
      ensures free == old(free) + Bytes(Chunk(pointer, order0)) && live == old(live) - {Chunk(pointer, order0)}
      ensures Tiles(live, Range(minpage, maxpage) - free)
      ensures 1024 * usedkb == |Range(minpage, maxpage) - free| == 1024 * old(usedkb) - Size(order0)
    {
      hide Size, Pow2, ListsOk, HeadersOk, ChunkSet, Tiles, Coalesced, MapAgrees, Range, FreeBytes, Merging, PageMultiple,
           Marked, Bytes, Aligned, Canonical;
      ghost var b := Chunk(pointer, order0);
      FreeFacts(freelist, free, live, minpage, maxpage, b);
      MapBound(bitmap[..], minpage, maxpage, free);
      BlockFigures(minpage, maxpage, b, bitmap.Length);
      MapFree(bitmap, (pointer - minpage) / PAGE_SIZE, Pow2(order0));
      MapReleased(old(bitmap[..]), bitmap[..], minpage, maxpage, free, b);
      usedkb := usedkb - Size(order0) / 1024;
      free := free + Bytes(b);
      live := live - {b};
    }

    /** bmk_pgfree: the block goes back to the free bytes, merged as far as it can be; when
        it was the last one live, the free lists hold the chunks carved at the start. */
    method Pgfree(pointer: nat, order0: nat)
      requires Valid() && Chunk(pointer, order0) in live
      modifies this`freelist, this`header, this`usedkb, this`free, this`live, bitmap
      ensures Valid()
      ensures free == old(free) + Bytes(Chunk(pointer, order0))
      ensures live == old(live) - {Chunk(pointer, order0)}
      ensures 1024 * usedkb == 1024 * old(usedkb) - Size(order0)
      ensures live == {} ==> Chunks() == initial
    {
      hide Size, Pow2, ListsOk, HeadersOk, ChunkSet, Tiles, Coalesced, MapAgrees, Range, FreeBytes, Merging, PageMultiple,
           Bytes, Canonical;
      ReleaseBlock(pointer, order0);
      var freed, order := pointer, order0;
      MergingBlock(Chunks(), Chunk(pointer, order0), free, minpage, maxpage);
      while order < FREELIST_LEVELS
        invariant Coalescing(Chunk(freed, order)) && order < FREELIST_LEVELS
        modifies this`freelist, this`header
        decreases FREELIST_LEVELS - order
      {
        var ok, toMerge := Mergeable(freed, order);
        if !ok {
          break;
        }
        freed := Merge(freed, order, toMerge);
        order := order + 1;
        MergingBlock(Chunks(), Chunk(freed, order), free, minpage, maxpage);
      }
      EndMerge(Chunks(), Chunk(freed, order), free);
      LinkMerged(Chunk(freed, order));
      if live == {} {
        AllReturned(Chunks(), initial, free, minpage, maxpage);
      }
    }

    /** The end of pgfree: the merged block goes on its list. */
    method LinkMerged(block: Chunk)
      requires Coalescing(block)
      modifies this`freelist, this`header
      ensures |freelist| == FREELIST_LEVELS && ListsOk(freelist) && HeadersOk(header, Chunks())
      ensures Chunks() == old(Chunks()) + {block}
      ensures FreeBytes(freelist) == old(FreeBytes(freelist)) + Size(block.order)
    {
      hide Size, Pow2, ListsOk, HeadersOk, ChunkSet, MapAgrees, Range, FreeBytes, Merging, PageMultiple;
      MergingBlock(Chunks(), block, free, minpage, maxpage);
      HeadersLink(header, Chunks(), block);
      NotLinked(Chunks(), block, free);
      FreechunkLink(block);
    }

    /** The owner of an allocated page may store anything in it, including where a chunk
        header would be read. */
    method OwnerStore(a: nat, h: Header)
      requires Valid() && Managed(a) && a !in free
      modifies this`header
      ensures Valid() && header == old(header)[a := h]
    {
      hide Pow2, ListsOk, HeadersOk, ChunkSet, Coalesced, MapAgrees, Range, FreeBytes, Tiles, PageMultiple;
      StoreKeeps(header, Chunks(), free, a, h);
      header := header[a := h];
    }

    /** bmk_pgalloc */
    method Pgalloc(order: nat) returns (p: nat)
      requires Valid() && order < FREELIST_LEVELS
      modifies this`freelist, this`header, this`usedkb, this`free, this`live, bitmap
      ensures Valid()
      ensures p != 0 <==> HasBlock(order, old(free))
      ensures p == 0 ==> freelist == old(freelist) && free == old(free) && live == old(live)
      ensures p != 0 ==> Aligned(Chunk(p, order)) && Chunk(p, order) !in old(live) && live == old(live) + {Chunk(p, order)} &&
                         free == old(free) - Bytes(Chunk(p, order))
    {
      PagePower();
      hide PowerOfTwo, Bytes;
      p := AllocAlign(order, PAGE_SIZE);
    }
  }
}
