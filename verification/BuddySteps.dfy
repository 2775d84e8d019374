/** The two moves of the buddy allocator on the abstract state (the chunk set and the set
    of free bytes): replacing a chunk by the carving of what is left of it, and merging a
    freed block with its buddy. Each keeps the chunk set canonical. */
module BuddySteps {
  import opened Arith
  import opened Blocks

  const FREELIST_LEVELS: nat := 52

  predicate Between(x: nat, lo: nat, hi: nat)
  {
    lo <= x < hi
  }

  ghost function Range(lo: nat, hi: nat): set<nat>
  {
    set x: nat | x < hi && Between(x, lo, hi)
  }

  ghost function Bytes(c: Chunk): set<nat>
  {
    set x: nat | x < c.End() && In(x, c)
  }

  predicate PageMultiple(n: nat)
  {
    n % PAGE_SIZE == 0
  }

  /** The order of the next chunk carverange cuts: limited by the alignment of the
      address and by the length that remains. */
  function CarveOrder(addr: nat, range: nat): (k: nat)
    requires addr > 0 && range > 0 && PageMultiple(addr) && PageMultiple(range)
  {
    CarveExponent(addr, range);
    var i, r := TrailingZeros(addr), FloorLog2(range);
    (if i > r then r else i) - PAGE_SHIFT
  }

  lemma CarveExponent(addr: nat, range: nat)
    requires addr > 0 && range > 0 && PageMultiple(addr) && PageMultiple(range)
    ensures TrailingZeros(addr) >= PAGE_SHIFT && FloorLog2(range) >= PAGE_SHIFT
  {
    hide Pow2, TrailingZeros, FloorLog2;
    SizeAtLeastPage(0);
    TrailingZerosDivides(addr, PAGE_SHIFT);
    assert range >= PAGE_SIZE;
    if FloorLog2(range) < PAGE_SHIFT {
      Pow2Monotonic(FloorLog2(range), PAGE_SHIFT);
    }
  }

  /** It is the largest order that both limits allow. */
  lemma CarveOrderLargest(addr: nat, range: nat, k: nat)
    requires addr > 0 && range > 0 && PageMultiple(addr) && PageMultiple(range)
    ensures Aligned(Chunk(addr, k)) && Size(k) <= range <==> k <= CarveOrder(addr, range)
  {
    CarveExponent(addr, range);
    TrailingZerosDivides(addr, k + PAGE_SHIFT);
    var r := FloorLog2(range);
    if k + PAGE_SHIFT <= r {
      Pow2Monotonic(k + PAGE_SHIFT, r);
    } else {
      Pow2Monotonic(r, k + PAGE_SHIFT);
    }
  }

  lemma CarveStep(addr: nat, range: nat)
    requires addr > 0 && range > 0 && PageMultiple(addr) && PageMultiple(range)
    ensures var s := Size(CarveOrder(addr, range));
            0 < s <= range && PageMultiple(addr + s) && PageMultiple(range - s)
  {
    hide Pow2, CarveOrder;
    var k := CarveOrder(addr, range);
    CarveOrderLargest(addr, range, k);
    SizeAtLeastPage(k);
    MultipleSum(addr, Size(k), PAGE_SIZE);
    MultipleSum(range, Size(k), PAGE_SIZE);
  }

  /** The chunks carverange links for a range. */
  ghost function CarveSet(addr: nat, range: nat): set<Chunk>
    requires addr > 0 && PageMultiple(addr) && PageMultiple(range)
    decreases range
  {
    if range == 0 then {} else
      CarveStep(addr, range);
      var k := CarveOrder(addr, range);
      {Chunk(addr, k)} + CarveSet(addr + Size(k), range - Size(k))
  }

  /** Carving yields the canonical chunks of the range, whatever its ends. */
  lemma {:induction false} CarveCanonical(addr: nat, range: nat)
    requires addr > 0 && PageMultiple(addr) && PageMultiple(range)
    ensures Canonical(CarveSet(addr, range), Range(addr, addr + range))
    decreases range
  {
    hide Tiles, Coalesced, CarveOrder, Size;
    if range == 0 {
      assert Canonical({}, Range(addr, addr)) by {
        CanonicalEmpty(addr);
      }
    } else {
      CarveStep(addr, range);
      var k := CarveOrder(addr, range);
      var c := Chunk(addr, k);
      var rest := CarveSet(addr + Size(k), range - Size(k));
      CarveCanonical(addr + Size(k), range - Size(k));
      CarveOrderLargest(addr, range, k);
      CarveTiles(c, rest, range);
      CarveCoalesced(c, rest, range);
    }
  }

  lemma CanonicalEmpty(addr: nat)
    ensures Canonical({}, Range(addr, addr))
  {
  }

  lemma CarveTiles(c: Chunk, rest: set<Chunk>, range: nat)
    requires Aligned(c) && Size(c.order) <= range
    requires Tiles(rest, Range(c.End(), c.addr + range))
    ensures Tiles({c} + rest, Range(c.addr, c.addr + range))
  {
    hide Size;
    var chunks, whole := {c} + rest, Range(c.addr, c.addr + range);
    forall x | x in whole ensures exists d :: d in chunks && In(x, d) {
      if In(x, c) {
        assert c in chunks;
      } else {
        assert x in Range(c.End(), c.addr + range);
        var d :| d in rest && In(x, d);
        assert d in chunks;
      }
    }
  }

  lemma CarveCoalesced(c: Chunk, rest: set<Chunk>, range: nat)
    requires c.addr > 0 && range > 0 && PageMultiple(c.addr) && PageMultiple(range)
    requires c.order == CarveOrder(c.addr, range) && Aligned(c)
    requires Canonical(rest, Range(c.End(), c.addr + range))
    ensures Coalesced({c} + rest)
  {
    BuddyPair(c);
    if Buddy(c) in rest {
      var b := Buddy(c);
      assert In(b.addr, b);
      assert b.End() - 1 in Range(c.End(), c.addr + range) by {
        assert In(b.End() - 1, b);
      }
      assert Parent(c) == Chunk(c.addr, c.order + 1);
      SizeDoubles(c.order);
      CarveOrderLargest(c.addr, range, c.order + 1);
    }
    forall d | d in rest ensures Buddy(d) != c {
      BuddyPair(d);
    }
  }

  /** Replacing a chunk by a canonical tiling of part of it. */
  lemma ReplaceChunk(chunks: set<Chunk>, free: set<nat>, c: Chunk, sub: set<Chunk>, part: set<nat>)
    requires Canonical(chunks, free) && c in chunks
    requires Canonical(sub, part) && part < Bytes(c)
    ensures Canonical(chunks - {c} + sub, free - Bytes(c) + part)
  {
    var chunks', free' := chunks - {c} + sub, free - Bytes(c) + part;
    forall e | e in sub ensures e.order < c.order && Within(e, c) {
      PartOf(c, e, part);
    }
    assert Disjoint(chunks') by {
      forall d, e, x | d in chunks' && e in chunks' && In(x, d) && In(x, e) ensures d == e {
        assert d in sub || e in sub ==> In(x, c);
      }
    }
    forall x | x in free' ensures exists d :: d in chunks' && In(x, d) {
      if x in part {
        var d :| d in sub && In(x, d);
        assert d in chunks';
      } else {
        var d :| d in chunks && In(x, d);
        assert d != c;
        assert d in chunks';
      }
    }
    forall d | d in chunks' ensures Buddy(d) !in chunks' {
      BuddyPair(d);
      if d in sub {
        InnerBuddy(c, d);
        assert In(Buddy(d).addr, Buddy(d)) && In(Buddy(d).addr, c);
      } else if Buddy(d) in sub {
        InnerBuddy(c, Buddy(d));
        assert In(d.addr, d) && In(d.addr, c);
      }
    }
    forall d, x | d in chunks' && In(x, d) ensures x in free' {
      assert d in chunks && In(x, c) ==> d == c;
    }
  }

  /** A block all of whose bytes lie in a proper part of an aligned block is smaller. */
  lemma PartOf(c: Chunk, e: Chunk, part: set<nat>)
    requires Aligned(c) && Aligned(e) && AllFree(e, part) && part < Bytes(c)
    ensures e.order < c.order && Within(e, c)
  {
    assert In(e.addr, e) && In(e.addr, c);
    assert In(e.End() - 1, e) && In(e.End() - 1, c);
    if c.order <= e.order {
      Nested(c, e, e.addr);
      assert false;
    }
  }

  /** The buddy of a block strictly inside an aligned block is inside it too. */
  lemma InnerBuddy(c: Chunk, d: Chunk)
    requires Aligned(c) && Aligned(d) && d.order < c.order && Within(d, c)
    ensures Within(Buddy(d), c)
  {
    BuddyPair(d);
    assert In(d.addr, d) && In(d.addr, c) && In(d.addr, Parent(d));
    Nested(Parent(d), c, d.addr);
    var b := Buddy(d);
    assert In(b.addr, b) && In(b.End() - 1, b);
    assert In(b.addr, Parent(d)) && In(b.End() - 1, Parent(d));
  }

  /** The state of the merge loop of pgfree: the block freed so far is off the lists, and
      with it the chunks tile the free bytes. */
  ghost predicate Merging(chunks: set<Chunk>, freed: Chunk, free: set<nat>)
  {
    && freed !in chunks
    && Tiles(chunks + {freed}, free)
    && Coalesced(chunks)
  }

  lemma StartMerge(chunks: set<Chunk>, free: set<nat>, freed: Chunk)
    requires Canonical(chunks, free) && Aligned(freed)
    requires forall x | In(x, freed) :: x !in free
    ensures Merging(chunks, freed, free + Bytes(freed))
  {
    assert In(freed.addr, freed);
    forall x | x in free + Bytes(freed) ensures exists d :: d in chunks + {freed} && In(x, d) {
      if x in free {
        var d :| d in chunks && In(x, d);
        assert d in chunks + {freed};
      } else {
        assert In(x, freed) && freed in chunks + {freed};
      }
    }
  }

  /** If the first byte of the buddy is free, it is the head of a chunk no larger than
      the block: reading the chunk header there is sound. */
  lemma BuddyIsHead(chunks: set<Chunk>, freed: Chunk, free: set<nat>) returns (d: Chunk)
    requires Merging(chunks, freed, free) && Buddy(freed).addr in free
    ensures d in chunks && d.addr == Buddy(freed).addr && d.order <= freed.order
  {
    var b := Buddy(freed);
    BuddyPair(freed);
    var all := chunks + {freed};
    assert freed in all;
    d :| d in all && In(b.addr, d);
    assert In(b.addr, b);
    assert d != freed;
    assert In(freed.addr, freed) && In(freed.addr, Parent(freed));
    if d.order > freed.order {
      Nested(Parent(freed), d, b.addr);
      assert false;
    } else {
      Nested(d, b, b.addr);
    }
  }

  lemma MergeBuddy(chunks: set<Chunk>, freed: Chunk, free: set<nat>)
    requires Merging(chunks, freed, free) && Buddy(freed) in chunks
    ensures Merging(chunks - {Buddy(freed)}, Parent(freed), free)
  {
    var b, p := Buddy(freed), Parent(freed);
    var all, all' := chunks + {freed}, chunks - {b} + {p};
    BuddyPair(freed);
    assert freed in all && b in all;
    assert In(freed.addr, freed) && In(freed.addr, p);
    assert p !in all;
    forall x | x in free ensures exists d :: d in all' && In(x, d) {
      var d :| d in all && In(x, d);
      if d == freed || d == b {
        assert In(x, p) && p in all';
      } else {
        assert d in all';
      }
    }
    forall d, x | d in all' && In(x, d) ensures x in free {
      assert d == p ==> In(x, freed) || In(x, b);
    }
    forall d, e, x | d in all' && e in all' && In(x, d) && In(x, e) ensures d == e {
      assert d == p ==> In(x, freed) || In(x, b);
      assert e == p ==> In(x, freed) || In(x, b);
    }
  }

  lemma EndMerge(chunks: set<Chunk>, freed: Chunk, free: set<nat>)
    requires Merging(chunks, freed, free) && Buddy(freed) !in chunks
    ensures Canonical(chunks + {freed}, free)
  {
    var all := chunks + {freed};
    assert freed in all;
    BuddyPair(freed);
    forall d | d in all ensures Buddy(d) !in all {
      BuddyPair(d);
      if d == freed {
        assert In(freed.addr, freed);
      }
    }
  }

  /** An address space of 2^64 bytes has no room for a chunk past the last free list. */
  lemma OrderBound(c: Chunk, limit: nat)
    requires c.End() <= limit <= Pow2(64) && c.addr > 0
    ensures c.order < FREELIST_LEVELS
  {
    if c.order >= FREELIST_LEVELS {
      Pow2Monotonic(64, c.order + PAGE_SHIFT);
    }
  }

  /** Allocating a block of the given order from a chunk, the leftover carved up. */
  lemma AllocStep(chunks: set<Chunk>, free: set<nat>, c: Chunk, order: nat)
    requires Canonical(chunks, free) && c in chunks && order <= c.order && c.addr > 0
    ensures Size(order) <= Size(c.order)
    ensures var b, rest := Chunk(c.addr, order), Size(c.order) - Size(order);
            && Aligned(b) && AllFree(b, free)
            && PageMultiple(b.addr) && PageMultiple(b.End()) && PageMultiple(rest)
            && (forall d | d in chunks - {c} :: !Between(d.addr, b.End(), c.End()))
            && Canonical(chunks - {c} + CarveSet(b.End(), rest), free - Bytes(b))
  {
    hide Size, CarveSet, PageMultiple, Coalesced;
    AllocBlock(c, order);
    var b, rest := Chunk(c.addr, order), Size(c.order) - Size(order);
    var part := Range(b.End(), c.End());
    CarveCanonical(b.End(), rest);
    assert In(c.addr, c) && In(c.addr, b);
    assert c.addr in Bytes(c) && c.addr !in part;
    ReplaceChunk(chunks, free, c, CarveSet(b.End(), rest), part);
    assert free - Bytes(c) + part == free - Bytes(b);
    OthersElsewhere(chunks, c);
  }

  lemma OthersElsewhere(chunks: set<Chunk>, c: Chunk)
    requires Disjoint(chunks) && c in chunks
    ensures forall d | d in chunks - {c} :: !In(d.addr, c)
  {
    forall d | d in chunks - {c} ensures !In(d.addr, c) {
      assert In(d.addr, d);
    }
  }

  lemma AllocBlock(c: Chunk, order: nat)
    requires Aligned(c) && order <= c.order
    ensures 0 < Size(order) <= Size(c.order)
    ensures var b := Chunk(c.addr, order);
            && Aligned(b) && PageMultiple(b.addr) && PageMultiple(b.End())
            && PageMultiple(Size(c.order) - Size(order))
  {
    hide Pow2;
    Pow2Monotonic(order + PAGE_SHIFT, c.order + PAGE_SHIFT);
    Pow2Divides(order + PAGE_SHIFT, c.order + PAGE_SHIFT);
    MultipleTrans(c.addr, Size(c.order), Size(order));
    SizeAtLeastPage(order);
    SizeAtLeastPage(c.order);
    MultipleTrans(c.addr, Size(order), PAGE_SIZE);
    MultipleSum(c.addr, Size(order), PAGE_SIZE);
    MultipleSum(Size(c.order), Size(order), PAGE_SIZE);
  }

  /** The blocks handed out tile what is not free, before and after. */
  lemma TilesAdd(live: set<Chunk>, used: set<nat>, b: Chunk)
    requires Tiles(live, used) && Aligned(b) && forall x | In(x, b) :: x !in used
    ensures b !in live
    ensures Tiles(live + {b}, used + Bytes(b))
  {
    assert In(b.addr, b);
    var live' := live + {b};
    forall x | x in used + Bytes(b) ensures exists d :: d in live' && In(x, d) {
      if x in used {
        var d :| d in live && In(x, d);
        assert d in live';
      } else {
        assert In(x, b) && b in live';
      }
    }
  }

  lemma TilesRemove(live: set<Chunk>, used: set<nat>, b: Chunk)
    requires Tiles(live, used) && b in live
    ensures Tiles(live - {b}, used - Bytes(b))
  {
    forall x | x in used - Bytes(b) ensures exists d :: d in live - {b} && In(x, d) {
      var d :| d in live && In(x, d);
      assert d in live - {b};
    }
    forall d, x | d in live - {b} && In(x, d) ensures x in used - Bytes(b) {
      assert In(x, b) ==> d == b;
    }
  }

  lemma {:induction false} RangeSize(lo: nat, hi: nat)
    requires lo <= hi
    ensures |Range(lo, hi)| == hi - lo
  {
    if lo == hi {
      assert Range(lo, hi) == {};
    } else {
      RangeSize(lo, hi - 1);
      assert Range(lo, hi) == Range(lo, hi - 1) + {hi - 1};
    }
  }

  lemma BytesSize(c: Chunk)
    ensures |Bytes(c)| == Size(c.order)
  {
    RangeSize(c.addr, c.End());
    assert Bytes(c) == Range(c.addr, c.End());
  }

  /** Taking a free block out of the free bytes grows the rest of the managed range by it. */
  lemma UsedGrows(managed: set<nat>, free: set<nat>, b: Chunk)
    requires free <= managed && AllFree(b, free)
    ensures |managed - (free - Bytes(b))| == |managed - free| + Size(b.order)
  {
    BytesSize(b);
    assert managed - (free - Bytes(b)) == (managed - free) + Bytes(b);
  }

  lemma UsedShrinks(managed: set<nat>, free: set<nat>, b: Chunk)
    requires forall x | In(x, b) :: x in managed - free
    ensures |managed - free| == |managed - (free + Bytes(b))| + Size(b.order)
  {
    BytesSize(b);
    assert managed - free == (managed - (free + Bytes(b))) + Bytes(b);
  }
}
