/** Naturally aligned power-of-two blocks of memory, and sets of them that tile a set of
    free bytes. Everything the buddy allocator (lib/libbmk_core/pgalloc.c) relies on and
    never states: two aligned blocks are nested or disjoint, a free aligned block lies
    inside one chunk, and the chunk set is determined by the free bytes alone. */
module Blocks {
  import opened Arith

  const PAGE_SHIFT: nat := 12
  const PAGE_SIZE: nat := 4096

  /** order2size */
  function Size(order: nat): nat
  {
    Pow2(order + PAGE_SHIFT)
  }

  lemma SizeDoubles(k: nat)
    ensures Size(k + 1) == 2 * Size(k)
  {
  }

  lemma SizeAtLeastPage(k: nat)
    ensures Size(0) == PAGE_SIZE
    ensures Size(k) >= PAGE_SIZE && Size(k) % PAGE_SIZE == 0
  {
    assert Pow2(6) == 64;
    Pow2Sum(6, 6);
    Pow2Monotonic(PAGE_SHIFT, k + PAGE_SHIFT);
    Pow2Divides(PAGE_SHIFT, k + PAGE_SHIFT);
  }

  datatype Chunk = Chunk(addr: nat, order: nat) {
    function End(): nat { addr + Size(order) }
  }

  predicate Aligned(c: Chunk)
  {
    c.addr % Size(c.order) == 0
  }

  predicate In(x: nat, c: Chunk)
  {
    c.addr <= x < c.End()
  }

  predicate Within(c: Chunk, d: Chunk)
  {
    d.addr <= c.addr && c.End() <= d.End()
  }

  /** Aligned blocks that share a byte are nested, the smaller in the larger. */
  lemma Nested(c: Chunk, d: Chunk, x: nat)
    requires Aligned(c) && Aligned(d) && c.order <= d.order
    requires In(x, c) && In(x, d)
    ensures Within(c, d)
    ensures c.order == d.order ==> c == d
  {
    var s, t := Size(c.order), Size(d.order);
    var m := Pow2(d.order - c.order);
    Pow2Divides(c.order + PAGE_SHIFT, d.order + PAGE_SHIFT);
    SizeAtLeastPage(c.order);
    SizeAtLeastPage(d.order);
    hide Pow2, Size;
    var p, q := c.addr / s, d.addr / t;
    Multiple(c.addr, s);
    Multiple(d.addr, t);
    Regroup(q, m, s);
    NestedMultiples(p, q * m, m, s, x);
    if c.order == d.order {
      assert m == 1 by {
        MulOrder(1, m, s);
      }
    }
  }

  lemma Regroup(q: nat, m: nat, s: nat)
    ensures q * (m * s) == (q * m) * s
  {
  }

  lemma NestedMultiples(p: nat, n: nat, m: nat, s: nat, x: nat)
    requires s > 0
    requires p * s <= x < p * s + s
    requires n * s <= x < n * s + m * s
    ensures n * s <= p * s && p * s + s <= n * s + m * s
  {
    assert (p + 1) * s == p * s + s;
    assert (n + m) * s == n * s + m * s;
    MulOrder(n, p + 1, s);
    MulOrder(p, n + m, s);
    MulOrder(n, p, s);
    MulOrder(p + 1, n + m, s);
  }

  /** The block with which `c` would merge, found as the source does, by testing the
      bit of the address that has the block's size. */
  function Buddy(c: Chunk): Chunk
  {
    if (c.addr / Size(c.order)) % 2 == 1 && c.addr >= Size(c.order)
    then Chunk(c.addr - Size(c.order), c.order)
    else Chunk(c.addr + Size(c.order), c.order)
  }

  /** What a block and its buddy make together. */
  function Parent(c: Chunk): Chunk
  {
    if Buddy(c).addr < c.addr then Chunk(Buddy(c).addr, c.order + 1) else Chunk(c.addr, c.order + 1)
  }

  lemma BuddyPair(c: Chunk)
    requires Aligned(c)
    ensures (c.addr / Size(c.order)) % 2 == 1 ==> c.addr >= Size(c.order)
    ensures Aligned(Buddy(c)) && Buddy(Buddy(c)) == c
    ensures Aligned(Parent(c)) && Parent(Buddy(c)) == Parent(c)
    ensures forall x :: In(x, Parent(c)) <==> In(x, c) || In(x, Buddy(c))
    ensures forall x :: !(In(x, c) && In(x, Buddy(c)))
  {
    hide Pow2;
    var q := c.addr / Size(c.order);
    PairAt(q / 2, c.order);
    SizeDoubles(c.order);
    assert c.addr == if q % 2 == 0 then (2 * (q / 2)) * Size(c.order) else (2 * (q / 2) + 1) * Size(c.order);
  }

  lemma PairAt(h: nat, k: nat)
    ensures var s := Size(k);
            var lo, hi := Chunk((2 * h) * s, k), Chunk((2 * h) * s + s, k);
            && hi.addr == (2 * h + 1) * s
            && Aligned(lo) && Aligned(hi) && Buddy(lo) == hi && Buddy(hi) == lo
            && Aligned(Chunk(lo.addr, k + 1))
  {
    hide Pow2;
    SizeDoubles(k);
    PairMultiples(h, Size(k));
  }

  lemma PairMultiples(h: nat, s: nat)
    requires s > 0
    ensures (2 * h) * s + s == (2 * h + 1) * s
    ensures ((2 * h) * s) % (2 * s) == 0
    ensures ((2 * h) * s) % s == 0 && ((2 * h) * s) / s == 2 * h
    ensures ((2 * h) * s + s) % s == 0 && ((2 * h) * s + s) / s == 2 * h + 1
  {
    assert (2 * h) * s == h * (2 * s);
    MultipleMod(h, 2 * s);
    MultipleMod(2 * h, s);
    MultipleMod(2 * h + 1, s);
  }

  /** An aligned block of order k + 1 is an aligned block of order k and its buddy. */
  lemma Halves(d: Chunk)
    requires Aligned(d) && d.order > 0
    ensures var c := Chunk(d.addr, d.order - 1);
            && Aligned(c) && Parent(c) == d
            && Buddy(c) == Chunk(d.addr + Size(d.order - 1), d.order - 1)
  {
    var s := Size(d.order - 1);
    SizeDoubles(d.order - 1);
    var q := d.addr / (2 * s);
    assert d.addr == q * (2 * s);
    assert q * (2 * s) == (2 * q) * s;
    MultipleMod(2 * q, s);
  }

  /** The chunks are disjoint aligned blocks that cover exactly the bytes of `free`. */
  ghost predicate Tiles(chunks: set<Chunk>, free: set<nat>)
  {
    && (forall c | c in chunks :: Aligned(c))
    && (forall c, x | c in chunks && In(x, c) :: x in free)
    && (forall x | x in free :: exists c :: c in chunks && In(x, c))
    && Disjoint(chunks)
  }

  ghost predicate Disjoint(chunks: set<Chunk>)
  {
    forall c, d, x | c in chunks && d in chunks && In(x, c) && In(x, d) :: c == d
  }

  /** No two buddies are both free. */
  ghost predicate Coalesced(chunks: set<Chunk>)
  {
    forall c | c in chunks :: Buddy(c) !in chunks
  }

  ghost predicate Canonical(chunks: set<Chunk>, free: set<nat>)
  {
    Tiles(chunks, free) && Coalesced(chunks)
  }

  ghost predicate AllFree(c: Chunk, free: set<nat>)
  {
    forall x | In(x, c) :: x in free
  }

  /** An aligned block all of whose bytes are free lies inside a single chunk. */
  lemma {:induction false} FreeBlockInChunk(chunks: set<Chunk>, free: set<nat>, b: Chunk) returns (d: Chunk)
    requires Canonical(chunks, free) && Aligned(b) && AllFree(b, free)
    ensures d in chunks && b.order <= d.order && Within(b, d)
    decreases b.order
  {
    assert In(b.addr, b);
    if b.order == 0 {
      d :| d in chunks && In(b.addr, d);
      Nested(b, d, b.addr);
    } else {
      var l := Chunk(b.addr, b.order - 1);
      Halves(b);
      BuddyPair(l);
      var r := Buddy(l);
      var dl := FreeBlockInChunk(chunks, free, l);
      var dr := FreeBlockInChunk(chunks, free, r);
      assert In(l.addr, l) && In(l.addr, dl) && In(r.addr, r) && In(r.addr, dr);
      Nested(l, dl, l.addr);
      Nested(r, dr, r.addr);
      assert dl.order > l.order || dr.order > r.order;
      if dl.order > l.order {
        d := dl;
        Nested(b, d, l.addr);
      } else {
        d := dr;
        assert In(r.addr, b);
        Nested(b, d, r.addr);
      }
    }
  }

  /** The free bytes determine the chunks. */
  lemma CanonicalUnique(one: set<Chunk>, other: set<Chunk>, free: set<nat>)
    requires Canonical(one, free) && Canonical(other, free)
    ensures one == other
  {
    forall c | c in one ensures c in other {
      CanonicalSubset(one, other, free, c);
    }
    forall c | c in other ensures c in one {
      CanonicalSubset(other, one, free, c);
    }
  }

  lemma CanonicalSubset(one: set<Chunk>, other: set<Chunk>, free: set<nat>, c: Chunk)
    requires Canonical(one, free) && Canonical(other, free) && c in one
    ensures c in other
  {
    var d := FreeBlockInChunk(other, free, c);
    assert AllFree(d, free);
    var e := FreeBlockInChunk(one, free, d);
    assert In(c.addr, c) && In(c.addr, d) && In(c.addr, e);
    assert c == e;
  }

  /** A block is maximal when it is aligned, free, and in no larger such block. */
  ghost predicate Maximal(c: Chunk, free: set<nat>)
  {
    && Aligned(c) && AllFree(c, free)
    && forall d | Aligned(d) && AllFree(d, free) && Within(c, d) :: d == c
  }

  /** The chunks are exactly the maximal aligned free blocks. */
  lemma ChunksAreMaximal(chunks: set<Chunk>, free: set<nat>, c: Chunk)
    requires Canonical(chunks, free)
    ensures c in chunks <==> Maximal(c, free)
  {
    if c in chunks {
      forall d | Aligned(d) && AllFree(d, free) && Within(c, d) ensures d == c {
        var e := FreeBlockInChunk(chunks, free, d);
        assert In(c.addr, c) && In(c.addr, d) && In(c.addr, e);
        assert c == e;
        assert c.End() == d.End();
        SameSpan(c, d);
      }
      assert AllFree(c, free);
    } else if Aligned(c) && AllFree(c, free) {
      var d := FreeBlockInChunk(chunks, free, c);
      assert AllFree(d, free);
    }
  }

  lemma SameSpan(c: Chunk, d: Chunk)
    requires c.addr == d.addr && Size(c.order) == Size(d.order)
    ensures c == d
  {
    if c.order < d.order {
      Pow2Monotonic(c.order + PAGE_SHIFT, d.order + PAGE_SHIFT);
    } else if d.order < c.order {
      Pow2Monotonic(d.order + PAGE_SHIFT, c.order + PAGE_SHIFT);
    }
  }
}
