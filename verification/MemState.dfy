/** The state of the malloc of lib/libbmk_core/memalloc.c as values, and what keeps it
    consistent: every page a bucket has obtained is cut into blocks each of which is on the
    bucket's free list or live, and nothing overlaps. */
module MemState {
  import opened Arith
  import opened Blocks
  import opened Buckets
  import opened Queues

  /** A live allocation: the block it lies in and who made it. */
  datatype Alloc = Alloc(block: nat, bucket: nat, who: nat)

  function PageOf(x: nat): nat { x - x % PAGE_SIZE }

  /** Is x the address of a block of bucket b in one of the pages? */
  predicate BlockIn(x: nat, b: nat, pages: set<nat>)
  {
    x % BlockSize(b) == 0 && PageOf(x) in pages
  }

  /** The blocks of bucket b that are live. */
  ghost function Used(live: map<nat, Alloc>, b: nat): set<nat>
  {
    set r | r in live && live[r].bucket == b :: live[r].block
  }

  ghost predicate Injective(live: map<nat, Alloc>)
  {
    forall r, q | r in live && q in live && live[r].block == live[q].block :: r == q
  }

  /** The free list and the live blocks of a bucket share out the blocks of its pages. */
  ghost predicate BucketOk(free: seq<nat>, used: set<nat>, pages: set<nat>, b: nat)
    requires b < LOCALBUCKETS
  {
    && NoDup(free)
    && (forall x | x in free :: x !in used)
    && (forall x :: x in free || x in used <==> BlockIn(x, b, pages))
    && |free| + |used| == |pages| * PerPage(b)
  }

  /** A block of a large bucket is a page chunk of its own. */
  ghost predicate LargeOk(a: Alloc, pages: seq<set<nat>>, chunks: set<Chunk>)
  {
    a.bucket >= LOCALBUCKETS ==>
      Chunk(a.block, a.bucket - LOCALBUCKETS) in chunks && forall b | 0 <= b < |pages| :: a.block !in pages[b]
  }

  ghost predicate PagesOk(pages: seq<set<nat>>, chunks: set<Chunk>)
  {
    && (forall b, p | 0 <= b < |pages| && p in pages[b] :: Chunk(p, 0) in chunks)
    && (forall b, c, p | 0 <= b < |pages| && 0 <= c < |pages| && p in pages[b] && p in pages[c] :: b == c)
  }

  ghost predicate Consistent(free: seq<seq<nat>>, pages: seq<set<nat>>, live: map<nat, Alloc>, chunks: set<Chunk>)
  {
    && |free| == LOCALBUCKETS && |pages| == LOCALBUCKETS
    && (forall b | 0 <= b < LOCALBUCKETS :: BucketOk(free[b], Used(live, b), pages[b], b))
    && PagesOk(pages, chunks)
    && (forall r | r in live :: LargeOk(live[r], pages, chunks))
    && Injective(live)
  }

  predicate InBlock(x: nat, a: Alloc)
  {
    a.block <= x < a.block + BlockSize(a.bucket)
  }

  /** A small block lies inside its page. */
  lemma SmallInPage(a: Alloc, x: nat)
    requires a.bucket < LOCALBUCKETS && a.block % BlockSize(a.bucket) == 0 && InBlock(x, a)
    ensures PageOf(x) == PageOf(a.block)
  {
    SmallBlocks(a.bucket);
    var s := BlockSize(a.bucket);
    var p := PageOf(a.block);
    hide BlockSize, PerPage;
    MultipleTrans(p, PAGE_SIZE, s);
    MultipleSum(a.block, p, s);
    RoomLeft(a.block - p, s, PAGE_SIZE);
    DivModUnique(x, PAGE_SIZE, a.block / PAGE_SIZE, x - p);
  }

  /** A multiple of s below a larger multiple leaves room for s. */
  lemma RoomLeft(x: nat, s: nat, n: nat)
    requires s > 0 && x % s == 0 && n % s == 0 && x < n
    ensures x + s <= n
  {
    MulOrder(x / s, n / s, s);
  }

  /** Aligned blocks of one size that share a byte are the same. */
  lemma SameBlock(x: nat, y: nat, s: nat, z: nat)
    requires s > 0 && x % s == 0 && y % s == 0 && x <= z < x + s && y <= z < y + s
    ensures x == y
  {
    MulOrder(x / s, y / s, s);
    MulOrder(y / s, x / s, s);
  }

  /** Where a block may lie: on a page of its bucket, or on a chunk of its own. */
  ghost predicate Located(a: Alloc, pages: seq<set<nat>>, chunks: set<Chunk>)
  {
    && |pages| == LOCALBUCKETS
    && (a.bucket < LOCALBUCKETS ==> BlockIn(a.block, a.bucket, pages[a.bucket]))
    && LargeOk(a, pages, chunks)
  }

  lemma LiveLocated(free: seq<seq<nat>>, pages: seq<set<nat>>, live: map<nat, Alloc>, chunks: set<Chunk>, r: nat)
    requires Consistent(free, pages, live, chunks) && r in live
    ensures Located(live[r], pages, chunks)
  {
    var a := live[r];
    assert LargeOk(a, pages, chunks);
    if a.bucket < LOCALBUCKETS {
      assert a.block in Used(live, a.bucket);
      assert BucketOk(free[a.bucket], Used(live, a.bucket), pages[a.bucket], a.bucket);
    }
  }

  /** The page chunk a block lies in. */
  lemma ChunkOf(a: Alloc, pages: seq<set<nat>>, chunks: set<Chunk>, x: nat) returns (c: Chunk)
    requires Located(a, pages, chunks) && PagesOk(pages, chunks) && InBlock(x, a)
    ensures c in chunks && In(x, c)
    ensures a.bucket >= LOCALBUCKETS ==> c == Chunk(a.block, a.bucket - LOCALBUCKETS) &&
                                         forall b | 0 <= b < |pages| :: c.addr !in pages[b]
    ensures a.bucket < LOCALBUCKETS ==> c.addr in pages[a.bucket] && c.addr == PageOf(a.block)
  {
    if a.bucket < LOCALBUCKETS {
      SmallInPage(a, x);
      c := Chunk(PageOf(x), 0);
      SizeAtLeastPage(0);
    } else {
      c := Chunk(a.block, a.bucket - LOCALBUCKETS);
    }
  }

  /** Blocks that share a byte are the same block, whatever buckets they come from. */
  lemma LocatedDisjoint(pages: seq<set<nat>>, chunks: set<Chunk>, a: Alloc, b: Alloc, x: nat)
    requires Located(a, pages, chunks) && Located(b, pages, chunks) && PagesOk(pages, chunks) && Disjoint(chunks)
    requires InBlock(x, a) && InBlock(x, b)
    ensures a.block == b.block && a.bucket == b.bucket
  {
    var c := ChunkOf(a, pages, chunks, x);
    var d := ChunkOf(b, pages, chunks, x);
    assert c == d;
    if a.bucket < LOCALBUCKETS && b.bucket < LOCALBUCKETS {
      SmallInPage(a, x);
      SmallInPage(b, x);
      assert a.bucket == b.bucket;
      SameBlock(a.block, b.block, BlockSize(a.bucket), x);
    }
  }

  /** No byte belongs to two live blocks. */
  lemma LiveDisjoint(free: seq<seq<nat>>, pages: seq<set<nat>>, live: map<nat, Alloc>, chunks: set<Chunk>,
                     r: nat, q: nat, x: nat)
    requires Consistent(free, pages, live, chunks) && Disjoint(chunks)
    requires r in live && q in live && InBlock(x, live[r]) && InBlock(x, live[q])
    ensures r == q
  {
    LiveLocated(free, pages, live, chunks, r);
    LiveLocated(free, pages, live, chunks, q);
    LocatedDisjoint(pages, chunks, live[r], live[q], x);
  }

  /** Nor to a live block and a block on a free list. */
  lemma FreeDisjoint(free: seq<seq<nat>>, pages: seq<set<nat>>, live: map<nat, Alloc>, chunks: set<Chunk>,
                     r: nat, b: nat, y: nat, x: nat)
    requires Consistent(free, pages, live, chunks) && Disjoint(chunks)
    requires r in live && InBlock(x, live[r]) && b < LOCALBUCKETS && y in free[b]
    ensures !InBlock(x, Alloc(y, b, 0))
  {
    var a := Alloc(y, b, 0);
    LiveLocated(free, pages, live, chunks, r);
    assert BucketOk(free[b], Used(live, b), pages[b], b);
    assert live[r].block in Used(live, live[r].bucket);
    if InBlock(x, a) {
      LocatedDisjoint(pages, chunks, a, live[r], x);
    }
  }

  /** A pointer lies behind room for a header in its block, and within the block or at its
      end. */
  predicate PointerOk(r: nat, a: Alloc)
  {
    a.block + HDRSIZE <= r <= a.block + BlockSize(a.bucket)
  }

  ghost predicate PointersOk(live: map<nat, Alloc>)
  {
    forall r | r in live :: PointerOk(r, live[r])
  }

  /** A block that is not live yields a new pointer. */
  lemma NewPointer(free: seq<seq<nat>>, pages: seq<set<nat>>, live: map<nat, Alloc>, chunks: set<Chunk>, a: Alloc, r: nat)
    requires Consistent(free, pages, live, chunks) && PointersOk(live) && Disjoint(chunks)
    requires Located(a, pages, chunks) && PointerOk(r, a)
    requires a.bucket < LOCALBUCKETS ==> a.block in free[a.bucket]
    requires a.bucket >= LOCALBUCKETS ==> forall q | q in live :: live[q].block != a.block
    ensures r !in live && forall q | q in live :: live[q].block != a.block
  {
    assert InBlock(r - HDRSIZE, a) && InBlock(a.block, a);
    assert a.bucket < LOCALBUCKETS ==> BucketOk(free[a.bucket], Used(live, a.bucket), pages[a.bucket], a.bucket);
    forall q | q in live ensures live[q].block != a.block {
      LiveLocated(free, pages, live, chunks, q);
      assert InBlock(live[q].block, live[q]) && live[q].block in Used(live, live[q].bucket);
      if live[q].block == a.block {
        LocatedDisjoint(pages, chunks, a, live[q], a.block);
      }
    }
    if r in live {
      LiveLocated(free, pages, live, chunks, r);
      assert InBlock(r - HDRSIZE, live[r]);
      LocatedDisjoint(pages, chunks, a, live[r], r - HDRSIZE);
    }
  }

  lemma UsedAdd(live: map<nat, Alloc>, r: nat, a: Alloc, b: nat)
    requires r !in live
    ensures Used(live[r := a], b) == if a.bucket == b then Used(live, b) + {a.block} else Used(live, b)
  {
    var live' := live[r := a];
    forall x | x in Used(live, b) ensures x in Used(live', b) {
      var q :| q in live && live[q].bucket == b && live[q].block == x;
      assert q in live' && live'[q] == live[q];
    }
    if a.bucket == b {
      assert r in live' && live'[r] == a;
    }
  }

  lemma UsedRemove(live: map<nat, Alloc>, r: nat, b: nat)
    requires r in live && Injective(live)
    ensures Used(live - {r}, b) == if live[r].bucket == b then Used(live, b) - {live[r].block} else Used(live, b)
    ensures live[r].block in Used(live, live[r].bucket)
  {
    var live' := live - {r};
    forall x | x in Used(live, b) && x != live[r].block ensures x in Used(live', b) {
      var q :| q in live && live[q].bucket == b && live[q].block == x;
      assert q in live' && live'[q] == live[q];
    }
    if live[r].bucket != b {
      forall x | x in Used(live, b) ensures x != live[r].block {
        var q :| q in live && live[q].bucket == b && live[q].block == x;
      }
    }
  }

  /** Taking the head of a free list. */
  lemma TakeSmall(free: seq<seq<nat>>, pages: seq<set<nat>>, live: map<nat, Alloc>, chunks: set<Chunk>,
                  b: nat, r: nat, who: nat)
    requires Consistent(free, pages, live, chunks) && PointersOk(live) && Disjoint(chunks)
    requires b < LOCALBUCKETS && free[b] != [] && PointerOk(r, Alloc(free[b][0], b, who))
    ensures r !in live
    ensures Consistent(free[b := free[b][1..]], pages, live[r := Alloc(free[b][0], b, who)], chunks)
    ensures PointersOk(live[r := Alloc(free[b][0], b, who)])
  {
    var a := Alloc(free[b][0], b, who);
    assert BucketOk(free[b], Used(live, b), pages[b], b);
    assert a.block in free[b];
    NewPointer(free, pages, live, chunks, a, r);
    var free', live' := free[b := free[b][1..]], live[r := a];
    forall c | 0 <= c < LOCALBUCKETS ensures BucketOk(free'[c], Used(live', c), pages[c], c) {
      UsedAdd(live, r, a, c);
      assert BucketOk(free[c], Used(live, c), pages[c], c);
      if c == b {
        TakeHead(free[b], Used(live, b), pages[b], b);
      }
    }
    forall q | q in live' ensures LargeOk(live'[q], pages, chunks) {
      assert q != r ==> LargeOk(live[q], pages, chunks);
    }
  }

  lemma TakeHead(free: seq<nat>, used: set<nat>, pages: set<nat>, b: nat)
    requires b < LOCALBUCKETS && BucketOk(free, used, pages, b) && free != []
    ensures BucketOk(free[1..], used + {free[0]}, pages, b)
  {
    hide BlockIn;
    assert free == [free[0]] + free[1..];
    assert free[0] !in used;
    assert forall i | 0 <= i < |free| - 1 :: free[1..][i] == free[i + 1] && free[i + 1] != free[0];
  }

  /** Putting a live block back on its free list. */
  lemma ReturnSmall(free: seq<seq<nat>>, pages: seq<set<nat>>, live: map<nat, Alloc>, chunks: set<Chunk>, r: nat)
    requires Consistent(free, pages, live, chunks) && r in live && live[r].bucket < LOCALBUCKETS
    ensures var b := live[r].bucket;
            Consistent(free[b := [live[r].block] + free[b]], pages, live - {r}, chunks)
  {
    var a := live[r];
    var free', live' := free[a.bucket := [a.block] + free[a.bucket]], live - {r};
    forall c | 0 <= c < LOCALBUCKETS ensures BucketOk(free'[c], Used(live', c), pages[c], c) {
      UsedRemove(live, r, c);
      assert BucketOk(free[c], Used(live, c), pages[c], c);
      if c == a.bucket {
        ReturnHead(free[c], Used(live, c), pages[c], c, a.block);
      }
    }
    forall q | q in live' ensures LargeOk(live'[q], pages, chunks) {
      assert LargeOk(live[q], pages, chunks);
    }
  }

  lemma ReturnHead(free: seq<nat>, used: set<nat>, pages: set<nat>, b: nat, x: nat)
    requires b < LOCALBUCKETS && BucketOk(free, used, pages, b) && x in used
    ensures BucketOk([x] + free, used - {x}, pages, b)
  {
    hide BlockIn;
    assert x !in free;
  }

  /** Adding a page cut into the blocks of a bucket. */
  lemma AddPage(free: seq<seq<nat>>, pages: seq<set<nat>>, live: map<nat, Alloc>, chunks: set<Chunk>,
                b: nat, p: nat, more: seq<nat>)
    requires Consistent(free, pages, live, chunks) && b < LOCALBUCKETS && Chunk(p, 0) !in chunks
    requires Disjoint(chunks + {Chunk(p, 0)})
    requires NoDup(more) && |more| == |free[b]| + PerPage(b)
    requires forall x :: x in more <==> x in free[b] || BlockIn(x, b, {p})
    ensures Consistent(free[b := more], pages[b := pages[b] + {p}], live, chunks + {Chunk(p, 0)})
  {
    var chunks' := chunks + {Chunk(p, 0)};
    var free', pages' := free[b := more], pages[b := pages[b] + {p}];
    assert forall c | 0 <= c < LOCALBUCKETS :: p !in pages[c];
    forall c | 0 <= c < LOCALBUCKETS ensures BucketOk(free'[c], Used(live, c), pages'[c], c) {
      assert BucketOk(free[c], Used(live, c), pages[c], c);
      if c == b {
        MorePage(free[b], Used(live, b), pages[b], b, p, more);
      }
    }
    forall q | q in live ensures LargeOk(live[q], pages', chunks') {
      assert LargeOk(live[q], pages, chunks);
      if live[q].bucket >= LOCALBUCKETS {
        var d := Chunk(live[q].block, live[q].bucket - LOCALBUCKETS);
        assert d in chunks' && Chunk(p, 0) in chunks' && In(d.addr, d) && In(p, Chunk(p, 0));
      }
    }
  }

  lemma MorePage(free: seq<nat>, used: set<nat>, pages: set<nat>, b: nat, p: nat, more: seq<nat>)
    requires b < LOCALBUCKETS && BucketOk(free, used, pages, b) && p !in pages
    requires NoDup(more) && |more| == |free| + PerPage(b)
    requires forall x :: x in more <==> x in free || BlockIn(x, b, {p})
    ensures BucketOk(more, used, pages + {p}, b)
  {
    forall x ensures BlockIn(x, b, pages + {p}) <==> BlockIn(x, b, pages) || BlockIn(x, b, {p}) {
    }
    forall x ensures !(BlockIn(x, b, pages) && BlockIn(x, b, {p})) {
    }
    hide BlockIn, PerPage;
    assert (|pages| + 1) * PerPage(b) == |pages| * PerPage(b) + PerPage(b);
  }

  /** Chunks handed to others change nothing. */
  lemma MoreChunks(free: seq<seq<nat>>, pages: seq<set<nat>>, live: map<nat, Alloc>, chunks: set<Chunk>, more: set<Chunk>)
    requires Consistent(free, pages, live, chunks) && chunks <= more
    ensures Consistent(free, pages, live, more)
  {
    hide BucketOk;
    forall q | q in live ensures LargeOk(live[q], pages, more) {
      assert LargeOk(live[q], pages, chunks);
    }
  }

  /** A page chunk becomes a block of its own. */
  lemma TakeLarge(free: seq<seq<nat>>, pages: seq<set<nat>>, live: map<nat, Alloc>, chunks: set<Chunk>, a: Alloc, r: nat)
    requires Consistent(free, pages, live, chunks) && PointersOk(live) && a.bucket >= LOCALBUCKETS && PointerOk(r, a)
    requires var c := Chunk(a.block, a.bucket - LOCALBUCKETS); c !in chunks && Disjoint(chunks + {c})
    ensures r !in live
    ensures Consistent(free, pages, live[r := a], chunks + {Chunk(a.block, a.bucket - LOCALBUCKETS)})
    ensures PointersOk(live[r := a])
  {
    hide BucketOk;
    var c := Chunk(a.block, a.bucket - LOCALBUCKETS);
    var chunks', live' := chunks + {c}, live[r := a];
    assert c in chunks' && In(a.block, c) by { SizeAtLeastPage(c.order); }
    var d := Chunk(a.block, 0);
    assert In(a.block, d) by { SizeAtLeastPage(0); }
    assert d in chunks' ==> d == c;
    MoreChunks(free, pages, live, chunks, chunks');
    forall q | q in live ensures live[q].block != a.block {
      LiveLocated(free, pages, live, chunks, q);
      assert InBlock(live[q].block, live[q]);
      var e := ChunkOf(live[q], pages, chunks, live[q].block);
      assert e in chunks';
    }
    NewPointer(free, pages, live, chunks', a, r);
    forall b | 0 <= b < LOCALBUCKETS ensures BucketOk(free[b], Used(live', b), pages[b], b) {
      UsedAdd(live, r, a, b);
    }
    forall q | q in live' ensures LargeOk(live'[q], pages, chunks') {
      assert q != r ==> LargeOk(live[q], pages, chunks');
    }
  }

  /** A large block goes back to the page allocator. */
  lemma ReturnLarge(free: seq<seq<nat>>, pages: seq<set<nat>>, live: map<nat, Alloc>, chunks: set<Chunk>, r: nat)
    requires Consistent(free, pages, live, chunks) && r in live && live[r].bucket >= LOCALBUCKETS
    ensures Chunk(live[r].block, live[r].bucket - LOCALBUCKETS) in chunks
    ensures Consistent(free, pages, live - {r}, chunks - {Chunk(live[r].block, live[r].bucket - LOCALBUCKETS)})
  {
    hide BucketOk;
    var c := Chunk(live[r].block, live[r].bucket - LOCALBUCKETS);
    var chunks', live' := chunks - {c}, live - {r};
    assert LargeOk(live[r], pages, chunks);
    forall b | 0 <= b < LOCALBUCKETS ensures BucketOk(free[b], Used(live', b), pages[b], b) {
      UsedRemove(live, r, b);
    }
    forall q | q in live' ensures LargeOk(live'[q], pages, chunks') {
      assert LargeOk(live[q], pages, chunks);
    }
  }

  /** The i-th block of a page. */
  function BlockAt(p: nat, b: nat, i: nat): nat
  {
    p + i * BlockSize(b)
  }

  lemma BlockHasIndex(p: nat, b: nat, x: nat) returns (i: nat)
    requires b < LOCALBUCKETS && p % PAGE_SIZE == 0 && BlockIn(x, b, {p})
    ensures i < PerPage(b) && x == BlockAt(p, b, i)
  {
    hide BlockSize, PerPage;
    SmallBlocks(b);
    var s := BlockSize(b);
    MultipleTrans(p, PAGE_SIZE, s);
    InPage(x, p);
    MultipleSum(x, p, s);
    i := (x - p) / s;
    Multiple(x - p, s);
    MulOrder(PerPage(b), i, s);
  }

  lemma InPage(x: nat, p: nat)
    requires PageOf(x) == p
    ensures p <= x < p + PAGE_SIZE
  {
  }

  lemma IndexIsBlock(p: nat, b: nat, i: nat)
    requires b < LOCALBUCKETS && p % PAGE_SIZE == 0 && i < PerPage(b)
    ensures BlockIn(BlockAt(p, b, i), b, {p})
    ensures BlockAt(p, b, i) + BlockSize(b) == BlockAt(p, b, i + 1)
  {
    SmallBlocks(b);
    var s := BlockSize(b);
    var x := BlockAt(p, b, i);
    assert (i + 1) * s == i * s + s;
    hide BlockSize, PerPage;
    MultipleTrans(p, PAGE_SIZE, s);
    MulOrder(i, PerPage(b), s);
    MultipleMod(i, s);
    MultipleSum(p, i * s, s);
    DivModUnique(x, PAGE_SIZE, p / PAGE_SIZE, i * s);
  }

  /** What the loop of morecore puts in front of the free list: blocks k down to 1. */
  function Cut(p: nat, b: nat, k: nat): seq<nat>
  {
    if k == 0 then [] else [BlockAt(p, b, k)] + Cut(p, b, k - 1)
  }

  lemma {:induction false} CutBlocks(p: nat, b: nat, k: nat)
    ensures |Cut(p, b, k)| == k
    ensures forall i | 0 <= i < k :: Cut(p, b, k)[i] == BlockAt(p, b, k - i)
  {
    if k > 0 {
      CutBlocks(p, b, k - 1);
    }
  }

  /** Different indices give different blocks. */
  lemma BlocksDiffer(p: nat, b: nat, i: nat, j: nat)
    requires i != j
    ensures BlockAt(p, b, i) != BlockAt(p, b, j)
  {
    MulOrder(i, j, BlockSize(b));
    MulOrder(j, i, BlockSize(b));
  }

  /** The index of the block at a place of the list that morecore makes of a page. */
  function IndexAt(n: nat, i: nat): nat
    requires i < n
  {
    if i == 0 then 0 else n - i
  }

  lemma ListAt(p: nat, b: nat, list: seq<nat>)
    requires b < LOCALBUCKETS && PerPage(b) > 0 && list == [p] + Cut(p, b, PerPage(b) - 1)
    ensures |list| == PerPage(b) && forall i | 0 <= i < |list| :: list[i] == BlockAt(p, b, IndexAt(PerPage(b), i))
  {
    hide PerPage, BlockSize, BlockAt, Cut;
    CutBlocks(p, b, PerPage(b) - 1);
    FirstBlock(p, b);
  }

  lemma FirstBlock(p: nat, b: nat)
    ensures BlockAt(p, b, 0) == p
  {
  }

  /** The first block of the page together with the ones cut from it are all its blocks. */
  lemma PageList(p: nat, b: nat, list: seq<nat>)
    requires b < LOCALBUCKETS && p % PAGE_SIZE == 0 && list == [p] + Cut(p, b, PerPage(b) - 1)
    ensures NoDup(list) && |list| == PerPage(b)
    ensures forall x :: x in list <==> BlockIn(x, b, {p})
  {
    hide BlockIn, BlockAt, Cut, PerPage, BlockSize;
    var n := PerPage(b);
    SmallBlocks(b);
    ListAt(p, b, list);
    forall i, j | 0 <= i < j < n ensures list[i] != list[j] {
      BlocksDiffer(p, b, IndexAt(n, i), IndexAt(n, j));
    }
    forall x | x in list ensures BlockIn(x, b, {p}) {
      var i :| 0 <= i < n && list[i] == x;
      IndexIsBlock(p, b, IndexAt(n, i));
    }
    forall x | BlockIn(x, b, {p}) ensures x in list {
      var i := BlockHasIndex(p, b, x);
      assert list[IndexAt(n, i)] == x;
    }
  }

  lemma JoinLists(list: seq<nat>, free: seq<nat>, used: set<nat>, pages: set<nat>, b: nat, p: nat)
    requires b < LOCALBUCKETS && BucketOk(free, used, pages, b) && p !in pages
    requires NoDup(list) && forall x :: x in list <==> BlockIn(x, b, {p})
    ensures NoDup(list + free)
    ensures forall x :: x in list + free <==> x in free || BlockIn(x, b, {p})
  {
    assert forall x | x in free :: BlockIn(x, b, pages);
    var more := list + free;
    forall i, j | 0 <= i < j < |more| ensures more[i] != more[j] {
      assert i < |list| ==> more[i] in list;
      assert i >= |list| ==> more[i] == free[i - |list|];
      assert j >= |list| ==> more[j] == free[j - |list|] && more[j] in free;
    }
    assert forall x :: x in more <==> x in list || x in free;
  }

  /** The state after morecore, had the block it returns been put on the list as well. */
  lemma NewPage(free: seq<seq<nat>>, pages: seq<set<nat>>, live: map<nat, Alloc>, chunks: set<Chunk>, b: nat, p: nat)
    requires Consistent(free, pages, live, chunks) && b < LOCALBUCKETS
    requires p % PAGE_SIZE == 0 && Chunk(p, 0) !in chunks && Disjoint(chunks + {Chunk(p, 0)})
    ensures PerPage(b) > 1
    ensures Consistent(free[b := [p] + (Cut(p, b, PerPage(b) - 1) + free[b])], pages[b := pages[b] + {p}], live,
                       chunks + {Chunk(p, 0)})
  {
    SmallBlocks(b);
    hide BucketOk, BlockIn, Cut, BlockSize, PerPage, LargeOk, Injective, Disjoint;
    var list := [p] + Cut(p, b, PerPage(b) - 1);
    var more := list + free[b];
    assert more == [p] + (Cut(p, b, PerPage(b) - 1) + free[b]);
    PageList(p, b, list);
    JoinLists(list, free[b], Used(live, b), pages[b], b, p);
    AddPage(free, pages, live, chunks, b, p, more);
  }
}
