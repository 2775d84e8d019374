/** The free lists of the page allocator as sequences, one per order, and the set of
    chunks they hold. */
module FreeLists {
  import opened Blocks
  import opened Queues

  /** The chunks on the lists: a member of list k is a chunk of order k. */
  ghost function ChunkSet(lists: seq<seq<nat>>): set<Chunk>
  {
    set k: nat, a | k < |lists| && a in lists[k] :: Chunk(a, k)
  }

  ghost predicate ListsOk(lists: seq<seq<nat>>)
  {
    forall k | 0 <= k < |lists| :: NoDup(lists[k])
  }

  /** The total size of the chunks on the first n lists. */
  function ListBytes(lists: seq<seq<nat>>, n: nat): nat
    requires n <= |lists|
  {
    if n == 0 then 0 else ListBytes(lists, n - 1) + |lists[n - 1]| * Size(n - 1)
  }

  function FreeBytes(lists: seq<seq<nat>>): nat
  {
    ListBytes(lists, |lists|)
  }

  lemma {:induction false} ListBytesUpdate(lists: seq<seq<nat>>, n: nat, k: nat, l: seq<nat>)
    requires n <= |lists| && k < |lists|
    ensures ListBytes(lists[k := l], n) ==
            ListBytes(lists, n) + (if k < n then |l| * Size(k) - |lists[k]| * Size(k) else 0)
  {
    hide Size;
    if n != 0 {
      ListBytesUpdate(lists, n - 1, k, l);
    }
  }

  function Link(lists: seq<seq<nat>>, c: Chunk): seq<seq<nat>>
    requires c.order < |lists|
  {
    lists[c.order := [c.addr] + lists[c.order]]
  }

  function Unlink(lists: seq<seq<nat>>, c: Chunk): seq<seq<nat>>
    requires c.order < |lists| && c.addr in lists[c.order]
  {
    lists[c.order := Remove(lists[c.order], c.addr)]
  }

  lemma LinkChunk(lists: seq<seq<nat>>, c: Chunk)
    requires ListsOk(lists) && c.order < |lists| && c !in ChunkSet(lists)
    ensures ListsOk(Link(lists, c))
    ensures ChunkSet(Link(lists, c)) == ChunkSet(lists) + {c}
    ensures FreeBytes(Link(lists, c)) == FreeBytes(lists) + Size(c.order)
  {
    hide Size;
    var l := [c.addr] + lists[c.order];
    ListBytesUpdate(lists, |lists|, c.order, l);
    assert (|lists[c.order]| + 1) * Size(c.order) == |lists[c.order]| * Size(c.order) + Size(c.order);
    assert c.addr !in lists[c.order];
    assert NoDup(lists[c.order]);
    assert NoDup(l);
    forall x ensures x in ChunkSet(Link(lists, c)) <==> x in ChunkSet(lists) + {c} {
      assert x.order != c.order && x.order < |lists| ==> Link(lists, c)[x.order] == lists[x.order];
    }
  }

  lemma UnlinkChunk(lists: seq<seq<nat>>, c: Chunk)
    requires ListsOk(lists) && c in ChunkSet(lists)
    ensures ListsOk(Unlink(lists, c))
    ensures ChunkSet(Unlink(lists, c)) == ChunkSet(lists) - {c}
    ensures FreeBytes(Unlink(lists, c)) == FreeBytes(lists) - Size(c.order)
  {
    hide Size;
    var l := Remove(lists[c.order], c.addr);
    assert NoDup(lists[c.order]);
    RemoveMember(lists[c.order], c.addr);
    ListBytesUpdate(lists, |lists|, c.order, l);
    assert (|l| + 1) * Size(c.order) == |l| * Size(c.order) + Size(c.order);
    forall x ensures x in ChunkSet(Unlink(lists, c)) <==> x in ChunkSet(lists) - {c} {
      assert x.order != c.order && x.order < |lists| ==> Unlink(lists, c)[x.order] == lists[x.order];
    }
  }
}
