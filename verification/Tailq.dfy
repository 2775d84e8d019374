/** The tail queues of include/bmk-core/queue.h at the level of their links: an element holds
    the next element and the address of the link that leads to it, a head its first element and
    the address of its last link. The macros are proved to do to the links what removal,
    insertion and appending do to sequences; one queue is named by its head, but the links of all
    queues lie in one memory. */
module Tailq {
  import opened Queues

  type Elem = nat

  /** The three queues that bt_schedq links. */
  datatype Head = RunQ | TimeQ | BlockQ

  /** The address of a link: tqh_first of a head, or tqe_next of an element. */
  datatype Slot = FirstOf(h: Head) | NextOf(e: Elem)

  datatype Ptr = Null | To(e: Elem)

  /** What the links hold, tqe_prev and tqh_last. */
  datatype Links = Links(cells: map<Slot, Ptr>, prevs: map<Elem, Slot>, lasts: map<Head, Slot>)

  function Cell(l: Links, s: Slot): Ptr { if s in l.cells then l.cells[s] else Null }

  function Prev(l: Links, e: Elem): Slot { if e in l.prevs then l.prevs[e] else FirstOf(RunQ) }

  function Last(l: Links, h: Head): Slot { if h in l.lasts then l.lasts[h] else FirstOf(h) }

  function SetCell(l: Links, s: Slot, p: Ptr): Links { l.(cells := l.cells[s := p]) }

  function SetPrev(l: Links, e: Elem, s: Slot): Links { l.(prevs := l.prevs[e := s]) }

  function SetLast(l: Links, h: Head, s: Slot): Links { l.(lasts := l.lasts[h := s]) }

  // ---- The macros ----

  /** TAILQ_REMOVE: the head is written only if the element is the last of its queue. */
  function Unlink(l: Links, h: Head, e: Elem): Links
  {
    var next, prev := Cell(l, NextOf(e)), Prev(l, e);
    var l1 := if next != Null then SetPrev(l, next.e, prev) else SetLast(l, h, prev);
    SetCell(l1, prev, next)
  }

  /** TAILQ_INSERT_TAIL */
  function InsertTail(l: Links, h: Head, e: Elem): Links
  {
    var l1 := SetPrev(SetCell(l, NextOf(e), Null), e, Last(l, h));
    SetLast(SetCell(l1, Last(l, h), To(e)), h, NextOf(e))
  }

  /** TAILQ_INSERT_HEAD */
  function InsertHead(l: Links, h: Head, e: Elem): Links
  {
    var first := Cell(l, FirstOf(h));
    var l1 := SetCell(l, NextOf(e), first);
    var l2 := if first != Null then SetPrev(l1, first.e, NextOf(e)) else SetLast(l1, h, NextOf(e));
    SetPrev(SetCell(l2, FirstOf(h), To(e)), e, FirstOf(h))
  }

  /** TAILQ_INSERT_BEFORE */
  function InsertBefore(l: Links, before: Elem, e: Elem): Links
  {
    var prev := Prev(l, before);
    SetPrev(SetCell(SetCell(SetPrev(l, e, prev), NextOf(e), To(before)), prev, To(e)), before, NextOf(e))
  }

  // ---- Queues as sequences ----

  /** The address of the link that leads to the i-th element, or past the last. */
  function SlotAt(h: Head, q: seq<Elem>, i: nat): Slot
    requires i <= |q|
  {
    if i == 0 then FirstOf(h) else NextOf(q[i - 1])
  }

  function PtrAt(q: seq<Elem>, i: nat): Ptr { if i < |q| then To(q[i]) else Null }

  /** The link to the i-th element, and back. */
  predicate LinkOk(l: Links, h: Head, q: seq<Elem>, i: nat)
    requires i <= |q|
  {
    Cell(l, SlotAt(h, q, i)) == PtrAt(q, i) && (i < |q| ==> Prev(l, q[i]) == SlotAt(h, q, i))
  }

  /** The links of the head hold the elements of q, in order. */
  ghost predicate Holds(l: Links, h: Head, q: seq<Elem>)
  {
    NoDup(q) && Last(l, h) == SlotAt(h, q, |q|) && forall i: nat | i <= |q| :: LinkOk(l, h, q, i)
  }

  ghost predicate Apart(a: seq<Elem>, b: seq<Elem>) { forall x | x in a :: x !in b }

  lemma Distinct(q: seq<Elem>, i: nat, j: nat)
    requires NoDup(q) && i < |q| && j < |q| && i != j
    ensures q[i] != q[j]
  {
  }

  lemma SlotsApart(h: Head, q: seq<Elem>, i: nat, j: nat)
    requires NoDup(q) && i <= |q| && j <= |q| && i != j
    ensures SlotAt(h, q, i) != SlotAt(h, q, j)
  {
    hide NoDup;
    if i > 0 && j > 0 {
      Distinct(q, i - 1, j - 1);
    }
  }

  lemma InsertTailIs(l: Links, h: Head, q: seq<Elem>, e: Elem)
    requires Holds(l, h, q) && e !in q
    ensures Holds(InsertTail(l, h, e), h, q + [e])
  {
    hide NoDup, LinkOk;
    AppendMember(q, e);
    forall i: nat | i <= |q| + 1 ensures LinkOk(InsertTail(l, h, e), h, q + [e], i) {
      InsertTailLink(l, h, q, e, i);
    }
  }

  lemma InsertTailLink(l: Links, h: Head, q: seq<Elem>, e: Elem, i: nat)
    requires NoDup(q) && e !in q && Last(l, h) == SlotAt(h, q, |q|) && i <= |q| + 1 && (i <= |q| ==> LinkOk(l, h, q, i))
    ensures LinkOk(InsertTail(l, h, e), h, q + [e], i)
  {
    if i < |q| {
      SlotsApart(h, q, i, |q|);
    }
    hide NoDup;
    assert i > 0 && i <= |q| ==> q[i - 1] in q;
    assert i < |q| ==> q[i] in q;
  }

  /** The queue without its k-th element. */
  function Without(q: seq<Elem>, k: nat): seq<Elem>
    requires k < |q|
  {
    q[..k] + q[k + 1..]
  }

  lemma WithoutMember(q: seq<Elem>, k: nat)
    requires NoDup(q) && k < |q|
    ensures NoDup(Without(q, k)) && forall x :: x in Without(q, k) <==> x in q && x != q[k]
  {
    assert q == q[..k] + [q[k]] + q[k + 1..];
  }

  lemma WithoutAt(h: Head, q: seq<Elem>, k: nat, i: nat)
    requires k < |q| && i < |q|
    ensures SlotAt(h, Without(q, k), i) == SlotAt(h, q, if i <= k then i else i + 1)
    ensures PtrAt(Without(q, k), i) == PtrAt(q, if i < k then i else i + 1)
    ensures i < |Without(q, k)| ==> Without(q, k)[i] == q[if i < k then i else i + 1]
  {
  }

  lemma UnlinkIs(l: Links, h: Head, q: seq<Elem>, k: nat)
    requires Holds(l, h, q) && k < |q|
    ensures Holds(Unlink(l, h, q[k]), h, Without(q, k))
  {
    hide NoDup, LinkOk, Unlink, Without, SlotAt;
    WithoutMember(q, k);
    assert |Without(q, k)| == |q| - 1 by { WithoutLength(q, k); }
    UnlinkLast(l, h, q, k);
    forall i: nat | i < |q| ensures LinkOk(Unlink(l, h, q[k]), h, Without(q, k), i) {
      UnlinkLink(l, h, q, k, i);
    }
  }

  lemma WithoutLength(q: seq<Elem>, k: nat)
    requires k < |q|
    ensures |Without(q, k)| == |q| - 1
  {
  }

  lemma UnlinkLast(l: Links, h: Head, q: seq<Elem>, k: nat)
    requires k < |q| && Last(l, h) == SlotAt(h, q, |q|) && LinkOk(l, h, q, k) && LinkOk(l, h, q, k + 1)
    ensures Last(Unlink(l, h, q[k]), h) == SlotAt(h, Without(q, k), |q| - 1)
  {
  }

  lemma UnlinkLink(l: Links, h: Head, q: seq<Elem>, k: nat, i: nat)
    requires k < |q| && i < |q| && NoDup(q) && LinkOk(l, h, q, i) && LinkOk(l, h, q, k) && LinkOk(l, h, q, k + 1)
    requires LinkOk(l, h, q, i + 1)
    ensures LinkOk(Unlink(l, h, q[k]), h, Without(q, k), i)
  {
    var j := if i <= k then i else i + 1;
    WithoutAt(h, q, k, i);
    if j != k {
      SlotsApart(h, q, j, k);
    }
    if k + 1 < |q| && i < k {
      Distinct(q, i, k + 1);
    }
    if k + 1 < |q| && k < i && i + 1 < |q| {
      Distinct(q, i + 1, k + 1);
    }
    hide NoDup, Without;
  }

  /** The queue with an element put before its k-th. */
  function With(q: seq<Elem>, k: nat, e: Elem): seq<Elem>
    requires k <= |q|
  {
    q[..k] + [e] + q[k..]
  }

  lemma WithMember(q: seq<Elem>, k: nat, e: Elem)
    requires NoDup(q) && k <= |q| && e !in q
    ensures NoDup(With(q, k, e)) && |With(q, k, e)| == |q| + 1
  {
    assert q == q[..k] + q[k..];
  }

  lemma WithAt(h: Head, q: seq<Elem>, k: nat, e: Elem, i: nat)
    requires k < |q| && i <= |q| + 1
    ensures SlotAt(h, With(q, k, e), i) ==
            if i <= k then SlotAt(h, q, i) else if i == k + 1 then NextOf(e) else SlotAt(h, q, i - 1)
    ensures PtrAt(With(q, k, e), i) == if i < k then PtrAt(q, i) else if i == k then To(e) else PtrAt(q, i - 1)
    ensures i <= |q| ==> With(q, k, e)[i] == if i < k then q[i] else if i == k then e else q[i - 1]
  {
  }

  lemma InsertBeforeIs(l: Links, h: Head, q: seq<Elem>, k: nat, e: Elem)
    requires Holds(l, h, q) && k < |q| && e !in q
    ensures Holds(InsertBefore(l, q[k], e), h, With(q, k, e))
  {
    hide NoDup, LinkOk, InsertBefore, With, SlotAt;
    WithMember(q, k, e);
    InsertBeforeLast(l, h, q, k, e);
    forall i: nat | i <= |q| + 1 ensures LinkOk(InsertBefore(l, q[k], e), h, With(q, k, e), i) {
      InsertBeforeLink(l, h, q, k, e, i);
    }
  }

  lemma InsertBeforeLast(l: Links, h: Head, q: seq<Elem>, k: nat, e: Elem)
    requires k < |q| && Last(l, h) == SlotAt(h, q, |q|)
    ensures |With(q, k, e)| == |q| + 1 && Last(InsertBefore(l, q[k], e), h) == SlotAt(h, With(q, k, e), |q| + 1)
  {
  }

  lemma InsertBeforeLink(l: Links, h: Head, q: seq<Elem>, k: nat, e: Elem, i: nat)
    requires k < |q| && e !in q && NoDup(q) && i <= |q| + 1 && |With(q, k, e)| == |q| + 1
    requires LinkOk(l, h, q, k) && (i <= |q| ==> LinkOk(l, h, q, i)) && (i > 0 ==> LinkOk(l, h, q, i - 1))
    ensures LinkOk(InsertBefore(l, q[k], e), h, With(q, k, e), i)
  {
    WithAt(h, q, k, e, i);
    if i < k {
      SlotsApart(h, q, i, k);
      Distinct(q, i, k);
    }
    if i > k + 1 {
      SlotsApart(h, q, i - 1, k);
      if i <= |q| {
        Distinct(q, i - 1, k);
      }
    }
    assert 0 < i <= |q| ==> q[i - 1] in q;
    assert 1 < i ==> q[i - 2] in q;
    assert i < |q| ==> q[i] in q;
    hide NoDup, With;
  }

  lemma InsertHeadIs(l: Links, h: Head, q: seq<Elem>, e: Elem)
    requires Holds(l, h, q) && e !in q
    ensures Holds(InsertHead(l, h, e), h, [e] + q)
  {
    hide NoDup;
    PrependMember(q, e);
    var l', q' := InsertHead(l, h, e), [e] + q;
    assert LinkOk(l, h, q, 0);
    forall i: nat | i <= |q'| ensures LinkOk(l', h, q', i) {
      if i > 0 {
        assert LinkOk(l, h, q, i - 1);
        if 1 < i <= |q| {
          Distinct(q, i - 1, 0);
        }
      }
    }
  }

  // ---- The other queues ----

  /** The links of a queue at other addresses are left alone. */
  lemma HoldsFrame(l: Links, l': Links, h: Head, q: seq<Elem>)
    requires Holds(l, h, q) && Last(l', h) == Last(l, h) && Cell(l', FirstOf(h)) == Cell(l, FirstOf(h))
    requires forall x | x in q :: Cell(l', NextOf(x)) == Cell(l, NextOf(x)) && Prev(l', x) == Prev(l, x)
    ensures Holds(l', h, q)
  {
    forall i: nat | i <= |q| ensures LinkOk(l', h, q, i) {
      assert LinkOk(l, h, q, i);
      assert i > 0 ==> q[i - 1] in q;
    }
  }

  /** Nothing is written but links of the queue h holds, of e, and of h. */
  ghost predicate Local(l: Links, l': Links, h: Head, q: seq<Elem>, e: Elem)
  {
    && (forall x | x !in q && x != e :: Cell(l', NextOf(x)) == Cell(l, NextOf(x)) && Prev(l', x) == Prev(l, x))
    && (forall h2 | h2 != h :: Cell(l', FirstOf(h2)) == Cell(l, FirstOf(h2)) && Last(l', h2) == Last(l, h2))
  }

  /** The macros leave the other queues alone. */
  lemma Elsewhere(l: Links, l': Links, h: Head, q: seq<Elem>, e: Elem, h2: Head, q2: seq<Elem>)
    requires Local(l, l', h, q, e) && Holds(l, h2, q2) && h != h2 && Apart(q, q2) && e !in q2
    ensures Holds(l', h2, q2)
  {
    hide Holds;
    forall x | x in q2 ensures x !in q {
      if x in q {
        assert false;
      }
    }
    HoldsFrame(l, l', h2, q2);
  }

  lemma UnlinkLocal(l: Links, h: Head, q: seq<Elem>, k: nat)
    requires Holds(l, h, q) && k < |q|
    ensures Local(l, Unlink(l, h, q[k]), h, q, q[k])
  {
    assert LinkOk(l, h, q, k) && LinkOk(l, h, q, k + 1);
    hide Holds;
    assert k + 1 < |q| ==> q[k + 1] in q;
    assert k > 0 ==> q[k - 1] in q;
  }

  lemma InsertTailLocal(l: Links, h: Head, q: seq<Elem>, e: Elem)
    requires Holds(l, h, q)
    ensures Local(l, InsertTail(l, h, e), h, q, e)
  {
    hide Holds, InsertTail;
    EndSlot(l, h, q);
    InsertTailWrites(l, h, e);
  }

  lemma EndSlot(l: Links, h: Head, q: seq<Elem>)
    requires Holds(l, h, q)
    ensures Last(l, h) == SlotAt(h, q, |q|) && (q == [] || q[|q| - 1] in q)
  {
  }

  lemma InsertTailWrites(l: Links, h: Head, e: Elem)
    ensures var l' := InsertTail(l, h, e);
            && (forall x | NextOf(x) != Last(l, h) && x != e ::
                  Cell(l', NextOf(x)) == Cell(l, NextOf(x)) && Prev(l', x) == Prev(l, x))
            && (forall h2 | h2 != h && FirstOf(h2) != Last(l, h) ::
                  Cell(l', FirstOf(h2)) == Cell(l, FirstOf(h2)) && Last(l', h2) == Last(l, h2))
  {
  }

  lemma InsertBeforeLocal(l: Links, h: Head, q: seq<Elem>, k: nat, e: Elem)
    requires Holds(l, h, q) && k < |q|
    ensures Local(l, InsertBefore(l, q[k], e), h, q, e)
  {
    assert LinkOk(l, h, q, k);
    hide Holds;
    assert q[k] in q;
    assert k > 0 ==> q[k - 1] in q;
  }

  lemma InsertHeadLocal(l: Links, h: Head, q: seq<Elem>, e: Elem)
    requires Holds(l, h, q)
    ensures Local(l, InsertHead(l, h, e), h, q, e)
  {
    hide Holds;
    FirstLink(l, h, q);
  }

  lemma FirstLink(l: Links, h: Head, q: seq<Elem>)
    requires Holds(l, h, q)
    ensures Cell(l, FirstOf(h)) == PtrAt(q, 0) && (q == [] || q[0] in q)
  {
    assert LinkOk(l, h, q, 0);
  }

  /** All three queues. */
  ghost predicate HoldsAll(l: Links, r: seq<Elem>, t: seq<Elem>, b: seq<Elem>)
  {
    && Holds(l, RunQ, r) && Holds(l, TimeQ, t) && Holds(l, BlockQ, b)
    && Apart(r, t) && Apart(r, b) && Apart(t, b)
  }

  /** Any three queues can be linked up, by appending one element after the other. */
  lemma {:induction false} LinksExist(r: seq<Elem>, t: seq<Elem>, b: seq<Elem>) returns (l: Links)
    requires NoDup(r) && NoDup(t) && NoDup(b) && Apart(r, t) && Apart(r, b) && Apart(t, b)
    ensures HoldsAll(l, r, t, b)
    decreases |r| + |t| + |b|
  {
    hide Holds, NoDup, InsertTail, Local;
    if r != [] {
      var q := Drop(r);
      l := LinksExist(q, t, b);
      l := Append(l, RunQ, q, r[|r| - 1], TimeQ, t, BlockQ, b);
    } else if t != [] {
      var q := Drop(t);
      l := LinksExist(r, q, b);
      l := Append(l, TimeQ, q, t[|t| - 1], RunQ, r, BlockQ, b);
    } else if b != [] {
      var q := Drop(b);
      l := LinksExist(r, t, q);
      l := Append(l, BlockQ, q, b[|b| - 1], RunQ, r, TimeQ, t);
    } else {
      l := Links(map[], map[], map[]);
      EmptyHolds(RunQ);
      EmptyHolds(TimeQ);
      EmptyHolds(BlockQ);
    }
  }

  lemma Drop(q: seq<Elem>) returns (q': seq<Elem>)
    requires NoDup(q) && q != []
    ensures q == q' + [q[|q| - 1]] && NoDup(q') && q[|q| - 1] !in q' && |q'| == |q| - 1 && forall x | x in q' :: x in q
  {
    q' := q[..|q| - 1];
  }

  lemma Append(l: Links, h: Head, q: seq<Elem>, e: Elem, h2: Head, q2: seq<Elem>, h3: Head, q3: seq<Elem>) returns (l': Links)
    requires Holds(l, h, q) && Holds(l, h2, q2) && Holds(l, h3, q3) && h != h2 && h != h3
    requires e !in q && e !in q2 && e !in q3 && Apart(q, q2) && Apart(q, q3)
    ensures Holds(l', h, q + [e]) && Holds(l', h2, q2) && Holds(l', h3, q3)
  {
    hide Holds, InsertTail, Local;
    l' := InsertTail(l, h, e);
    InsertTailIs(l, h, q, e);
    InsertTailLocal(l, h, q, e);
    Elsewhere(l, l', h, q, e, h2, q2);
    Elsewhere(l, l', h, q, e, h3, q3);
  }

  lemma EmptyHolds(h: Head)
    ensures Holds(Links(map[], map[], map[]), h, [])
  {
  }

  // ---- The end of set_runnable ----

  /** An element is taken off the queue whose head is given and put at the end of runq. */
  function Requeue(l: Links, h: Head, e: Elem): Links { InsertTail(Unlink(l, h, e), RunQ, e) }

  /** Under a head on whose queue it is not, an element that is not the last of its own queue is
      taken off that all the same. */
  lemma UnlinkByLinks(l: Links, h: Head, h2: Head, q: seq<Elem>, k: nat)
    requires Holds(l, h, q) && k + 1 < |q|
    ensures Unlink(l, h2, q[k]) == Unlink(l, h, q[k])
  {
    assert LinkOk(l, h, q, k + 1);
  }

  lemma RequeueWaiting(l: Links, r: seq<Elem>, t: seq<Elem>, b: seq<Elem>, h: Head, k: nat)
    requires HoldsAll(l, r, t, b) && !h.RunQ?
    requires k < if h.TimeQ? then |t| else |b|
    ensures if h.TimeQ? then HoldsAll(Requeue(l, h, t[k]), r + [t[k]], Without(t, k), b)
            else HoldsAll(Requeue(l, h, b[k]), r + [b[k]], t, Without(b, k))
  {
    hide Holds, Unlink, InsertTail, NoDup, Local, Without;
    var q, o, ho := if h.TimeQ? then t else b, if h.TimeQ? then b else t, if h.TimeQ? then BlockQ else TimeQ;
    var e, q' := q[k], Without(q, k);
    assert Apart(q, o) && Apart(q, r);
    Known(l, h, q);
    Known(l, RunQ, r);
    WithoutMember(q, k);
    var l1 := Unlink(l, h, e);
    UnlinkIs(l, h, q, k);
    UnlinkLocal(l, h, q, k);
    Elsewhere(l, l1, h, q, e, RunQ, r);
    Elsewhere(l, l1, h, q, e, ho, o);
    var l2 := InsertTail(l1, RunQ, e);
    InsertTailIs(l1, RunQ, r, e);
    InsertTailLocal(l1, RunQ, r, e);
    Elsewhere(l1, l2, RunQ, r, e, h, q');
    Elsewhere(l1, l2, RunQ, r, e, ho, o);
  }

  lemma Known(l: Links, h: Head, q: seq<Elem>)
    requires Holds(l, h, q)
    ensures NoDup(q)
  {
  }

  lemma RequeueRunnable(l: Links, r: seq<Elem>, t: seq<Elem>, b: seq<Elem>, h: Head, k: nat)
    requires HoldsAll(l, r, t, b) && k + 1 < |r|
    ensures HoldsAll(Requeue(l, h, r[k]), Without(r, k) + [r[k]], t, b)
  {
    hide Holds, Unlink, InsertTail, NoDup, Local, Without;
    var e, r' := r[k], Without(r, k);
    Known(l, RunQ, r);
    WithoutMember(r, k);
    var l1 := Unlink(l, RunQ, e);
    UnlinkByLinks(l, RunQ, h, r, k);
    UnlinkIs(l, RunQ, r, k);
    UnlinkLocal(l, RunQ, r, k);
    Elsewhere(l, l1, RunQ, r, e, TimeQ, t);
    Elsewhere(l, l1, RunQ, r, e, BlockQ, b);
    var l2 := InsertTail(l1, RunQ, e);
    InsertTailIs(l1, RunQ, r', e);
    InsertTailLocal(l1, RunQ, r', e);
    Elsewhere(l1, l2, RunQ, r', e, TimeQ, t);
    Elsewhere(l1, l2, RunQ, r', e, BlockQ, b);
  }

  /** The last element of runq, taken off by the head of another queue, spoils the links: its own
      link leads to itself, runq ends before it, what is put on runq from now on hangs behind it,
      and what is put on the other queue comes at the end of runq. */
  ghost predicate Torn(l: Links, h: Head, r: seq<Elem>, e: Elem)
  {
    && (forall i: nat | i <= |r| :: Cell(l, SlotAt(RunQ, r, i)) == PtrAt(r, i))
    && Cell(l, NextOf(e)) == To(e) && Last(l, RunQ) == NextOf(e) && Last(l, h) == SlotAt(RunQ, r, |r|)
  }

  lemma RequeueLast(l: Links, h: Head, r: seq<Elem>, e: Elem)
    requires Holds(l, RunQ, r + [e]) && !h.RunQ?
    ensures Torn(Requeue(l, h, e), h, r, e)
  {
    var q, k := r + [e], |r|;
    assert q[k] == e && q[..k] == r;
    assert LinkOk(l, RunQ, q, k) && LinkOk(l, RunQ, q, k + 1);
    forall i: nat | i <= |r| ensures Cell(Requeue(l, h, e), SlotAt(RunQ, r, i)) == PtrAt(r, i) {
      assert LinkOk(l, RunQ, q, i);
      SlotsApart(RunQ, q, i, k + 1);
      if i < k {
        SlotsApart(RunQ, q, i, k);
      }
    }
  }

  /** Then runq is no queue at all. */
  lemma TornHoldsNothing(l: Links, h: Head, r: seq<Elem>, e: Elem, q: seq<Elem>)
    requires Torn(l, h, r, e)
    ensures !Holds(l, RunQ, q)
  {
    if q != [] && q[|q| - 1] == e {
      assert !LinkOk(l, RunQ, q, |q|);
    }
  }

  /** What is put at the end of a torn runq is not reached from its head; */
  lemma TornLoses(l: Links, h: Head, r: seq<Elem>, e: Elem, x: Elem)
    requires Torn(l, h, r, e) && e !in r && x !in r
    ensures forall i: nat | i <= |r| :: Cell(InsertTail(l, RunQ, x), SlotAt(RunQ, r, i)) == PtrAt(r, i)
  {
    forall i: nat | i <= |r| ensures Cell(InsertTail(l, RunQ, x), SlotAt(RunQ, r, i)) == PtrAt(r, i) {
      assert i > 0 ==> r[i - 1] in r;
    }
  }

  /** and what is put at the end of the other queue is found on runq. */
  lemma TornFinds(l: Links, h: Head, r: seq<Elem>, e: Elem, x: Elem)
    requires Torn(l, h, r, e) && x !in r
    ensures Cell(InsertTail(l, h, x), SlotAt(RunQ, r, |r|)) == To(x)
  {
  }
}
