/** The queues and lists of queue.h as sequences: removal of a member, and queues without
    repetitions. */
module Queues {

  function Remove<T(==)>(q: seq<T>, t: T): seq<T>
  {
    if q == [] then [] else if q[0] == t then q[1..] else [q[0]] + Remove(q[1..], t)
  }

  ghost predicate NoDup<T>(q: seq<T>)
  {
    forall i, j | 0 <= i < j < |q| :: q[i] != q[j]
  }

  lemma {:induction false} RemoveMember<T>(q: seq<T>, t: T)
    requires NoDup(q)
    ensures NoDup(Remove(q, t))
    ensures forall x :: x in Remove(q, t) <==> x in q && x != t
    ensures |Remove(q, t)| == |q| - if t in q then 1 else 0
  {
    if q != [] {
      assert q == [q[0]] + q[1..];
      assert forall i | 0 <= i < |q| - 1 :: q[1..][i] == q[i + 1] && q[i + 1] != q[0];
      if q[0] != t {
        RemoveMember(q[1..], t);
        assert Remove(q, t) == [q[0]] + Remove(q[1..], t);
        assert q[0] !in Remove(q[1..], t);
      }
    }
  }

  lemma {:induction false} RemoveAbsent<T>(q: seq<T>, t: T)
    requires t !in q
    ensures Remove(q, t) == q
  {
    if q != [] {
      RemoveAbsent(q[1..], t);
    }
  }

  /** A member before the one removed keeps its place, one behind it moves up. */
  lemma {:induction false} RemovePlace<T>(q: seq<T>, t: T, k: nat)
    requires k < |q| && q[k] != t
    ensures var i := if t in q[..k] then k - 1 else k; 0 <= i < |Remove(q, t)| && Remove(q, t)[i] == q[k]
  {
    if q[0] == t {
      assert q[..k][0] == t;
    } else if k > 0 {
      RemovePlace(q[1..], t, k - 1);
      assert q[..k] == [q[0]] + q[1..][..k - 1];
    }
  }

  lemma {:induction false} RemoveCommutes<T>(q: seq<T>, t: T, u: T)
    ensures Remove(Remove(q, t), u) == Remove(Remove(q, u), t)
  {
    if q != [] && q[0] != t && q[0] != u {
      RemoveCommutes(q[1..], t, u);
      assert Remove(q, t)[1..] == Remove(q[1..], t) && Remove(q, u)[1..] == Remove(q[1..], u);
    }
  }

  lemma {:induction false} RemoveAppend<T>(q: seq<T>, t: T, u: T)
    ensures t in q ==> Remove(q + [u], t) == Remove(q, t) + [u]
    ensures t !in q ==> Remove(q + [t], t) == q
  {
    if q != [] && q[0] != t {
      RemoveAppend(q[1..], t, u);
      assert (q + [u])[1..] == q[1..] + [u] && (q + [t])[1..] == q[1..] + [t];
    } else if q != [] {
      assert (q + [u])[1..] == q[1..] + [u];
    }
  }

  lemma AppendMember<T>(q: seq<T>, t: T)
    requires NoDup(q) && t !in q
    ensures NoDup(q + [t])
    ensures forall x :: x in q + [t] <==> x in q || x == t
  {
  }

  lemma PrependMember<T>(q: seq<T>, t: T)
    requires NoDup(q) && t !in q
    ensures NoDup([t] + q)
    ensures forall x :: x in [t] + q <==> x in q || x == t
  {
  }

  lemma TailMember<T>(q: seq<T>)
    requires NoDup(q) && q != []
    ensures NoDup(q[1..]) && q == [q[0]] + q[1..]
    ensures forall x :: x in q[1..] <==> x in q && x != q[0]
  {
    assert forall i | 0 <= i < |q| - 1 :: q[1..][i] == q[i + 1] && q[i + 1] != q[0];
  }

  lemma NoDupEmpty<T>()
    ensures NoDup<T>([])
  {
  }
}
