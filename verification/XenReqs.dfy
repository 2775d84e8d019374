/** Request identifiers of platform/xen/xen/xenbus/xenbus.c: a table of slots, a count of the
    live ones, and a probe that goes round. */
module XenReqs {

  const NR_REQS: nat := 32

  ghost function Slots(n: nat): (s: set<nat>)
    ensures |s| == n && forall i: nat :: i in s <==> i < n
  {
    if n == 0 then {} else Slots(n - 1) + {n - 1}
  }

  /** The slots in use: those with a reply queue. */
  ghost function InUse(table: seq<nat>): set<nat>
  {
    set i: nat | i < |table| && table[i] != 0
  }

  lemma AllInUse(table: seq<nat>)
    requires |table| == NR_REQS && forall i | 0 <= i < NR_REQS :: table[i] != 0
    ensures |InUse(table)| == NR_REQS
  {
    assert InUse(table) == Slots(NR_REQS);
  }

  lemma InUseAfter(table: seq<nat>, id: nat, q: nat)
    requires id < |table|
    ensures InUse(table[id := q]) == if q != 0 then InUse(table) + {id} else InUse(table) - {id}
  {
  }

  /** The slot n places after the probe. */
  function Place(probe: nat, n: nat): nat { (probe + n) % NR_REQS }

  /** Going round once visits every slot. */
  lemma RoundTrip(probe: nat, i: nat)
    requires probe < NR_REQS && i < NR_REQS
    ensures var n := (i - probe) % NR_REQS; n < NR_REQS && Place(probe, n) == i
  {
  }

  /** Every slot from the probe round to this one is in use. */
  ghost predicate FirstFree(table: seq<nat>, probe: nat, id: nat)
    requires |table| == NR_REQS
  {
    exists n: nat :: n < NR_REQS && id == Place(probe, n) && forall m: nat | m < n :: table[Place(probe, m)] != 0
  }

  class RequestTable {
    const replyQueue: array<nat>
    const forQueue: array<nat>
    var nrLive: nat
    var probe: nat

    ghost predicate Valid()
      reads this, replyQueue, forQueue
    {
      && replyQueue.Length == NR_REQS && forQueue.Length == NR_REQS && replyQueue != forQueue
      && probe < NR_REQS && nrLive == |InUse(replyQueue[..])|
    }

    constructor ()
      ensures Valid() && InUse(replyQueue[..]) == {}
    {
      replyQueue := new nat[NR_REQS](_ => 0);
      forQueue := new nat[NR_REQS](_ => 0);
      nrLive, probe := 0, 0;
    }

    /** The probe loop of xenbus_id_allocate: with a slot free it finds one before it comes
        round to where it started. */
    method FreeSlot() returns (id: nat)
      requires Valid() && nrLive < NR_REQS
      ensures id < NR_REQS && replyQueue[id] == 0 && FirstFree(replyQueue[..], probe, id)
    {
      id := probe;
      ghost var n := 0;
      while true
        invariant n < NR_REQS && id == Place(probe, n)
        invariant forall m: nat | m < n :: replyQueue[Place(probe, m)] != 0
        decreases NR_REQS - n
      {
        if replyQueue[id] == 0 {
          break;
        }
        id := (id + 1) % NR_REQS;
        n := n + 1;
        if n == NR_REQS {
          forall i | 0 <= i < NR_REQS ensures replyQueue[..][i] != 0 {
            RoundTrip(probe, i);
          }
          AllInUse(replyQueue[..]);
          assert false;
        }
        assert id != probe;
      }
    }

    /** xenbus_id_allocate once fewer than all slots are live: a slot that was free. */
    method IdAllocate(reply: nat, for0: nat) returns (id: nat)
      requires Valid() && nrLive < NR_REQS && reply != 0
      modifies this, replyQueue, forQueue
      ensures Valid() && id < NR_REQS
      ensures id !in old(InUse(replyQueue[..])) && InUse(replyQueue[..]) == old(InUse(replyQueue[..])) + {id}
      ensures replyQueue[..] == old(replyQueue[..])[id := reply] && forQueue[..] == old(forQueue[..])[id := for0]
      ensures nrLive == old(nrLive) + 1 && probe == (id + 1) % NR_REQS
      ensures FirstFree(old(replyQueue[..]), old(probe), id)
    {
      id := FreeSlot();
      InUseAfter(replyQueue[..], id, reply);
      nrLive := nrLive + 1;
      replyQueue[id] := reply;
      forQueue[id] := for0;
      probe := (id + 1) % NR_REQS;
      assert replyQueue[..] == old(replyQueue[..])[id := reply];
    }

    /** xenbus_id_release */
    method IdRelease(id: nat) returns (wake: bool)
      requires Valid() && id in InUse(replyQueue[..])
      modifies this`nrLive, replyQueue
      ensures Valid() && InUse(replyQueue[..]) == old(InUse(replyQueue[..])) - {id}
      ensures replyQueue[..] == old(replyQueue[..])[id := 0]
      ensures nrLive == old(nrLive) - 1
      ensures wake <==> old(nrLive) == NR_REQS
    {
      InUseAfter(replyQueue[..], id, 0);
      replyQueue[id] := 0;
      nrLive := nrLive - 1;
      wake := nrLive == NR_REQS - 1;
      assert replyQueue[..] == old(replyQueue[..])[id := 0];
    }
  }
}
