/** Every step of the scheduler keeps the invariant; hence no run reaches an assertion
    failure or a halt. */
module SchedSteps {
  import opened Queues
  import opened SchedSpec
  import opened SchedInv

  /** The invariant without its quantifiers. */
  lemma LocalParts(s: State)
    requires LocalInv(s)
    ensures !s.halted && s.cur in s.thr && Sorted(s.thr, s.timeq) && LocalOk(s, s.cur) && QueueKnown(s)
    ensures NoDup(s.runq) && NoDup(s.timeq) && NoDup(s.blockq) && NoDup(s.threadq) && NoDup(s.zombieq)
  {
    hide LocalOk, Sorted, NoDup;
  }

  lemma BlockInv(s: State)
    requires Inv(s) && Enabled(s, DoBlock)
    ensures Inv(Block(s, s.thr[s.cur].pc.k))
  {
    hide LocalInv, JoinInv, Sorted, NoDup;
    LocalParts(s);
    var s' := Block(s, s.thr[s.cur].pc.k);
    SortedFrame(s.thr, s'.thr, s.timeq);
    OnlyLocal(s, s', s.cur);
    OnlyJoin(s, s', s.cur);
  }

  lemma YieldInv(s: State)
    requires Inv(s) && Enabled(s, DoYield)
    ensures Inv(Yield(s))
  {
    hide LocalInv, JoinInv, Sorted, NoDup;
    LocalParts(s);
    var s' := Yield(s);
    AppendMember(s.runq, s.cur);
    SortedFrame(s.thr, s'.thr, s.timeq);
    OnlyLocal(s, s', s.cur);
    OnlyJoin(s, s', s.cur);
  }

  lemma {:induction false} RemoveSorted(thr: map<Tid, Thread>, q: seq<Tid>, t: Tid)
    requires Sorted(thr, q) && NoDup(q)
    ensures Sorted(thr, Remove(q, t))
  {
    if q != [] && q[0] != t {
      var r := Remove(q[1..], t);
      RemoveSorted(thr, q[1..], t);
      RemoveMember(q[1..], t);
      assert Remove(q, t) == [q[0]] + r;
      hide Remove;
      forall j | 0 <= j < |r| ensures thr[q[0]].wakeup <= thr[r[j]].wakeup {
        assert r[j] in q[1..];
        SortedFirst(thr, q, r[j]);
      }
    }
  }

  lemma SortedFirst(thr: map<Tid, Thread>, q: seq<Tid>, t: Tid)
    requires Sorted(thr, q) && t in q
    ensures thr[q[0]].wakeup <= thr[t].wakeup
  {
    var i :| 0 <= i < |q| && q[i] == t;
  }

  /** A change to threads outside the queue keeps it sorted. */
  lemma SortedFrame(thr: map<Tid, Thread>, thr': map<Tid, Thread>, q: seq<Tid>)
    requires Sorted(thr, q) && forall t | t in q :: t in thr' && thr'[t].wakeup == thr[t].wakeup
    ensures Sorted(thr', q)
  {
  }

  /** A wakeup makes a thread that sleeps on timeq runnable... */
  lemma WakeTimed(s: State, t: Tid)
    requires Inv(s) && t in s.thr && s.thr[t].onTimeq
    ensures Inv(Wake(s, t))
  {
    hide LocalInv, JoinInv, Sorted, NoDup, Remove, JoinOk;
    LocalParts(s);
    At(s, t);
    var s' := Wake(s, t);
    RemoveMember(s.timeq, t);
    RemoveSorted(s.thr, s.timeq, t);
    SortedFrame(s.thr, s'.thr, s'.timeq);
    AppendMember(s.runq, t);
    OnlyLocal(s, s', t);
    OnlyJoin(s, s', t);
  }

  /** ... and one on blockq, ... */
  lemma WakeBlocked(s: State, t: Tid)
    requires Inv(s) && t in s.thr && s.thr[t].onBlockq
    ensures Inv(Wake(s, t))
  {
    hide LocalInv, JoinInv, Sorted, NoDup, Remove, JoinOk;
    LocalParts(s);
    At(s, t);
    var s' := Wake(s, t);
    RemoveMember(s.blockq, t);
    SortedFrame(s.thr, s'.thr, s'.timeq);
    AppendMember(s.runq, t);
    OnlyLocal(s, s', t);
    OnlyJoin(s, s', t);
  }

  /** ... and has no effect on the queues otherwise. */
  lemma WakeIdle(s: State, t: Tid)
    requires Inv(s) && t in s.thr && !s.thr[t].dead && !s.thr[t].onBlockq && !s.thr[t].onTimeq
    ensures Inv(Wake(s, t))
  {
    hide LocalInv, JoinInv, Sorted, NoDup, Remove, JoinOk;
    LocalParts(s);
    At(s, t);
    var s' := Wake(s, t);
    SortedFrame(s.thr, s'.thr, s'.timeq);
    OnlyLocal(s, s', t);
    OnlyJoin(s, s', t);
  }

  lemma WakeInv(s: State, t: Tid)
    requires Inv(s) && t in s.thr && !s.thr[t].dead
    ensures Inv(Wake(s, t))
    ensures WakeEffect(s, Wake(s, t), t)
  {
    hide Inv, Wake, WakeEffect;
    if s.thr[t].onTimeq {
      WakeTimed(s, t);
    } else if s.thr[t].onBlockq {
      WakeBlocked(s, t);
    } else {
      WakeIdle(s, t);
    }
    At(s, t);
    WakeHasEffect(s, t);
  }

  lemma At(s: State, t: Tid)
    requires Inv(s) && t in s.thr
    ensures LocalOk(s, t) && s.cur in s.thr && JoinOk(s, t)
  {
    hide LocalOk, JoinOk, QueuesOk, Sorted, JoinwqOk;
  }

  lemma LocalAt(s: State, t: Tid)
    requires LocalInv(s) && t in s.thr
    ensures LocalOk(s, t)
  {
    hide LocalOk, QueuesOk, Sorted;
  }

  /** A thread running its own code, or in a call but not in schedule(). */
  predicate InCall(pc: Pc)
  {
    pc.User? || pc.JoinCheck? || pc.JoinPark? || pc.JoinSignal? || pc.ExitCheck? || pc.ExitNotify? || pc.ExitPark?
  }

  lemma CurrentInCall(s: State)
    requires Inv(s) && InCall(s.thr[s.cur].pc)
    ensures var th := s.thr[s.cur];
            th.running && !Queued(th) && !th.blockprep && !th.dead && !th.timedout
  {
    hide Inv, JoinOk;
    Known(s);
    At(s, s.cur);
  }

  lemma WakeHasEffect(s: State, t: Tid)
    requires t in s.thr && PcOk(s.thr[t], t == s.cur) && !s.thr[t].dead
    ensures WakeEffect(s, Wake(s, t), t)
  {
  }

  /** A thread after a wakeup: runnable if it was queued. */
  function Awake(th: Thread): Thread
  {
    th.(wakeup := INFTIME, onRunq := Queued(th), onTimeq := false, onBlockq := false)
  }

  /** Nothing but the woken thread and its place in the queues has changed. */
  ghost predicate WakeEffect(s: State, s': State, t: Tid)
  {
    && t in s.thr
    && s'.cur == s.cur && s'.now == s.now && s'.joinwq == s.joinwq
    && s'.thr == s.thr[t := Awake(s.thr[t])]
    && s'.runq == s.runq + if s.thr[t].onTimeq || s.thr[t].onBlockq then [t] else []
  }

  // ---- Sorted insertion ----

  lemma SortedTail(thr: map<Tid, Thread>, q: seq<Tid>)
    requires Sorted(thr, q) && q != []
    ensures Sorted(thr, q[1..]) && forall x | x in q :: x in thr
  {
    assert forall i | 0 <= i < |q| - 1 :: q[1..][i] == q[i + 1];
  }

  lemma SortedKnown(thr: map<Tid, Thread>, q: seq<Tid>)
    requires Sorted(thr, q)
    ensures forall x | x in q :: x in thr
  {
  }

  lemma InsertUnfold(thr: map<Tid, Thread>, q: seq<Tid>, t: Tid, due: Time)
    requires forall x | x in q :: x in thr
    ensures SortedInsert(thr, q, t, due) ==
            if q == [] || thr[q[0]].wakeup > due then [t] + q else [q[0]] + SortedInsert(thr, q[1..], t, due)
  {
  }

  /** The position of an insertion: after every thread due no later, so that equal times
      stay in order of arrival, and before the first one due later. */
  lemma {:induction false} SortedInsertAt(thr: map<Tid, Thread>, q: seq<Tid>, t: Tid, due: Time) returns (i: nat)
    requires Sorted(thr, q)
    ensures i <= |q| && SortedInsert(thr, q, t, due) == q[..i] + [t] + q[i..]
    ensures forall j | 0 <= j < i :: thr[q[j]].wakeup <= due
    ensures forall j | i <= j < |q| :: due < thr[q[j]].wakeup
  {
    hide SortedInsert;
    SortedKnown(thr, q);
    InsertUnfold(thr, q, t, due);
    if q == [] {
      i := 0;
    } else if thr[q[0]].wakeup > due {
      i := 0;
      forall j | 0 <= j < |q| ensures due < thr[q[j]].wakeup {
        assert thr[q[0]].wakeup <= thr[q[j]].wakeup;
      }
    } else {
      hide Sorted;
      SortedTail(thr, q);
      var i' := SortedInsertAt(thr, q[1..], t, due);
      i := i' + 1;
      assert q[..i] == [q[0]] + q[1..][..i'] && q[i..] == q[1..][i'..];
      forall j | 0 <= j < i ensures thr[q[j]].wakeup <= due {
        assert j > 0 ==> q[1..][j - 1] == q[j];
      }
      forall j | i <= j < |q| ensures due < thr[q[j]].wakeup {
        assert q[1..][j - 1] == q[j];
      }
    }
  }

  lemma SortedInsertKeeps(thr: map<Tid, Thread>, thr': map<Tid, Thread>, q: seq<Tid>, t: Tid, due: Time)
    requires Sorted(thr, q) && NoDup(q) && t !in q && t in thr' && thr'[t].wakeup == due
    requires forall x | x in q :: x in thr' && thr'[x].wakeup == thr[x].wakeup
    ensures var r := SortedInsert(thr, q, t, due);
            Sorted(thr', r) && NoDup(r) && forall x :: x in r <==> x in q || x == t
  {
    var i := SortedInsertAt(thr, q, t, due);
    InsertMembers(q, i, t);
    hide NoDup;
    InsertSorted(thr, thr', q, i, t, due);
  }

  lemma InsertMembers(q: seq<Tid>, i: nat, t: Tid)
    requires i <= |q| && NoDup(q) && t !in q
    ensures var r := q[..i] + [t] + q[i..];
            NoDup(r) && forall x :: x in r <==> x in q || x == t
  {
    assert q == q[..i] + q[i..];
  }

  lemma InsertSorted(thr: map<Tid, Thread>, thr': map<Tid, Thread>, q: seq<Tid>, i: nat, t: Tid, due: Time)
    requires i <= |q| && Sorted(thr, q) && t in thr' && thr'[t].wakeup == due
    requires forall x | x in q :: x in thr' && thr'[x].wakeup == thr[x].wakeup
    requires forall j | 0 <= j < i :: thr[q[j]].wakeup <= due
    requires forall j | i <= j < |q| :: due < thr[q[j]].wakeup
    ensures Sorted(thr', q[..i] + [t] + q[i..])
  {
    var r := q[..i] + [t] + q[i..];
    forall j | 0 <= j < |r| ensures r[j] == if j < i then q[j] else if j == i then t else q[j - 1] {
    }
  }

  // ---- blockprepare ----

  lemma PrepareLocal(s: State, deadline: Time, k: Cont)
    requires LocalInv(s) && (k.ToUser? || deadline == INFTIME)
    requires s.thr[s.cur].running && !Queued(s.thr[s.cur]) && !s.thr[s.cur].blockprep && !s.thr[s.cur].dead
    requires !s.thr[s.cur].timedout
    ensures var s' := BlockPrepare(s, deadline, k);
            LocalInv(s') && Only(s, s', s.cur) && s'.thr[s.cur].pc == Prepared(k) && s'.joinwq == s.joinwq
  {
    hide LocalInv, Sorted, NoDup, SortedInsert;
    LocalParts(s);
    var s' := BlockPrepare(s, deadline, k);
    if deadline != INFTIME {
      SortedInsertKeeps(s.thr, s'.thr, s.timeq, s.cur, deadline);
    } else {
      AppendMember(s.blockq, s.cur);
      SortedFrame(s.thr, s'.thr, s'.timeq);
    }
    OnlyLocal(s, s', s.cur);
  }

  lemma PrepareInv(s: State, deadline: Time)
    requires Inv(s) && Enabled(s, DoPrepare(deadline))
    ensures Inv(BlockPrepare(s, deadline, ToUser))
  {
    hide LocalInv, JoinInv;
    LocalParts(s);
    PrepareLocal(s, deadline, ToUser);
    OnlyJoin(s, BlockPrepare(s, deadline, ToUser), s.cur);
  }

  // ---- create ----

  lemma CreateInv(s: State, t: Tid, joinable: bool)
    requires Inv(s) && t !in s.thr
    ensures Inv(Create(s, t, joinable))
  {
    CreateLocal(s, t, joinable);
    CreateJoin(s, t, joinable);
  }

  lemma CreateLocal(s: State, t: Tid, joinable: bool)
    requires LocalInv(s) && t !in s.thr
    ensures LocalInv(Create(s, t, joinable))
  {
    hide NoDup, Sorted, PcOk, TimeOk;
    var s' := Create(s, t, joinable);
    AppendMember(s.runq, t);
    AppendMember(s.threadq, t);
    SortedFrame(s.thr, s'.thr, s'.timeq);
    NewThreadOk(joinable);
    forall u | u in s'.thr ensures LocalOk(s', u) {
      assert u != t ==> LocalOk(s, u);
    }
  }

  lemma NewThreadOk(joinable: bool)
    ensures PcOk(NewThread(joinable), false) && TimeOk(NewThread(joinable))
  {
  }

  lemma CreateJoin(s: State, t: Tid, joinable: bool)
    requires JoinInv(s) && t !in s.thr
    ensures JoinInv(Create(s, t, joinable))
  {
    var s' := Create(s, t, joinable);
    forall j: Tid, w: Tid ensures (j, w) in s'.joinwq <==> Waits(s', j, w) {
      assert Waits(s', j, w) <==> Waits(s, j, w);
    }
    forall i, j | i in s'.thr && j in s'.thr && i != j ensures !SameTarget(s'.thr[i].pc, s'.thr[j].pc) {
      assert i != t && j != t ==> !SameTarget(s.thr[i].pc, s.thr[j].pc);
    }
    hide JoinwqOk;
    forall u | u in s'.thr ensures JoinOk(s', u) {
      assert u != t ==> JoinOk(s, u);
    }
  }

  // ---- schedule() ----

  lemma TickInv(s: State, now: Time)
    requires Inv(s) && s.now <= now
    ensures Inv(s.(now := now))
  {
    var s' := s.(now := now);
    assert JoinInv(s') by {
      JoinFrame(s, s');
    }
    hide JoinInv;
    forall t | t in s'.thr ensures LocalOk(s', t) {
      assert LocalOk(s, t);
    }
  }

  ghost predicate Due(s: State, t: Tid)
  {
    t in s.thr && s.thr[t].wakeup <= s.now
  }

  /** The state after one round of the expiry loop. */
  function ExpireOne(s: State): State
    requires s.timeq != [] && s.timeq[0] in s.thr
  {
    var t := s.timeq[0];
    Wake(Set(s, t, s.thr[t].(timedout := true)), t)
  }

  lemma ExpireOneInv(s: State)
    requires Inv(s) && s.timeq != [] && Due(s, s.timeq[0]) && InSchedule(s.thr[s.cur].pc)
    ensures Inv(ExpireOne(s))
    ensures ExpireOne(s).timeq == s.timeq[1..] && ExpireOne(s).runq == s.runq + [s.timeq[0]]
    ensures var s' := ExpireOne(s);
            s'.cur == s.cur && s'.now == s.now && s'.thr.Keys == s.thr.Keys && s'.thr[s.cur].pc == s.thr[s.cur].pc
  {
    hide ExpireOne, LocalInv, JoinInv, Role, Sorted, NoDup, JoinOk;
    LocalParts(s);
    At(s, s.timeq[0]);
    ExpireOneIs(s);
    ExpireOneLocal(s);
    OnlyJoin(s, ExpireOne(s), s.timeq[0]);
  }

  lemma ExpireOneLocal(s: State)
    requires LocalInv(s) && s.timeq != [] && Due(s, s.timeq[0]) && InSchedule(s.thr[s.cur].pc)
    ensures LocalInv(ExpireOne(s)) && Only(s, ExpireOne(s), s.timeq[0])
  {
    hide LocalInv, Sorted, NoDup, ExpireOne;
    var t := s.timeq[0];
    LocalParts(s);
    LocalAt(s, t);
    ExpireOneIs(s);
    var s' := ExpireOne(s);
    TailMember(s.timeq);
    SortedTail(s.thr, s.timeq);
    SortedFrame(s.thr, s'.thr, s'.timeq);
    AppendMember(s.runq, t);
    OnlyLocal(s, s', t);
  }

  lemma ExpireOneIs(s: State)
    requires s.timeq != [] && s.timeq[0] in s.thr && LocalOk(s, s.timeq[0])
    ensures var t := s.timeq[0];
            ExpireOne(s) == Set(s.(timeq := s.timeq[1..], runq := s.runq + [t]), t,
                                s.thr[t].(timedout := true, onTimeq := false, onRunq := true, wakeup := INFTIME))
  {
  }

  /** The expiry loop leaves no thread on timeq whose time has come. */
  lemma {:induction false} ExpireInv(s: State)
    requires Inv(s) && InSchedule(s.thr[s.cur].pc)
    ensures var s' := Expire(s);
            && Inv(s') && s'.cur == s.cur && s'.now == s.now && InSchedule(s'.thr[s.cur].pc)
            && s.runq <= s'.runq
            && forall t | t in s'.timeq :: s'.now < s'.thr[t].wakeup
    decreases |s.timeq|
  {
    hide Inv, Expire, ExpireOne;
    Known(s);
    if s.timeq == [] || s.thr[s.timeq[0]].wakeup > s.now {
      ExpireNone(s);
    } else {
      ExpireUnfold(s);
      ExpireOneInv(s);
      ExpireInv(ExpireOne(s));
    }
  }

  lemma NoneDue(s: State)
    requires Sorted(s.thr, s.timeq) && (s.timeq == [] || s.thr[s.timeq[0]].wakeup > s.now)
    ensures forall t | t in s.timeq :: s.now < s.thr[t].wakeup
  {
    forall t | t in s.timeq ensures s.now < s.thr[t].wakeup {
      var i :| 0 <= i < |s.timeq| && s.timeq[i] == t;
      assert i == 0 || s.thr[s.timeq[0]].wakeup <= s.thr[s.timeq[i]].wakeup;
    }
  }

  lemma ExpireNone(s: State)
    requires Inv(s) && (s.timeq == [] || (s.timeq[0] in s.thr && s.thr[s.timeq[0]].wakeup > s.now))
    ensures QueueKnown(s) && Expire(s) == s && forall t | t in s.timeq :: s.now < s.thr[t].wakeup
  {
    hide LocalInv, JoinInv;
    LocalParts(s);
    NoneDue(s);
  }

  lemma ExpireUnfold(s: State)
    requires Inv(s) && s.timeq != [] && Due(s, s.timeq[0]) && InSchedule(s.thr[s.cur].pc)
    ensures Inv(ExpireOne(s)) && Expire(s) == Expire(ExpireOne(s))
  {
    ExpireOneInv(s);
  }

  lemma DecideEffect(s: State)
    requires QueueKnown(s) && s.runq != [] && s.thr[s.runq[0]].onRunq && !s.thr[s.runq[0]].dead
    ensures var s', next := Decide(s), s.runq[0];
            && s' == s.(thr := s'.thr, cur := next, runq := s.runq[1..])
            && s'.thr.Keys == s.thr.Keys
            && s'.thr[next] == s.thr[next].(running := true, onRunq := false, pc := Chosen(s.thr[next].pc))
            && (s.cur != next ==> s'.thr[s.cur] == s.thr[s.cur].(running := false))
            && forall u | u in s.thr && u != s.cur && u != next :: s'.thr[u] == s.thr[u]
  {
  }

  /** The chosen thread, the previous one and any other one after the decision. */
  lemma DecideNext(s: State)
    requires QueueKnown(s) && s.runq != [] && NoDup(s.runq) && InSchedule(s.thr[s.cur].pc)
    requires LocalOk(s, s.runq[0])
    ensures s.runq[0] in Decide(s).thr && LocalOk(Decide(s), s.runq[0])
  {
    var next := s.runq[0];
    assert s.runq == [next] + s.runq[1..];
    DecideEffect(s);
  }

  lemma DecidePrev(s: State)
    requires QueueKnown(s) && s.runq != [] && s.cur != s.runq[0] && InSchedule(s.thr[s.cur].pc)
    requires s.thr[s.runq[0]].onRunq && !s.thr[s.runq[0]].dead && LocalOk(s, s.cur)
    ensures s.cur in Decide(s).thr && LocalOk(Decide(s), s.cur)
  {
    var next := s.runq[0];
    assert s.runq == [next] + s.runq[1..];
    DecideEffect(s);
  }

  lemma DecideOther(s: State, u: Tid)
    requires QueueKnown(s) && s.runq != [] && u in s.thr && u != s.cur && u != s.runq[0]
    requires s.thr[s.runq[0]].onRunq && !s.thr[s.runq[0]].dead && LocalOk(s, u)
    ensures u in Decide(s).thr && LocalOk(Decide(s), u)
  {
    hide PcOk, TimeOk;
    var next := s.runq[0];
    assert s.runq == [next] + s.runq[1..];
    DecideEffect(s);
  }

  lemma DecideLocal(s: State)
    requires LocalInv(s) && s.runq != [] && InSchedule(s.thr[s.cur].pc)
    ensures LocalInv(Decide(s))
  {
    hide Sorted, PcOk, TimeOk, Decide, InSchedule, QueuesOk;
    DecideQueues(s);
    var s' := Decide(s);
    var next := s.runq[0];
    LocalAt(s, next);
    NotDead(s.thr[next], next == s.cur);
    DecideEffect(s);
    hide LocalOk;
    forall u | u in s'.thr ensures LocalOk(s', u) {
      if u == next {
        DecideNext(s);
      } else if u == s.cur {
        DecidePrev(s);
      } else {
        DecideOther(s, u);
      }
    }
  }

  lemma DecideQueues(s: State)
    requires LocalInv(s) && s.runq != []
    ensures QueuesOk(s) && NoDup(s.runq) && QueueKnown(s) && QueuesOk(Decide(s))
    ensures Decide(s).timeq == s.timeq && Sorted(Decide(s).thr, s.timeq)
  {
    hide Sorted, PcOk, TimeOk, Decide, NoDup;
    LocalAt(s, s.runq[0]);
    NotDead(s.thr[s.runq[0]], s.runq[0] == s.cur);
    DecideEffect(s);
    TailMember(s.runq);
    SortedFrame(s.thr, Decide(s).thr, s.timeq);
  }

  lemma NotDead(th: Thread, current: bool)
    requires PcOk(th, current) && th.onRunq
    ensures !th.dead
  {
  }

  lemma DecideInv(s: State)
    requires Inv(s) && s.runq != [] && InSchedule(s.thr[s.cur].pc)
    ensures Inv(Decide(s))
    ensures Decide(s).cur == s.runq[0] && Decide(s).runq == s.runq[1..]
  {
    Known(s);
    DecideLocal(s);
    At(s, s.runq[0]);
    NotDead(s.thr[s.runq[0]], s.runq[0] == s.cur);
    hide LocalInv, LocalOk, JoinInv, JoinOk, Decide;
    DecideJoin(s);
  }

  lemma DecideJoin(s: State)
    requires QueueKnown(s) && s.runq != [] && InSchedule(s.thr[s.cur].pc) && JoinInv(s)
    requires s.thr[s.runq[0]].onRunq && !s.thr[s.runq[0]].dead
    ensures JoinInv(Decide(s))
    ensures Decide(s).cur == s.runq[0] && Decide(s).runq == s.runq[1..]
  {
    hide JoinInv, Decide, View, Chosen, Role;
    var next := s.runq[0];
    DecideEffect(s);
    ViewRunning(s.thr[s.cur]);
    ViewChosen(s.thr[next]);
    JoinFrame(s, Decide(s));
  }

  lemma ViewChosen(th: Thread)
    ensures View(th.(running := true, onRunq := false, pc := Chosen(th.pc))) == View(th)
  {
  }

  lemma ViewRunning(th: Thread)
    ensures View(th.(running := false)) == View(th)
  {
  }

  lemma IterateInv(s: State, now: Time)
    requires Inv(s) && Enabled(s, DoIterate(now))
    ensures Inv(Iterate(s, now))
  {
    hide Inv, Expire;
    TickInv(s, now);
    var s1 := s.(now := now);
    ExpireInv(s1);
    var s2 := Expire(s1);
    Known(s2);
    if s2.runq != [] {
      DecideInv(s2);
    }
  }

  lemma Known(s: State)
    requires Inv(s)
    ensures QueueKnown(s) && !s.halted
  {
    hide LocalOk, JoinInv, Sorted;
  }

  // ---- The return from schedule() ----

  lemma ReapInv(s: State)
    requires Inv(s) && !s.thr[s.cur].dead
    ensures Inv(Reap(s)) && s.cur in Reap(s).thr && Reap(s).thr[s.cur] == s.thr[s.cur]
  {
    ReapLocal(s);
    assert LocalOk(s, s.cur);
    forall t | t in s.thr ensures t in s.zombieq <==> s.thr[t].dead {
      assert LocalOk(s, t);
    }
    ReapJoin(s);
  }

  lemma ReapLocal(s: State)
    requires LocalInv(s) && !s.thr[s.cur].dead
    ensures LocalInv(Reap(s))
  {
    hide Sorted, NoDup, TimeOk;
    var s' := Reap(s);
    assert LocalOk(s, s.cur);
    forall t | t in s.thr && (Queued(s.thr[t]) || t in s.threadq) ensures t in s'.thr {
      assert LocalOk(s, t);
    }
    SortedFrame(s.thr, s'.thr, s'.timeq);
    forall u | u in s'.thr ensures LocalOk(s', u) {
      assert LocalOk(s, u);
    }
    assert NoDup(s'.zombieq) by {
      NoDupEmpty<Tid>();
    }
    assert QueuesOk(s') by {
      forall t | t in s.runq || t in s.timeq || t in s.blockq ensures t in s'.thr {
        assert LocalOk(s, t);
      }
    }
  }

  lemma ReapJoin(s: State)
    requires JoinInv(s) && !s.thr[s.cur].dead
    requires forall t | t in s.thr :: (t in s.zombieq <==> s.thr[t].dead) && (s.thr[t].dead ==> s.thr[t].pc.Exited?)
    ensures JoinInv(Reap(s))
  {
    var s' := Reap(s);
    assert JoinwqOk(s') by {
      forall j: Tid, w: Tid ensures (j, w) in s'.joinwq <==> Waits(s', j, w) {
        assert Waits(s', j, w) <==> Waits(s, j, w);
      }
      forall i, j | i in s'.thr && j in s'.thr && i != j ensures !SameTarget(s'.thr[i].pc, s'.thr[j].pc) {
        assert !SameTarget(s.thr[i].pc, s.thr[j].pc);
      }
    }
    hide JoinwqOk;
    forall u | u in s'.thr ensures JoinOk(s', u) {
      assert JoinOk(s, u);
    }
  }

  lemma JoinwqLeave(s: State, s': State, t: Tid, w: Tid)
    requires JoinwqOk(s) && t in s.thr && Role(s.thr[t].pc) == Waiting(w)
    requires s'.thr.Keys == s.thr.Keys && Role(s'.thr[t].pc) == Joining(w)
    requires forall u | u in s.thr && u != t :: Role(s'.thr[u].pc) == Role(s.thr[u].pc)
    requires s'.joinwq == Remove(s.joinwq, (t, w))
    ensures JoinwqOk(s')
  {
    hide Role;
    RemoveMember(s.joinwq, (t, w));
    forall j: Tid, v: Tid ensures (j, v) in s'.joinwq <==> Waits(s', j, v) {
      assert (j, v) in s.joinwq <==> Waits(s, j, v);
    }
    forall i, j | i in s'.thr && j in s'.thr && i != j ensures !SameTarget(s'.thr[i].pc, s'.thr[j].pc) {
      assert !SameTarget(s.thr[i].pc, s.thr[j].pc);
    }
  }

  lemma JoinwqEnter(s: State, s': State, t: Tid, w: Tid)
    requires JoinwqOk(s) && t in s.thr && Role(s.thr[t].pc) == Joining(w)
    requires s'.thr.Keys == s.thr.Keys && Role(s'.thr[t].pc) == Waiting(w)
    requires forall u | u in s.thr && u != t :: Role(s'.thr[u].pc) == Role(s.thr[u].pc)
    requires s'.joinwq == s.joinwq + [(t, w)]
    ensures JoinwqOk(s')
  {
    hide Role;
    assert !Waits(s, t, w);
    AppendMember(s.joinwq, (t, w));
    forall j: Tid, v: Tid ensures (j, v) in s'.joinwq <==> Waits(s', j, v) {
      assert (j, v) in s.joinwq <==> Waits(s, j, v);
    }
    forall i, j | i in s'.thr && j in s'.thr && i != j ensures !SameTarget(s'.thr[i].pc, s'.thr[j].pc) {
      assert !SameTarget(s.thr[i].pc, s.thr[j].pc);
    }
  }

  /** The last part of Return, once the zombies are gone. */
  function Resume(s: State): State
    requires s.cur in s.thr
  {
    var th := s.thr[s.cur];
    match th.pc
    case Waking(k) =>
      var s2 := if k.ToJoin? then s.(joinwq := Remove(s.joinwq, (s.cur, k.wanted))) else s;
      Set(s2, s.cur, th.(timedout := false, blockprep := false, pc := AfterBlock(k)))
    case YieldDone => Set(s, s.cur, th.(pc := User))
    case _ => s
  }

  lemma ResumeLocal(s: State)
    requires LocalInv(s) && (s.thr[s.cur].pc.Waking? || s.thr[s.cur].pc.YieldDone?)
    ensures LocalInv(Resume(s)) && Only(s, Resume(s), s.cur)
  {
    hide LocalInv, Sorted, NoDup, Remove;
    LocalParts(s);
    SortedFrame(s.thr, Resume(s).thr, s.timeq);
    OnlyLocal(s, Resume(s), s.cur);
  }

  lemma ResumePlain(s: State)
    requires JoinInv(s) && Only(s, Resume(s), s.cur)
    requires s.thr[s.cur].pc == Waking(ToUser) || s.thr[s.cur].pc == YieldDone
    ensures JoinInv(Resume(s))
  {
    hide JoinwqOk, JoinOk, Only;
    OnlyJoin(s, Resume(s), s.cur);
  }

  lemma ResumeExit(s: State)
    requires JoinInv(s) && Only(s, Resume(s), s.cur) && s.thr[s.cur].pc == Waking(ToExit)
    ensures JoinInv(Resume(s))
  {
    hide JoinwqOk, Only;
    var s' := Resume(s);
    assert JoinOk(s, s.cur);
    var th' := s.thr[s.cur].(timedout := false, blockprep := false, pc := ExitCheck);
    assert s' == Set(s, s.cur, th');
    JoinwqFrame(s, s');
    OnlyOwnJoin(s, s', s.cur);
  }

  lemma ResumeJoining(s: State, w: Tid)
    requires JoinInv(s) && Only(s, Resume(s), s.cur) && s.thr[s.cur].pc == Waking(ToJoin(w)) && !s.thr[s.cur].onBlockq
    ensures JoinInv(Resume(s))
  {
    hide JoinwqOk, Only;
    var s' := Resume(s);
    assert JoinOk(s, s.cur);
    var th' := s.thr[s.cur].(timedout := false, blockprep := false, pc := JoinCheck(w));
    assert s' == Set(s, s.cur, th').(joinwq := Remove(s.joinwq, (s.cur, w)));
    JoinwqLeave(s, s', s.cur, w);
    OnlyOwnJoin(s, s', s.cur);
  }

  lemma ReturnInv(s: State)
    requires Inv(s) && Enabled(s, DoReturn)
    ensures Inv(Return(s))
  {
    At(s, s.cur);
    ReapInv(s);
    hide Inv, Resume, Reap;
    ReturnIsResume(s);
    ResumeInv(Reap(s));
  }

  lemma ResumeInv(s: State)
    requires Inv(s) && (s.thr[s.cur].pc.Waking? || s.thr[s.cur].pc.YieldDone?)
    ensures Inv(Resume(s))
  {
    At(s, s.cur);
    hide LocalInv, JoinInv;
    ResumeLocal(s);
    match s.thr[s.cur].pc
    case Waking(ToExit) => ResumeExit(s);
    case Waking(ToJoin(w)) => ResumeJoining(s, w);
    case _ => ResumePlain(s);
  }

  lemma ReturnIsResume(s: State)
    requires s.cur in s.thr && s.cur in Reap(s).thr
    ensures Return(s) == Resume(Reap(s))
  {
  }

  // ---- join and exit ----

  /** A step that only moves the current thread to another point, off every queue. */
  lemma GotoLocal(s: State, th': Thread)
    requires LocalInv(s) && !Queued(s.thr[s.cur]) && s.thr[s.cur].running && !s.thr[s.cur].blockprep && !s.thr[s.cur].dead
    requires !s.thr[s.cur].timedout
    requires th'.pc.User? || th'.pc.JoinCheck? || th'.pc.JoinPark? || th'.pc.JoinSignal? || th'.pc.ExitCheck? ||
             th'.pc.ExitNotify? || th'.pc.ExitPark?
    requires th' == s.thr[s.cur].(pc := th'.pc, joined := th'.joined, mustjoin := th'.mustjoin)
    ensures LocalInv(Set(s, s.cur, th')) && Only(s, Set(s, s.cur, th'), s.cur)
  {
    hide LocalInv, Sorted, NoDup;
    LocalParts(s);
    var s' := Set(s, s.cur, th');
    SortedFrame(s.thr, s'.thr, s.timeq);
    OnlyLocal(s, s', s.cur);
  }

  lemma JoinInvStep(s: State, w: Tid)
    requires Inv(s) && Enabled(s, DoJoin(w))
    ensures Inv(Goto(s, JoinCheck(w)))
  {
    hide LocalInv, JoinwqOk;
    LocalParts(s);
    CurrentInCall(s);
    assert JoinOk(s, s.cur);
    var th' := s.thr[s.cur].(pc := JoinCheck(w));
    var s' := Set(s, s.cur, th');
    GotoLocal(s, th');
    JoinwqJoin(s, s', s.cur, w);
    OnlyOwnJoin(s, s', s.cur);
  }

  lemma JoinwqJoin(s: State, s': State, t: Tid, w: Tid)
    requires JoinwqOk(s) && t in s.thr && Role(s.thr[t].pc) == NotJoining && !HasJoiner(s, w)
    requires s'.thr.Keys == s.thr.Keys && Role(s'.thr[t].pc) == Joining(w) && s'.joinwq == s.joinwq
    requires forall u | u in s.thr && u != t :: Role(s'.thr[u].pc) == Role(s.thr[u].pc)
    ensures JoinwqOk(s')
  {
    hide Role;
    forall u | u in s.thr ensures Role(s.thr[u].pc) != Waiting(w) && Role(s.thr[u].pc) != Joining(w) {
      assert !IsJoinerOf(s.thr[u].pc, w);
    }
    forall j: Tid, v: Tid ensures (j, v) in s'.joinwq <==> Waits(s', j, v) {
      assert (j, v) in s.joinwq <==> Waits(s, j, v);
    }
    forall i, j | i in s'.thr && j in s'.thr && i != j ensures !SameTarget(s'.thr[i].pc, s'.thr[j].pc) {
      assert !SameTarget(s.thr[i].pc, s.thr[j].pc);
    }
  }

  lemma ExitInv(s: State)
    requires Inv(s) && Enabled(s, DoExit)
    ensures Inv(Goto(s, ExitCheck))
  {
    hide LocalInv, JoinwqOk;
    LocalParts(s);
    At(s, s.cur);
    var th' := s.thr[s.cur].(pc := ExitCheck);
    var s' := Set(s, s.cur, th');
    GotoLocal(s, th');
    JoinwqFrame(s, s');
    OnlyOwnJoin(s, s', s.cur);
  }

  lemma ParkJoinInv(s: State, w: Tid)
    requires Inv(s) && s.thr[s.cur].pc == JoinPark(w)
    ensures QueueKnown(s.(joinwq := s.joinwq + [(s.cur, w)]))
    ensures Inv(BlockPrepare(s.(joinwq := s.joinwq + [(s.cur, w)]), INFTIME, ToJoin(w)))
  {
    hide LocalInv, JoinInv, BlockPrepare, Only;
    LocalParts(s);
    CurrentInCall(s);
    var s0 := s.(joinwq := s.joinwq + [(s.cur, w)]);
    LocalFrame(s, s0);
    PrepareLocal(s0, INFTIME, ToJoin(w));
    ParkEffect(s0, ToJoin(w));
    OnlyAfter(s, s0, BlockPrepare(s0, INFTIME, ToJoin(w)));
    ParkJoinwq(s, BlockPrepare(s0, INFTIME, ToJoin(w)), w);
  }

  lemma OnlyAfter(s: State, s0: State, s': State)
    requires s0 == s.(joinwq := s0.joinwq) && Only(s0, s', s.cur)
    ensures Only(s, s', s.cur)
  {
  }

  lemma ParkJoinwq(s: State, s': State, w: Tid)
    requires JoinInv(s) && s.thr[s.cur].pc == JoinPark(w) && Only(s, s', s.cur) && s'.joinwq == s.joinwq + [(s.cur, w)]
    requires s'.thr[s.cur] == s.thr[s.cur].(wakeup := INFTIME, blockprep := true,
                                            onBlockq := true, pc := Prepared(ToJoin(w)))
    ensures JoinInv(s')
  {
    hide JoinwqOk;
    assert JoinOk(s, s.cur);
    JoinwqEnter(s, s', s.cur, w);
    OnlyOwnJoin(s, s', s.cur);
  }

  lemma ParkExitInv(s: State)
    requires Inv(s) && s.thr[s.cur].pc == ExitPark
    ensures QueueKnown(s) && Inv(BlockPrepare(s, INFTIME, ToExit))
  {
    hide LocalInv, JoinwqOk, BlockPrepare;
    LocalParts(s);
    At(s, s.cur);
    PrepareLocal(s, INFTIME, ToExit);
    var s' := BlockPrepare(s, INFTIME, ToExit);
    ParkEffect(s, ToExit);
    JoinwqFrame(s, s');
    OnlyOwnJoin(s, s', s.cur);
  }

  lemma ParkEffect(s: State, k: Cont)
    requires QueueKnown(s) && s.thr[s.cur].running && !s.thr[s.cur].blockprep && !s.thr[s.cur].onRunq
    ensures var s' := BlockPrepare(s, INFTIME, k);
            s'.thr == s.thr[s.cur := s.thr[s.cur].(wakeup := INFTIME, blockprep := true,
                                                   onBlockq := true, pc := Prepared(k))]
  {
  }

  /** The queue invariant does not look at joinwq. */
  lemma LocalFrame(s: State, s0: State)
    requires LocalInv(s) && s0 == s.(joinwq := s0.joinwq)
    ensures LocalInv(s0)
  {
    forall t | t in s0.thr ensures LocalOk(s0, t) {
      assert LocalOk(s, t);
    }
  }

  lemma TestJoinedInv(s: State, w: Tid)
    requires Inv(s) && s.thr[s.cur].pc == JoinCheck(w)
    ensures Inv(TestJoined(s, w))
  {
    At(s, s.cur);
    if s.thr[w].joined {
      ReleaseInv(s, w);
    } else {
      NotYetJoined(s, w);
    }
  }

  lemma NotYetJoined(s: State, w: Tid)
    requires Inv(s) && s.thr[s.cur].pc == JoinCheck(w) && w in s.thr && !s.thr[w].joined
    ensures Inv(TestJoined(s, w))
  {
    hide LocalInv, JoinwqOk;
    LocalParts(s);
    CurrentInCall(s);
    var th' := s.thr[s.cur].(pc := JoinPark(w));
    var s' := Set(s, s.cur, th');
    GotoLocal(s, th');
    JoinwqFrame(s, s');
    assert JoinOk(s, s.cur);
    hide LocalOk;
    OnlyOwnJoin(s, s', s.cur);
  }

  /** join has seen THR_JOINED: it lets the exiting thread go. */
  lemma ReleaseInv(s: State, w: Tid)
    requires Inv(s) && s.thr[s.cur].pc == JoinCheck(w) && w in s.thr && s.thr[w].joined
    ensures Inv(TestJoined(s, w))
  {
    At(s, s.cur);
    At(s, w);
    ReleaseLocal(s, w);
    hide LocalInv, LocalOk;
    ReleaseJoin(s, w);
  }

  lemma ReleaseLocal(s: State, w: Tid)
    requires LocalInv(s) && s.thr[s.cur].pc == JoinCheck(w) && w in s.thr && s.thr[w].joined && w != s.cur
    requires !s.thr[w].dead
    ensures LocalInv(TestJoined(s, w))
  {
    hide LocalInv, Sorted, NoDup;
    LocalParts(s);
    LocalAt(s, w);
    var s1 := Set(s, w, s.thr[w].(mustjoin := false));
    SortedFrame(s.thr, s1.thr, s.timeq);
    OnlyLocal(s, s1, w);
    hide LocalOk;
    GotoLocal(s1, s1.thr[s.cur].(pc := JoinSignal(w)));
  }

  lemma ReleaseJoin(s: State, w: Tid)
    requires JoinInv(s) && s.thr[s.cur].pc == JoinCheck(w) && w in s.thr && s.thr[w].joined && w != s.cur
    requires !s.thr[w].pc.ExitNotify? && !s.thr[w].pc.ExitPark? && !s.thr[w].pc.JoinSignal?
    ensures JoinInv(TestJoined(s, w))
  {
    hide Role;
    var s' := TestJoined(s, w);
    RoleReleased(s.cur, s, s', w);
    JoinwqFrame(s, s');
    forall u | u in s'.thr ensures JoinOk(s', u) {
      if u != s.cur {
        assert !SameTarget(s.thr[u].pc, s.thr[s.cur].pc);
      }
      ReleaseOne(s, w, u);
    }
  }

  lemma RoleReleased(t: Tid, s: State, s': State, w: Tid)
    requires t == s.cur && t in s.thr && s.thr[t].pc == JoinCheck(w) && w in s.thr && s.thr[w].joined && w != t
    requires s' == TestJoined(s, w)
    ensures s'.thr.Keys == s.thr.Keys && forall u | u in s.thr :: Role(s'.thr[u].pc) == Role(s.thr[u].pc)
  {
  }

  lemma ReleaseOne(s: State, w: Tid, u: Tid)
    requires s.cur in s.thr && s.thr[s.cur].pc == JoinCheck(w) && w in s.thr && s.thr[w].joined && w != s.cur && u in s.thr
    requires !s.thr[w].pc.ExitNotify? && !s.thr[w].pc.ExitPark? && !s.thr[w].pc.JoinSignal?
    requires JoinOk(s, u) && JoinOk(s, s.cur) && (u != s.cur ==> !SameTarget(s.thr[u].pc, s.thr[s.cur].pc))
    ensures JoinOk(TestJoined(s, w), u)
  {
  }

  /** The last wake of join hits a live thread. */
  lemma SignalInv(s: State, w: Tid)
    requires Inv(s) && s.thr[s.cur].pc == JoinSignal(w)
    ensures w in s.thr && !s.thr[w].dead
    ensures Inv(SignalJoined(s, w))
  {
    hide LocalInv, JoinInv, Wake;
    LocalParts(s);
    At(s, s.cur);
    WakeInv(s, w);
    var s1 := Wake(s, w);
    CurrentInCall(s1);
    var th' := s1.thr[s.cur].(pc := User);
    GotoLocal(s1, th');
    SignalJoin(s1, w);
  }

  lemma SignalJoin(s: State, w: Tid)
    requires JoinInv(s) && s.thr[s.cur].pc == JoinSignal(w) && w in s.thr && !s.thr[w].onBlockq
    ensures JoinInv(Set(s, s.cur, s.thr[s.cur].(pc := User)))
  {
    var s' := Set(s, s.cur, s.thr[s.cur].(pc := User));
    SignalJoinwq(s);
    hide JoinwqOk;
    forall u | u in s'.thr ensures JoinOk(s', u) {
      assert JoinOk(s, u);
    }
  }

  lemma SignalJoinwq(s: State)
    requires JoinwqOk(s) && s.cur in s.thr && s.thr[s.cur].pc.JoinSignal?
    ensures JoinwqOk(Set(s, s.cur, s.thr[s.cur].(pc := User)))
  {
    var s' := Set(s, s.cur, s.thr[s.cur].(pc := User));
    forall j: Tid, v: Tid ensures (j, v) in s'.joinwq <==> Waits(s', j, v) {
      assert (j, v) in s.joinwq <==> Waits(s, j, v);
    }
    forall i, j | i in s'.thr && j in s'.thr && i != j ensures !SameTarget(s'.thr[i].pc, s'.thr[j].pc) {
      assert !SameTarget(s.thr[i].pc, s.thr[j].pc);
    }
  }

  lemma TestMustJoinInv(s: State)
    requires Inv(s) && s.thr[s.cur].pc == ExitCheck
    ensures Inv(TestMustJoin(s))
  {
    At(s, s.cur);
    if s.thr[s.cur].mustjoin {
      GateInv(s);
    } else {
      DieInv(s);
    }
  }

  /** The exiting thread announces itself and stays until it is joined. */
  lemma GateInv(s: State)
    requires Inv(s) && s.thr[s.cur].pc == ExitCheck && s.thr[s.cur].mustjoin
    ensures Inv(TestMustJoin(s))
  {
    At(s, s.cur);
    var th' := s.thr[s.cur].(joined := true, pc := ExitNotify);
    hide LocalInv, LocalOk;
    GotoLocal(s, th');
    GateJoin(s);
  }

  lemma GateJoin(s: State)
    requires JoinInv(s) && s.thr[s.cur].pc == ExitCheck && s.thr[s.cur].mustjoin
    requires forall u | u in s.thr && u != s.cur :: !s.thr[u].pc.JoinPark? && !s.thr[u].pc.JoinSignal?
    ensures JoinInv(TestMustJoin(s))
  {
    var s' := TestMustJoin(s);
    JoinwqFrame(s, s');
    hide JoinwqOk, Role;
    forall u | u in s'.thr ensures JoinOk(s', u) {
      GateOne(s, u);
    }
  }

  lemma GateOne(s: State, u: Tid)
    requires s.cur in s.thr && s.thr[s.cur].pc == ExitCheck && s.thr[s.cur].mustjoin && u in s.thr
    requires u != s.cur ==> !s.thr[u].pc.JoinPark? && !s.thr[u].pc.JoinSignal?
    requires JoinOk(s, u)
    ensures JoinOk(TestMustJoin(s), u)
  {
  }

  /** A thread that need not be joined dies: it leaves threadq for zombieq. */
  lemma DieInv(s: State)
    requires Inv(s) && s.thr[s.cur].pc == ExitCheck && !s.thr[s.cur].mustjoin
    ensures Inv(TestMustJoin(s))
  {
    At(s, s.cur);
    DieLocal(s);
    hide LocalInv, LocalOk;
    DieJoin(s);
  }

  lemma DieLocal(s: State)
    requires LocalInv(s) && s.thr[s.cur].pc == ExitCheck && !s.thr[s.cur].mustjoin
    ensures LocalInv(TestMustJoin(s))
  {
    hide LocalInv, Sorted, NoDup, Remove, TestMustJoin;
    LocalParts(s);
    var s' := TestMustJoin(s);
    DieIs(s);
    RemoveMember(s.threadq, s.cur);
    PrependMember(s.zombieq, s.cur);
    SortedFrame(s.thr, s'.thr, s.timeq);
    OnlyLocal(s, s', s.cur);
  }

  lemma DieIs(s: State)
    requires LocalInv(s) && s.thr[s.cur].pc == ExitCheck && !s.thr[s.cur].mustjoin
    ensures TestMustJoin(s) == Set(s.(threadq := Remove(s.threadq, s.cur), zombieq := [s.cur] + s.zombieq), s.cur,
                                   s.thr[s.cur].(dead := true, running := false, pc := Exited))
    ensures s.cur in s.threadq && s.cur !in s.zombieq && LocalOk(s, s.cur)
  {
    hide LocalInv, Sorted, NoDup, Remove;
    LocalParts(s);
  }

  lemma DieJoin(s: State)
    requires JoinInv(s) && s.thr[s.cur].pc == ExitCheck && !s.thr[s.cur].mustjoin && !Queued(s.thr[s.cur])
    requires forall u | u in s.thr && u != s.cur :: !s.thr[u].pc.JoinSignal?
    ensures JoinInv(TestMustJoin(s))
  {
    var s' := TestMustJoin(s);
    JoinwqFrame(s, s');
    hide JoinwqOk, Role;
    forall u | u in s'.thr ensures JoinOk(s', u) {
      DieOne(s, u);
    }
  }

  lemma DieOne(s: State, u: Tid)
    requires s.cur in s.thr && s.thr[s.cur].pc == ExitCheck && !s.thr[s.cur].mustjoin && !Queued(s.thr[s.cur]) && u in s.thr
    requires u != s.cur ==> !s.thr[u].pc.JoinSignal?
    requires JoinOk(s, u)
    ensures JoinOk(TestMustJoin(s), u)
  {
  }

  /** The search of joinwq finds the joiner if there is one. */
  lemma {:induction false} JoinerFound(q: seq<(Tid, Tid)>, w: Tid)
    ensures JoinerOf(q, w) == [] ==> forall j: Tid :: (j, w) !in q
    ensures JoinerOf(q, w) != [] ==> (JoinerOf(q, w)[0], w) in q
  {
    if q != [] && q[0].1 != w {
      JoinerFound(q[1..], w);
      forall j: Tid | (j, w) in q ensures (j, w) in q[1..] {
        assert q == [q[0]] + q[1..];
      }
    }
  }

  /** Waking the joiner, if it is there, and moving on to the exit's own block. */
  lemma NotifyInv(s: State)
    requires Inv(s) && s.thr[s.cur].pc == ExitNotify
    ensures Inv(NotifyJoiner(s))
  {
    At(s, s.cur);
    var js := JoinerOf(s.joinwq, s.cur);
    JoinerFound(s.joinwq, s.cur);
    if js == [] {
      forall u | u in s.thr ensures Role(s.thr[u].pc) != Waiting(s.cur) {
        assert !Waits(s, u, s.cur);
      }
      NotifyDone(s);
    } else {
      var j := js[0];
      assert Waits(s, j, s.cur);
      At(s, j);
      JoinerAlone(s, j);
      WakeInv(s, j);
      var s1 := Wake(s, j);
      hide Inv, Wake;
      NotifyWoken(s, s1, j);
      NotifyDone(s1);
    }
  }

  lemma JoinerAlone(s: State, j: Tid)
    requires JoinwqOk(s) && j in s.thr && s.cur in s.thr && Role(s.thr[j].pc) == Waiting(s.cur)
    ensures forall u | u in s.thr && u != j :: Role(s.thr[u].pc) != Waiting(s.cur)
  {
    forall u | u in s.thr && u != j ensures Role(s.thr[u].pc) != Waiting(s.cur) {
      assert !SameTarget(s.thr[u].pc, s.thr[j].pc);
    }
  }

  lemma NotifyWoken(s: State, s1: State, j: Tid)
    requires s.cur in s.thr && WakeEffect(s, s1, j)
    requires forall u | u in s.thr && u != j :: Role(s.thr[u].pc) != Waiting(s.cur)
    ensures s1.cur in s1.thr && s1.thr[s1.cur].pc == s.thr[s.cur].pc
    ensures forall u | u in s1.thr :: Role(s1.thr[u].pc) == Waiting(s1.cur) ==> !s1.thr[u].onBlockq
  {
  }

  lemma NotifyDone(s: State)
    requires Inv(s) && s.thr[s.cur].pc == ExitNotify
    requires forall u | u in s.thr :: Role(s.thr[u].pc) == Waiting(s.cur) ==> !s.thr[u].onBlockq
    ensures Inv(Goto(s, ExitPark))
  {
    At(s, s.cur);
    forall u | u in s.thr ensures Role(s.thr[u].pc).Joining? ==> u == s.cur || !s.thr[u].onBlockq {
      At(s, u);
    }
    var th' := s.thr[s.cur].(pc := ExitPark);
    hide LocalInv, LocalOk;
    GotoLocal(s, th');
    NotifyJoin(s);
  }

  lemma NotifyJoin(s: State)
    requires JoinInv(s) && s.thr[s.cur].pc == ExitNotify
    requires forall u | u in s.thr :: Role(s.thr[u].pc) == Waiting(s.cur) ==> !s.thr[u].onBlockq
    requires forall u | u in s.thr :: Role(s.thr[u].pc).Joining? ==> u == s.cur || !s.thr[u].onBlockq
    ensures JoinInv(Goto(s, ExitPark))
  {
    var s' := Goto(s, ExitPark);
    JoinwqFrame(s, s');
    hide JoinwqOk;
    forall u | u in s'.thr ensures JoinOk(s', u) {
      NotifyOne(s, u);
    }
  }

  lemma NotifyOne(s: State, u: Tid)
    requires s.cur in s.thr && u in s.thr && s.thr[s.cur].pc == ExitNotify && JoinOk(s, u)
    requires Role(s.thr[u].pc) == Waiting(s.cur) ==> !s.thr[u].onBlockq
    requires Role(s.thr[u].pc).Joining? ==> u == s.cur || !s.thr[u].onBlockq
    ensures JoinOk(Goto(s, ExitPark), u)
  {
  }

  lemma TimeqHeadFirst(s: State)
    requires Inv(s)
    ensures forall t | t in s.timeq :: t in s.thr && s.thr[s.timeq[0]].wakeup <= s.thr[t].wakeup
  {
    forall t | t in s.timeq ensures t in s.thr && s.thr[s.timeq[0]].wakeup <= s.thr[t].wakeup {
      var i :| 0 <= i < |s.timeq| && s.timeq[i] == t;
      assert i == 0 || s.thr[s.timeq[0]].wakeup <= s.thr[s.timeq[i]].wakeup;
    }
  }

  // ---- Runs ----

  /** Every step that can be taken keeps the invariant. */
  lemma StepInv(s: State, step: Step)
    requires Inv(s) && Enabled(s, step)
    ensures Inv(Next(s, step))
  {
    hide Inv;
    match step
    case DoCreate(t, joinable) => CreateInv(s, t, joinable);
    case DoWake(t) => WakeInv(s, t);
    case DoPrepare(deadline) => PrepareInv(s, deadline);
    case DoBlock => BlockInv(s);
    case DoYield => YieldInv(s);
    case DoIterate(now) => IterateInv(s, now);
    case DoReturn => ReturnInv(s);
    case DoJoin(t) => JoinInvStep(s, t);
    case DoTestJoined => TestJoinedInv(s, s.thr[s.cur].pc.wanted);
    case DoPark =>
      if s.thr[s.cur].pc.JoinPark? {
        ParkJoinInv(s, s.thr[s.cur].pc.wanted);
      } else {
        ParkExitInv(s);
      }
    case DoSignal => SignalInv(s, s.thr[s.cur].pc.wanted);
    case DoExit => ExitInv(s);
    case DoTestMustJoin => TestMustJoinInv(s);
    case DoNotify => NotifyInv(s);
    case DoPause =>
  }
}
