/** sched.c as the code it is: global queues and thread records updated in place, with the
    loops that walk them. What the file asserts of threads and queues is asserted here, and
    proved. Each method is proved to compute the step of the state machine that SchedSpec
    defines and to keep its invariant; a call with scheduling points inside is one method for
    each stretch between them. A wakeup takes as a parameter the threads that interrupts wake in
    the middle of it; they run the same code. */
module Sched {
  import opened Queues
  import opened SchedSpec
  import opened SchedInv
  import SchedSteps
  import Tailq
  import opened SchedRuns
  import opened SchedWindow
  import opened SchedWindowRuns
  import opened SchedWakes

  lemma InsertStop(thr: map<Tid, Thread>, q: seq<Tid>, t: Tid, due: Time)
    requires (forall x | x in q :: x in thr) && (q == [] || thr[q[0]].wakeup > due)
    ensures SortedInsert(thr, q, t, due) == [t] + q
  {
  }

  lemma InsertSkip(thr: map<Tid, Thread>, q: seq<Tid>, i: nat, t: Tid, due: Time)
    requires (forall x | x in q :: x in thr) && i < |q| && thr[q[i]].wakeup <= due
    ensures q[..i] + SortedInsert(thr, q[i..], t, due) == q[..i + 1] + SortedInsert(thr, q[i + 1..], t, due)
  {
    assert q[i..][0] == q[i] && q[i..][1..] == q[i + 1..];
    assert q[..i + 1] == q[..i] + [q[i]];
  }

  lemma IterateSplit(s: State, now: Time)
    requires Inv(s) && QueueKnown(s) && s.now <= now && InSchedule(s.thr[s.cur].pc)
    ensures var s' := Expire(s.(now := now));
            QueueKnown(s') && Iterate(s, now) == if s'.runq != [] then Decide(s') else s'
  {
    SchedSteps.TickInv(s, now);
    SchedSteps.ExpireInv(s.(now := now));
    SchedSteps.Known(Expire(s.(now := now)));
  }

  lemma ExpiringListed(s: State, t: Tid)
    requires Inv(s) && t in s.thr && t in s.timeq
    ensures var s' := Set(s, t, s.thr[t].(timedout := true)); Listed(s', t) && Orderly(s')
  {
    hide JoinInv, Sorted, JoinOk, TimeOk;
    SchedSteps.LocalParts(s);
    SchedSteps.LocalAt(s, t);
  }

  lemma NoInterrupts(s: State)
    ensures Interrupts(s, []) == s
  {
  }

  lemma InvOrderly(s: State)
    requires Inv(s)
    ensures Orderly(s)
  {
    hide LocalInv, JoinInv;
    SchedSteps.LocalParts(s);
  }

  /** Exactly the chosen thread is marked as running, and it is on no queue. */
  ghost predicate OneRuns(s: State)
  {
    s.cur in s.thr && !Queued(s.thr[s.cur]) && forall t | t in s.thr :: s.thr[t].running <==> t == s.cur
  }

  lemma SwitchIs(s: State)
    requires Inv(s) && InSchedule(s.thr[s.cur].pc) && s.runq != []
    ensures QueueKnown(s) && Inv(Decide(s)) && OneRuns(Decide(s))
    ensures var next := s.runq[0];
            && s.thr[next].onRunq && !s.thr[next].dead
            && Decide(s) ==
               var s1 := Set(s, s.cur, s.thr[s.cur].(running := false));
               Set(s1.(runq := s.runq[1..], cur := next), next,
                   s1.thr[next].(running := true, onRunq := false, pc := Chosen(s1.thr[next].pc)))
  {
    hide Inv;
    var next := s.runq[0];
    SchedSteps.Known(s);
    SchedSteps.DecideInv(s);
    OnRunqFlag(s, next);
    RunqLive(s, next);
    var s' := Decide(s);
    assert s'.cur == next && s'.thr[next].running && !s'.thr[next].pc.Prepared? && !s'.thr[next].pc.Sleeping?;
    hide Decide;
    ChosenAlone(s');
  }

  lemma RunqLive(s: State, t: Tid)
    requires Inv(s) && t in s.runq
    ensures t in s.thr && !s.thr[t].dead && (s.thr[t].pc.Prepared? ==> t == s.cur)
  {
    SchedSteps.At(s, t);
  }

  lemma ChosenAlone(s: State)
    requires Inv(s) && s.thr[s.cur].running && !s.thr[s.cur].onRunq && !s.thr[s.cur].pc.Prepared? && !s.thr[s.cur].pc.Sleeping?
    ensures OneRuns(s)
  {
    SchedSteps.At(s, s.cur);
    forall t | t in s.thr ensures s.thr[t].running <==> t == s.cur {
      SchedSteps.At(s, t);
    }
  }

  /** A thread seen waiting in s is last on runq and on no other queue; the others keep their
      places, and nothing else changes. */
  ghost predicate MadeRunnable(s: State, s': State, t: Tid)
    requires t in s.thr
  {
    && s' == s.(thr := s.thr[t := s.thr[t].(onRunq := true, onTimeq := false, onBlockq := false)],
                runq := s'.runq, timeq := s'.timeq, blockq := s'.blockq)
    && IsLast(s'.runq, t) && NoDup(s'.runq) && Remove(s'.runq, t) == Remove(s.runq, t)
    && (forall x :: x in s'.timeq <==> x in s.timeq && x != t)
    && (forall x :: x in s'.blockq <==> x in s.blockq && x != t)
  }

  lemma MovedEffect(s: State, t: Tid)
    requires Orderly(s) && t in s.thr
    ensures MadeRunnable(s, Moved(s, t), t)
  {
    hide Remove, NoDup;
    RemoveMember(s.runq, t);
    RemoveMember(s.timeq, t);
    RemoveMember(s.blockq, t);
    AppendMember(Remove(s.runq, t), t);
    RemoveAppend(Remove(s.runq, t), t, t);
  }

  lemma OffRunq(s: State, t: Tid)
    requires Orderly(s) && t in s.thr
    ensures MadeRunnable(s, Moved(s, t), t) && t !in MovedTorn(s, t).runq
  {
    hide Remove, NoDup;
    MovedEffect(s, t);
    RemoveMember(s.runq, t);
  }

  lemma WokenEffect(s: State, t: Tid)
    requires Listed(s, t)
    ensures SchedSteps.WakeEffect(s, Wake(s, t), t)
  {
    hide Wake, Remove;
    WakeIs(s, t);
  }

  class Scheduler {
    var thr: map<Tid, Thread>
    var cur: Tid
    var runq: seq<Tid>
    var timeq: seq<Tid>
    var blockq: seq<Tid>
    var threadq: seq<Tid>
    var zombieq: seq<Tid>
    var joinwq: seq<(Tid, Tid)>
    var now: Time
    /** The links of the queues are spoilt. */
    var torn: bool

    /** The state of the state machine; it has not halted. */
    function S(): State
      reads this
    {
      State(thr, cur, runq, timeq, blockq, threadq, zombieq, joinwq, now, false)
    }

    function F(): Fine
      reads this
    {
      Fine(S(), NoLook, torn)
    }

    ghost predicate Valid()
      reads this
    {
      !torn && Inv(S())
    }

    /** The threads can be woken. */
    ghost predicate CanWake(us: seq<Tid>)
      reads this
    {
      !torn && Orderly(S()) && forall u | u in us :: Listed(S(), u)
    }

    ghost predicate Live(us: seq<Tid>)
      reads this
    {
      forall u | u in us :: u in thr && !thr[u].dead
    }

    /** bmk_sched_startmain */
    constructor StartMain(main: Tid, time: Time)
      ensures Valid() && S() == Init(main, time)
    {
      thr := map[main := NewThread(false).(onRunq := false, running := true)];
      cur, runq, timeq, blockq := main, [], [], [];
      threadq, zombieq, joinwq := [main], [], [];
      now, torn := time, false;
      new;
      InitInv(main, time);
    }

    /** Control of the current thread moves on. */
    method Goto(pc: Pc)
      requires cur in thr
      modifies this`thr
      ensures S() == SchedSpec.Goto(old(S()), pc)
    {
      thr := thr[cur := thr[cur].(pc := pc)];
    }

    /** set_runnable, with the threads that interrupts wake between its look and its move. The
        second assignment of the end is TAILQ_REMOVE: it takes the thread off the queue it is on,
        and spoils the links if that is not the queue seen and the thread is its last. */
    method MakeRunnable(t: Tid, irqs: seq<Tid>)
      requires CanWake([t] + irqs) && t in thr
      modifies this`thr, this`runq, this`timeq, this`blockq, this`torn
      ensures F() == SetRunnableAmid(old(S()), t, irqs)
      ensures if !old(OnHold(thr[t])) then !torn && S() == old(S())
              else
                var s := Interrupts(old(S()), irqs);
                && t in s.thr && thr[t].onRunq && !OnHold(thr[t])
                && (if torn then t !in runq else MadeRunnable(s, S(), t))
      decreases |irqs|, 1
    {
      hide Remove, Orderly, Listed, Wake, MadeRunnable;
      CanWakeHead(t, irqs);
      var th := thr[t];
      if th.onRunq {
        return;
      }
      var h;
      if th.onTimeq {
        h := Tailq.TimeQ;
      } else if th.onBlockq {
        h := Tailq.BlockQ;
      } else {
        assert th.running;
        return;
      }
      Interrupted(irqs);
      ghost var s := S();
      torn := t !in Under(S(), h) && runq != [] && runq[|runq| - 1] == t;
      runq, timeq, blockq := Remove(runq, t), Remove(timeq, t), Remove(blockq, t);
      thr := thr[t := thr[t].(onRunq := true, onTimeq := false, onBlockq := false)];
      if !torn {
        runq := runq + [t];
      }
      OffRunq(s, t);
    }

    /** What interrupts do until the spl is raised. */
    method Interrupted(irqs: seq<Tid>)
      requires CanWake(irqs)
      modifies this`thr, this`runq, this`timeq, this`blockq, this`torn
      ensures CanWake(irqs) && S() == Interrupts(old(S()), irqs)
      decreases |irqs|, 0
    {
      hide Orderly, Listed, Wake, Interrupts;
      var i := 0;
      CanWakeKnown(irqs);
      NoInterrupts(S());
      assert irqs[..0] == [];
      while i < |irqs|
        invariant 0 <= i <= |irqs| && CanWake(irqs) && S() == Interrupts(old(S()), irqs[..i])
      {
        ghost var s := S();
        CanWakeOne(irqs, i);
        InterruptsSnoc(old(S()), irqs[..i], irqs[i]);
        assert irqs[..i + 1] == irqs[..i] + [irqs[i]];
        WakeAlone(s, irqs[i]);
        WakeThread(irqs[i], []);
        WakeOrderly(s, irqs[i], irqs[i]);
        forall u | u in irqs ensures Listed(S(), u) {
          WakeOrderly(s, irqs[i], u);
        }
        i := i + 1;
      }
      assert irqs[..i] == irqs;
    }

    lemma CanWakeHead(t: Tid, irqs: seq<Tid>)
      requires CanWake([t] + irqs) && t in thr
      ensures CanWake(irqs) && OneHot(thr[t]) && (Queued(thr[t]) || thr[t].running)
    {
      hide Orderly;
      assert t in [t] + irqs;
      forall u | u in irqs ensures Listed(S(), u) {
        assert u in [t] + irqs;
      }
    }

    lemma CanWakeKnown(irqs: seq<Tid>)
      requires CanWake(irqs)
      ensures forall u | u in irqs :: u in thr
    {
    }

    lemma CanWakeOne(irqs: seq<Tid>, i: nat)
      requires CanWake(irqs) && i < |irqs|
      ensures CanWake([irqs[i]] + []) && irqs[i] in thr && Listed(S(), irqs[i]) && Orderly(S())
    {
      hide Orderly;
      assert irqs[i] in irqs;
    }

    /** bmk_sched_wake: a thread that waited is last on runq. If no interrupt of a thread's wakeup
        wakes the same thread, it comes to the wakeups of the interrupts and then its own; if one
        does, the invariant is kept all the same, unless the thread is then the last on runq, and
        exactly then the queues are torn. */
    method WakeThread(t: Tid, irqs: seq<Tid>)
      requires CanWake([t] + irqs) && t in thr
      modifies this`thr, this`runq, this`timeq, this`blockq, this`torn
      ensures F() == WakeAmid(old(S()), t, irqs)
      ensures irqs == [] ==> !torn && S() == Wake(old(S()), t) && SchedSteps.WakeEffect(old(S()), S(), t)
      ensures old(InCallOf(t) && Live([t] + irqs)) ==>
                && (torn <==> old(OnHold(thr[t])) && IsLast(Interrupts(Store(old(S()), t), irqs).runq, t))
                && (!torn ==> Valid() && !OnHold(thr[t]))
                && (t !in irqs ==>
                      !torn && S() == Wake(if old(OnHold(thr[t])) then Interrupts(old(S()), irqs) else old(S()), t))
      decreases |irqs|, 2
    {
      hide Inv, Orderly, Listed, Wake, SetRunnableAmid, MadeRunnable, SchedSteps.WakeEffect;
      ghost var s := S();
      assert Listed(s, t) by {
        assert t in [t] + irqs;
      }
      WokenEffect(s, t);
      StoredCanWake(t, irqs);
      WakeMeans(t, irqs);
      thr := thr[t := thr[t].(wakeup := INFTIME)];
      assert S() == Store(s, t);
      MakeRunnable(t, irqs);
    }

    /** The current thread may be waking t: the call it is in wakes t and nobody else. */
    ghost predicate InCallOf(t: Tid)
      reads this
    {
      && Valid() && cur in thr && t in thr
      && Enabled(S(), Opener(S(), t)) && Wakeup(S(), Opener(S(), t)) == [t]
    }

    lemma ReadyToWake(t: Tid, irqs: seq<Tid>)
      requires Valid() && t in thr && !thr[t].dead && Live(irqs)
      ensures CanWake([t] + irqs) && Live([t] + irqs)
    {
      hide Inv, Orderly, Listed;
      InvOrderly(S());
      forall u | u in [t] + irqs ensures Listed(S(), u) && u in thr && !thr[u].dead {
        LiveListed(S(), u);
      }
    }

    lemma StoredCanWake(t: Tid, irqs: seq<Tid>)
      requires CanWake([t] + irqs) && t in thr
      ensures Orderly(Store(S(), t)) && forall u | u in [t] + irqs :: Listed(Store(S(), t), u)
    {
      hide Orderly, Listed;
      assert t in [t] + irqs;
      StoreOrderly(S(), t, t);
      forall u | u in [t] + irqs ensures Listed(Store(S(), t), u) {
        StoreOrderly(S(), t, u);
      }
    }

    lemma WakeMeans(t: Tid, irqs: seq<Tid>)
      requires CanWake([t] + irqs) && t in thr
      ensures irqs == [] ==> WakeAmid(S(), t, irqs) == Fine(Wake(S(), t), NoLook, false)
      ensures var s, f := S(), WakeAmid(S(), t, irqs);
              InCallOf(t) && Live([t] + irqs) ==>
                && (f.torn <==> OnHold(thr[t]) && IsLast(Interrupts(Store(s, t), irqs).runq, t))
                && (!f.torn ==> Inv(f.s) && t in f.s.thr && !OnHold(f.s.thr[t]))
                && (t !in irqs ==> !f.torn && f.s == Wake(if OnHold(thr[t]) then Interrupts(s, irqs) else s, t))
    {
      hide Inv, Orderly, Listed, Wake, WakeAmid;
      assert Listed(S(), t) by {
        assert t in [t] + irqs;
      }
      if irqs == [] {
        WakeAlone(S(), t);
      }
      if InCallOf(t) && Live([t] + irqs) {
        assert t in [t] + irqs;
        forall u | u in irqs ensures u in thr && !thr[u].dead {
          assert u in [t] + irqs;
        }
        WakeAmidMeans(S(), t, irqs);
        AmidHolds(S(), t, irqs);
      }
    }

    /** timeq_sorted_insert */
    method TimeqSortedInsert(t: Tid, due: Time)
      requires due != INFTIME && forall x | x in timeq :: x in thr
      modifies this`timeq
      ensures timeq == SortedInsert(thr, old(timeq), t, due)
    {
      hide SortedInsert;
      if timeq == [] {
        InsertStop(thr, timeq, t, due);
        timeq := [t];
        return;
      }
      var i := 0;
      while i < |timeq|
        invariant 0 <= i <= |timeq| && timeq == old(timeq)
        invariant SortedInsert(thr, timeq, t, due) == timeq[..i] + SortedInsert(thr, timeq[i..], t, due)
        invariant i > 0 ==> thr[timeq[i - 1]].wakeup <= due
      {
        if thr[timeq[i]].wakeup > due {
          InsertStop(thr, timeq[i..], t, due);
          timeq := timeq[..i] + [t] + timeq[i..];
          return;
        }
        InsertSkip(thr, timeq, i, t, due);
        i := i + 1;
      }
      assert thr[timeq[|timeq| - 1]].wakeup <= due;
      InsertStop(thr, timeq[i..], t, due);
      assert timeq[..i] == timeq;
      timeq := timeq + [t];
    }

    /** bmk_sched_blockprepare_timeout and clear_runnable: the current thread is queued by its
        deadline, or on blockq without one, and goes on running. */
    method Prepare(deadline: Time, k: Cont)
      requires LocalInv(S()) && (k.ToUser? || deadline == INFTIME)
      requires thr[cur].running && !Queued(thr[cur]) && !thr[cur].blockprep && !thr[cur].dead && !thr[cur].timedout
      modifies this`thr, this`timeq, this`blockq
      ensures S() == BlockPrepare(old(S()), deadline, k)
      ensures LocalInv(S()) && Only(old(S()), S(), cur) && thr[cur].running && thr[cur].blockprep
      ensures if deadline == INFTIME then blockq == old(blockq) + [cur] else cur in timeq && thr[cur].wakeup == deadline
      ensures old(Valid()) && k.ToUser? && old(thr[cur].pc.User?) ==> Valid()
    {
      hide Inv, LocalInv, Only, SortedInsert, Queued, BlockPrepare;
      PrepareIs(S(), deadline, k);
      var th := thr[cur];
      assert !th.blockprep;
      th := th.(wakeup := deadline, blockprep := true, pc := Prepared(k));
      assert th.running && !th.onRunq;
      if deadline != INFTIME {
        TimeqSortedInsert(cur, deadline);
        th := th.(onTimeq := true);
      } else {
        blockq := blockq + [cur];
        th := th.(onBlockq := true);
      }
      thr := thr[cur := th];
    }

    /** bmk_sched_block, before schedule(). */
    method StartBlock()
      requires Valid() && Enabled(S(), DoBlock)
      modifies this`thr
      ensures Valid() && S() == Next(old(S()), DoBlock)
      ensures InSchedule(thr[cur].pc) && thr == old(thr)[cur := old(thr[cur]).(pc := thr[cur].pc)]
    {
      hide Inv;
      SchedSteps.Known(S());
      SchedSteps.At(S(), cur);
      SchedSteps.BlockInv(S());
      assert !thr[cur].timedout;
      assert thr[cur].blockprep;
      Goto(Sleeping(thr[cur].pc.k));
    }

    /** The expiry loop of schedule(). */
    method ExpireTimeouts()
      requires Valid() && InSchedule(thr[cur].pc)
      modifies this`thr, this`runq, this`timeq, this`blockq, this`torn
      ensures Valid() && S() == Expire(old(S()))
      ensures old(runq) <= runq && forall t | t in timeq :: t in thr && now < thr[t].wakeup
    {
      hide Inv, Expire, Orderly, Listed, Wake;
      ghost var s0 := S();
      SchedSteps.Known(s0);
      SchedSteps.ExpireInv(s0);
      while timeq != []
        invariant Valid() && QueueKnown(S()) && InSchedule(thr[cur].pc)
        invariant Expire(S()) == Expire(s0)
        decreases |timeq|
      {
        var t := timeq[0];
        if thr[t].wakeup > now {
          break;
        }
        SchedSteps.ExpireOneInv(S());
        SchedSteps.ExpireUnfold(S());
        ExpiringListed(S(), t);
        thr := thr[t := thr[t].(timedout := true)];
        assert forall u | u in [t] + [] :: u == t;
        WakeThread(t, []);
        SchedSteps.Known(S());
      }
      SchedSteps.ExpireNone(S());
    }

    /** One round of the loop of schedule(): expire, then either let the head of runq run
        or report how long the processor may block. */
    method ScheduleRound(curtime: Time) returns (idle: bool, waketime: Time)
      requires Valid() && InSchedule(thr[cur].pc) && now <= curtime
      modifies this
      ensures Valid() && S() == Iterate(old(S()), curtime)
      ensures idle <==> Expire(old(S()).(now := curtime)).runq == []
      ensures idle ==> curtime < waketime && forall t | t in timeq :: t in thr && waketime <= thr[t].wakeup
    {
      hide Inv, Expire, Iterate, Decide;
      ghost var s0 := S();
      SchedSteps.TickInv(s0, curtime);
      SchedSteps.Known(s0);
      SchedSteps.IterateInv(s0, curtime);
      IterateSplit(s0, curtime);
      now := curtime;
      ExpireTimeouts();
      SchedSteps.Known(S());
      waketime := curtime + BLOCKTIME_MAX;
      if timeq != [] && thr[timeq[0]].wakeup < waketime {
        waketime := thr[timeq[0]].wakeup;
      }
      if runq == [] {
        SchedSteps.TimeqHeadFirst(S());
        return true, waketime;
      }
      idle := false;
      StillInSchedule(s0, curtime);
      SwitchTo(runq[0]);
    }

    /** The end of schedule(): the head of runq is current, and exactly it is marked as
        running. */
    method SwitchTo(next: Tid)
      requires Valid() && InSchedule(thr[cur].pc) && runq != [] && next == runq[0]
      modifies this`thr, this`runq, this`cur
      ensures Valid() && QueueKnown(old(S())) && S() == Decide(old(S()))
      ensures cur == next && runq == old(runq)[1..]
      ensures OneRuns(S())
    {
      hide Inv, Decide, Chosen;
      ghost var s := S();
      SwitchIs(s);
      assert thr[next].onRunq;
      assert !thr[next].dead;
      thr := thr[cur := thr[cur].(running := false)];
      runq := runq[1..];
      thr := thr[next := thr[next].(running := true, onRunq := false, pc := Chosen(thr[next].pc))];
      cur := next;
      assert thr[next].running && !Queued(thr[next]);
    }

    /** The reaper: free every zombie. */
    method ReapZombies()
      modifies this`thr, this`zombieq
      ensures S() == Reap(old(S()))
    {
      ghost var s0 := S();
      while zombieq != []
        invariant Reap(S()) == Reap(s0)
        decreases |zombieq|
      {
        var z := zombieq[0];
        assert zombieq == [z] + zombieq[1..];
        zombieq := zombieq[1..];
        thr := thr - {z};
      }
      assert thr == Reap(S()).thr;
    }

    /** The part of schedule() after the switch, and the rest of the call it returns to. */
    method ReturnFromSchedule() returns (timedout: bool)
      requires Valid() && (thr[cur].pc.Waking? || thr[cur].pc.YieldDone?)
      modifies this`thr, this`zombieq, this`joinwq
      ensures Valid() && cur in old(thr) && S() == Return(old(S()))
      ensures timedout <==> old(thr[cur].pc.Waking?) && ReportsTimeout(old(S()))
      ensures !thr[cur].blockprep && !thr[cur].timedout
    {
      hide Inv, Reap, Return, SchedSteps.Resume;
      SchedSteps.Known(S());
      ReturnIs(S());
      ReapZombies();
      timedout := FinishCall();
    }

    /** What is left of bmk_sched_block, and of the round of the join loop around it, or of
        bmk_sched_yield: the flags of the block are clear, a joiner is off joinwq, and no other
        thread changes. */
    method FinishCall() returns (timedout: bool)
      requires Valid() && (thr[cur].pc.Waking? || thr[cur].pc.YieldDone?)
      modifies this`thr, this`joinwq
      ensures Valid() && S() == SchedSteps.Resume(old(S()))
      ensures timedout <==> old(thr[cur].pc.Waking? && thr[cur].timedout)
      ensures cur in thr && thr == old(thr)[cur := thr[cur]] && !thr[cur].blockprep && !thr[cur].timedout
      ensures forall j: Tid, w: Tid ::
                (j, w) in joinwq <==> (j, w) in old(joinwq) && !(j == cur && old(thr[cur].pc) == Waking(ToJoin(w)))
    {
      hide Inv, Remove;
      SchedSteps.Known(S());
      ResumeIs(S());
      timedout := false;
      var th := thr[cur];
      match th.pc
      case Waking(k) =>
        timedout := th.timedout;
        thr := thr[cur := th.(timedout := false, blockprep := false, pc := AfterBlock(k))];
        if k.ToJoin? {
          joinwq := Remove(joinwq, (cur, k.wanted));
        }
      case YieldDone =>
        thr := thr[cur := th.(pc := User)];
    }

    /** bmk_sched_create_withtls: the new thread is last on runq, and no other thread changes. */
    method CreateThread(t: Tid, joinable: bool)
      requires Valid() && Enabled(S(), DoCreate(t, joinable))
      modifies this`thr, this`runq, this`threadq
      ensures Valid() && S() == Next(old(S()), DoCreate(t, joinable))
      ensures runq == old(runq) + [t] && t in thr && thr[t].mustjoin == joinable && !thr[t].running
      ensures thr.Keys == old(thr).Keys + {t} && forall u | u in old(thr) :: thr[u] == old(thr)[u]
    {
      hide Inv;
      SchedSteps.CreateInv(S(), t, joinable);
      threadq := threadq + [t];
      runq := runq + [t];
      thr := thr[t := NewThread(joinable)];
    }

    /** bmk_sched_yield, before schedule(): the thread is last on runq. */
    method StartYield()
      requires Valid() && thr[cur].pc.User?
      modifies this`thr, this`runq
      ensures Valid() && Enabled(old(S()), DoYield) && S() == Next(old(S()), DoYield)
      ensures runq == old(runq) + [cur] && InSchedule(thr[cur].pc) && cur in old(thr)
      ensures thr == old(thr)[cur := thr[cur]] && thr[cur].onRunq
    {
      hide Inv;
      SchedSteps.Known(S());
      SchedSteps.CurrentInCall(S());
      SchedSteps.YieldInv(S());
      assert thr[cur].running;
      thr := thr[cur := thr[cur].(onRunq := true, running := false, pc := Yielding)];
      runq := runq + [cur];
    }

    // ---- bmk_sched_join ----

    /** Its first assertion: the thread can be joined. */
    method StartJoin(w: Tid)
      requires Valid() && Enabled(S(), DoJoin(w))
      modifies this`thr
      ensures Valid() && S() == Next(old(S()), DoJoin(w))
    {
      hide Inv;
      SchedSteps.JoinInvStep(S(), w);
      assert thr[w].mustjoin;
      Goto(JoinCheck(w));
    }

    /** The test of its loop: has the wanted thread announced its exit? If so it may go. */
    method TestJoined() returns (seen: bool)
      requires Valid() && thr[cur].pc.JoinCheck?
      modifies this`thr
      ensures Valid() && Enabled(old(S()), DoTestJoined) && S() == Next(old(S()), DoTestJoined)
      ensures var w := old(thr[cur].pc.wanted);
              && w in thr && (seen <==> old(thr)[w].joined)
              && (if seen then w != cur && !thr[w].mustjoin && !thr[w].dead else thr[w].mustjoin)
    {
      hide Inv, Next, Enabled;
      SchedSteps.Known(S());
      JoinTarget(S());
      TestJoinedIs(S());
      var w := thr[cur].pc.wanted;
      seen := thr[w].joined;
      if !seen {
        Goto(JoinPark(w));
      } else {
        thr := thr[w := thr[w].(mustjoin := false)];
        Goto(JoinSignal(w));
      }
    }

    /** Its wait, up to schedule(): the thread is on joinwq and queued. */
    method ParkJoiner()
      requires Valid() && thr[cur].pc.JoinPark?
      modifies this`thr, this`timeq, this`blockq, this`joinwq
      ensures Valid() && Enabled(old(S()), DoPark) && S() == Next(old(S()), DoPark)
      ensures joinwq == old(joinwq) + [(cur, old(thr[cur].pc.wanted))] && blockq == old(blockq) + [cur]
    {
      hide Inv, LocalInv, Only, BlockPrepare, Next, Enabled, Queued;
      SchedSteps.Known(S());
      var w := thr[cur].pc.wanted;
      ParkJoinerIs(S());
      joinwq := joinwq + [(cur, w)];
      Prepare(INFTIME, ToJoin(w));
    }

    /** Its end: the joined thread is woken, if it waits. */
    method SignalJoined(irqs: seq<Tid>)
      requires Valid() && thr[cur].pc.JoinSignal? && Live(irqs)
      modifies this`thr, this`runq, this`timeq, this`blockq, this`torn
      ensures var w := old(thr[cur].pc.wanted);
              && w in old(thr)
              && (torn <==> old(OnHold(thr[w])) && IsLast(Interrupts(Store(old(S()), w), irqs).runq, w))
              && (!torn ==> Valid() && w in thr && !thr[w].dead && !thr[w].mustjoin && !OnHold(thr[w]))
              && (w !in irqs ==>
                    var s := if old(OnHold(thr[w])) then Interrupts(old(S()), irqs) else old(S());
                    !torn && Enabled(s, DoSignal) && S() == Next(s, DoSignal))
    {
      hide Inv, Wake, Listed, Orderly, Next, Enabled, WakeAmid, Interrupts;
      SchedSteps.Known(S());
      var w := thr[cur].pc.wanted;
      SignalIs(S(), irqs);
      ReadyToWake(w, irqs);
      WakeThread(w, irqs);
      Goto(User);
    }

    // ---- bmk_sched_exit_withtls ----

    method StartExit()
      requires Valid() && thr[cur].pc.User?
      modifies this`thr
      ensures Valid() && Enabled(old(S()), DoExit) && S() == Next(old(S()), DoExit)
    {
      hide Inv;
      SchedSteps.Known(S());
      SchedSteps.ExitInv(S());
      Goto(ExitCheck);
    }

    /** The test of its loop: a thread that must be joined announces itself and stays; any other
        is dead, on no queue and with the zombies. */
    method TestMustJoin() returns (gated: bool)
      requires Valid() && thr[cur].pc.ExitCheck?
      modifies this`thr, this`threadq, this`zombieq
      ensures Valid() && Enabled(old(S()), DoTestMustJoin) && S() == Next(old(S()), DoTestMustJoin)
      ensures gated <==> old(thr[cur].mustjoin)
      ensures gated ==> thr[cur].joined && !thr[cur].dead
      ensures !gated ==> thr[cur].dead && cur !in runq && cur !in timeq && cur !in blockq && zombieq == [cur] + old(zombieq)
    {
      hide Inv, Remove, Next, Enabled;
      SchedSteps.Known(S());
      TestMustJoinIs(S());
      OffQueues(S());
      gated := thr[cur].mustjoin;
      if gated {
        thr := thr[cur := thr[cur].(joined := true, pc := ExitNotify)];
      } else {
        assert !Queued(thr[cur]);
        threadq := Remove(threadq, cur);
        thr := thr[cur := thr[cur].(dead := true, running := false, pc := Exited)];
        zombieq := [cur] + zombieq;
      }
    }

    /** The search of joinwq: afterwards no joiner of this thread is left on blockq. */
    method NotifyMyJoiner(irqs: seq<Tid>)
      requires Valid() && thr[cur].pc.ExitNotify? && Live(irqs)
      modifies this`thr, this`runq, this`timeq, this`blockq, this`torn
      ensures !torn ==> Valid() && NoneLeft(S())
      ensures var js := old(JoinerOf(joinwq, cur));
              if js == [] then !torn && Enabled(old(S()), DoNotify) && S() == Next(old(S()), DoNotify)
              else
                var j := js[0];
                && j in old(thr)
                && (torn <==> old(OnHold(thr[j])) && IsLast(Interrupts(Store(old(S()), j), irqs).runq, j))
                && (j !in irqs ==>
                      var s := if old(OnHold(thr[j])) then Interrupts(old(S()), irqs) else old(S());
                      !torn && Enabled(s, DoNotify) && S() == Next(s, DoNotify))
    {
      hide Inv, Wake, Listed, Orderly, Next, Enabled, WakeAmid, Interrupts, NoneLeft;
      ghost var s := S();
      SchedSteps.Known(s);
      NotifyIs(s, irqs);
      var i := 0;
      while i < |joinwq|
        invariant 0 <= i <= |joinwq| && JoinerOf(joinwq, cur) == JoinerOf(joinwq[i..], cur)
        invariant S() == s && !torn
      {
        if joinwq[i].1 == cur {
          break;
        }
        assert joinwq[i..][0] == joinwq[i] && joinwq[i..][1..] == joinwq[i + 1..];
        i := i + 1;
      }
      if i < |joinwq| {
        assert joinwq[i..][0] == joinwq[i];
        var j := joinwq[i].0;
        ReadyToWake(j, irqs);
        WakeThread(j, irqs);
      }
      Goto(ExitPark);
    }

    /** Its wait, up to schedule(). */
    method ParkExiter()
      requires Valid() && thr[cur].pc.ExitPark?
      modifies this`thr, this`timeq, this`blockq
      ensures Valid() && Enabled(old(S()), DoPark) && S() == Next(old(S()), DoPark)
      ensures blockq == old(blockq) + [cur] && thr[cur].joined && thr[cur].mustjoin
    {
      SchedSteps.Known(S());
      SchedSteps.CurrentInCall(S());
      SchedSteps.At(S(), cur);
      SchedSteps.ParkExitInv(S());
      assert LocalInv(S());
      hide Inv, LocalInv, JoinInv, Only;
      Prepare(INFTIME, ToExit);
    }
  }

  lemma PrepareIs(s: State, deadline: Time, k: Cont)
    requires LocalInv(s) && (k.ToUser? || deadline == INFTIME)
    requires var th := s.thr[s.cur]; th.running && !Queued(th) && !th.blockprep && !th.dead && !th.timedout
    ensures QueueKnown(s) && !s.thr[s.cur].onRunq
    ensures var s', th := BlockPrepare(s, deadline, k), s.thr[s.cur].(wakeup := deadline, blockprep := true, pc := Prepared(k));
            && LocalInv(s') && Only(s, s', s.cur) && (deadline != INFTIME ==> s.cur in s'.timeq)
            && (Inv(s) && k.ToUser? && s.thr[s.cur].pc.User? ==> Inv(s'))
            && s' == if deadline != INFTIME
                     then Set(s.(timeq := SortedInsert(s.thr, s.timeq, s.cur, deadline)), s.cur, th.(onTimeq := true))
                     else Set(s.(blockq := s.blockq + [s.cur]), s.cur, th.(onBlockq := true))
  {
    hide LocalInv, JoinInv, Only, SortedInsert;
    SchedSteps.LocalParts(s);
    SchedSteps.PrepareLocal(s, deadline, k);
    if Inv(s) && k.ToUser? && s.thr[s.cur].pc.User? {
      SchedSteps.PrepareInv(s, deadline);
    }
    InTimeq(BlockPrepare(s, deadline, k));
  }

  lemma InTimeq(s: State)
    requires LocalInv(s)
    ensures s.cur in s.thr && (s.thr[s.cur].onTimeq ==> s.cur in s.timeq)
  {
    assert LocalOk(s, s.cur);
  }

  lemma OnRunqFlag(s: State, t: Tid)
    requires Inv(s) && t in s.runq
    ensures t in s.thr && s.thr[t].onRunq
  {
    SchedSteps.At(s, t);
  }

  lemma StillInSchedule(s: State, now: Time)
    requires Inv(s) && s.now <= now && InSchedule(s.thr[s.cur].pc)
    ensures QueueKnown(s) && Inv(s.(now := now))
    ensures var s' := Expire(s.(now := now)); s'.cur in s'.thr && InSchedule(s'.thr[s'.cur].pc)
  {
    SchedSteps.Known(s);
    SchedSteps.TickInv(s, now);
    SchedSteps.ExpireInv(s.(now := now));
  }

  /** A thread in join names a live thread; once it has announced its exit, another one. */
  lemma JoinTarget(s: State)
    requires Inv(s) && (s.thr[s.cur].pc.JoinCheck? || s.thr[s.cur].pc.JoinSignal?)
    ensures var w := s.thr[s.cur].pc.wanted;
            && w in s.thr && !s.thr[w].dead && (s.thr[w].joined ==> w != s.cur)
            && (if s.thr[s.cur].pc.JoinCheck? then s.thr[w].mustjoin else s.thr[w].joined && !s.thr[w].mustjoin)
  {
    SchedSteps.At(s, s.cur);
    SchedSteps.At(s, s.thr[s.cur].pc.wanted);
  }

  lemma TestJoinedIs(s: State)
    requires Inv(s) && s.thr[s.cur].pc.JoinCheck?
    ensures Enabled(s, DoTestJoined) && Inv(Next(s, DoTestJoined))
    ensures var w := s.thr[s.cur].pc.wanted;
            Next(s, DoTestJoined) ==
            if s.thr[w].joined then SchedSpec.Goto(Set(s, w, s.thr[w].(mustjoin := false)), JoinSignal(w))
            else SchedSpec.Goto(s, JoinPark(w))
  {
    SchedSteps.Known(s);
    JoinTarget(s);
    SchedSteps.TestJoinedInv(s, s.thr[s.cur].pc.wanted);
  }

  lemma ParkJoinerIs(s: State)
    requires Inv(s) && s.thr[s.cur].pc.JoinPark?
    ensures var w, th := s.thr[s.cur].pc.wanted, s.thr[s.cur];
            var s0 := s.(joinwq := s.joinwq + [(s.cur, w)]);
            && th.running && !Queued(th) && !th.blockprep && !th.dead && !th.timedout && LocalInv(s0) && QueueKnown(s0)
            && Enabled(s, DoPark) && Inv(Next(s, DoPark)) && Next(s, DoPark) == BlockPrepare(s0, INFTIME, ToJoin(w))
  {
    hide LocalInv, JoinInv, BlockPrepare;
    SchedSteps.LocalParts(s);
    var w := s.thr[s.cur].pc.wanted;
    SchedSteps.CurrentInCall(s);
    SchedSteps.ParkJoinInv(s, w);
    SchedSteps.LocalFrame(s, s.(joinwq := s.joinwq + [(s.cur, w)]));
    hide LocalOk;
  }

  /** The end of join, with the interrupts in the middle of its wakeup. */
  lemma SignalIs(s: State, irqs: seq<Tid>)
    requires Inv(s) && s.thr[s.cur].pc.JoinSignal? && forall u | u in irqs :: u in s.thr && !s.thr[u].dead
    ensures var w := s.thr[s.cur].pc.wanted;
            && w in s.thr && !s.thr[w].dead && Opener(s, w) == DoSignal && Enabled(s, DoSignal) && Wakeup(s, DoSignal) == [w]
    ensures var w := s.thr[s.cur].pc.wanted;
            var f := WakeAmid(s, w, irqs);
            && f.s.cur == s.cur && s.cur in f.s.thr
            && var s' := SchedSpec.Goto(f.s, User);
               && (!f.torn ==> Inv(s') && w in s'.thr && !s'.thr[w].dead && !s'.thr[w].mustjoin && !OnHold(s'.thr[w]))
               && (w !in irqs ==> var c := if OnHold(s.thr[w]) then Interrupts(s, irqs) else s;
                                  Enabled(c, DoSignal) && s' == Next(c, DoSignal))
  {
    hide Inv, Wake, WakeAmid, Interrupts;
    SchedSteps.Known(s);
    JoinTarget(s);
    var w := s.thr[s.cur].pc.wanted;
    WakeAmidMeans(s, w, irqs);
    AmidMarks(s, w, irqs, s.cur);
    AmidMarks(s, w, irqs, w);
    AmidHolds(s, w, irqs);
    if w !in irqs {
      AmidCall(s, w, irqs);
    }
  }

  lemma TestMustJoinIs(s: State)
    requires Inv(s) && s.thr[s.cur].pc.ExitCheck?
    ensures Enabled(s, DoTestMustJoin) && Inv(Next(s, DoTestMustJoin))
    ensures var th := s.thr[s.cur];
            && !Queued(th) && !th.dead
            && Next(s, DoTestMustJoin) ==
               if th.mustjoin then Set(s, s.cur, th.(joined := true, pc := ExitNotify))
               else Set(s.(threadq := Remove(s.threadq, s.cur), zombieq := [s.cur] + s.zombieq), s.cur,
                        th.(dead := true, running := false, pc := Exited))
  {
    hide Inv;
    SchedSteps.Known(s);
    SchedSteps.CurrentInCall(s);
    SchedSteps.TestMustJoinInv(s);
  }

  /** The reaper leaves the thread that schedule() returns to. */
  lemma ReturnIs(s: State)
    requires Inv(s) && (s.thr[s.cur].pc.Waking? || s.thr[s.cur].pc.YieldDone?)
    ensures s.cur in Reap(s).thr && Reap(s).thr[s.cur] == s.thr[s.cur] && Inv(Return(s))
    ensures Return(s) == SchedSteps.Resume(Reap(s))
    ensures s.cur in Return(s).thr && !Return(s).thr[s.cur].blockprep && !Return(s).thr[s.cur].timedout
    ensures Reap(s) == s.(thr := Reap(s).thr, zombieq := []) && Inv(Reap(s))
  {
    hide Inv, Remove, JoinOk, MemberOk;
    SchedSteps.Known(s);
    SchedSteps.At(s, s.cur);
    SchedSteps.ReapInv(s);
    assert Reap(s) == s.(thr := Reap(s).thr, zombieq := []);
    hide Reap;
    SchedSteps.ReturnInv(s);
    SchedSteps.ReturnIsResume(s);
  }

  lemma ResumeIs(s: State)
    requires Inv(s) && (s.thr[s.cur].pc.Waking? || s.thr[s.cur].pc.YieldDone?)
    ensures Inv(SchedSteps.Resume(s)) && s.cur in s.thr
    ensures s.thr[s.cur].pc.YieldDone? ==> !s.thr[s.cur].blockprep && !s.thr[s.cur].timedout
    ensures s.thr[s.cur].pc.Waking? && s.thr[s.cur].pc.k.ToJoin? ==>
              var p := (s.cur, s.thr[s.cur].pc.k.wanted);
              forall j: Tid, w: Tid :: (j, w) in Remove(s.joinwq, p) <==> (j, w) in s.joinwq && (j, w) != p
  {
    hide LocalInv, JoinInv, SchedSteps.Resume;
    SchedSteps.LocalParts(s);
    SchedSteps.ResumeInv(s);
    JoinwqDistinct(s);
    if s.thr[s.cur].pc.Waking? && s.thr[s.cur].pc.k.ToJoin? {
      RemoveMember(s.joinwq, (s.cur, s.thr[s.cur].pc.k.wanted));
    }
  }

  lemma JoinwqDistinct(s: State)
    requires Inv(s)
    ensures NoDup(s.joinwq)
  {
    hide LocalInv;
  }

  lemma OffQueues(s: State)
    requires Inv(s) && !Queued(s.thr[s.cur])
    ensures s.cur !in s.runq && s.cur !in s.timeq && s.cur !in s.blockq
  {
    SchedSteps.At(s, s.cur);
  }

  /** No thread is blocked in a join of the current thread. */
  ghost predicate NoneLeft(s: State)
  {
    forall j | j in s.thr && Role(s.thr[j].pc) == Waiting(s.cur) :: !s.thr[j].onBlockq
  }

  /** The search for the joiner, with the interrupts in the middle of its wakeup. */
  lemma NotifyIs(s: State, irqs: seq<Tid>)
    requires Inv(s) && s.thr[s.cur].pc.ExitNotify? && forall u | u in irqs :: u in s.thr && !s.thr[u].dead
    ensures var js := JoinerOf(s.joinwq, s.cur);
            if js == [] then
              var s' := SchedSpec.Goto(s, ExitPark);
              Enabled(s, DoNotify) && s' == Next(s, DoNotify) && Inv(s') && NoneLeft(s')
            else
              && js[0] in s.thr && !s.thr[js[0]].dead
              && Opener(s, js[0]) == DoNotify && Enabled(s, DoNotify) && Wakeup(s, DoNotify) == [js[0]]
    ensures var js := JoinerOf(s.joinwq, s.cur);
            js != [] ==>
              var j := js[0];
              var f := WakeAmid(s, j, irqs);
              && f.s.cur == s.cur && s.cur in f.s.thr
              && var s' := SchedSpec.Goto(f.s, ExitPark);
                 && (!f.torn ==> Inv(s') && NoneLeft(s'))
                 && (j !in irqs ==> var c := if OnHold(s.thr[j]) then Interrupts(s, irqs) else s;
                                    Enabled(c, DoNotify) && s' == Next(c, DoNotify))
  {
    hide Inv, Wake, WakeAmid, Interrupts, NoneLeft, JoinerOf;
    SchedSteps.Known(s);
    JoinerLives(s);
    var js := JoinerOf(s.joinwq, s.cur);
    if js == [] {
      SchedSteps.NotifyInv(s);
      NoneLeftAfter(SchedSpec.Goto(s, ExitPark));
    } else {
      var j := js[0];
      WakeAmidMeans(s, j, irqs);
      AmidMarks(s, j, irqs, s.cur);
      if !WakeAmid(s, j, irqs).torn {
        NoneLeftAfter(SchedSpec.Goto(WakeAmid(s, j, irqs).s, ExitPark));
      }
      if j !in irqs {
        AmidCall(s, j, irqs);
      }
    }
  }

  lemma NoneLeftAfter(s: State)
    requires Inv(s) && s.thr[s.cur].pc.ExitPark?
    ensures NoneLeft(s)
  {
    hide Inv, Role;
    forall j | j in s.thr && Role(s.thr[j].pc) == Waiting(s.cur) ensures !s.thr[j].onBlockq {
      NotLeft(s, j);
    }
  }

  lemma NotLeft(s: State, j: Tid)
    requires Inv(s) && s.thr[s.cur].pc.ExitPark? && j in s.thr && Role(s.thr[j].pc) == Waiting(s.cur)
    ensures !s.thr[j].onBlockq
  {
    SchedSteps.At(s, j);
    SchedSteps.At(s, s.cur);
  }
}
