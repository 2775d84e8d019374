/** What the scheduler promises over whole runs. */
module SchedRuns {
  import opened Queues
  import opened SchedSpec
  import opened SchedInv
  import opened SchedSteps

  /** The i-th step leads from the i-th state to the next. */
  ghost predicate Path(states: seq<State>, steps: seq<Step>)
  {
    && |states| == |steps| + 1
    && forall i | 0 <= i < |steps| :: Enabled(states[i], steps[i]) && states[i + 1] == Next(states[i], steps[i])
  }

  lemma PathLength(states: seq<State>, steps: seq<Step>)
    requires Path(states, steps)
    ensures |states| == |steps| + 1
  {
  }

  lemma {:induction false} PathInv(states: seq<State>, steps: seq<Step>, i: nat)
    requires Path(states, steps) && i <= |steps| && Inv(states[0])
    ensures Inv(states[i])
    decreases i
  {
    if i > 0 {
      PathInv(states, steps, i - 1);
      StepInv(states[i - 1], steps[i - 1]);
    }
  }

  /** No assertion has failed, and the thread is where its flags say: a live thread other than
      the current one is on exactly one queue; the current one is queued only between
      blockprepare and the decision that lets it go on, or after yielding; THR_RUNNING marks the
      current thread, unless it is giving up the processor for good or by yielding; a dead
      thread is on no scheduling queue. */
  predicate Safe(s: State, t: Tid)
    requires t in s.thr
  {
    var th := s.thr[t];
    && !s.halted
    && (th.onRunq <==> t in s.runq) && (th.onTimeq <==> t in s.timeq) && (th.onBlockq <==> t in s.blockq)
    && OneHot(th)
    && (!th.dead && t != s.cur ==> Queued(th))
    && (t == s.cur && Queued(th) ==> th.blockprep || th.pc.Yielding?)
    && (th.running <==> t == s.cur && !th.pc.Yielding? && !th.dead)
    && (th.dead ==> !Queued(th) && t in s.zombieq && t !in s.threadq)
    && (!th.dead ==> t in s.threadq && t !in s.zombieq)
  }

  lemma InvSafe(s: State, t: Tid)
    requires Inv(s) && t in s.thr
    ensures Safe(s, t)
  {
    hide Inv, JoinOk;
    Known(s);
    At(s, t);
  }

  /** The join and exit handshake: a thread that must be joined is not dead; a thread blocked in
      join waits for a live thread that has not announced its exit, or is just about to be woken
      by it; a thread blocked in exit has yet to be joined, or is just about to be woken; the last
      wakeup of join is of a live thread; and the thread schedule() returns to is never a zombie,
      whose memory the reaper would free while it runs on. */
  predicate Handshake(s: State, t: Tid)
    requires t in s.thr
  {
    var th := s.thr[t];
    && s.cur in s.thr
    && (th.mustjoin ==> !th.dead)
    && (Role(th.pc).Waiting? ==>
          var w := Role(th.pc).w;
          && (t, w) in s.joinwq && w in s.thr && !s.thr[w].dead && s.thr[w].mustjoin
          && (th.onBlockq && s.thr[w].joined ==> s.cur == w && s.thr[w].pc == ExitNotify))
    && (ExitWait(th.pc) && th.onBlockq && !th.mustjoin ==> s.thr[s.cur].pc == JoinSignal(t))
    && (th.pc.JoinSignal? ==> th.pc.wanted in s.thr && !s.thr[th.pc.wanted].dead)
    && (t == s.cur && (th.pc.Waking? || th.pc.YieldDone?) ==> t !in s.zombieq)
  }

  lemma InvHandshake(s: State, t: Tid)
    requires Inv(s) && t in s.thr
    ensures Handshake(s, t)
  {
    hide Inv;
    At(s, t);
    if Role(s.thr[t].pc).Waiting? {
      WaiterListed(s, t, Role(s.thr[t].pc).w);
    }
  }

  lemma WaiterListed(s: State, t: Tid, w: Tid)
    requires Inv(s) && Waits(s, t, w)
    ensures (t, w) in s.joinwq
  {
    hide LocalInv, JoinOk;
  }

  // ---- The expiry loop ----

  /** The expiry loop marks exactly the threads on timeq whose time has come, and makes
      them runnable. */
  lemma {:induction false} ExpireMarks(s: State, t: Tid)
    requires Inv(s) && InSchedule(s.thr[s.cur].pc) && t in s.thr
    ensures t in Expire(s).thr && ExpiredIf(s.thr[t], Expire(s).thr[t], t in s.timeq && s.thr[t].wakeup <= s.now)
    decreases |s.timeq|
  {
    if s.timeq == [] || s.thr[s.timeq[0]].wakeup > s.now {
      NoneDue(s);
    } else {
      ExpireUnfold(s);
      ExpireOneEffect(s, t);
      hide Inv, Expire, ExpireOne;
      ExpireOneInv(s);
      ExpireMarks(ExpireOne(s), t);
    }
  }

  /** Threads whose time has come join the run queue in the order of their deadlines, behind
      what is already there. */
  lemma {:induction false} ExpiryInOrder(s: State) returns (k: nat)
    requires Inv(s) && InSchedule(s.thr[s.cur].pc)
    ensures k <= |s.timeq| && Expire(s).runq == s.runq + s.timeq[..k] && Expire(s).timeq == s.timeq[k..]
    decreases |s.timeq|
  {
    Known(s);
    hide Inv, ExpireOne;
    if s.timeq == [] || s.thr[s.timeq[0]].wakeup > s.now {
      k := 0;
    } else {
      hide Expire;
      ExpireUnfold(s);
      ExpireOneInv(s);
      Known(ExpireOne(s));
      var s1 := ExpireOne(s);
      var j := ExpiryInOrder(s1);
      k := j + 1;
      TailOrder(s.runq, s.timeq, j);
    }
  }

  lemma TailOrder(r: seq<Tid>, q: seq<Tid>, j: nat)
    requires j < |q|
    ensures r + [q[0]] + q[1..][..j] == r + q[..j + 1] && q[1..][j..] == q[j + 1..]
  {
  }

  /** What a round of schedule() does to a thread, apart from letting it run. */
  predicate Iterated(th: Thread, th': Thread, due: bool)
  {
    && th'.timedout == (th.timedout || due) && th'.mustjoin == th.mustjoin
    && th'.onTimeq == (th.onTimeq && !due) && th'.onBlockq == th.onBlockq && (!due ==> th'.wakeup == th.wakeup)
    && (th'.pc == th.pc || th'.pc == Chosen(th.pc))
  }

  lemma IterateMarks(s: State, now: Time, t: Tid)
    requires Inv(s) && Enabled(s, DoIterate(now)) && t in s.thr
    ensures t in Iterate(s, now).thr && Iterate(s, now).now == now
    ensures Iterated(s.thr[t], Iterate(s, now).thr[t], t in s.timeq && s.thr[t].wakeup <= now)
  {
    hide Inv, Expire, Decide, Iterated;
    var s1 := s.(now := now);
    TickInv(s, now);
    ExpireMarks(s1, t);
    ExpireInv(s1);
    var s2 := Expire(s1);
    Known(s2);
    if s2.runq != [] {
      DecideMarks(s2, t);
    }
    IteratedSo(s.thr[t], s2.thr[t], Iterate(s, now).thr[t], t in s.timeq && s.thr[t].wakeup <= now);
  }

  lemma IteratedSo(th: Thread, th1: Thread, th2: Thread, due: bool)
    requires ExpiredIf(th, th1, due) && (th2 == th1 || Ran(th1, th2))
    ensures Iterated(th, th2, due)
  {
  }

  /** The decision touches nothing but these. */
  predicate Ran(th: Thread, th': Thread)
  {
    th' == th.(running := th'.running, onRunq := th'.onRunq, pc := th'.pc) && (th'.pc == th.pc || th'.pc == Chosen(th.pc))
  }

  lemma DecideMarks(s: State, t: Tid)
    requires Inv(s) && QueueKnown(s) && s.runq != [] && t in s.thr
    ensures t in Decide(s).thr && Ran(s.thr[t], Decide(s).thr[t]) && Decide(s).now == s.now
  {
    hide Inv, PcOk, TimeOk, JoinOk, Decide;
    At(s, s.runq[0]);
    NotDead(s.thr[s.runq[0]], s.runq[0] == s.cur);
    DecideEffect(s);
  }

  // ---- Calls ----

  /** The thread that a call wakes: bmk_sched_wake itself, the end of join, and the search for a
      joiner in exit. */
  function Wakeup(s: State, step: Step): seq<Tid>
    requires s.cur in s.thr
  {
    var pc := s.thr[s.cur].pc;
    match step
    case DoWake(t) => [t]
    case DoSignal => if pc.JoinSignal? then [pc.wanted] else []
    case DoNotify => JoinerOf(s.joinwq, s.cur)
    case _ => []
  }

  predicate IsCall(step: Step) { !step.DoIterate? && !step.DoReturn? }

  lemma SignalEffect(s: State)
    requires Inv(s) && Enabled(s, DoSignal)
    ensures var w := s.thr[s.cur].pc.wanted;
            w in s.thr && Next(s, DoSignal).thr == s.thr[w := Awake(s.thr[w])][s.cur := Next(s, DoSignal).thr[s.cur]]
    ensures var th := Next(s, DoSignal).thr[s.cur];
            th.timedout == s.thr[s.cur].timedout && th.mustjoin == s.thr[s.cur].mustjoin
  {
    hide Inv, Wake, HasJoiner;
    var w := s.thr[s.cur].pc.wanted;
    SignalInv(s, w);
    WakeInv(s, w);
  }

  lemma JoinerLives(s: State)
    requires Inv(s)
    ensures var js := JoinerOf(s.joinwq, s.cur);
            js != [] ==> js[0] in s.thr && !s.thr[js[0]].dead && js == [js[0]]
  {
    JoinerFound(s.joinwq, s.cur);
    var js := JoinerOf(s.joinwq, s.cur);
    if js != [] {
      assert Waits(s, js[0], s.cur);
      hide JoinwqOk;
      At(s, js[0]);
      JoinerOfOne(s.joinwq, s.cur);
    }
  }

  lemma {:induction false} JoinerOfOne(q: seq<(Tid, Tid)>, w: Tid)
    ensures |JoinerOf(q, w)| <= 1
  {
    if q != [] && q[0].1 != w {
      JoinerOfOne(q[1..], w);
    }
  }

  lemma NotifyEffect(s: State)
    requires Inv(s) && Enabled(s, DoNotify)
    ensures var js, th := JoinerOf(s.joinwq, s.cur), Next(s, DoNotify).thr[s.cur];
            && (js != [] ==> js[0] in s.thr && js == [js[0]])
            && Next(s, DoNotify).thr == (if js == [] then s.thr else s.thr[js[0] := Awake(s.thr[js[0]])])[s.cur := th]
            && th.timedout == s.thr[s.cur].timedout && th.mustjoin == s.thr[s.cur].mustjoin
  {
    hide Inv, Wake, HasJoiner, JoinerOf;
    JoinerLives(s);
    var js := JoinerOf(s.joinwq, s.cur);
    if js != [] {
      WakeInv(s, js[0]);
    }
  }

  lemma PrepareEffect(s: State, deadline: Time, k: Cont)
    requires QueueKnown(s)
    ensures var s' := BlockPrepare(s, deadline, k);
            && s.cur in s'.thr && s'.thr == s.thr[s.cur := s'.thr[s.cur]] && s'.now == s.now
            && s'.thr[s.cur].timedout == s.thr[s.cur].timedout && s'.thr[s.cur].mustjoin == s.thr[s.cur].mustjoin
  {
    hide SortedInsert;
  }

  lemma ParkEffects(s: State)
    requires Enabled(s, DoPark)
    ensures var s' := Next(s, DoPark);
            && s.cur in s'.thr && s'.thr == s.thr[s.cur := s'.thr[s.cur]] && s'.now == s.now
            && s'.thr[s.cur].timedout == s.thr[s.cur].timedout && s'.thr[s.cur].mustjoin == s.thr[s.cur].mustjoin
  {
    hide BlockPrepare;
    var pc := s.thr[s.cur].pc;
    if pc.JoinPark? {
      PrepareEffect(s.(joinwq := s.joinwq + [(s.cur, pc.wanted)]), INFTIME, ToJoin(pc.wanted));
    } else {
      PrepareEffect(s, INFTIME, ToExit);
    }
  }

  /** A call changes the other threads only by its wakeup, or by letting a thread go that has been
      joined. */
  lemma CallOther(s: State, step: Step, t: Tid)
    requires Inv(s) && Enabled(s, step) && IsCall(step) && t in s.thr && t != s.cur
    ensures var s' := Next(s, step);
            && t in s'.thr
            && s'.thr[t] == if t in Wakeup(s, step) then Awake(s.thr[t])
                            else if step.DoTestJoined? && s.thr[s.cur].pc == JoinCheck(t) && s.thr[t].joined
                            then s.thr[t].(mustjoin := false)
                            else s.thr[t]
  {
    hide Inv, HasJoiner, Wake, BlockPrepare, JoinerOf, Remove, Awake;
    match step
    case DoWake(x) => WakeInv(s, x);
    case DoPrepare(d) => PrepareEffect(s, d, ToUser);
    case DoPark => ParkEffects(s);
    case DoSignal => SignalEffect(s);
    case DoNotify => NotifyEffect(s);
    case _ =>
  }

  /** A call leaves the marks of the thread that makes it. */
  lemma CallCurrent(s: State, step: Step)
    requires Inv(s) && Enabled(s, step) && IsCall(step)
    ensures var s' := Next(s, step);
            && s.cur in s'.thr
            && s'.thr[s.cur].timedout == s.thr[s.cur].timedout && s'.thr[s.cur].mustjoin == s.thr[s.cur].mustjoin
  {
    hide Inv, HasJoiner, Wake, BlockPrepare, JoinerOf, Remove;
    match step
    case DoWake(x) => WakeInv(s, x);
    case DoPrepare(d) => PrepareEffect(s, d, ToUser);
    case DoPark => ParkEffects(s);
    case DoSignal => SignalEffect(s);
    case DoNotify => NotifyEffect(s);
    case DoTestJoined => At(s, s.cur);
    case _ =>
  }

  /** While the current thread is in a block, only these can happen. */
  lemma CallBlocking(s: State, step: Step)
    requires Inv(s) && Enabled(s, step) && IsCall(step) && InBlock(s.thr[s.cur].pc)
    ensures var s', th := Next(s, step), s.thr[s.cur];
            && s.cur in s'.thr
            && s'.thr[s.cur] == (if s.cur in Wakeup(s, step) then Awake(th) else th)
                                .(pc := if step.DoBlock? then Sleeping(ToUser) else th.pc)
  {
    InBlockOk(s, s.cur);
    assert step.DoCreate? || step.DoWake? || step.DoBlock? || step.DoPause?;
    if step.DoWake? {
      hide Inv, Wake;
      WakeInv(s, step.t);
    } else if step.DoBlock? {
      At(s, s.cur);
      hide Inv, PcOk, JoinOk;
    }
  }

  /** A return changes no thread but the one it returns to. */
  lemma ReturnOther(s: State, t: Tid)
    requires Inv(s) && Enabled(s, DoReturn) && t in s.thr && !s.thr[t].dead && t != s.cur
    ensures t in Return(s).thr && Return(s).thr[t] == s.thr[t]
  {
    At(s, s.cur);
    At(s, t);
    ReapInv(s);
    ReturnIsResume(s);
    hide Inv, Return, Remove, PcOk, TimeOk, JoinOk;
  }

  lemma ReturnCurrent(s: State)
    requires Inv(s) && Enabled(s, DoReturn)
    ensures s.cur in Return(s).thr && !Return(s).thr[s.cur].timedout
    ensures Return(s).thr[s.cur].mustjoin == s.thr[s.cur].mustjoin
  {
    At(s, s.cur);
    ReapInv(s);
    ReturnIsResume(s);
    hide Inv, Return, Reap, Remove, JoinOk;
  }

  // ---- Timeouts ----

  /** The expiry loop of the step takes t off timeq. */
  predicate Expires(s: State, step: Step, t: Tid)
  {
    step.DoIterate? && t in s.timeq && t in s.thr && s.thr[t].wakeup <= step.now
  }

  predicate OnHold(th: Thread) { th.onTimeq || th.onBlockq }

  /** The step is a wakeup that takes t off the queue it waits on. */
  predicate Wakes(s: State, step: Step, t: Tid)
  {
    s.cur in s.thr && t in s.thr && t in Wakeup(s, step) && OnHold(s.thr[t])
  }

  /** Only the expiry loop marks a thread as timed out, and it marks every one that is due; only
      the thread itself, returning from block, takes the mark back. */
  lemma OnlyExpiryTimesOut(s: State, step: Step, t: Tid)
    requires Inv(s) && Enabled(s, step) && t in s.thr && t in Next(s, step).thr
    ensures !s.thr[t].timedout && Next(s, step).thr[t].timedout <==> Expires(s, step, t)
    ensures s.thr[t].timedout && !Next(s, step).thr[t].timedout ==> step.DoReturn? && t == s.cur
  {
    At(s, t);
    hide Inv, Iterate, Return, Wakeup, PcOk, JoinOk;
    if step.DoIterate? {
      IterateMarks(s, step.now, t);
    } else if step.DoReturn? {
      if t == s.cur {
        ReturnCurrent(s);
      } else if !s.thr[t].dead {
        ReturnOther(s, t);
      } else {
        ReaperFrees(s, t);
      }
    } else if t == s.cur {
      hide Next;
      CallCurrent(s, step);
    } else {
      hide Next;
      CallOther(s, step, t);
    }
  }

  /** In a block that will return to the thread's own code. */
  predicate InBlock(pc: Pc) { pc == Prepared(ToUser) || pc == Sleeping(ToUser) || pc == Waking(ToUser) }

  /** The thread is queued as before. */
  predicate SameHold(th: Thread, th': Thread)
  {
    && th'.onTimeq == th.onTimeq && th'.onBlockq == th.onBlockq && th'.timedout == th.timedout
    && (OnHold(th) ==> th'.wakeup == th.wakeup)
  }

  /** A step keeps a thread in its block, and the thread leaves its queue by an expiry, which
      marks it, or by a wakeup, which does not, and in no other way. */
  predicate Held(s: State, s': State, step: Step, t: Tid)
  {
    && t in s.thr && t in s'.thr && InBlock(s'.thr[t].pc)
    && if Expires(s, step, t) then OnHold(s.thr[t]) && !OnHold(s'.thr[t]) && s'.thr[t].timedout
       else if Wakes(s, step, t) then !OnHold(s'.thr[t]) && s'.thr[t].timedout == s.thr[t].timedout
       else SameHold(s.thr[t], s'.thr[t])
  }

  lemma HoldIterate(s: State, now: Time, t: Tid)
    requires Inv(s) && Enabled(s, DoIterate(now)) && t in s.thr && InBlock(s.thr[t].pc)
    ensures Held(s, Iterate(s, now), DoIterate(now), t) && Iterate(s, now).now == now
  {
    hide Inv, Iterate, Enabled;
    InBlockOk(s, t);
    IterateMarks(s, now, t);
  }

  lemma HoldCurrent(s: State, step: Step)
    requires Inv(s) && Enabled(s, step) && IsCall(step) && InBlock(s.thr[s.cur].pc)
    ensures Held(s, Next(s, step), step, s.cur)
  {
    hide Inv, Next, Enabled, Wakeup;
    Known(s);
    InBlockOk(s, s.cur);
    CallBlocking(s, step);
  }

  lemma HoldOther(s: State, step: Step, t: Tid)
    requires Inv(s) && Enabled(s, step) && IsCall(step) && t in s.thr && t != s.cur && InBlock(s.thr[t].pc)
    ensures Held(s, Next(s, step), step, t)
  {
    hide Inv, Next, Enabled, Wakeup;
    Known(s);
    CallOther(s, step, t);
  }

  lemma HoldStep(s: State, step: Step, t: Tid)
    requires Inv(s) && Enabled(s, step) && t in s.thr && InBlock(s.thr[t].pc) && !(step.DoReturn? && t == s.cur)
    ensures Held(s, Next(s, step), step, t) && s.now <= Next(s, step).now
    ensures step.DoIterate? ==> step.now <= Next(s, step).now
  {
    hide Inv, Iterate, Return, Wakeup, InBlock, SameHold;
    NowGrows(s, step);
    if step.DoIterate? {
      hide Held;
      HoldIterate(s, step.now, t);
    } else if step.DoReturn? {
      HoldReturn(s, t);
    } else {
      hide Held, Next, Enabled;
      if t == s.cur {
        HoldCurrent(s, step);
      } else {
        HoldOther(s, step, t);
      }
    }
  }

  lemma HoldReturn(s: State, t: Tid)
    requires Inv(s) && Enabled(s, DoReturn) && t in s.thr && t != s.cur && InBlock(s.thr[t].pc)
    ensures Held(s, Return(s), DoReturn, t)
  {
    hide Inv, Return, Enabled;
    InBlockOk(s, t);
    ReturnOther(s, t);
  }

  lemma InBlockOk(s: State, t: Tid)
    requires Inv(s) && t in s.thr && InBlock(s.thr[t].pc)
    ensures var th := s.thr[t];
            th.blockprep && !th.dead && (th.onTimeq <==> t in s.timeq) && !(th.onTimeq && th.onBlockq)
    ensures s.thr[t].pc.Waking? ==> !OnHold(s.thr[t])
  {
    At(s, t);
  }

  lemma NowGrows(s: State, step: Step)
    requires Inv(s) && Enabled(s, step)
    ensures s.now <= Next(s, step).now
  {
    hide Inv, HasJoiner, JoinerOf, Remove, SortedInsert, Iterate;
    Known(s);
    if step.DoIterate? {
      IterateMarks(s, step.now, s.cur);
    }
  }

  ghost predicate ExpiredIn(states: seq<State>, steps: seq<Step>, p: nat, r: nat, t: Tid)
    requires r <= |states| && r <= |steps|
  {
    exists i | p < i < r :: Expires(states[i], steps[i], t)
  }

  ghost predicate WokenIn(states: seq<State>, steps: seq<Step>, p: nat, r: nat, t: Tid)
    requires r <= |states| && r <= |steps|
  {
    exists i | p < i < r :: Wakes(states[i], steps[i], t)
  }

  /** A thread that prepared at p to block until d, seen at i before it has returned. */
  ghost predicate Blocking(states: seq<State>, steps: seq<Step>, p: nat, i: nat, t: Tid, d: Time)
    requires i < |states| && i <= |steps|
  {
    var s := states[i];
    && t in s.thr && InBlock(s.thr[t].pc)
    && var th, expired, woken := s.thr[t], ExpiredIn(states, steps, p, i, t), WokenIn(states, steps, p, i, t);
       if OnHold(th) then
         && !expired && !woken && !th.timedout
         && (th.onTimeq <==> d != INFTIME) && (th.onTimeq ==> th.wakeup == d)
       else
         && (th.timedout <==> expired) && (th.timedout <==> !woken)
         && (th.timedout ==> d != INFTIME && d <= s.now)
  }

  lemma BlockingStep(states: seq<State>, steps: seq<Step>, p: nat, i: nat, t: Tid, d: Time)
    requires Path(states, steps) && Inv(states[0]) && p < i < |steps|
    requires Blocking(states, steps, p, i, t, d) && !(steps[i].DoReturn? && states[i].cur == t)
    ensures Blocking(states, steps, p, i + 1, t, d)
  {
    PathInv(states, steps, i);
    var s, step := states[i], steps[i];
    assert Enabled(s, step) && states[i + 1] == Next(s, step);
    TimeqFlag(s, t);
    hide Path, Inv, Next, Enabled, Wakes, Expires, ExpiredIn, WokenIn, InBlock;
    HoldStep(s, step, t);
    OneMore(states, steps, p, i, t);
    WakesOnHold(s, step, t);
  }

  lemma TimeqFlag(s: State, t: Tid)
    requires Inv(s) && t in s.thr
    ensures s.thr[t].onTimeq <==> t in s.timeq
  {
    At(s, t);
  }

  lemma OneMore(states: seq<State>, steps: seq<Step>, p: nat, i: nat, t: Tid)
    requires p < i < |steps| && |states| == |steps| + 1
    ensures ExpiredIn(states, steps, p, i + 1, t) <==> ExpiredIn(states, steps, p, i, t) || Expires(states[i], steps[i], t)
    ensures WokenIn(states, steps, p, i + 1, t) <==> WokenIn(states, steps, p, i, t) || Wakes(states[i], steps[i], t)
  {
    hide Expires, Wakes;
  }

  lemma WakesOnHold(s: State, step: Step, t: Tid)
    ensures Wakes(s, step, t) ==> t in s.thr && OnHold(s.thr[t]) && !Expires(s, step, t)
    ensures Expires(s, step, t) ==> t in s.thr && t in s.timeq && s.thr[t].wakeup <= step.now
  {
  }

  lemma {:induction false} BlockingUntil(states: seq<State>, steps: seq<Step>, p: nat, i: nat)
    requires Path(states, steps) && Inv(states[0]) && p < i <= |steps| && steps[p].DoPrepare?
    requires forall j | p < j < i :: !(steps[j].DoReturn? && states[j].cur == states[p].cur)
    ensures Blocking(states, steps, p, i, states[p].cur, steps[p].deadline)
    decreases i
  {
    hide Path, Inv, Blocking;
    PathLength(states, steps);
    if i == p + 1 {
      BlockingStart(states, steps, p);
    } else {
      BlockingUntil(states, steps, p, i - 1);
      BlockingStep(states, steps, p, i - 1, states[p].cur, steps[p].deadline);
    }
  }

  lemma BlockingStart(states: seq<State>, steps: seq<Step>, p: nat)
    requires Path(states, steps) && Inv(states[0]) && p < |steps| && steps[p].DoPrepare?
    ensures Blocking(states, steps, p, p + 1, states[p].cur, steps[p].deadline)
  {
    PathInv(states, steps, p);
    assert Enabled(states[p], steps[p]) && states[p + 1] == Next(states[p], steps[p]);
    hide Path, Inv, Next, Enabled, Expires, Wakes;
    PreparedHold(states[p], steps[p].deadline);
  }

  lemma PreparedHold(s: State, d: Time)
    requires Inv(s) && Enabled(s, DoPrepare(d))
    ensures var s' := Next(s, DoPrepare(d));
            && s.cur in s'.thr && s'.thr[s.cur].pc == Prepared(ToUser) && !s'.thr[s.cur].timedout
            && s'.thr[s.cur].onTimeq == (d != INFTIME) && s'.thr[s.cur].onBlockq == (d == INFTIME) && s'.thr[s.cur].wakeup == d
  {
    At(s, s.cur);
    hide Inv, SortedInsert, JoinOk;
  }

  /** bmk_sched_block, over any run: from the blockprepare of a thread at p to the return of its
      block at r, whatever happens in between, it reports a timeout exactly when the expiry loop
      took it off timeq, which is exactly when no wakeup took it off its queue; and then the
      deadline given to blockprepare has passed. */
  lemma TimeoutReport(states: seq<State>, steps: seq<Step>, p: nat, r: nat)
    requires Path(states, steps) && Inv(states[0]) && p < r < |steps|
    requires steps[p].DoPrepare? && steps[r].DoReturn? && states[r].cur == states[p].cur
    requires forall j | p < j < r :: !(steps[j].DoReturn? && states[j].cur == states[p].cur)
    ensures var t, d := states[p].cur, steps[p].deadline;
            && t in states[r].thr
            && (ReportsTimeout(states[r]) <==> ExpiredIn(states, steps, p, r, t))
            && (ReportsTimeout(states[r]) <==> !WokenIn(states, steps, p, r, t))
            && (ReportsTimeout(states[r]) ==> d != INFTIME && d <= states[r].now)
  {
    BlockingUntil(states, steps, p, r);
    PathInv(states, steps, r);
    At(states[r], states[r].cur);
    assert Enabled(states[r], steps[r]);
  }

  predicate ExpiredIf(th: Thread, th': Thread, due: bool)
  {
    if due then th' == th.(timedout := true, onTimeq := false, onRunq := true, wakeup := INFTIME)
    else th' == th
  }

  lemma ExpireOneEffect(s: State, t: Tid)
    requires Inv(s) && s.timeq != [] && Due(s, s.timeq[0]) && t in s.thr
    ensures t in ExpireOne(s).thr
    ensures if t == s.timeq[0] then ExpiredIf(s.thr[t], ExpireOne(s).thr[t], true) && t !in s.timeq[1..]
            else ExpireOne(s).thr[t] == s.thr[t] && (t in s.timeq <==> t in s.timeq[1..])
  {
    At(s, s.timeq[0]);
    assert s.timeq == [s.timeq[0]] + s.timeq[1..];
    hide JoinInv;
    assert NoDup(s.timeq);
  }

  /** When nothing is runnable the processor blocks until a time that lies ahead, within
      the maximum, and no later than any pending deadline. */
  lemma IdleTime(s: State, now: Time)
    requires Inv(s) && Enabled(s, DoIterate(now))
    ensures var s' := Expire(s.(now := now));
            && QueueKnown(s')
            && (s'.runq == [] ==>
                  && Iterate(s, now) == s'
                  && now < WakeTime(s') <= now + BLOCKTIME_MAX
                  && forall t | t in s'.timeq :: WakeTime(s') <= s'.thr[t].wakeup)
  {
    hide Inv, Expire;
    TickInv(s, now);
    var s' := Expire(s.(now := now));
    ExpireInv(s.(now := now));
    Known(s');
    TimeqHeadFirst(s');
  }

  // ---- Joinable threads ----

  /** A thread is created joinable or not as asked, and only a join by another thread that has
      seen it announce its exit lets it go. */
  lemma OnlyJoinReleases(s: State, step: Step, t: Tid)
    requires Inv(s) && Enabled(s, step) && t in Next(s, step).thr
    ensures t !in s.thr ==> step.DoCreate? && t == step.t && Next(s, step).thr[t].mustjoin == step.joinable
    ensures t in s.thr && s.thr[t].mustjoin != Next(s, step).thr[t].mustjoin ==>
              step.DoTestJoined? && s.thr[s.cur].pc == JoinCheck(t) && s.cur != t && s.thr[t].joined
  {
    hide Inv, Iterate, Return, Wakeup;
    if t !in s.thr {
      NoNewThreads(s, step, t);
    } else if step.DoIterate? {
      IterateMarks(s, step.now, t);
    } else if step.DoReturn? {
      if t == s.cur {
        ReturnCurrent(s);
      } else if !s.thr[t].dead {
        ReturnOther(s, t);
      } else {
        ReaperFrees(s, t);
      }
    } else if t == s.cur {
      hide Next;
      CallCurrent(s, step);
    } else {
      hide Next;
      CallOther(s, step, t);
    }
  }

  lemma IterateKeys(s: State, now: Time)
    requires Inv(s) && Enabled(s, DoIterate(now))
    ensures Iterate(s, now).thr.Keys == s.thr.Keys
  {
    hide Inv, Expire;
    var s1 := s.(now := now);
    TickInv(s, now);
    ExpireKeys(s1);
    ExpireInv(s1);
    Known(Expire(s1));
  }

  lemma {:induction false} ExpireKeys(s: State)
    requires Inv(s) && InSchedule(s.thr[s.cur].pc)
    ensures Expire(s).thr.Keys == s.thr.Keys
    decreases |s.timeq|
  {
    Known(s);
    hide Inv, ExpireOne;
    if s.timeq != [] && s.thr[s.timeq[0]].wakeup <= s.now {
      hide Expire;
      ExpireUnfold(s);
      ExpireOneInv(s);
      ExpireKeys(ExpireOne(s));
    }
  }

  lemma NoNewThreads(s: State, step: Step, t: Tid)
    requires Inv(s) && Enabled(s, step) && t in Next(s, step).thr && t !in s.thr
    ensures step.DoCreate? && t == step.t && Next(s, step).thr[t].mustjoin == step.joinable
  {
    hide Inv, HasJoiner, JoinerOf, Wake, BlockPrepare, Remove, Iterate, Return;
    match step
    case DoIterate(now) => IterateKeys(s, now);
    case DoReturn => ReaperFrees(s, t);
    case DoWake(x) => WakeInv(s, x);
    case DoPrepare(d) => PrepareEffect(s, d, ToUser);
    case DoPark => ParkEffects(s);
    case DoSignal => SignalEffect(s);
    case DoNotify => NotifyEffect(s);
    case _ =>
  }

  /** When schedule() returns, the dead threads are gone and the others are still there. */
  lemma ReaperFrees(s: State, t: Tid)
    requires Inv(s) && Enabled(s, DoReturn)
    ensures t in Return(s).thr <==> t in s.thr && !s.thr[t].dead
    ensures Return(s).zombieq == []
  {
    hide Inv, TimeOk, JoinOk;
    At(s, s.cur);
    if t in s.thr {
      At(s, t);
    }
    ReapInv(s);
    ReturnIsResume(s);
    hide Return, PcOk;
  }

  // ---- First come, first served ----

  /** Does the step end a schedule() by choosing a thread? */
  ghost predicate Decides(s: State, step: Step)
    requires Enabled(s, step)
  {
    step.DoIterate? && Expire(s.(now := step.now)).runq != []
  }

  /** A runnable thread moves up one place at each decision and at no other step; from the
      first place it becomes the current thread. */
  lemma QueuePosition(s: State, step: Step, k: nat)
    requires Inv(s) && Enabled(s, step) && k < |s.runq|
    ensures var s' := Next(s, step);
            if !Decides(s, step) then k < |s'.runq| && s'.runq[k] == s.runq[k]
            else if k == 0 then s'.cur == s.runq[0]
            else k - 1 < |s'.runq| && s'.runq[k - 1] == s.runq[k]
  {
    hide Inv, Expire, Decide;
    if step.DoIterate? {
      TickInv(s, step.now);
      var s1 := s.(now := step.now);
      ExpireInv(s1);
      var s2 := Expire(s1);
      Known(s2);
      if s2.runq != [] {
        DecideInv(s2);
      }
    } else {
      RunqGrows(s, step);
    }
  }

  lemma RunqGrows(s: State, step: Step)
    requires Inv(s) && Enabled(s, step) && !step.DoIterate?
    ensures s.runq <= Next(s, step).runq
  {
    hide Inv;
  }

  /** The number of decisions among the steps from..last. */
  ghost function Decisions(states: seq<State>, steps: seq<Step>, from: nat, last: nat): nat
    requires Path(states, steps) && from <= last <= |steps|
    decreases last
  {
    if from == last then 0
    else Decisions(states, steps, from, last - 1) + (if Decides(states[last - 1], steps[last - 1]) then 1 else 0)
  }

  /** Whatever wakeups, timeouts, yields and creations happen in between, a thread at
      position k of the run queue is at position k - d after d <= k further decisions, and
      the decision after that makes it current. */
  lemma {:induction false} BoundedWaiting(states: seq<State>, steps: seq<Step>, from: nat, last: nat, k: nat)
    requires Path(states, steps) && from <= last <= |steps| && Inv(states[0])
    requires k < |states[from].runq| && Decisions(states, steps, from, last) <= k
    ensures var d := Decisions(states, steps, from, last);
            && k - d < |states[last].runq| && states[last].runq[k - d] == states[from].runq[k]
            && (d == k && last < |steps| && Decides(states[last], steps[last]) ==> states[last + 1].cur == states[from].runq[k])
    decreases last
  {
    hide Inv, Next, Enabled, Decides;
    PathInv(states, steps, last);
    if from < last {
      BoundedWaiting(states, steps, from, last - 1, k);
      PathInv(states, steps, last - 1);
      QueuePosition(states[last - 1], steps[last - 1], k - Decisions(states, steps, from, last - 1));
    }
    if last < |steps| && Decisions(states, steps, from, last) == k {
      QueuePosition(states[last], steps[last], 0);
    }
  }
}
