/** What every state of every run of the scheduler satisfies. */
module SchedInv {
  import opened Queues
  import opened SchedSpec

  predicate Queued(th: Thread) { th.onRunq || th.onTimeq || th.onBlockq }

  /** THR_QMASK is one-hot or clear. */
  predicate OneHot(th: Thread)
  {
    !(th.onRunq && th.onTimeq) && !(th.onRunq && th.onBlockq) && !(th.onTimeq && th.onBlockq)
  }

  /** The flags of a thread agree with where its execution is. */
  predicate PcOk(th: Thread, current: bool)
  {
    && OneHot(th)
    && (th.running ==> current)
    && (th.dead <==> th.pc.Exited?)
    && (th.blockprep <==> th.pc.Prepared? || th.pc.Sleeping? || th.pc.Waking?)
    && match th.pc
       case User => if current then th.running && !Queued(th) else th.onRunq
       case Prepared(_) => current && th.running && Queued(th)
       case Sleeping(_) => th.running == current && Queued(th)
       case Waking(_) => current && th.running && !Queued(th)
       case Yielding => !th.running && th.onRunq
       case YieldDone => current && th.running && !Queued(th)
       case Exited => !th.running && !Queued(th) && !th.mustjoin
       case _ => current && th.running && !Queued(th)
  }

  /** A thread on timeq has a deadline; only a block with a deadline is marked as timed out,
      and only once it has been taken off its queue. */
  predicate TimeOk(th: Thread)
  {
    && (th.onTimeq ==> th.wakeup != INFTIME && (th.pc == Prepared(ToUser) || th.pc == Sleeping(ToUser)))
    && (th.onBlockq ==> th.wakeup == INFTIME)
    && (th.timedout ==> (th.pc == Sleeping(ToUser) || th.pc == Waking(ToUser)) && !th.onTimeq && !th.onBlockq)
  }

  predicate InExit(pc: Pc)
  {
    match pc
    case ExitCheck => true
    case ExitNotify => true
    case ExitPark => true
    case Prepared(k) => k.ToExit?
    case Sleeping(k) => k.ToExit?
    case Waking(k) => k.ToExit?
    case Exited => true
    case _ => false
  }

  predicate ExitWait(pc: Pc) { pc == Prepared(ToExit) || pc == Sleeping(ToExit) || pc == Waking(ToExit) }

  /** The join and exit handshake, seen from thread t. */
  predicate JoinOk(s: State, t: Tid)
    requires t in s.thr && s.cur in s.thr
  {
    var th := s.thr[t];
    && (!Role(th.pc).NotJoining? ==>
          var w := Role(th.pc).w;
          && w in s.thr && !s.thr[w].dead
          && (if th.pc.JoinSignal? then s.thr[w].joined && !s.thr[w].mustjoin else s.thr[w].mustjoin)
          && (th.pc.JoinPark? ==> !s.thr[w].joined)
          && (th.onBlockq && s.thr[w].joined ==> s.cur == w && s.thr[w].pc == ExitNotify))
    && (th.joined ==> InExit(th.pc))
    && (th.pc.ExitNotify? || th.pc.ExitPark? ==> th.joined && th.mustjoin)
    && (ExitWait(th.pc) && th.onBlockq ==> th.joined && (th.mustjoin || s.thr[s.cur].pc == JoinSignal(t)))
  }

  /** Queue membership matches the flags. */
  predicate MemberOk(s: State, t: Tid)
    requires t in s.thr
  {
    var th := s.thr[t];
    && (th.onRunq <==> t in s.runq)
    && (th.onTimeq <==> t in s.timeq)
    && (th.onBlockq <==> t in s.blockq)
    && (th.dead <==> t in s.zombieq)
    && (!th.dead <==> t in s.threadq)
  }

  predicate LocalOk(s: State, t: Tid)
    requires t in s.thr
  {
    MemberOk(s, t) && PcOk(s.thr[t], t == s.cur) && TimeOk(s.thr[t])
  }

  ghost predicate QueuesOk(s: State)
  {
    && NoDup(s.runq) && NoDup(s.timeq) && NoDup(s.blockq) && NoDup(s.threadq) && NoDup(s.zombieq)
    && (forall t | t in s.runq :: t in s.thr)
    && (forall t | t in s.timeq :: t in s.thr)
    && (forall t | t in s.blockq :: t in s.thr)
    && (forall t | t in s.threadq :: t in s.thr)
    && (forall t | t in s.zombieq :: t in s.thr)
  }

  /** timeq is sorted by wakeup time. */
  ghost predicate Sorted(thr: map<Tid, Thread>, q: seq<Tid>)
  {
    && (forall t | t in q :: t in thr)
    && forall i, j | 0 <= i < j < |q| :: thr[q[i]].wakeup <= thr[q[j]].wakeup
  }

  /** The queues, the flags and the times. */
  ghost predicate LocalInv(s: State)
  {
    && !s.halted
    && s.cur in s.thr
    && QueuesOk(s)
    && (forall t | t in s.thr :: LocalOk(s, t))
    && Sorted(s.thr, s.timeq)
  }

  predicate Waits(s: State, j: Tid, w: Tid)
  {
    j in s.thr && Role(s.thr[j].pc) == Waiting(w)
  }

  predicate SameTarget(p: Pc, q: Pc)
  {
    !Role(p).NotJoining? && !Role(q).NotJoining? && Role(p).w == Role(q).w
  }

  /** joinwq lists the threads waiting in join, and a thread has one joiner. */
  ghost predicate JoinwqOk(s: State)
  {
    && NoDup(s.joinwq)
    && (forall j: Tid, w: Tid :: (j, w) in s.joinwq <==> Waits(s, j, w))
    && (forall i, j | i in s.thr && j in s.thr && i != j :: !SameTarget(s.thr[i].pc, s.thr[j].pc))
  }

  ghost predicate JoinInv(s: State)
  {
    && s.cur in s.thr
    && JoinwqOk(s)
    && forall t | t in s.thr :: JoinOk(s, t)
  }

  ghost predicate Inv(s: State)
  {
    LocalInv(s) && JoinInv(s)
  }

  /** All that the join handshake sees of a thread, apart from onBlockq. */
  datatype JoinView = JoinView(role: JoinRole, signal: bool, park: bool, joined: bool, mustjoin: bool, dead: bool,
                               inExit: bool, notify: bool, exitPark: bool, exitWait: bool)

  function View(th: Thread): JoinView
  {
    JoinView(Role(th.pc), th.pc.JoinSignal?, th.pc.JoinPark?, th.joined, th.mustjoin, th.dead, InExit(th.pc),
             th.pc.ExitNotify?, th.pc.ExitPark?, ExitWait(th.pc))
  }

  /** A step that leaves every thread's part in joins alone keeps the handshake; it may
      take threads off blockq, and may switch threads outside the two wake points. */
  lemma JoinFrame(s: State, s': State)
    requires JoinInv(s) && s'.joinwq == s.joinwq && s'.thr.Keys == s.thr.Keys && s'.cur in s'.thr
    requires s'.cur == s.cur || (!s.thr[s.cur].pc.ExitNotify? && !s.thr[s.cur].pc.JoinSignal?)
    requires forall t | t in s.thr ::
               && View(s'.thr[t]) == View(s.thr[t])
               && (s'.thr[t].onBlockq && (View(s.thr[t]).exitWait || !Role(s.thr[t].pc).NotJoining?) ==> s.thr[t].onBlockq)
    ensures JoinInv(s')
  {
    forall t | t in s.thr ensures Role(s'.thr[t].pc) == Role(s.thr[t].pc) {
      RoleOfView(s.thr[t]);
      RoleOfView(s'.thr[t]);
    }
    JoinwqFrame(s, s');
    hide JoinwqOk;
    forall t | t in s'.thr ensures JoinOk(s', t) {
      JoinOkFrame(s, s', t);
    }
  }

  lemma JoinOkFrame(s: State, s': State, t: Tid)
    requires s.cur in s.thr && s'.thr.Keys == s.thr.Keys && s'.cur in s'.thr && t in s.thr && JoinOk(s, t)
    requires s'.cur == s.cur || (!s.thr[s.cur].pc.ExitNotify? && !s.thr[s.cur].pc.JoinSignal?)
    requires forall u | u in s.thr :: View(s'.thr[u]) == View(s.thr[u])
    requires s'.thr[t].onBlockq && (View(s.thr[t]).exitWait || !Role(s.thr[t].pc).NotJoining?) ==> s.thr[t].onBlockq
    ensures JoinOk(s', t)
  {
    assert View(s'.thr[t]) == View(s.thr[t]);
    assert View(s'.thr[s.cur]) == View(s.thr[s.cur]);
    if !Role(s.thr[t].pc).NotJoining? {
      assert View(s'.thr[Role(s.thr[t].pc).w]) == View(s.thr[Role(s.thr[t].pc).w]);
    }
  }

  lemma JoinwqFrame(s: State, s': State)
    requires JoinwqOk(s) && s'.joinwq == s.joinwq && s'.thr.Keys == s.thr.Keys
    requires forall t | t in s.thr :: Role(s'.thr[t].pc) == Role(s.thr[t].pc)
    ensures JoinwqOk(s')
  {
    hide Role;
    forall j: Tid, w: Tid ensures (j, w) in s'.joinwq <==> Waits(s', j, w) {
      assert Waits(s', j, w) <==> Waits(s, j, w);
    }
    forall i, j | i in s'.thr && j in s'.thr && i != j ensures !SameTarget(s'.thr[i].pc, s'.thr[j].pc) {
      assert !SameTarget(s.thr[i].pc, s.thr[j].pc);
    }
  }

  lemma RoleOfView(th: Thread)
    ensures View(th).role == Role(th.pc)
  {
  }

  lemma InitInv(main: Tid, now: Time)
    ensures Inv(Init(main, now))
  {
  }

  /** Only thread t and its place in the queues change. */
  ghost predicate Only(s: State, s': State, t: Tid)
  {
    && t in s.thr && t in s'.thr && s'.thr == s.thr[t := s'.thr[t]]
    && s'.cur == s.cur && s'.now == s.now
    && (forall u | u != t :: (u in s'.runq <==> u in s.runq) && (u in s'.timeq <==> u in s.timeq) &&
                             (u in s'.blockq <==> u in s.blockq) && (u in s'.zombieq <==> u in s.zombieq) &&
                             (u in s'.threadq <==> u in s.threadq))
  }

  lemma OnlyLocal(s: State, s': State, t: Tid)
    requires LocalInv(s) && Only(s, s', t) && !s'.halted && LocalOk(s', t)
    requires NoDup(s'.runq) && NoDup(s'.timeq) && NoDup(s'.blockq) && NoDup(s'.threadq) && NoDup(s'.zombieq)
    requires Sorted(s'.thr, s'.timeq)
    ensures LocalInv(s')
  {
    hide PcOk, TimeOk, Sorted, NoDup;
    forall u | u in s'.thr ensures LocalOk(s', u) {
      assert LocalOk(s, u);
    }
  }

  lemma OnlyJoin(s: State, s': State, t: Tid)
    requires JoinInv(s) && Only(s, s', t) && s'.joinwq == s.joinwq
    requires View(s'.thr[t]) == View(s.thr[t])
    requires s'.thr[t].onBlockq && (View(s.thr[t]).exitWait || !Role(s.thr[t].pc).NotJoining?) ==> s.thr[t].onBlockq
    ensures JoinInv(s')
  {
    hide View, Role, JoinwqOk, JoinOk;
    JoinFrame(s, s');
  }

  /** What the other threads' handshakes see of a thread. */
  predicate SameOutside(th: Thread, th': Thread)
  {
    && th.joined == th'.joined && th.mustjoin == th'.mustjoin && th.dead == th'.dead
    && th.pc.ExitNotify? == th'.pc.ExitNotify?
    && (th.pc.JoinSignal? || th'.pc.JoinSignal? ==> th.pc == th'.pc)
  }

  /** A thread moves on in its own part of a join, unseen by the others. */
  lemma OnlyOwnJoin(s: State, s': State, t: Tid)
    requires JoinInv(s) && Only(s, s', t) && SameOutside(s.thr[t], s'.thr[t])
    requires JoinOk(s', t) && JoinwqOk(s')
    ensures JoinInv(s')
  {
    hide JoinwqOk, Role;
    forall u | u in s'.thr ensures JoinOk(s', u) {
      assert JoinOk(s, u);
    }
  }
}
