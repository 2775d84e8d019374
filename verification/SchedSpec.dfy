/** The cooperative scheduler of lib/libbmk_core/sched.c as a state machine.

    A state holds the queues, the thread records and, for each thread, the point its
    execution has reached between two steps. A step is one API call, or the part of one
    between two scheduling points: no other thread can enter it, and apart from a wakeup by a
    thread no interrupt can, or none that it would notice. Here such a wakeup is one step as
    well; SchedWindow takes it apart, and proves which of its runs come to the same as runs of
    this machine. Every failing bmk_assert and every bmk_platform_halt sets
    `halted`. */
module SchedSpec {
  import opened Queues

  type Tid = nat
  type Time = int

  /** BMK_SCHED_BLOCK_INFTIME */
  const INFTIME: Time := -1
  const BLOCKTIME_MAX: Time := 1_000_000_000

  /** What a thread does when bmk_sched_block returns. */
  datatype Cont = ToUser | ToJoin(wanted: Tid) | ToExit

  /** Where the execution of a thread is. */
  datatype Pc =
    | User                      // its own code
    | Prepared(k: Cont)         // after blockprepare, before block
    | Sleeping(k: Cont)         // inside block, in schedule()
    | Waking(k: Cont)           // chosen: schedule() is about to return to block
    | Yielding                  // inside yield, in schedule()
    | YieldDone                 // chosen: schedule() is about to return to yield
    | JoinCheck(wanted: Tid)    // join: at the test of THR_JOINED
    | JoinPark(wanted: Tid)     // join: about to queue itself and block
    | JoinSignal(wanted: Tid)   // join: about to wake the joined thread
    | ExitCheck                 // exit: at the test of THR_MUSTJOIN
    | ExitNotify                // exit: about to wake its joiner
    | ExitPark                  // exit: about to block until joined
    | Exited                    // exit: dead, in its last schedule()

  /** struct bmk_thread: the bits of bt_flags, bt_wakeup_time, and where it is. */
  datatype Thread = Thread(
    onRunq: bool, onTimeq: bool, onBlockq: bool, running: bool, timedout: bool,
    mustjoin: bool, joined: bool, dead: bool, blockprep: bool,
    wakeup: Time, pc: Pc)

  datatype State = State(
    thr: map<Tid, Thread>, cur: Tid,
    runq: seq<Tid>, timeq: seq<Tid>, blockq: seq<Tid>,
    threadq: seq<Tid>, zombieq: seq<Tid>, joinwq: seq<(Tid, Tid)>,
    now: Time, halted: bool)

  // ---- The pieces of sched.c ----

  function Set(s: State, t: Tid, th: Thread): State
  {
    s.(thr := s.thr[t := th])
  }

  function Halt(s: State): State
  {
    s.(halted := true)
  }

  /** set_runnable */
  function SetRunnable(s: State, t: Tid): State
    requires t in s.thr
  {
    var th := s.thr[t];
    if th.onRunq then
      s
    else if th.onTimeq && !th.onBlockq then
      Set(s.(timeq := Remove(s.timeq, t), runq := s.runq + [t]), t,
          th.(onRunq := true, onTimeq := false))
    else if th.onBlockq && !th.onTimeq then
      Set(s.(blockq := Remove(s.blockq, t), runq := s.runq + [t]), t,
          th.(onRunq := true, onBlockq := false))
    else if th.running && !th.onTimeq && !th.onBlockq then
      s
    else
      Halt(s)
  }

  /** bmk_sched_wake */
  function Wake(s: State, t: Tid): State
    requires t in s.thr
  {
    SetRunnable(Set(s, t, s.thr[t].(wakeup := INFTIME)), t)
  }

  /** timeq_sorted_insert: before the first thread that is due later. */
  function SortedInsert(thr: map<Tid, Thread>, q: seq<Tid>, t: Tid, due: Time): seq<Tid>
    requires forall x | x in q :: x in thr
  {
    if q == [] then [t]
    else if thr[q[0]].wakeup > due then [t] + q
    else [q[0]] + SortedInsert(thr, q[1..], t, due)
  }

  predicate QueueKnown(s: State)
  {
    && s.cur in s.thr
    && (forall x | x in s.timeq :: x in s.thr)
    && (forall x | x in s.runq :: x in s.thr)
  }

  /** bmk_sched_blockprepare_timeout, with clear_runnable. */
  function BlockPrepare(s: State, deadline: Time, k: Cont): State
    requires QueueKnown(s)
  {
    var t := s.cur;
    var th := s.thr[t];
    if th.blockprep || !th.running || th.onRunq then
      Halt(s)
    else
      var th' := th.(wakeup := deadline, blockprep := true, pc := Prepared(k));
      if deadline != INFTIME then
        Set(s.(timeq := SortedInsert(s.thr, s.timeq, t, deadline)), t, th'.(onTimeq := true))
      else
        Set(s.(blockq := s.blockq + [t]), t, th'.(onBlockq := true))
  }

  /** bmk_sched_block up to its call of schedule(). */
  function Block(s: State, k: Cont): State
    requires s.cur in s.thr
  {
    var th := s.thr[s.cur];
    if th.timedout || !th.blockprep then Halt(s) else Set(s, s.cur, th.(pc := Sleeping(k)))
  }

  /** bmk_sched_yield up to its call of schedule(). */
  function Yield(s: State): State
    requires s.cur in s.thr
  {
    var th := s.thr[s.cur];
    if !th.running then Halt(s)
    else Set(s.(runq := s.runq + [s.cur]), s.cur, th.(onRunq := true, running := false, pc := Yielding))
  }

  /** The expiry loop of schedule(): wake the head of timeq while it is due. */
  function Expire(s: State): State
    requires forall x | x in s.timeq :: x in s.thr
    decreases |s.timeq|
  {
    if s.timeq == [] || s.thr[s.timeq[0]].wakeup > s.now then s
    else
      var t := s.timeq[0];
      var s' := Wake(Set(s, t, s.thr[t].(timedout := true)), t);
      if |s'.timeq| < |s.timeq| && (forall x | x in s'.timeq :: x in s'.thr) then Expire(s') else s'
  }

  /** What schedule() passes to cpu_block when nothing is runnable. */
  function WakeTime(s: State): Time
    requires forall x | x in s.timeq :: x in s.thr
  {
    var latest := s.now + BLOCKTIME_MAX;
    if s.timeq != [] && s.thr[s.timeq[0]].wakeup < latest then s.thr[s.timeq[0]].wakeup else latest
  }

  function Chosen(pc: Pc): Pc
  {
    match pc
    case Sleeping(k) => Waking(k)
    case Yielding => YieldDone
    case _ => pc
  }

  /** The end of schedule(): the head of runq becomes the current thread. */
  function Decide(s: State): State
    requires QueueKnown(s) && s.runq != []
  {
    var next := s.runq[0];
    if !s.thr[next].onRunq || s.thr[next].dead then Halt(s)
    else
      var s1 := Set(s, s.cur, s.thr[s.cur].(running := false));
      var th := s1.thr[next];
      Set(s1.(runq := s.runq[1..], cur := next), next,
          th.(running := true, onRunq := false, pc := Chosen(th.pc)))
  }

  /** One round of the loop of schedule() at time `now`; when nothing is runnable the
      processor blocks and the loop goes round again. */
  function Iterate(s: State, now: Time): State
    requires QueueKnown(s)
  {
    var s' := Expire(s.(now := now));
    if QueueKnown(s') && s'.runq != [] then Decide(s') else s'
  }

  /** The reaper at the end of schedule(). */
  function Reap(s: State): State
  {
    s.(thr := map t | t in s.thr && t !in s.zombieq :: s.thr[t], zombieq := [])
  }

  function AfterBlock(k: Cont): Pc
  {
    match k
    case ToUser => User
    case ToJoin(w) => JoinCheck(w)
    case ToExit => ExitCheck
  }

  /** schedule() returns to the chosen thread. */
  function Return(s: State): State
    requires s.cur in s.thr
  {
    var s1 := Reap(s);
    if s.cur !in s1.thr then Halt(s1)
    else
      var th := s1.thr[s.cur];
      match th.pc
      case Waking(k) =>
        var s2 := if k.ToJoin? then s1.(joinwq := Remove(s1.joinwq, (s.cur, k.wanted))) else s1;
        Set(s2, s.cur, th.(timedout := false, blockprep := false, pc := AfterBlock(k)))
      case YieldDone => Set(s1, s.cur, th.(pc := User))
      case _ => s1
  }

  /** Does the block that is about to return report BMK_ETIMEDOUT? */
  predicate ReportsTimeout(s: State)
    requires s.cur in s.thr
  {
    s.thr[s.cur].timedout
  }

  function NewThread(joinable: bool): Thread
  {
    Thread(true, false, false, false, false, joinable, false, false, false, INFTIME, User)
  }

  /** bmk_sched_create_withtls */
  function Create(s: State, t: Tid, joinable: bool): State
  {
    Set(s.(threadq := s.threadq + [t], runq := s.runq + [t]), t, NewThread(joinable))
  }

  function Goto(s: State, pc: Pc): State
    requires s.cur in s.thr
  {
    Set(s, s.cur, s.thr[s.cur].(pc := pc))
  }

  /** bmk_sched_join, the test of its loop. */
  function TestJoined(s: State, w: Tid): State
    requires s.cur in s.thr
  {
    if w !in s.thr then Halt(s)
    else if !s.thr[w].joined then Goto(s, JoinPark(w))
    else Goto(Set(s, w, s.thr[w].(mustjoin := false)), JoinSignal(w))
  }

  /** bmk_sched_exit_withtls, the test of its loop and, past it, the death of the thread. */
  function TestMustJoin(s: State): State
    requires s.cur in s.thr
  {
    var t := s.cur;
    var th := s.thr[t];
    if th.mustjoin then Set(s, t, th.(joined := true, pc := ExitNotify))
    else if th.onRunq || th.onTimeq || th.onBlockq then Halt(s)
    else Set(s.(threadq := Remove(s.threadq, t), zombieq := [t] + s.zombieq), t,
             th.(dead := true, running := false, pc := Exited))
  }

  /** The joiner of `w` on joinwq, if any. */
  function JoinerOf(joinwq: seq<(Tid, Tid)>, w: Tid): seq<Tid>
  {
    if joinwq == [] then [] else if joinwq[0].1 == w then [joinwq[0].0] else JoinerOf(joinwq[1..], w)
  }

  function NotifyJoiner(s: State): State
    requires s.cur in s.thr
  {
    var js := JoinerOf(s.joinwq, s.cur);
    if js == [] then Goto(s, ExitPark)
    else if js[0] !in s.thr then Halt(s)
    else Goto(Wake(s, js[0]), ExitPark)
  }

  /** The end of bmk_sched_join: wake the joined thread so that it can exit. */
  function SignalJoined(s: State, w: Tid): State
    requires s.cur in s.thr
  {
    if w !in s.thr then Halt(s)
    else var s' := Wake(s, w); Set(s', s.cur, s'.thr[s.cur].(pc := User))
  }

  // ---- Steps ----

  datatype Step =
    | DoCreate(t: Tid, joinable: bool)
    | DoWake(t: Tid)
    | DoPrepare(deadline: Time)
    | DoBlock
    | DoYield
    | DoIterate(now: Time)
    | DoReturn
    | DoJoin(t: Tid)
    | DoTestJoined
    | DoPark
    | DoSignal
    | DoExit
    | DoTestMustJoin
    | DoNotify
    | DoPause                   // code that leaves the scheduler alone

  predicate InSchedule(pc: Pc) { pc.Sleeping? || pc.Yielding? || pc.Exited? }

  /** A thread's part in a join: none, waiting on joinwq, or elsewhere in the call. */
  datatype JoinRole = NotJoining | Waiting(w: Tid) | Joining(w: Tid)

  function Role(pc: Pc): JoinRole
  {
    match pc
    case JoinCheck(w) => Joining(w)
    case JoinPark(w) => Joining(w)
    case JoinSignal(w) => Joining(w)
    case Prepared(ToJoin(w)) => Waiting(w)
    case Sleeping(ToJoin(w)) => Waiting(w)
    case Waking(ToJoin(w)) => Waiting(w)
    case _ => NotJoining
  }

  predicate IsJoinerOf(pc: Pc, w: Tid)
  {
    Role(pc) == Waiting(w) || Role(pc) == Joining(w)
  }

  ghost predicate HasJoiner(s: State, w: Tid)
  {
    exists j | j in s.thr :: IsJoinerOf(s.thr[j].pc, w)
  }

  /** Is the step possible? For the API calls this is what sched.c demands of its callers:
      a thread calls them from its own code; a wakeup names a live thread; a deadline is a
      time, or none; a thread is joined once, while it can be joined. */
  ghost predicate Enabled(s: State, step: Step)
  {
    && QueueKnown(s)
    && var pc := s.thr[s.cur].pc;
       match step
       case DoCreate(t, _) => (pc.User? || pc == Prepared(ToUser)) && t !in s.thr
       case DoWake(t) => t in s.thr && !s.thr[t].dead
       case DoPrepare(_) => pc.User?
       case DoBlock => pc.Prepared?
       case DoYield => pc.User?
       case DoIterate(now) => InSchedule(pc) && s.now <= now
       case DoReturn => pc.Waking? || pc.YieldDone?
       case DoJoin(t) => pc.User? && t in s.thr && !s.thr[t].dead && s.thr[t].mustjoin && !HasJoiner(s, t)
       case DoTestJoined => pc.JoinCheck?
       case DoPark => pc.JoinPark? || pc.ExitPark?
       case DoSignal => pc.JoinSignal?
       case DoExit => pc.User?
       case DoTestMustJoin => pc.ExitCheck?
       case DoNotify => pc.ExitNotify?
       case DoPause => true
  }

  ghost function Next(s: State, step: Step): State
    requires Enabled(s, step)
  {
    var pc := s.thr[s.cur].pc;
    match step
    case DoCreate(t, joinable) => Create(s, t, joinable)
    case DoWake(t) => Wake(s, t)
    case DoPrepare(deadline) => BlockPrepare(s, deadline, ToUser)
    case DoBlock => Block(s, pc.k)
    case DoYield => Yield(s)
    case DoIterate(now) => Iterate(s, now)
    case DoReturn => Return(s)
    case DoJoin(t) => Goto(s, JoinCheck(t))
    case DoTestJoined => TestJoined(s, pc.wanted)
    case DoPark =>
      if pc.JoinPark? then BlockPrepare(s.(joinwq := s.joinwq + [(s.cur, pc.wanted)]), INFTIME, ToJoin(pc.wanted))
      else BlockPrepare(s, INFTIME, ToExit)
    case DoSignal => SignalJoined(s, pc.wanted)
    case DoExit => Goto(s, ExitCheck)
    case DoTestMustJoin => TestMustJoin(s)
    case DoNotify => NotifyJoiner(s)
    case DoPause => s
  }

  /** bmk_sched_startmain: one thread, running. */
  function Init(main: Tid, now: Time): State
  {
    State(map[main := NewThread(false).(onRunq := false, running := true)], main, [], [], [], [main], [], [], now, false)
  }
}
