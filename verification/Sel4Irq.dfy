/** The interrupt protocol of the seL4 platform (platform/sel4/kernel.c, entry.c, clock.c,
    intr.c): the interrupt handler thread and the main thread, which runs all bmk threads,
    as two programs that take small steps in turn.

    The handler has the higher priority, so the main thread takes a step only while the
    handler is blocked (entry.c:311-323). The binary semaphore, whose library is not part
    of the repository, is a flag that a wait takes and a post returns. */
module Sel4Irq {

  /** Where the interrupt handler thread is. */
  datatype HandlerPc =
    | HWait     // seL4_Wait on the interrupt notification
    | HSem      // sync_bin_sem_wait
    | HCheck    // the test of spldepth
    | HShould   // the test of should_wakeup, seL4_Signal
    | HMask     // mask_the_mask = 1
    | HTodo     // isr: isr_todo_soft, isr_todo
    | HWake     // isr: bmk_sched_wake(isr_thread)
    | HPost     // sync_bin_sem_post
    | HUnmask   // mask_the_mask = 0

  /** Where control goes when splhigh or splx returns. */
  datatype Cont = ToCode | ToSched | ToWait | ToRetry | ToMove

  /** Where the main thread is. */
  datatype MainPc =
    | Code              // the code of the current bmk thread
    | SemWait(k: Cont)  // splhigh: sync_bin_sem_wait
    | DepthInc(k: Cont) // splhigh: spldepth++
    | SemPost(k: Cont)  // splx: sync_bin_sem_post
    | SchedTop          // schedule: top of its loop, interrupts blocked
    | Arm               // cpu_block: set the timer
    | SetShould         // cpu_block: should_wakeup = 1
    | WaitNtfn          // cpu_block: seL4_Wait on the timer notification
    | ClearShould       // cpu_block: should_wakeup = 0
    | Retry             // cpu_block: the timer was not set, between splx and splhigh
    | Moving            // set_runnable: about to move the isr thread, seen on a queue before splhigh

  /** Where the isr thread (doisr) is in its own code. */
  datatype IsrPc =
    | ILock(next: IsrPc)    // splhigh, then next
    | IUnlock(next: IsrPc)  // splx, then next
    | ICopyHard             // take and clear isr_todo
    | IHandle1              // process the hardware handlers
    | ICopySoft             // take and clear isr_todo_soft
    | IHandle2              // process the software handlers
    | ICheck                // anything left?
    | IBlock                // the idle bmk_sched_block

  datatype Queue = NoQ | RunQ | BlockQ

  /** `others` counts the runnable bmk threads besides the isr thread. `torn` is set when the
      isr thread, made runnable by the handler since it was seen, is taken off a queue it is no
      longer on: it is then the last on runq, and the links of the queues are spoilt. */
  datatype State = State(
    main: MainPc, handler: HandlerPc,
    depth: nat, sem: bool, mask: bool, should: bool, ntfn: bool, irq: bool,
    isrCurrent: bool, isrQueue: Queue, isrPc: IsrPc, hard: bool, soft: bool, others: nat,
    halted: bool, torn: bool)

  // ---- The handler ----

  predicate HandlerBlocked(s: State)
  {
    (s.handler.HWait? && !s.irq) || (s.handler.HSem? && !s.sem)
  }

  /** set_runnable for the isr thread. Its splhigh and splx return at once only if
      mask_the_mask is set; anything else would take the semaphore a second time. */
  function WakeIsr(s: State): State
  {
    s.(halted := s.halted || !s.mask, isrQueue := if s.mask && s.isrQueue.BlockQ? then RunQ else s.isrQueue)
  }

  /** One step of the handler; isr() may be passed bits of either kind. */
  function HandlerStep(s: State, hardBits: bool, softBits: bool): State
    requires !HandlerBlocked(s)
  {
    match s.handler
    case HWait => s.(irq := false, handler := HSem)
    case HSem => s.(sem := false, handler := HCheck)
    case HCheck => s.(halted := s.halted || s.depth != 0, handler := if s.depth != 0 then HCheck else HShould)
    case HShould => s.(ntfn := s.ntfn || s.should, handler := HMask)
    case HMask => s.(mask := true, handler := HTodo)
    case HTodo => s.(soft := s.soft || softBits, hard := s.hard || hardBits, handler := HWake)
    case HWake => WakeIsr(s).(handler := HPost)
    case HPost => s.(sem := true, handler := HUnmask)
    case HUnmask => s.(mask := false, handler := HWait)
  }

  // ---- The main thread ----

  function After(k: Cont): MainPc
  {
    match k
    case ToCode => Code
    case ToSched => SchedTop
    case ToWait => WaitNtfn
    case ToRetry => Retry
    case ToMove => Moving
  }

  /** bmk_platform_splhigh up to its blocking point. */
  function Splhigh(s: State, k: Cont): State
  {
    s.(main := if !s.mask && s.depth == 0 then SemWait(k) else After(k),
       depth := if !s.mask && s.depth > 0 then s.depth + 1 else s.depth)
  }

  /** bmk_platform_splx up to its post. */
  function Splx(s: State, k: Cont): State
  {
    s.(halted := s.halted || (!s.mask && s.depth == 0),
       main := if s.mask || s.depth > 1 then After(k) else if s.depth == 1 then SemPost(k) else s.main,
       depth := if !s.mask && s.depth > 0 then s.depth - 1 else s.depth)
  }

  predicate Runnable(s: State)
  {
    s.others > 0 || s.isrQueue.RunQ?
  }

  datatype MainStep =
    | Take                // sync_bin_sem_wait succeeds
    | Increment           // spldepth++
    | Post                // sync_bin_sem_post
    | RaiseSpl            // bmk code calls splhigh
    | LowerSpl            // bmk code calls splx
    | ReadyOther          // bmk code makes another thread runnable
    | LookIsr             // bmk code wakes the isr thread and sees it waiting
    | MoveIsr             // the rest of that wakeup
    | Schedule            // bmk code calls schedule()
    | Expired             // schedule: a timeout makes a thread runnable
    | ExpiredIsr          // schedule: it is the isr thread, asleep in a handler
    | PickIsr             // schedule: the isr thread is chosen
    | PickOther           // schedule: another thread is chosen
    | Idle                // schedule: nothing runnable, cpu_block is called
    | TooLate             // cpu_block: the time has passed already
    | ArmOk               // cpu_block: the timer is set
    | ArmFail             // cpu_block: it is not
    | StoreShould
    | NtfnArrives         // seL4_Wait returns
    | DropShould
    | RetryLock
    | Isr                 // the isr thread takes the next step of doisr
    | IsrSleep            // a handler run by the isr thread prepares to block

  predicate Handling(pc: IsrPc) { pc.IHandle1? || pc.IHandle2? }

  /** Code that may use the scheduler freely: any thread but the isr thread, and the
      handlers the isr thread calls. */
  predicate FreeCode(s: State)
  {
    s.main.Code? && (s.isrCurrent ==> Handling(s.isrPc))
  }

  predicate IsrTurn(s: State)
  {
    && s.main.Code? && s.isrCurrent && !s.isrPc.IBlock?
    && (Handling(s.isrPc) ==> s.depth == 0 && s.isrQueue.NoQ?)
  }

  /** Can the main thread take the step? Queues are changed only with interrupts blocked, but
      looked at before; splx follows a splhigh, and schedule() is called with interrupts
      enabled. */
  predicate MainCan(s: State, step: MainStep)
  {
    HandlerBlocked(s) && !s.torn &&
    match step
    case Take => s.main.SemWait? && s.sem
    case Increment => s.main.DepthInc?
    case Post => s.main.SemPost?
    case RaiseSpl => FreeCode(s)
    case LowerSpl => FreeCode(s) && s.depth > 0
    case ReadyOther => FreeCode(s) && s.depth > 0
    case LookIsr => FreeCode(s) && s.isrQueue.BlockQ?
    case MoveIsr => s.main.Moving?
    case Schedule => s.main.Code? && s.depth == 0 &&
                     (s.isrCurrent ==> (Handling(s.isrPc) || s.isrPc.IBlock?) && !s.isrQueue.NoQ?)
    case Expired => s.main.SchedTop?
    case ExpiredIsr => s.main.SchedTop? && s.isrQueue.BlockQ? && Handling(s.isrPc)
    case PickIsr => s.main.SchedTop? && s.isrQueue.RunQ?
    case PickOther => s.main.SchedTop? && s.others > 0
    case Idle => s.main.SchedTop? && !Runnable(s)
    case TooLate => s.main.Arm?
    case ArmOk => s.main.Arm?
    case ArmFail => s.main.Arm?
    case StoreShould => s.main.SetShould?
    case NtfnArrives => s.main.WaitNtfn? && s.ntfn
    case DropShould => s.main.ClearShould?
    case RetryLock => s.main.Retry?
    case Isr => IsrTurn(s)
    case IsrSleep => s.main.Code? && s.isrCurrent && Handling(s.isrPc) && s.depth > 0 && s.isrQueue.NoQ?
  }

  /** doisr */
  function IsrStep(s: State): State
  {
    match s.isrPc
    case ILock(next) => Splhigh(s.(isrPc := next), ToCode)
    case IUnlock(next) => Splx(s.(isrPc := next), ToCode)
    case ICopyHard => s.(hard := false, isrPc := IUnlock(IHandle1))
    case IHandle1 => s.(isrPc := ILock(ICopySoft))
    case ICopySoft => s.(soft := false, isrPc := IUnlock(IHandle2))
    case IHandle2 => s.(isrPc := ILock(ICheck))
    case ICheck => s.(isrQueue := if s.hard || s.soft then s.isrQueue else BlockQ,
                      isrPc := if s.hard || s.soft then ICopyHard else IUnlock(IBlock))
    case IBlock => s
  }

  function MainNext(s: State, step: MainStep): State
    requires MainCan(s, step)
  {
    match step
    case Take => s.(sem := false, main := DepthInc(s.main.k))
    case Increment => s.(depth := s.depth + 1, main := After(s.main.k))
    case Post => s.(sem := true, main := After(s.main.k))
    case RaiseSpl => Splhigh(s, ToCode)
    case LowerSpl => Splx(s, ToCode)
    case ReadyOther => s.(others := s.others + 1)
    case LookIsr => Splhigh(s, ToMove)
    case MoveIsr => if s.isrQueue.BlockQ? then Splx(s.(isrQueue := RunQ), ToCode) else s.(torn := true)
    case Schedule => Splhigh(s, ToSched)
    case Expired => s.(others := s.others + 1)
    case ExpiredIsr => s.(isrQueue := RunQ)
    case PickIsr => Splx(s.(isrQueue := NoQ, isrCurrent := true,
                            isrPc := if s.isrPc.IBlock? then ILock(ICopyHard) else s.isrPc), ToCode)
    case PickOther => Splx(s.(others := s.others - 1, isrCurrent := false), ToCode)
    case Idle => s.(main := Arm)
    case TooLate => s.(main := SchedTop)
    case ArmOk => s.(main := SetShould)
    case ArmFail => Splx(s, ToRetry)
    case StoreShould => Splx(s.(should := true), ToWait)
    case NtfnArrives => s.(ntfn := false, main := ClearShould)
    case DropShould => Splhigh(s.(should := false), ToSched)
    case RetryLock => Splhigh(s, ToSched)
    case Isr => IsrStep(s)
    case IsrSleep => s.(isrQueue := BlockQ)
  }

  // ---- Runs ----

  /** Besides the two threads, the device can raise the interrupt and the timer can fire. */
  datatype Step = OfHandler(hardBits: bool, softBits: bool) | OfMain(m: MainStep) | RaiseIrq | TimerFires

  predicate Can(s: State, step: Step)
  {
    match step
    case OfHandler(_, _) => !HandlerBlocked(s) && !s.torn
    case OfMain(m) => MainCan(s, m)
    case RaiseIrq => true
    case TimerFires => true
  }

  function Next(s: State, step: Step): State
    requires Can(s, step)
  {
    match step
    case OfHandler(h, w) => HandlerStep(s, h, w)
    case OfMain(m) => MainNext(s, m)
    case RaiseIrq => s.(irq := true)
    case TimerFires => s.(ntfn := true)
  }

  /** After intr_init: the isr thread has been created and is runnable, a bmk thread runs. */
  function Init(others: nat): State
  {
    State(Code, HWait, 0, true, false, false, false, false, false, RunQ, ILock(ICopyHard), false, false, others, false, false)
  }

  // ---- The invariant ----

  predicate MainHolds(s: State) { s.depth > 0 || s.main.DepthInc? || s.main.SemPost? }

  predicate HandlerHolds(s: State)
  {
    s.handler.HCheck? || s.handler.HShould? || s.handler.HMask? || s.handler.HTodo? || s.handler.HWake? || s.handler.HPost?
  }

  predicate MaskPhase(h: HandlerPc) { h.HTodo? || h.HWake? || h.HPost? || h.HUnmask? }

  /** The isr thread is blocked at its idle block. */
  predicate Parked(s: State)
  {
    s.isrQueue.BlockQ? && (s.isrPc == IUnlock(IBlock) || s.isrPc == IBlock)
  }

  /** The depth at each point of the main thread's calls. */
  predicate MainShape(s: State)
  {
    match s.main
    case Code => true
    case SemWait(k) => s.depth == 0 && (k.ToCode? || k.ToSched? || k.ToMove?)
    case DepthInc(k) => s.depth == 0 && (k.ToCode? || k.ToSched? || k.ToMove?)
    case SemPost(k) => s.depth == 0 && !k.ToSched? && !k.ToMove?
    case SchedTop => s.depth == 1
    case Arm => s.depth == 1
    case SetShould => s.depth == 1
    case WaitNtfn => s.depth == 0
    case ClearShould => s.depth == 0
    case Retry => s.depth == 0
    case Moving => s.depth > 0
  }

  /** The main thread is in the middle of a wakeup of the isr thread. */
  predicate InMove(m: MainPc) { m.Moving? || ((m.SemWait? || m.DepthInc?) && m.k.ToMove?) }

  /** The main thread is inside schedule(), on behalf of the current bmk thread. */
  predicate InScheduler(m: MainPc)
  {
    !m.Code? && !(m == SemWait(ToCode)) && !(m == DepthInc(ToCode)) && !(m == SemPost(ToCode)) && !InMove(m)
  }

  /** The isr thread holds the spl where its code says so. */
  predicate IsrShape(s: State)
  {
    && (s.isrPc.ILock? ==> s.isrPc.next.ICopyHard? || s.isrPc.next.ICopySoft? || s.isrPc.next.ICheck?)
    && (s.isrPc.IUnlock? ==> s.isrPc.next.IHandle1? || s.isrPc.next.IHandle2? || s.isrPc.next.IBlock?)
    && (!s.isrCurrent ==> !s.isrQueue.NoQ? && (Handling(s.isrPc) || s.isrPc.IBlock? || s.isrPc == ILock(ICopyHard)))
    && (s.isrCurrent && s.main.Code? ==>
          match s.isrPc
          case ILock(_) => s.depth == 0
          case IUnlock(_) => s.depth == 1
          case IHandle1 => true
          case IHandle2 => true
          case IBlock => s.depth == 0
          case _ => s.depth == 1)
    && (s.isrCurrent && (s.main == SemWait(ToCode) || s.main == DepthInc(ToCode)) ==>
          s.isrPc.ICopyHard? || s.isrPc.ICopySoft? || s.isrPc.ICheck? || Handling(s.isrPc))
    && (s.isrCurrent && InMove(s.main) ==> Handling(s.isrPc))
    && (InMove(s.main) ==> !s.isrQueue.NoQ?)
    && (s.isrCurrent && s.main == SemPost(ToCode) ==> s.isrPc.ILock? || Handling(s.isrPc) || s.isrPc.IBlock?)
    && (s.isrCurrent && InScheduler(s.main) ==> (Handling(s.isrPc) || s.isrPc.IBlock?) && !s.isrQueue.NoQ?)
    && (s.isrCurrent && (s.isrPc == IUnlock(IBlock) || s.isrPc.IBlock?) ==> !s.isrQueue.NoQ?)
    && (s.isrCurrent && !s.isrQueue.NoQ? ==> Handling(s.isrPc) || s.isrPc == IUnlock(IBlock) || s.isrPc.IBlock?)
  }

  predicate ShouldPhase(m: MainPc) { m == SemPost(ToWait) || m.WaitNtfn? || m.ClearShould? }

  /** The semaphore is held by at most one of the two, and mask_the_mask marks the end of the
      handler's section. */
  predicate SemOk(s: State)
  {
    && s.sem == !(MainHolds(s) || HandlerHolds(s))
    && !(MainHolds(s) && HandlerHolds(s))
    && (s.mask <==> MaskPhase(s.handler))
  }

  /** The flag and the notification that end the sleep of the main thread. */
  predicate SleepOk(s: State)
  {
    && (s.should <==> ShouldPhase(s.main))
    && (s.main.Arm? || s.main.SetShould? || s.main == SemPost(ToWait) ==> !Runnable(s))
    && (s.main.WaitNtfn? && Runnable(s) ==> s.ntfn)
    && (s.main.WaitNtfn? && (s.handler.HMask? || s.handler.HTodo? || s.handler.HWake?) ==> s.ntfn)
  }

  /** A parked isr thread with work is about to be woken. */
  predicate ParkOk(s: State)
  {
    Parked(s) && (s.hard || s.soft) ==> s.handler.HWake?
  }

  predicate Inv(s: State)
  {
    !s.halted && !s.torn && MainShape(s) && IsrShape(s) && SemOk(s) && SleepOk(s) && ParkOk(s)
  }

  lemma InitInv(others: nat)
    ensures Inv(Init(others))
  {
  }

  lemma HandlerEnterInv(s: State, h: bool, w: bool)
    requires Inv(s) && !HandlerBlocked(s) && (s.handler.HWait? || s.handler.HSem? || s.handler.HCheck? || s.handler.HShould?)
    ensures Inv(HandlerStep(s, h, w))
  {
  }

  lemma HandlerMaskInv(s: State, h: bool, w: bool)
    requires Inv(s) && s.handler.HMask?
    ensures Inv(HandlerStep(s, h, w))
  {
    hide MainShape, IsrShape;
    ShapesFrame(s, HandlerStep(s, h, w));
  }

  lemma HandlerTodoInv(s: State, h: bool, w: bool)
    requires Inv(s) && s.handler.HTodo?
    ensures Inv(HandlerStep(s, h, w))
  {
    hide MainShape, IsrShape;
    ShapesFrame(s, HandlerStep(s, h, w));
  }

  /** The wake takes the isr thread off blockq, if it is there, and changes nothing else. */
  lemma HandlerWakeIs(s: State, h: bool, w: bool)
    requires SemOk(s) && s.handler.HWake?
    ensures HandlerStep(s, h, w) == s.(handler := HPost, isrQueue := if s.isrQueue.BlockQ? then RunQ else s.isrQueue)
  {
  }

  lemma HandlerWakeSem(s: State, s': State)
    requires SemOk(s) && s.handler.HWake? && s' == s.(handler := HPost, isrQueue := s'.isrQueue)
    ensures SemOk(s')
  {
  }

  lemma HandlerWakeSleep(s: State, s': State)
    requires SleepOk(s) && SemOk(s) && MainShape(s) && s.handler.HWake? && s' == s.(handler := HPost, isrQueue := s'.isrQueue)
    ensures SleepOk(s')
  {
  }

  lemma HandlerWakePark(s: State, s': State)
    requires s' == s.(handler := HPost, isrQueue := if s.isrQueue.BlockQ? then RunQ else s.isrQueue)
    ensures ParkOk(s')
  {
  }

  lemma HandlerWakeInv(s: State, h: bool, w: bool)
    requires Inv(s) && s.handler.HWake?
    ensures Inv(HandlerStep(s, h, w))
  {
    hide MainShape, IsrShape, SemOk, SleepOk, ParkOk, HandlerStep;
    HandlerWakeIs(s, h, w);
    var s' := HandlerStep(s, h, w);
    ShapesFrame(s, s');
    HandlerWakeSem(s, s');
    HandlerWakeSleep(s, s');
    HandlerWakePark(s, s');
  }

  /** The shapes do not look at the handler, nor at which queue the isr thread is on. */
  lemma ShapesFrame(s: State, s': State)
    requires MainShape(s) && IsrShape(s)
    requires s'.main == s.main && s'.depth == s.depth && s'.isrPc == s.isrPc && s'.isrCurrent == s.isrCurrent
    requires s'.isrQueue.NoQ? == s.isrQueue.NoQ?
    ensures MainShape(s') && IsrShape(s')
  {
  }

  lemma HandlerLeaveInv(s: State, h: bool, w: bool)
    requires Inv(s) && (s.handler.HPost? || s.handler.HUnmask?)
    ensures Inv(HandlerStep(s, h, w))
  {
  }

  lemma SplInv(s: State, step: MainStep)
    requires Inv(s) && MainCan(s, step) && (step.Take? || step.Increment? || step.Post?)
    ensures Inv(MainNext(s, step))
  {
  }

  lemma RaiseInv(s: State)
    requires Inv(s) && MainCan(s, RaiseSpl)
    ensures Inv(MainNext(s, RaiseSpl))
  {
  }

  lemma LowerIs(s: State)
    requires SemOk(s) && MainCan(s, LowerSpl)
    ensures MainNext(s, LowerSpl) == if s.depth == 1 then s.(depth := 0, main := SemPost(ToCode)) else s.(depth := s.depth - 1)
  {
  }

  lemma LowerShapes(s: State, s': State)
    requires MainShape(s) && IsrShape(s) && FreeCode(s) && s.depth > 0
    requires s' == if s.depth == 1 then s.(depth := 0, main := SemPost(ToCode)) else s.(depth := s.depth - 1)
    ensures MainShape(s') && IsrShape(s')
  {
  }

  lemma LowerInv(s: State)
    requires Inv(s) && MainCan(s, LowerSpl)
    ensures Inv(MainNext(s, LowerSpl))
  {
    hide MainShape, IsrShape, MainNext;
    LowerIs(s);
    LowerShapes(s, MainNext(s, LowerSpl));
  }

  lemma CallScheduleInv(s: State)
    requires Inv(s) && MainCan(s, Schedule)
    ensures Inv(MainNext(s, Schedule))
  {
  }

  lemma QueueInv(s: State, step: MainStep)
    requires Inv(s) && MainCan(s, step) && (step.ReadyOther? || step.IsrSleep?)
    ensures Inv(MainNext(s, step))
  {
  }

  lemma LookInv(s: State)
    requires Inv(s) && MainCan(s, LookIsr)
    ensures Inv(MainNext(s, LookIsr)) && InMove(MainNext(s, LookIsr).main)
  {
  }

  /** The move keeps the invariant, unless the handler has woken the isr thread since the look. */
  lemma MoveInv(s: State)
    requires Inv(s) && MainCan(s, MoveIsr)
    ensures if s.isrQueue.BlockQ? then Inv(MainNext(s, MoveIsr)) else MainNext(s, MoveIsr).torn
  {
  }

  lemma ScheduleInv(s: State, step: MainStep)
    requires Inv(s) && MainCan(s, step)
    requires step.Expired? || step.ExpiredIsr? || step.PickIsr? || step.PickOther? || step.Idle?
    ensures Inv(MainNext(s, step))
  {
  }

  lemma ArmInv(s: State, step: MainStep)
    requires Inv(s) && MainCan(s, step) && (step.TooLate? || step.ArmOk? || step.ArmFail?)
    ensures Inv(MainNext(s, step))
  {
  }

  lemma SleepInv(s: State, step: MainStep)
    requires Inv(s) && MainCan(s, step) && (step.StoreShould? || step.NtfnArrives?)
    ensures Inv(MainNext(s, step))
  {
  }

  lemma RelockInv(s: State, step: MainStep)
    requires Inv(s) && MainCan(s, step) && (step.DropShould? || step.RetryLock?)
    ensures Inv(MainNext(s, step))
  {
  }

  lemma IsrSplInv(s: State)
    requires Inv(s) && MainCan(s, Isr) && (s.isrPc.ILock? || s.isrPc.IUnlock?)
    ensures Inv(MainNext(s, Isr))
  {
  }

  lemma IsrCopyInv(s: State)
    requires Inv(s) && MainCan(s, Isr) && (s.isrPc.ICopyHard? || s.isrPc.ICopySoft?)
    ensures Inv(MainNext(s, Isr))
  {
  }

  lemma IsrHandleInv(s: State)
    requires Inv(s) && MainCan(s, Isr) && Handling(s.isrPc)
    ensures Inv(MainNext(s, Isr))
  {
  }

  lemma IsrCheckInv(s: State)
    requires Inv(s) && MainCan(s, Isr) && s.isrPc.ICheck?
    ensures Inv(MainNext(s, Isr))
  {
  }

  lemma IsrInv(s: State)
    requires Inv(s) && MainCan(s, Isr) && !s.isrPc.ILock? && !s.isrPc.IUnlock?
    ensures Inv(MainNext(s, Isr))
  {
    hide Inv, MainNext;
    if s.isrPc.ICheck? {
      IsrCheckInv(s);
    } else if Handling(s.isrPc) {
      IsrHandleInv(s);
    } else {
      IsrCopyInv(s);
    }
  }

  lemma MainInv(s: State, step: MainStep)
    requires Inv(s) && MainCan(s, step) && !MainNext(s, step).torn
    ensures Inv(MainNext(s, step))
  {
    hide Inv, MainNext, MainCan;
    match step
    case Take => SplInv(s, step);
    case Increment => SplInv(s, step);
    case Post => SplInv(s, step);
    case RaiseSpl => RaiseInv(s);
    case LowerSpl => LowerInv(s);
    case Schedule => CallScheduleInv(s);
    case ReadyOther => QueueInv(s, step);
    case LookIsr => LookInv(s);
    case MoveIsr => MoveInv(s);
    case IsrSleep => QueueInv(s, step);
    case Expired => ScheduleInv(s, step);
    case ExpiredIsr => ScheduleInv(s, step);
    case PickIsr => ScheduleInv(s, step);
    case PickOther => ScheduleInv(s, step);
    case Idle => ScheduleInv(s, step);
    case Isr =>
      if s.isrPc.ILock? || s.isrPc.IUnlock? {
        IsrSplInv(s);
      } else {
        IsrInv(s);
      }
    case StoreShould => SleepInv(s, step);
    case NtfnArrives => SleepInv(s, step);
    case DropShould => RelockInv(s, step);
    case RetryLock => RelockInv(s, step);
    case _ => ArmInv(s, step);
  }

  lemma StepInv(s: State, step: Step)
    requires Inv(s) && Can(s, step) && !Next(s, step).torn
    ensures Inv(Next(s, step))
  {
    match step
    case OfHandler(h, w) =>
      hide Inv, HandlerStep, HandlerBlocked;
      match s.handler {
        case HMask => HandlerMaskInv(s, h, w);
        case HTodo => HandlerTodoInv(s, h, w);
        case HWake => HandlerWakeInv(s, h, w);
        case HPost => HandlerLeaveInv(s, h, w);
        case HUnmask => HandlerLeaveInv(s, h, w);
        case _ => HandlerEnterInv(s, h, w);
      }
    case OfMain(m) => MainInv(s, m);
    case RaiseIrq =>
    case TimerFires =>
  }

  ghost predicate Run(states: seq<State>, steps: seq<Step>)
  {
    && |states| == |steps| + 1
    && (exists n :: states[0] == Init(n))
    && forall i | 0 <= i < |steps| :: Can(states[i], steps[i]) && states[i + 1] == Next(states[i], steps[i])
  }

  lemma {:induction false} RunInv(states: seq<State>, steps: seq<Step>, i: nat)
    requires Run(states, steps) && i <= |steps| && !states[i].torn
    ensures Inv(states[i])
    decreases i
  {
    hide Inv, Next, Can, Init;
    if i == 0 {
      var n :| states[0] == Init(n);
      InitInv(n);
    } else {
      StaysTorn(states[i - 1], steps[i - 1]);
      RunInv(states, steps, i - 1);
      StepInv(states[i - 1], steps[i - 1]);
    }
  }

  lemma StaysTorn(s: State, step: Step)
    requires Can(s, step)
    ensures s.torn ==> Next(s, step).torn
  {
    hide MainNext, HandlerStep, HandlerBlocked, FreeCode, IsrTurn, Runnable, Handling;
  }

  /** In every state of every run of the two threads that is not torn:
      - neither the handler's check of spldepth nor the check of splx has failed;
      - the handler's critical section and a section of the main thread with interrupts
        blocked never overlap, and whenever the main thread may run, mask_the_mask is clear
        and its splhigh finds the semaphore free;
      - the main thread does not sleep in seL4_Wait while a bmk thread is runnable, unless
        the notification that ends the wait is already pending;
      - the isr thread is not left at its idle block with interrupts to process: if any are
        marked, the handler is just about to wake it. */
  lemma ProtocolSafe(states: seq<State>, steps: seq<Step>, i: nat)
    requires Run(states, steps) && i <= |steps| && !states[i].torn
    ensures var s := states[i];
            && !s.halted
            && !(MainHolds(s) && HandlerHolds(s))
            && (HandlerBlocked(s) ==> !s.mask && (s.main.SemWait? ==> s.sem))
            && (s.main.WaitNtfn? && Runnable(s) ==> s.ntfn)
            && (Parked(s) && (s.hard || s.soft) ==> s.handler.HWake? && !HandlerBlocked(s))
  {
    RunInv(states, steps, i);
  }

  /** No wakeup is lost: once the handler has run, a main thread that was asleep can go on,
      and it finds the isr thread runnable. */
  lemma InterruptWakesSleeper(s: State)
    requires Inv(s) && s.main.WaitNtfn? && s.handler.HWake?
    ensures var s' := HandlerStep(s, false, false);
            s'.isrQueue.RunQ? && s'.ntfn
  {
  }

  // ---- Wakeups of the isr thread by other threads ----

  /** The handler wakes the isr thread. */
  predicate HandlerWakes(s: State, step: Step) { step.OfHandler? && s.handler.HWake? }

  /** Between the look and the move of a wakeup of the isr thread, it stays on its queue exactly as
      long as the handler does not wake it. */
  lemma WindowStep(s: State, step: Step)
    requires Inv(s) && Can(s, step) && InMove(s.main) && step != OfMain(MoveIsr)
    ensures var s' := Next(s, step);
            && !s'.torn && InMove(s'.main)
            && (s'.isrQueue.BlockQ? <==> s.isrQueue.BlockQ? && !HandlerWakes(s, step))
  {
    hide MainShape, IsrShape, SleepOk, ParkOk, MainCan, MainNext, HandlerStep, HandlerBlocked, SemOk;
    match step
    case OfMain(m) => WindowMain(s, m);
    case OfHandler(h, w) => WindowHandler(s, h, w);
    case _ =>
  }

  /** Only these can be taken there. */
  lemma WindowSteps(s: State, m: MainStep)
    requires MainCan(s, m) && InMove(s.main)
    ensures m.Take? || m.Increment? || m.MoveIsr?
  {
    hide HandlerBlocked, Runnable, Handling;
  }

  lemma WindowMain(s: State, m: MainStep)
    requires MainCan(s, m) && InMove(s.main) && !m.MoveIsr?
    ensures var s' := MainNext(s, m);
            !s'.torn && InMove(s'.main) && s'.isrQueue == s.isrQueue && (s.main.Moving? ==> s'.main.Moving?)
  {
    WindowSteps(s, m);
    hide HandlerBlocked, FreeCode, IsrTurn, Runnable, Handling, Splhigh, Splx, IsrStep;
  }

  lemma WindowHandler(s: State, h: bool, w: bool)
    requires SemOk(s) && !HandlerBlocked(s)
    ensures var s' := HandlerStep(s, h, w);
            && s'.torn == s.torn && s'.main == s.main
            && s'.isrQueue == (if s.handler.HWake? && s.isrQueue.BlockQ? then RunQ else s.isrQueue)
            && (s.handler.HWake? ==> s.depth == 0)
  {
    hide HandlerStep, HandlerBlocked;
    if s.handler.HWake? {
      HandlerWakeIs(s, h, w);
    } else {
      hide SemOk;
      HandlerElse(s, h, w);
    }
  }

  lemma HandlerElse(s: State, h: bool, w: bool)
    requires !HandlerBlocked(s) && !s.handler.HWake?
    ensures var s' := HandlerStep(s, h, w); s'.torn == s.torn && s'.main == s.main && s'.isrQueue == s.isrQueue
  {
    hide HandlerStep, HandlerBlocked;
    if s.handler.HWait? || s.handler.HSem? || s.handler.HCheck? {
      HandlerEnters(s, h, w);
    } else if s.handler.HShould? || s.handler.HMask? || s.handler.HTodo? {
      HandlerMarks(s, h, w);
    } else {
      HandlerLeaves(s, h, w);
    }
  }

  lemma HandlerEnters(s: State, h: bool, w: bool)
    requires !HandlerBlocked(s) && (s.handler.HWait? || s.handler.HSem? || s.handler.HCheck?)
    ensures var s' := HandlerStep(s, h, w); s'.torn == s.torn && s'.main == s.main && s'.isrQueue == s.isrQueue
  {
    hide WakeIsr, HandlerBlocked;
  }

  lemma HandlerMarks(s: State, h: bool, w: bool)
    requires s.handler.HShould? || s.handler.HMask? || s.handler.HTodo?
    ensures var s' := HandlerStep(s, h, w); s'.torn == s.torn && s'.main == s.main && s'.isrQueue == s.isrQueue
  {
    hide WakeIsr;
  }

  lemma HandlerLeaves(s: State, h: bool, w: bool)
    requires s.handler.HPost? || s.handler.HUnmask?
    ensures var s' := HandlerStep(s, h, w); s'.torn == s.torn && s'.main == s.main && s'.isrQueue == s.isrQueue
  {
    hide WakeIsr;
  }

  ghost predicate WokenIn(states: seq<State>, steps: seq<Step>, a: nat, b: nat)
    requires b <= |steps| && b <= |states|
  {
    exists j | a < j < b :: HandlerWakes(states[j], steps[j])
  }

  lemma {:induction false} WindowEnd(states: seq<State>, steps: seq<Step>, a: nat, b: nat)
    requires Run(states, steps) && a < b <= |steps| && steps[a] == OfMain(LookIsr)
    requires forall j | a < j < b :: steps[j] != OfMain(MoveIsr)
    ensures !states[b].torn && InMove(states[b].main) && (states[b].isrQueue.BlockQ? <==> !WokenIn(states, steps, a, b))
    decreases b
  {
    hide Inv, Next, Can, InMove, HandlerWakes;
    if b == a + 1 {
      LookStart(states[a]);
      CanLook(states[a]);
      RunInv(states, steps, a);
      LookInv(states[a]);
    } else {
      var m := b - 1;
      WindowEnd(states, steps, a, m);
      RunInv(states, steps, m);
      WindowStep(states[m], steps[m]);
      assert WokenIn(states, steps, a, b) <==> WokenIn(states, steps, a, m) || HandlerWakes(states[m], steps[m]);
    }
  }

  lemma CanLook(s: State)
    requires Can(s, OfMain(LookIsr))
    ensures !s.torn && MainCan(s, LookIsr) && Next(s, OfMain(LookIsr)) == MainNext(s, LookIsr)
  {
  }

  lemma LookStart(s: State)
    requires Can(s, OfMain(LookIsr))
    ensures Next(s, OfMain(LookIsr)).isrQueue.BlockQ?
  {
  }

  /** Exactly when a wakeup of the isr thread by another thread tears the queues: when the handler
      has woken it between the look at a and the move at b. */
  lemma TornExactly(states: seq<State>, steps: seq<Step>, a: nat, b: nat)
    requires Run(states, steps) && a < b < |steps| && steps[a] == OfMain(LookIsr) && steps[b] == OfMain(MoveIsr)
    requires forall j | a < j < b :: steps[j] != OfMain(MoveIsr)
    ensures states[b + 1].torn <==> WokenIn(states, steps, a, b)
  {
    hide Inv, Next, Can, WokenIn;
    WindowEnd(states, steps, a, b);
    RunInv(states, steps, b);
    assert Can(states[b], steps[b]) && states[b + 1] == Next(states[b], steps[b]);
    MoveTears(states[b]);
  }

  lemma MoveTears(s: State)
    requires Inv(s) && Can(s, OfMain(MoveIsr))
    ensures Next(s, OfMain(MoveIsr)).torn <==> !s.isrQueue.BlockQ?
  {
  }

  /** If threads wake the isr thread only at raised spl, no run is torn. */
  lemma {:induction false} RaisedSplSuffices(states: seq<State>, steps: seq<Step>, i: nat)
    requires Run(states, steps) && i <= |steps|
    requires forall j | 0 <= j < i :: steps[j] == OfMain(LookIsr) ==> states[j].depth > 0
    ensures !states[i].torn && Inv(states[i]) &&
            (InMove(states[i].main) ==> states[i].main.Moving? && states[i].isrQueue.BlockQ?)
    decreases i
  {
    hide Inv, Next, Can, Init;
    if i == 0 {
      var n :| states[0] == Init(n);
      InitInv(n);
      InitCode(n);
    } else {
      RaisedSplSuffices(states, steps, i - 1);
      RaisedStep(states[i - 1], steps[i - 1]);
      StepInv(states[i - 1], steps[i - 1]);
    }
  }

  lemma InitCode(n: nat)
    ensures Init(n).main.Code? && !Init(n).torn
  {
  }

  lemma RaisedStep(s: State, step: Step)
    requires Inv(s) && Can(s, step) && (InMove(s.main) ==> s.main.Moving? && s.isrQueue.BlockQ?)
    requires step == OfMain(LookIsr) ==> s.depth > 0
    ensures var s' := Next(s, step); !s'.torn && (InMove(s'.main) ==> s'.main.Moving? && s'.isrQueue.BlockQ?)
  {
    hide IsrShape, SleepOk, ParkOk, MainCan, MainNext, HandlerStep, HandlerBlocked, SemOk;
    match step
    case OfMain(m) => RaisedMain(s, m);
    case OfHandler(h, w) => WindowHandler(s, h, w);
    case _ =>
  }

  lemma RaisedMain(s: State, m: MainStep)
    requires MainShape(s) && SemOk(s) && MainCan(s, m) && (InMove(s.main) ==> s.main.Moving? && s.isrQueue.BlockQ?)
    requires m.LookIsr? ==> s.depth > 0
    ensures var s' := MainNext(s, m); !s'.torn && (InMove(s'.main) ==> s'.main.Moving? && s'.isrQueue.BlockQ?)
  {
    hide MainShape, SemOk, MainNext, MainCan;
    if InMove(s.main) {
      WindowSteps(s, m);
      if m.MoveIsr? {
        RaisedMove(s);
      } else {
        WindowMain(s, m);
      }
    } else if m.LookIsr? {
      RaisedLook(s);
    } else {
      NoEntry(s, m);
    }
  }

  /** splhigh and splx leave the queues alone, and begin no wakeup. */
  lemma SplhighIs(s: State, k: Cont)
    requires !InMove(s.main) && !k.ToMove?
    ensures var s' := Splhigh(s, k); s'.torn == s.torn && s'.isrQueue == s.isrQueue && !InMove(s'.main)
  {
  }

  lemma SplxIs(s: State, k: Cont)
    requires (!InMove(s.main) || s.depth > 0) && !k.ToMove?
    ensures var s' := Splx(s, k); s'.torn == s.torn && s'.isrQueue == s.isrQueue && !InMove(s'.main)
  {
  }

  lemma RaisedMove(s: State)
    requires MainShape(s) && MainCan(s, MoveIsr) && s.isrQueue.BlockQ?
    ensures var s' := MainNext(s, MoveIsr); !s'.torn && !InMove(s'.main)
  {
    hide HandlerBlocked, Splx;
    SplxIs(s.(isrQueue := RunQ), ToCode);
  }

  lemma RaisedLook(s: State)
    requires MainCan(s, LookIsr) && s.depth > 0
    ensures var s' := MainNext(s, LookIsr); !s'.torn && s'.main.Moving? && s'.isrQueue.BlockQ?
  {
    hide HandlerBlocked;
  }

  /** No other step begins a wakeup of the isr thread. */
  lemma NoEntry(s: State, m: MainStep)
    requires MainShape(s) && MainCan(s, m) && !InMove(s.main) && !m.LookIsr?
    ensures var s' := MainNext(s, m); !s'.torn && !InMove(s'.main)
  {
    hide MainShape, MainCan, MainNext, InMove, FreeCode, IsrTurn;
    match m
    case RaiseSpl => SplNoEntry(s, m);
    case LowerSpl => SplNoEntry(s, m);
    case Schedule => SplNoEntry(s, m);
    case RetryLock => SplNoEntry(s, m);
    case PickIsr => PickNoEntry(s, m);
    case PickOther => PickNoEntry(s, m);
    case ArmFail => ArmNoEntry(s, m);
    case StoreShould => ArmNoEntry(s, m);
    case DropShould => ArmNoEntry(s, m);
    case Isr =>
      CanIsr(s);
      IsrNoEntry(s);
    case Take => SemNoEntry(s, m);
    case Increment => SemNoEntry(s, m);
    case Post => SemNoEntry(s, m);
    case ReadyOther => QueueNoEntry(s, m);
    case Expired => QueueNoEntry(s, m);
    case ExpiredIsr => QueueNoEntry(s, m);
    case IsrSleep => QueueNoEntry(s, m);
    case MoveIsr => NotMoving(s);
    case _ => BlockNoEntry(s, m);
  }

  lemma SplNoEntry(s: State, m: MainStep)
    requires MainCan(s, m) && !InMove(s.main) && (m.RaiseSpl? || m.LowerSpl? || m.Schedule? || m.RetryLock?)
    ensures var s' := MainNext(s, m); !s'.torn && !InMove(s'.main)
  {
    hide HandlerBlocked, Splhigh, Splx, InMove, FreeCode;
    SplhighIs(s, ToCode);
    SplhighIs(s, ToSched);
    SplxIs(s, ToCode);
  }

  lemma PickNoEntry(s: State, m: MainStep)
    requires MainCan(s, m) && !InMove(s.main) && (m.PickIsr? || m.PickOther?)
    ensures var s' := MainNext(s, m); !s'.torn && !InMove(s'.main)
  {
    hide HandlerBlocked, Splx, InMove;
    if m.PickOther? {
      SplxIs(s.(others := s.others - 1, isrCurrent := false), ToCode);
    } else {
      SplxIs(s.(isrQueue := NoQ, isrCurrent := true, isrPc := if s.isrPc.IBlock? then ILock(ICopyHard) else s.isrPc), ToCode);
    }
  }

  lemma ArmNoEntry(s: State, m: MainStep)
    requires MainCan(s, m) && !InMove(s.main) && (m.ArmFail? || m.StoreShould? || m.DropShould?)
    ensures var s' := MainNext(s, m); !s'.torn && !InMove(s'.main)
  {
    hide HandlerBlocked, Splhigh, Splx, InMove;
    SplxIs(s, ToRetry);
    SplxIs(s.(should := true), ToWait);
    SplhighIs(s.(should := false), ToSched);
  }

  lemma SemNoEntry(s: State, m: MainStep)
    requires MainShape(s) && MainCan(s, m) && !InMove(s.main) && (m.Take? || m.Increment? || m.Post?)
    ensures var s' := MainNext(s, m); !s'.torn && !InMove(s'.main)
  {
    hide HandlerBlocked;
  }

  lemma QueueNoEntry(s: State, m: MainStep)
    requires MainCan(s, m) && !InMove(s.main) && (m.ReadyOther? || m.Expired? || m.ExpiredIsr? || m.IsrSleep?)
    ensures var s' := MainNext(s, m); !s'.torn && !InMove(s'.main)
  {
    hide HandlerBlocked, InMove, FreeCode, Handling;
  }

  lemma BlockNoEntry(s: State, m: MainStep)
    requires MainCan(s, m) && !InMove(s.main) && (m.Idle? || m.TooLate? || m.ArmOk? || m.NtfnArrives?)
    ensures var s' := MainNext(s, m); !s'.torn && !InMove(s'.main)
  {
    hide HandlerBlocked, Runnable;
  }

  lemma NotMoving(s: State)
    requires MainCan(s, MoveIsr)
    ensures InMove(s.main)
  {
  }

  lemma CanIsr(s: State)
    requires MainCan(s, Isr)
    ensures !s.isrPc.IBlock? && !s.torn && MainNext(s, Isr) == IsrStep(s)
  {
    hide IsrStep, HandlerBlocked;
  }

  lemma IsrNoEntry(s: State)
    requires !InMove(s.main) && !s.isrPc.IBlock?
    ensures var s' := IsrStep(s); s'.torn == s.torn && !InMove(s'.main)
  {
    hide IsrStep, InMove;
    if s.isrPc.ILock? || s.isrPc.IUnlock? {
      IsrSpls(s);
    } else if s.isrPc.ICopyHard? || s.isrPc.ICopySoft? || s.isrPc.ICheck? {
      IsrCopies(s);
    } else {
      IsrHandles(s);
    }
  }

  lemma IsrSpls(s: State)
    requires !InMove(s.main) && (s.isrPc.ILock? || s.isrPc.IUnlock?)
    ensures var s' := IsrStep(s); s'.torn == s.torn && !InMove(s'.main)
  {
    hide Splhigh, Splx, InMove;
    SplhighIs(s.(isrPc := s.isrPc.next), ToCode);
    SplxIs(s.(isrPc := s.isrPc.next), ToCode);
  }

  lemma IsrCopies(s: State)
    requires s.isrPc.ICopyHard? || s.isrPc.ICopySoft? || s.isrPc.ICheck?
    ensures var s' := IsrStep(s); s'.torn == s.torn && s'.main == s.main
  {
    hide Splhigh, Splx;
  }

  lemma IsrHandles(s: State)
    requires s.isrPc.IHandle1? || s.isrPc.IHandle2?
    ensures var s' := IsrStep(s); s'.torn == s.torn && s'.main == s.main
  {
    hide Splhigh, Splx;
  }

  // ---- A run that is torn ----

  ghost predicate Ends(states: seq<State>, steps: seq<Step>, s: State)
  {
    Run(states, steps) && states[|steps|] == s
  }

  ghost predicate Reachable(s: State)
  {
    exists states, steps :: Ends(states, steps, s)
  }

  lemma Start(n: nat)
    ensures Reachable(Init(n))
  {
    hide Init;
    assert Ends([Init(n)], [], Init(n));
  }

  lemma Then(s: State, step: Step)
    requires Reachable(s) && Can(s, step)
    ensures Reachable(Next(s, step))
  {
    hide Init, Can, Next;
    var states, steps :| Ends(states, steps, s);
    var states', steps' := states + [Next(s, step)], steps + [step];
    forall i | 0 <= i < |steps'|
      ensures Can(states'[i], steps'[i]) && states'[i + 1] == Next(states'[i], steps'[i])
    {
      if i < |steps| {
        assert Can(states[i], steps[i]) && states[i + 1] == Next(states[i], steps[i]);
      }
    }
    assert Ends(states', steps', Next(s, step));
  }

  /** Between interrupts. */
  predicate Quiet(s: State)
  {
    s.handler.HWait? && !s.irq && !s.mask && !s.torn
  }

  /** A call of splhigh that finds the semaphore free. */
  lemma Locks(s: State)
    requires Reachable(s) && Quiet(s) && s.sem && s.main.SemWait?
    ensures Reachable(s.(sem := false, depth := s.depth + 1, main := After(s.main.k)))
  {
    hide Reachable, After;
    Then(s, OfMain(Take));
    var s1 := s.(sem := false, main := DepthInc(s.main.k));
    assert s1 == Next(s, OfMain(Take));
    Then(s1, OfMain(Increment));
  }

  /** The isr thread is chosen, takes the hardware interrupts, and a handler of one goes to sleep. */
  lemma IsrFallsAsleep()
    ensures Reachable(Init(1).(isrQueue := BlockQ, isrCurrent := true, isrPc := IHandle1))
  {
    hide Reachable;
    var i := Init(1);
    Start(1);
    Then(i, OfMain(Schedule));
    Locks(i.(main := SemWait(ToSched)));
    var s1 := i.(main := SchedTop, depth := 1, sem := false);
    Then(s1, OfMain(PickIsr));
    var s2 := i.(main := SemPost(ToCode), sem := false, isrQueue := NoQ, isrCurrent := true);
    Then(s2, OfMain(Post));
    IsrTakes(i.(isrQueue := NoQ, isrCurrent := true));
    var s3 := i.(isrQueue := NoQ, isrCurrent := true, isrPc := IHandle1);
    Sleeps(s3);
  }

  lemma IsrTakes(s: State)
    requires Reachable(s) && s == Init(1).(isrQueue := NoQ, isrCurrent := true)
    ensures Reachable(s.(isrPc := IHandle1))
  {
    hide Reachable;
    Then(s, OfMain(Isr));
    Locks(s.(isrPc := ICopyHard, main := SemWait(ToCode)));
    var s1 := s.(isrPc := ICopyHard, depth := 1, sem := false);
    Then(s1, OfMain(Isr));
    var s2 := s1.(isrPc := IUnlock(IHandle1));
    Then(s2, OfMain(Isr));
    var s3 := s.(isrPc := IHandle1, main := SemPost(ToCode), sem := false);
    Then(s3, OfMain(Post));
  }

  lemma Sleeps(s: State)
    requires Reachable(s) && s == Init(1).(isrQueue := NoQ, isrCurrent := true, isrPc := IHandle1)
    ensures Reachable(s.(isrQueue := BlockQ))
  {
    hide Reachable;
    Then(s, OfMain(RaiseSpl));
    Locks(s.(main := SemWait(ToCode)));
    var s1 := s.(depth := 1, sem := false);
    Then(s1, OfMain(IsrSleep));
    var s2 := s1.(isrQueue := BlockQ);
    Then(s2, OfMain(LowerSpl));
    var s3 := s.(isrQueue := BlockQ, main := SemPost(ToCode), sem := false);
    Then(s3, OfMain(Post));
  }

  /** The other thread runs and begins to wake the isr thread. */
  lemma OtherLooks(s: State)
    requires Reachable(s) && s == Init(1).(isrQueue := BlockQ, isrCurrent := true, isrPc := IHandle1)
    ensures Reachable(s.(isrCurrent := false, others := 0, main := SemWait(ToMove)))
  {
    hide Reachable;
    Then(s, OfMain(Schedule));
    Locks(s.(main := SemWait(ToSched)));
    var s1 := s.(main := SchedTop, depth := 1, sem := false);
    Then(s1, OfMain(PickOther));
    var s2 := s.(main := SemPost(ToCode), sem := false, others := 0, isrCurrent := false);
    Then(s2, OfMain(Post));
    Then(s.(others := 0, isrCurrent := false), OfMain(LookIsr));
  }

  /** The handler takes an interrupt and wakes the isr thread. */
  lemma HandlerTurn(s: State)
    requires Reachable(s) && Quiet(s) && s.sem && s.depth == 0 && !s.should && s.isrQueue.BlockQ?
    ensures Reachable(s.(isrQueue := RunQ))
  {
    hide Reachable;
    Then(s, RaiseIrq);
    var s1 := s.(irq := true);
    Then(s1, OfHandler(false, false));
    var s2 := s.(handler := HSem);
    Then(s2, OfHandler(false, false));
    var s3 := s.(handler := HCheck, sem := false);
    Then(s3, OfHandler(false, false));
    var s4 := s3.(handler := HShould);
    Then(s4, OfHandler(false, false));
    HandlerRest(s3.(handler := HMask));
  }

  lemma HandlerRest(s: State)
    requires Reachable(s) && s.handler.HMask? && !s.irq && !s.mask && !s.torn && s.isrQueue.BlockQ?
    ensures Reachable(s.(handler := HWait, sem := true, isrQueue := RunQ))
  {
    hide Reachable;
    var o := OfHandler(false, false);
    Then(s, o);
    var s1 := s.(handler := HTodo, mask := true);
    Then(s1, o);
    var s2 := s1.(handler := HWake);
    Then(s2, o);
    var s3 := s2.(handler := HPost, isrQueue := RunQ);
    Then(s3, o);
    var s4 := s3.(handler := HUnmask, sem := true);
    Then(s4, o);
  }

  /** A run from the beginning that is torn: the isr thread sleeps in a handler, another thread
      sees it on blockq at spl 0, an interrupt wakes it, and the other thread then takes it off
      blockq although it is on runq. */
  lemma TornRun()
    ensures exists s :: Reachable(s) && s.torn
  {
    hide Reachable;
    IsrFallsAsleep();
    var s0 := Init(1).(isrQueue := BlockQ, isrCurrent := true, isrPc := IHandle1);
    OtherLooks(s0);
    var s1 := s0.(isrCurrent := false, others := 0, main := SemWait(ToMove));
    HandlerTurn(s1);
    var s2 := s1.(isrQueue := RunQ);
    Locks(s2);
    var s3 := s2.(sem := false, depth := 1, main := Moving);
    Then(s3, OfMain(MoveIsr));
    assert Reachable(s3.(torn := true));
  }
}
