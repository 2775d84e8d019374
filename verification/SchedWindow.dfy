/** The scheduler with the wakeups of sched.c as they are.

    set_runnable looks at the flags of a thread and picks the queue to take it from before it
    raises the spl. A thread that wakes another at spl 0 can be interrupted between this look and
    the move that follows, and the interrupt handler may wake threads, the same one included.
    Here the look and the move are two steps, with interrupts in between. Runs are proved to come
    to the same as runs with wakeups in one step, unless a move spoils the links of the queues;
    and that is proved to happen exactly when the last thread that interrupts made runnable in
    the window is the one being woken. */
module SchedWindow {
  import opened Queues
  import Tailq
  import opened SchedSpec
  import opened SchedInv
  import opened SchedSteps
  import opened SchedRuns

  type Head = Tailq.Head

  /** What the current thread is about to do: nothing special, or to move a thread that it has
      seen waiting on a queue. */
  datatype Look = NoLook | Seen(t: Tid, h: Head)

  /** `torn` is set when the links of the queues are spoilt; the run ends there. */
  datatype Fine = Fine(s: State, look: Look, torn: bool)

  datatype FineStep =
    | Call(step: Step)  // a step of the machine, a wakeup by the current thread up to its move
    | Irq(t: Tid)       // a wakeup at raised spl, by an interrupt handler
    | Move              // the rest of the current thread's wakeup

  function Under(s: State, h: Head): seq<Tid>
  {
    match h
    case RunQ => s.runq
    case TimeQ => s.timeq
    case BlockQ => s.blockq
  }

  /** The store to bt_wakeup_time. */
  function Store(s: State, t: Tid): State
    requires t in s.thr
  {
    Set(s, t, s.thr[t].(wakeup := INFTIME))
  }

  /** The queue that the switch of set_runnable picks, none if it returns or halts. */
  function Picked(th: Thread): seq<Head>
  {
    if th.onRunq then []
    else if th.onTimeq && !th.onBlockq then [Tailq.TimeQ]
    else if th.onBlockq && !th.onTimeq then [Tailq.BlockQ]
    else []
  }

  /** Does the call begin a wakeup that has something to move? */
  predicate Opens(s: State, step: Step)
    requires s.cur in s.thr
  {
    var w := Wakeup(s, step);
    w != [] && w[0] in s.thr && Picked(s.thr[w[0]]) != []
  }

  /** What follows a wakeup in the call that made it. */
  function AfterWake(s: State): State
    requires s.cur in s.thr
  {
    var pc := s.thr[s.cur].pc;
    if pc.JoinSignal? then Goto(s, User) else if pc.ExitNotify? then Goto(s, ExitPark) else s
  }

  /** The last thread of runq would be taken off by the head of another queue. */
  predicate Tears(s: State, t: Tid, h: Head)
  {
    t !in Under(s, h) && s.runq != [] && s.runq[|s.runq| - 1] == t
  }

  /** The end of set_runnable: TAILQ_REMOVE takes the thread off the queue it is on, whatever the
      head, and TAILQ_INSERT_TAIL puts it on runq. */
  function Moved(s: State, t: Tid): State
    requires t in s.thr
  {
    Set(s.(runq := Remove(s.runq, t) + [t], timeq := Remove(s.timeq, t), blockq := Remove(s.blockq, t)), t,
        s.thr[t].(onRunq := true, onTimeq := false, onBlockq := false))
  }

  /** The same after a tear, as far as it can be reached from runq: the thread is not. */
  function MovedTorn(s: State, t: Tid): State
    requires t in s.thr
  {
    Moved(s, t).(runq := Remove(s.runq, t))
  }

  ghost predicate FineEnabled(f: Fine, step: FineStep)
  {
    && !f.torn && QueueKnown(f.s)
    && match step
       case Call(c) => f.look.NoLook? && Enabled(f.s, c) && (c.DoWake? ==> OwnCode(f.s.thr[f.s.cur].pc))
       case Irq(t) => t in f.s.thr && !f.s.thr[t].dead
       case Move => f.look.Seen? && f.look.t in f.s.thr
  }

  predicate OwnCode(pc: Pc) { pc.User? || pc == Prepared(ToUser) }

  ghost function FineNext(f: Fine, step: FineStep): Fine
    requires FineEnabled(f, step)
  {
    match step
    case Call(c) =>
      if Opens(f.s, c) then
        var t := Wakeup(f.s, c)[0];
        Fine(Store(f.s, t), Seen(t, Picked(f.s.thr[t])[0]), false)
      else Fine(Next(f.s, c), NoLook, false)
    case Irq(t) => f.(s := Wake(f.s, t))
    case Move =>
      var t := f.look.t;
      if Tears(f.s, t, f.look.h) then Fine(AfterWake(MovedTorn(f.s, t)), NoLook, true)
      else Fine(AfterWake(Moved(f.s, t)), NoLook, false)
  }

  ghost predicate FinePath(fs: seq<Fine>, steps: seq<FineStep>)
  {
    && |fs| == |steps| + 1
    && forall i | 0 <= i < |steps| :: FineEnabled(fs[i], steps[i]) && fs[i + 1] == FineNext(fs[i], steps[i])
  }

  /** A run from the start of the main thread. */
  ghost predicate FineRun(fs: seq<Fine>, steps: seq<FineStep>)
  {
    FinePath(fs, steps) && exists main, now :: fs[0] == Fine(Init(main, now), NoLook, false)
  }

  // ---- Wakeups in one step ----

  /** A waiting thread made runnable at once. */
  function Lift(s: State, t: Tid): State
    requires t in s.thr
  {
    Set(s.(runq := s.runq + [t], timeq := Remove(s.timeq, t), blockq := Remove(s.blockq, t)), t, Awake(s.thr[t]))
  }

  /** The thread is on the queues its flags name, and wakeups of it do not halt. */
  predicate Listed(s: State, t: Tid)
  {
    && t in s.thr && OneHot(s.thr[t]) && (Queued(s.thr[t]) || s.thr[t].running)
    && (s.thr[t].onRunq <==> t in s.runq) && (s.thr[t].onTimeq <==> t in s.timeq) && (s.thr[t].onBlockq <==> t in s.blockq)
  }

  lemma LiveListed(s: State, t: Tid)
    requires Inv(s) && t in s.thr && !s.thr[t].dead
    ensures Listed(s, t)
  {
    hide Inv, JoinOk, TimeOk;
    At(s, t);
  }

  lemma WakeIs(s: State, t: Tid)
    requires Listed(s, t)
    ensures Wake(s, t) == if OnHold(s.thr[t]) then Lift(s, t) else Store(s, t)
    ensures OnHold(s.thr[t]) <==> Picked(s.thr[t]) != []
  {
    hide Remove;
    if t !in s.timeq {
      RemoveAbsent(s.timeq, t);
    }
    if t !in s.blockq {
      RemoveAbsent(s.blockq, t);
    }
  }

  // ---- One run and the other ----

  /** The call that a thread in the middle of a wakeup of t has made. */
  function Opener(s: State, t: Tid): Step
    requires s.cur in s.thr
  {
    var pc := s.thr[s.cur].pc;
    if pc.JoinSignal? then DoSignal else if pc.ExitNotify? then DoNotify else DoWake(t)
  }

  /** The thread being woken is still where it was seen. */
  predicate Unmoved(s: State, c: State, t: Tid)
    requires t in c.thr
  {
    s == Store(c, t)
  }

  /** An interrupt has made it runnable in the meantime. */
  predicate Overtaken(s: State, c: State, t: Tid)
    requires t in c.thr
  {
    t in s.runq && Remove(s.runq, t) == c.runq && s == Lift(c, t).(runq := s.runq)
  }

  /** In the middle of a wakeup of t, seen under h; for the machine whose wakeups are one step it
      is still to come. */
  ghost predicate Window(s: State, c: State, t: Tid, h: Head)
  {
    && c.cur in c.thr && t in c.thr && !c.thr[t].dead && Picked(c.thr[t]) == [h]
    && Enabled(c, Opener(c, t)) && Wakeup(c, Opener(c, t)) == [t]
    && (Unmoved(s, c, t) || Overtaken(s, c, t))
  }

  /** The state f stands for the state c of the machine whose wakeups are one step. */
  ghost predicate Rel(f: Fine, c: State)
  {
    && !f.torn && Inv(c)
    && match f.look
       case NoLook => f.s == c
       case Seen(t, h) => Window(f.s, c, t, h)
  }

  /** The step of that machine: a look is none, and so is an interrupt that wakes the thread being
      woken; the move is the whole wakeup. */
  function Coarse(f: Fine, step: FineStep): Step
    requires f.s.cur in f.s.thr
  {
    match step
    case Call(c) => if Opens(f.s, c) then DoPause else c
    case Irq(t) => if f.look.Seen? && t == f.look.t then DoPause else DoWake(t)
    case Move => if f.look.Seen? then Opener(f.s, f.look.t) else DoPause
  }

  lemma OpenerWakes(c: State, t: Tid)
    requires Inv(c) && Enabled(c, Opener(c, t)) && Wakeup(c, Opener(c, t)) == [t] && t in c.thr && !c.thr[t].dead
    ensures c.cur in Wake(c, t).thr && Next(c, Opener(c, t)) == AfterWake(Wake(c, t))
  {
    hide Inv, Wake, HasJoiner, JoinerOf;
    WakeInv(c, t);
  }

  lemma LookKeeps(c: State, step: Step)
    requires Inv(c) && Enabled(c, step) && Opens(c, step)
    requires step.DoWake? ==> OwnCode(c.thr[c.cur].pc)
    ensures var t := Wakeup(c, step)[0]; Window(Store(c, t), c, t, Picked(c.thr[t])[0])
  {
    hide Inv, JoinerOf, HasJoiner;
    match step
    case DoSignal => SignalInv(c, c.thr[c.cur].pc.wanted);
    case DoNotify => JoinerLives(c);
    case _ =>
  }

  lemma CallKeeps(f: Fine, c: State, step: Step)
    requires Rel(f, c) && FineEnabled(f, Call(step))
    ensures Coarse(f, Call(step)) == if Opens(c, step) then DoPause else step
    ensures Enabled(c, Coarse(f, Call(step))) && Rel(FineNext(f, Call(step)), Next(c, Coarse(f, Call(step))))
  {
    hide Inv, Wakeup, Picked, Window;
    if Opens(c, step) {
      LookKeeps(c, step);
      hide Opens;
    } else {
      hide Next;
      StepInv(c, step);
    }
  }

  // ---- Interrupts ----

  lemma StoreCommutes(c: State, t: Tid, u: Tid)
    requires t in c.thr && u in c.thr && t != u
    ensures Store(Store(c, t), u) == Store(Store(c, u), t)
    ensures Lift(Store(c, t), u) == Store(Lift(c, u), t)
  {
    hide Remove;
    assert Store(Store(c, t), u).thr == Store(Store(c, u), t).thr;
    assert Lift(Store(c, t), u).thr == Store(Lift(c, u), t).thr;
  }

  lemma LiftCommutes(c: State, t: Tid, u: Tid)
    requires t in c.thr && u in c.thr && t != u
    ensures Lift(Lift(c, t), u) == Lift(Lift(c, u), t).(runq := c.runq + [t] + [u])
    ensures Store(Lift(c, t), u) == Lift(Store(c, u), t)
  {
    hide Remove;
    RemoveCommutes(c.timeq, t, u);
    RemoveCommutes(c.blockq, t, u);
    assert Lift(Lift(c, t), u).thr == Lift(Lift(c, u), t).thr;
    assert Store(Lift(c, t), u).thr == Lift(Store(c, u), t).thr;
  }

  /** An interrupt that wakes another thread. */
  lemma IrqOther(s: State, c: State, t: Tid, h: Head, u: Tid)
    requires Inv(c) && Window(s, c, t, h) && u in c.thr && !c.thr[u].dead && u != t
    ensures Inv(Wake(c, u)) && Window(Wake(s, u), Wake(c, u), t, h)
    ensures Unmoved(s, c, t) ==> Unmoved(Wake(s, u), Wake(c, u), t)
  {
    LiveListed(c, u);
    LiveListed(c, t);
    WakeInv(c, u);
    WakeIs(c, u);
    hide Inv, Wake, Remove, Listed;
    OpenerStays(c, u, t);
    RunqNoDup(s, c, t);
    StillListed(s, c, t, u);
    if Unmoved(s, c, t) {
      WakeIs(s, u);
      StoreCommutes(c, t, u);
    } else {
      IrqOvertaken(s, c, t, u);
    }
  }

  lemma IrqOvertaken(s: State, c: State, t: Tid, u: Tid)
    requires t in c.thr && u in c.thr && Overtaken(s, c, t) && u != t && Listed(c, u) && Listed(s, u)
    ensures t in Wake(c, u).thr && Overtaken(Wake(s, u), Wake(c, u), t)
  {
    hide Wake, Remove, Listed;
    WakeIs(c, u);
    WakeIs(s, u);
    RemoveAppend(s.runq, t, u);
    LiftCommutes(c, t, u);
    if OnHold(c.thr[u]) {
      assert Lift(s, u) == Lift(Lift(c, t), u).(runq := s.runq + [u]);
    } else {
      assert Store(s, u) == Store(Lift(c, t), u).(runq := s.runq);
    }
  }

  lemma RunqNoDup(s: State, c: State, t: Tid)
    requires Inv(c) && t in c.thr && OnHold(c.thr[t]) && (Unmoved(s, c, t) || Overtaken(s, c, t))
    ensures NoDup(c.timeq) && NoDup(c.blockq) && NoDup(s.runq)
  {
    hide JoinInv, Sorted, Remove;
    At(c, t);
    if Overtaken(s, c, t) {
      NoDupBack(s.runq, t);
    }
  }

  lemma {:induction false} NoDupBack(q: seq<Tid>, t: Tid)
    requires NoDup(Remove(q, t)) && t !in Remove(q, t)
    ensures NoDup(q) && forall x | x != t :: x in q <==> x in Remove(q, t)
  {
    if q != [] {
      var rest := q[1..];
      assert q == [q[0]] + rest;
      if q[0] != t {
        assert Remove(q, t)[1..] == Remove(rest, t);
        TailMember(Remove(q, t));
        NoDupBack(rest, t);
      }
      PrependMember(rest, q[0]);
    }
  }

  /** The others are listed as before. */
  lemma StillListed(s: State, c: State, t: Tid, u: Tid)
    requires t in c.thr && (Unmoved(s, c, t) || Overtaken(s, c, t)) && u != t && Listed(c, u) && NoDup(c.timeq) &&
             NoDup(c.blockq)
    requires NoDup(s.runq)
    ensures Listed(s, u) && s.thr[u] == c.thr[u]
  {
    hide Remove, NoDup;
    RemoveMember(c.timeq, t);
    RemoveMember(c.blockq, t);
    RemoveMember(s.runq, t);
  }

  lemma OpenerStays(c: State, u: Tid, t: Tid)
    requires Inv(c) && u in c.thr && !c.thr[u].dead && t in c.thr && t != u && !c.thr[t].dead
    requires Enabled(c, Opener(c, t)) && Wakeup(c, Opener(c, t)) == [t]
    ensures var c' := Wake(c, u);
            && c'.cur in c'.thr && t in c'.thr && c'.thr[t] == c.thr[t]
            && Opener(c', t) == Opener(c, t) && Enabled(c', Opener(c', t)) && Wakeup(c', Opener(c', t)) == [t]
  {
    hide Inv, Wake, JoinerOf, HasJoiner;
    WakeInv(c, u);
    Known(Wake(c, u));
  }

  /** Storing the wakeup time first makes no difference. */
  lemma LiftStored(c: State, t: Tid)
    requires Listed(c, t) && OnHold(c.thr[t])
    ensures var s := Store(c, t); Listed(s, t) && Lift(s, t) == Lift(c, t) == Moved(s, t)
  {
    hide Remove;
    RemoveAbsent(c.runq, t);
  }

  lemma WakeStored(c: State, t: Tid)
    requires t in c.thr && Listed(c, t) && OnHold(c.thr[t])
    ensures var s := Store(c, t); Wake(s, t) == Lift(c, t) && Overtaken(Wake(s, t), c, t) && Wake(s, t).runq == s.runq + [t]
  {
    hide Wake, Remove, Listed;
    LiftStored(c, t);
    WakeIs(Store(c, t), t);
    NotRunnable(c, t);
    RemoveAppend(c.runq, t, t);
  }

  lemma NotRunnable(c: State, t: Tid)
    requires Listed(c, t) && OnHold(c.thr[t])
    ensures t !in c.runq && !c.thr[t].onRunq
  {
  }

  lemma WakeRunnable(s: State, t: Tid)
    requires t in s.thr && s.thr[t].onRunq && s.thr[t].wakeup == INFTIME
    ensures Wake(s, t) == s
  {
    assert Store(s, t).thr == s.thr;
  }

  lemma SeenHolds(s: State, c: State, t: Tid, h: Head)
    requires Inv(c) && Window(s, c, t, h)
    ensures Listed(c, t) && OnHold(c.thr[t]) && t in Under(c, h)
    ensures Overtaken(s, c, t) ==> t in s.thr && s.thr[t].onRunq && s.thr[t].wakeup == INFTIME
  {
    hide Inv, Remove, Enabled, Wakeup;
    LiveListed(c, t);
  }

  /** An interrupt that wakes the thread being woken. */
  lemma IrqSame(s: State, c: State, t: Tid, h: Head)
    requires Inv(c) && Window(s, c, t, h)
    ensures Window(Wake(s, t), c, t, h) && Overtaken(Wake(s, t), c, t)
    ensures Unmoved(s, c, t) ==> Wake(s, t).runq == s.runq + [t]
    ensures Overtaken(s, c, t) ==> Wake(s, t) == s
  {
    hide Inv, Wake, Listed, Overtaken, Lift, Enabled, Wakeup;
    SeenHolds(s, c, t, h);
    if Unmoved(s, c, t) {
      WakeStored(c, t);
    }
    if Overtaken(s, c, t) {
      WakeRunnable(s, t);
    }
  }

  // ---- Moves ----

  lemma MoveUnmoved(s: State, c: State, t: Tid, h: Head)
    requires Inv(c) && Window(s, c, t, h) && Unmoved(s, c, t)
    ensures t in s.thr && t in Under(s, h) && Moved(s, t) == Wake(c, t)
  {
    hide Inv, Wake, Listed, Overtaken, Lift, Moved, Enabled, Wakeup;
    SeenHolds(s, c, t, h);
    LiftStored(c, t);
    WakeIs(c, t);
  }

  lemma MoveOvertaken(s: State, c: State, t: Tid, h: Head)
    requires Inv(c) && Window(s, c, t, h) && Overtaken(s, c, t)
    ensures t in s.thr && t !in Under(s, h) && Moved(s, t) == Wake(c, t)
  {
    hide Inv, Wake, Remove, NoDup, Enabled, Wakeup;
    LiveListed(c, t);
    WakeIs(c, t);
    RunqNoDup(s, c, t);
    RemoveMember(c.timeq, t);
    RemoveMember(c.blockq, t);
    RemoveAbsent(Remove(c.timeq, t), t);
    RemoveAbsent(Remove(c.blockq, t), t);
  }

  lemma MoveKeeps(f: Fine, c: State)
    requires Rel(f, c) && FineEnabled(f, Move) && !FineNext(f, Move).torn
    ensures var step := Coarse(f, Move); Enabled(c, step) && Rel(FineNext(f, Move), Next(c, step))
  {
    hide Inv, Wake, Enabled, Next, Moved, MovedTorn, Wakeup, Lift, Store;
    var t, h := f.look.t, f.look.h;
    Known(c);
    InWindow(f.s, c, t, h, c.cur);
    if Unmoved(f.s, c, t) {
      MoveUnmoved(f.s, c, t, h);
    } else {
      MoveOvertaken(f.s, c, t, h);
    }
    OpenerWakes(c, t);
    StepInv(c, Opener(c, t));
  }

  lemma IrqKeeps(f: Fine, c: State, u: Tid)
    requires Rel(f, c) && FineEnabled(f, Irq(u))
    ensures var step := Coarse(f, Irq(u)); Enabled(c, step) && Rel(FineNext(f, Irq(u)), Next(c, step))
  {
    hide Inv, Wake, Window, Wakeup;
    Known(c);
    if f.look.NoLook? {
      StepInv(c, DoWake(u));
    } else {
      InWindow(f.s, c, f.look.t, f.look.h, u);
      if u == f.look.t {
        IrqSame(f.s, c, u, f.look.h);
      } else {
        IrqOther(f.s, c, f.look.t, f.look.h, u);
      }
    }
  }

  lemma InWindow(s: State, c: State, t: Tid, h: Head, u: Tid)
    requires Window(s, c, t, h)
    ensures s.cur == c.cur && s.thr.Keys == c.thr.Keys &&
            (u in c.thr ==> s.thr[u].dead == c.thr[u].dead && s.thr[u].pc == c.thr[u].pc)
  {
    hide Remove, Wakeup, Enabled;
  }

  /** Every step that does not tear the queues comes to a step, or none, of the machine whose
      wakeups are one step. */
  lemma StepKeeps(f: Fine, c: State, step: FineStep)
    requires Rel(f, c) && FineEnabled(f, step) && !FineNext(f, step).torn
    ensures Enabled(c, Coarse(f, step)) && Rel(FineNext(f, step), Next(c, Coarse(f, step)))
  {
    hide Rel, FineNext, Coarse, Next, Enabled;
    match step
    case Call(call) => CallKeeps(f, c, call);
    case Irq(u) => IrqKeeps(f, c, u);
    case Move => MoveKeeps(f, c);
  }

  /** No interrupt of the run wakes the thread that is just being woken. */
  predicate SparedStep(f: Fine, step: FineStep)
  {
    !(step.Irq? && f.look.Seen? && step.t == f.look.t)
  }

  ghost predicate Spared(fs: seq<Fine>, steps: seq<FineStep>, n: nat)
    requires n <= |steps| && n <= |fs|
  {
    forall i | 0 <= i < n :: SparedStep(fs[i], steps[i])
  }

  /** The thread being woken is where it was seen. */
  predicate Still(f: Fine, c: State)
  {
    f.look.Seen? ==> f.look.t in c.thr && Unmoved(f.s, c, f.look.t)
  }

  /** Then the move tears nothing. */
  lemma StillKeeps(f: Fine, c: State, step: FineStep)
    requires Rel(f, c) && FineEnabled(f, step) && Still(f, c) && SparedStep(f, step)
    ensures !FineNext(f, step).torn && Enabled(c, Coarse(f, step)) && Still(FineNext(f, step), Next(c, Coarse(f, step)))
  {
    hide Inv, Next, Enabled, Wakeup, Wake, Lift, Moved, MovedTorn, Picked;
    match step
    case Call(call) =>
      CallKeeps(f, c, call);
      PauseIs(c);
    case Irq(u) =>
      IrqKeeps(f, c, u);
      WakeStep(c, u);
      if f.look.Seen? {
        InWindow(f.s, c, f.look.t, f.look.h, u);
        IrqOther(f.s, c, f.look.t, f.look.h, u);
      }
    case Move =>
      MoveUnmoved(f.s, c, f.look.t, f.look.h);
      MoveKeeps(f, c);
  }

  lemma PauseIs(c: State)
    ensures Enabled(c, DoPause) ==> Next(c, DoPause) == c
  {
  }

  lemma WakeStep(c: State, u: Tid)
    ensures Enabled(c, DoWake(u)) ==> u in c.thr && Next(c, DoWake(u)) == Wake(c, u)
  {
    hide Wake;
  }

  /** Every run, as long as it is not torn, comes to a run of the machine whose wakeups are one
      step: the i-th state stands for its i-th state. A run in which no interrupt wakes the
      thread that is just being woken is not torn. */
  lemma {:induction false} Reduce(fs: seq<Fine>, steps: seq<FineStep>, n: nat) returns (cs: seq<State>, csteps: seq<Step>)
    requires FinePath(fs, steps) && n <= |steps| && Rel(fs[0], fs[0].s) && fs[0].look.NoLook?
    requires !fs[n].torn || Spared(fs, steps, n)
    ensures !fs[n].torn
    ensures |cs| == n + 1 && |csteps| == n && cs[0] == fs[0].s && Path(cs, csteps)
    ensures forall i | 0 <= i <= n :: Rel(fs[i], cs[i])
    ensures forall i | 0 <= i < n :: fs[i].s.cur in fs[i].s.thr && csteps[i] == Coarse(fs[i], steps[i])
    ensures Spared(fs, steps, n) ==> forall i | 0 <= i <= n :: Still(fs[i], cs[i])
    decreases n
  {
    hide Rel, FineNext, Coarse, Next, Enabled, Still, SparedStep;
    if n == 0 {
      cs, csteps := [fs[0].s], [];
      StartStill(fs[0]);
    } else {
      var m := n - 1;
      StepKnown(fs[m], steps[m]);
      cs, csteps := Reduce(fs, steps, m);
      if Spared(fs, steps, n) {
        StillKeeps(fs[m], cs[m], steps[m]);
      }
      StepKeeps(fs[m], cs[m], steps[m]);
      var step := Coarse(fs[m], steps[m]);
      ExtendPath(cs, csteps, step);
      cs, csteps := cs + [Next(cs[m], step)], csteps + [step];
    }
  }

  lemma StepKnown(f: Fine, step: FineStep)
    requires FineEnabled(f, step)
    ensures !f.torn && f.s.cur in f.s.thr
  {
  }

  lemma StartStill(f: Fine)
    requires f.look.NoLook? && Rel(f, f.s)
    ensures Still(f, f.s) && !f.torn
  {
  }

  lemma ExtendPath(cs: seq<State>, csteps: seq<Step>, step: Step)
    requires Path(cs, csteps) && Enabled(cs[|csteps|], step)
    ensures Path(cs + [Next(cs[|csteps|], step)], csteps + [step])
  {
    hide Enabled, Next;
  }

  lemma StartRel(main: Tid, now: Time)
    ensures Rel(Fine(Init(main, now), NoLook, false), Init(main, now))
  {
    hide Inv, Init;
    InitInv(main, now);
  }
}
