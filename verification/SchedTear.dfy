/** Torn queues: that the moves of SchedWindow are what the macros of queue.h do to the links, and
    a run from the start that ends with the links spoilt; and one in which a move only costs a
    thread its place. */
module SchedTear {
  import opened Queues
  import Tailq
  import opened SchedSpec
  import opened SchedInv
  import opened SchedSteps
  import opened SchedRuns
  import opened SchedWindow
  import opened SchedWindowRuns

  lemma {:induction false} IndexOf(q: seq<Tid>, t: Tid) returns (k: nat)
    requires t in q
    ensures k < |q| && q[k] == t && Remove(q, t) == Tailq.Without(q, k)
  {
    if q[0] == t {
      k := 0;
    } else {
      var j := IndexOf(q[1..], t);
      k := j + 1;
      assert Remove(q, t) == [q[0]] + Remove(q[1..], t);
      assert Tailq.Without(q, k) == [q[0]] + Tailq.Without(q[1..], j);
    }
  }

  /** If the links hold the queues before a move, they hold the queues after it; unless it tears
      them, and then runq is no queue at all. */
  lemma MoveLinks(f: Fine, c: State, l: Tailq.Links)
    requires Rel(f, c) && FineEnabled(f, Move) && Linked(l, f.s)
    ensures var l', f' := Tailq.Requeue(l, f.look.h, f.look.t), FineNext(f, Move);
            if f'.torn then Tailq.Torn(l', f.look.h, f'.s.runq, f.look.t) && forall q :: !Tailq.Holds(l', Tailq.RunQ, q)
            else Linked(l', f'.s)
  {
    hide Inv, Wake, Enabled, Wakeup, Remove, Linked, Lift, Moved, MovedTorn, AfterWake, Tailq.Requeue, Tailq.Torn, Tailq.Holds;
    var t, h, s := f.look.t, f.look.h, f.s;
    SeenHolds(s, c, t, h);
    if Unmoved(s, c, t) {
      MoveUnmoved(s, c, t, h);
      MoveWaitingLinks(s, l, t, h);
    } else {
      MoveOvertaken(s, c, t, h);
      OnlyRunnable(s, l, t);
      MoveRunnableLinks(s, l, t, h);
    }
  }

  ghost predicate Linked(l: Tailq.Links, s: State) { Tailq.HoldsAll(l, s.runq, s.timeq, s.blockq) }

  lemma OnlyRunnable(s: State, l: Tailq.Links, t: Tid)
    requires Linked(l, s)
    ensures t in s.runq ==> t !in s.timeq && t !in s.blockq
    ensures t in s.timeq ==> t !in s.runq && t !in s.blockq
    ensures t in s.blockq ==> t !in s.runq && t !in s.timeq
  {
    hide Tailq.Holds;
  }

  lemma MoveWaitingLinks(s: State, l: Tailq.Links, t: Tid, h: Head)
    requires Linked(l, s) && t in s.thr && s.cur in s.thr && !h.RunQ? && t in Under(s, h)
    ensures !Tears(s, t, h) && Linked(Tailq.Requeue(l, h, t), AfterWake(Moved(s, t)))
  {
    hide Remove, Tailq.Requeue, Tailq.Without, Tailq.HoldsAll;
    OnlyRunnable(s, l, t);
    RemoveAbsent(s.runq, t);
    var k := IndexOf(Under(s, h), t);
    Tailq.RequeueWaiting(l, s.runq, s.timeq, s.blockq, h, k);
    if h.TimeQ? {
      RemoveAbsent(s.blockq, t);
    } else {
      RemoveAbsent(s.timeq, t);
    }
  }

  lemma MoveRunnableLinks(s: State, l: Tailq.Links, t: Tid, h: Head)
    requires Linked(l, s) && t in s.thr && s.cur in s.thr && !h.RunQ? && t in s.runq
    ensures if Tears(s, t, h) then
              && Tailq.Torn(Tailq.Requeue(l, h, t), h, AfterWake(MovedTorn(s, t)).runq, t)
              && forall q :: !Tailq.Holds(Tailq.Requeue(l, h, t), Tailq.RunQ, q)
            else Linked(Tailq.Requeue(l, h, t), AfterWake(Moved(s, t)))
  {
    hide Remove, Tailq.Requeue, Tailq.Without, Tailq.Torn, Tailq.Holds;
    OnlyRunnable(s, l, t);
    RemoveAbsent(s.timeq, t);
    RemoveAbsent(s.blockq, t);
    var k := IndexOf(s.runq, t);
    RunqDistinct(l, s);
    if k + 1 == |s.runq| {
      var r := s.runq[..k];
      assert s.runq == r + [t];
      LastWithout(s.runq, k);
      Tailq.RequeueLast(l, h, r, t);
      forall q ensures !Tailq.Holds(Tailq.Requeue(l, h, t), Tailq.RunQ, q) {
        Tailq.TornHoldsNothing(Tailq.Requeue(l, h, t), h, r, t, q);
      }
    } else {
      LastElsewhere(s.runq, k);
      Tailq.RequeueRunnable(l, s.runq, s.timeq, s.blockq, h, k);
    }
  }

  lemma RunqDistinct(l: Tailq.Links, s: State)
    requires Linked(l, s)
    ensures NoDup(s.runq)
  {
  }

  lemma LastWithout(q: seq<Tid>, k: nat)
    requires k + 1 == |q|
    ensures Tailq.Without(q, k) == q[..k]
  {
  }

  lemma LastElsewhere(q: seq<Tid>, k: nat)
    requires NoDup(q) && k + 1 < |q|
    ensures q[|q| - 1] != q[k]
  {
  }

  // ---- A run that ends torn ----

  /** A state of two threads that has seen no timeout, exit or join. */
  function Two(main: Tid, a: Thread, t: Tid, b: Thread, cur: Tid, runq: seq<Tid>, blockq: seq<Tid>, now: Time): State
  {
    State(map[main := a, t := b], cur, runq, [], blockq, [main, t], [], [], now, false)
  }

  /** The threads of the run below: running, off the processor after a yield, asleep. */
  const RUNS: Thread := NewThread(false).(onRunq := false, running := true)
  const YIELDED: Thread := NewThread(false).(pc := Yielding)
  const PREPARED: Thread := RUNS.(onBlockq := true, blockprep := true, pc := Prepared(ToUser))
  const ASLEEP: Thread := PREPARED.(running := false, pc := Sleeping(ToUser))

  lemma Beginning(main: Tid, t: Tid, now: Time)
    requires main != t
    ensures var s := Init(main, now);
            && Enabled(s, DoCreate(t, false))
            && var s1 := Next(s, DoCreate(t, false));
               && s1 == Two(main, RUNS, t, NewThread(false), main, [t], [], now) && Enabled(s1, DoYield)
               && Next(s1, DoYield) == Two(main, YIELDED, t, NewThread(false), main, [t, main], [], now)
  {
    var s1 := Next(Init(main, now), DoCreate(t, false));
    assert s1.thr == map[main := RUNS, t := NewThread(false)];
    assert Next(s1, DoYield).thr == map[main := YIELDED, t := NewThread(false)];
  }

  lemma FirstSwitch(main: Tid, t: Tid, now: Time)
    requires main != t
    ensures var s := Two(main, YIELDED, t, NewThread(false), main, [t, main], [], now);
            Enabled(s, DoIterate(now)) && Next(s, DoIterate(now)) == Two(main, YIELDED, t, RUNS, t, [main], [], now)
  {
    var s := Two(main, YIELDED, t, NewThread(false), main, [t, main], [], now);
    assert Expire(s.(now := now)) == s;
    assert Decide(s).thr == map[main := YIELDED, t := RUNS];
  }

  lemma FallsAsleep(main: Tid, t: Tid, now: Time)
    requires main != t
    ensures var s := Two(main, YIELDED, t, RUNS, t, [main], [], now);
            && Enabled(s, DoPrepare(INFTIME))
            && var s1 := Next(s, DoPrepare(INFTIME));
               && s1 == Two(main, YIELDED, t, PREPARED, t, [main], [t], now) && Enabled(s1, DoBlock)
               && Next(s1, DoBlock) == Two(main, YIELDED, t, ASLEEP.(running := true), t, [main], [t], now)
  {
    var s := Two(main, YIELDED, t, RUNS, t, [main], [], now);
    var s1 := Next(s, DoPrepare(INFTIME));
    assert s1.thr == map[main := YIELDED, t := PREPARED];
    assert Next(s1, DoBlock).thr == map[main := YIELDED, t := ASLEEP.(running := true)];
  }

  lemma SecondSwitch(main: Tid, t: Tid, now: Time)
    requires main != t
    ensures var s := Two(main, YIELDED, t, ASLEEP.(running := true), t, [main], [t], now);
            && Enabled(s, DoIterate(now))
            && var s1 := Next(s, DoIterate(now));
               && s1 == Two(main, RUNS.(pc := YieldDone), t, ASLEEP, main, [], [t], now) && Enabled(s1, DoReturn)
               && Next(s1, DoReturn) == Two(main, RUNS, t, ASLEEP, main, [], [t], now)
  {
    var s := Two(main, YIELDED, t, ASLEEP.(running := true), t, [main], [t], now);
    assert Expire(s.(now := now)) == s;
    assert Decide(s).thr == map[main := RUNS.(pc := YieldDone), t := ASLEEP];
    var s1 := Next(s, DoIterate(now));
    assert Reap(s1).thr == s1.thr;
    assert Next(s1, DoReturn).thr == map[main := RUNS, t := ASLEEP];
  }

  /** The main thread begins to wake t, an interrupt wakes t first, and the main thread moves it. */
  lemma Collision(main: Tid, t: Tid, now: Time)
    requires main != t
    ensures var f := Fine(Two(main, RUNS, t, ASLEEP, main, [], [t], now), NoLook, false);
            && FineEnabled(f, Call(DoWake(t)))
            && var f1 := FineNext(f, Call(DoWake(t)));
               && f1 == f.(look := Seen(t, Tailq.BlockQ)) && FineEnabled(f1, Irq(t))
               && var f2 := FineNext(f1, Irq(t));
                  && f2 == f1.(s := Two(main, RUNS, t, ASLEEP.(onRunq := true, onBlockq := false), main, [t], [], now))
                  && FineEnabled(f2, Move)
                  && FineNext(f2, Move) ==
                     Fine(Two(main, RUNS, t, ASLEEP.(onRunq := true, onBlockq := false), main, [], [], now), NoLook, true)
  {
    var s := Two(main, RUNS, t, ASLEEP, main, [], [t], now);
    var woken := ASLEEP.(onRunq := true, onBlockq := false);
    assert Store(s, t).thr == s.thr;
    var s2 := Two(main, RUNS, t, woken, main, [t], [], now);
    assert Wake(s, t).thr == s2.thr;
    assert Remove([t], t) == [] && Remove([], t) == [];
    assert MovedTorn(s2, t).thr == s2.thr;
  }

  /** The links are spoilt in a run from the start, of two threads and one interrupt. The woken
      thread carries THR_RUNQ, so that no wakeup moves it again, and is not reached from runq. If the
      main thread blocks next, it is what TAILQ_FIRST(&runq) finds, and the assertion that this
      thread carries THR_RUNQ fails. */
  lemma TornRun(main: Tid, t: Tid, now: Time) returns (fs: seq<Fine>, steps: seq<FineStep>, l: Tailq.Links)
    requires main != t
    ensures FineRun(fs, steps) && |steps| == 10 && steps[7..] == [Call(DoWake(t)), Irq(t), Move]
    ensures var s := fs[10].s;
            && fs[10].torn && s.cur == main && main in s.thr && t in s.thr && s.thr[t].onRunq && t !in s.runq
            && Linked(l, fs[9].s)
            && var l' := Tailq.Requeue(l, Tailq.BlockQ, t);
               && Tailq.Torn(l', Tailq.BlockQ, [], t)
               && Tailq.Cell(Tailq.InsertTail(l', Tailq.BlockQ, main), Tailq.FirstOf(Tailq.RunQ)) == Tailq.To(main)
               && QueueKnown(s) && !BlockPrepare(s, INFTIME, ToUser).halted
               && !BlockPrepare(s, INFTIME, ToUser).thr[main].onRunq
  {
    hide Next, Enabled, FineNext, FineEnabled, Wakeup, Picked, Tailq.Torn, Tailq.Requeue, Tailq.InsertTail, Tailq.Holds;
    Beginning(main, t, now);
    FirstSwitch(main, t, now);
    FallsAsleep(main, t, now);
    SecondSwitch(main, t, now);
    Collision(main, t, now);
    var f0 := Fine(Init(main, now), NoLook, false);
    var f1 := Called(f0, DoCreate(t, false));
    var f2 := Called(f1, DoYield);
    var f3 := Called(f2, DoIterate(now));
    var f4 := Called(f3, DoPrepare(INFTIME));
    var f5 := Called(f4, DoBlock);
    var f6 := Called(f5, DoIterate(now));
    var f7 := Called(f6, DoReturn);
    var f8 := FineNext(f7, Call(DoWake(t)));
    var f9 := FineNext(f8, Irq(t));
    fs := [f0, f1, f2, f3, f4, f5, f6, f7, f8, f9, FineNext(f9, Move)];
    steps := [Call(DoCreate(t, false)), Call(DoYield), Call(DoIterate(now)), Call(DoPrepare(INFTIME)), Call(DoBlock),
              Call(DoIterate(now)), Call(DoReturn), Call(DoWake(t)), Irq(t), Move];
    assert FinePath(fs, steps);
    l := TornLinks(main, t);
    TornBlocks(main, t, now);
  }

  lemma TornLinks(main: Tid, t: Tid) returns (l: Tailq.Links)
    requires main != t
    ensures Tailq.HoldsAll(l, [t], [], [])
    ensures var l' := Tailq.Requeue(l, Tailq.BlockQ, t);
            && Tailq.Torn(l', Tailq.BlockQ, [], t)
            && Tailq.Cell(Tailq.InsertTail(l', Tailq.BlockQ, main), Tailq.FirstOf(Tailq.RunQ)) == Tailq.To(main)
  {
    l := Tailq.LinksExist([t], [], []);
    assert [] + [t] == [t];
    Tailq.RequeueLast(l, Tailq.BlockQ, [], t);
    Tailq.TornFinds(Tailq.Requeue(l, Tailq.BlockQ, t), Tailq.BlockQ, [], t, main);
  }

  lemma TornBlocks(main: Tid, t: Tid, now: Time)
    requires main != t
    ensures var s := Two(main, RUNS, t, ASLEEP.(onRunq := true, onBlockq := false), main, [], [], now);
            && QueueKnown(s) && s.thr[t].onRunq
            && var s' := BlockPrepare(s, INFTIME, ToUser); !s'.halted && !s'.thr[main].onRunq
  {
  }

  // ---- A run in which a thread falls back ----

  /** A state of three threads that has seen no timeout, exit or join. */
  function Three(main: Tid, a: Thread, t: Tid, b: Thread, u: Tid, c: Thread, cur: Tid, runq: seq<Tid>, blockq: seq<Tid>,
                 now: Time): State
  {
    State(map[main := a, t := b, u := c], cur, runq, [], blockq, [main, t, u], [], [], now, false)
  }

  const NEW: Thread := NewThread(false)
  const BLOCKS: Thread := ASLEEP.(running := true)
  const WOKEN: Thread := ASLEEP.(onRunq := true, onBlockq := false)

  predicate Differ(main: Tid, t: Tid, u: Tid) { main != t && main != u && t != u }

  lemma Begins(main: Tid, t: Tid, u: Tid, now: Time)
    requires Differ(main, t, u)
    ensures var s := Init(main, now);
            && Enabled(s, DoCreate(t, false))
            && var s1 := Next(s, DoCreate(t, false));
               && Enabled(s1, DoCreate(u, false))
               && var s2 := Next(s1, DoCreate(u, false));
                  && s2 == Three(main, RUNS, t, NEW, u, NEW, main, [t, u], [], now) && Enabled(s2, DoYield)
                  && Next(s2, DoYield) == Three(main, YIELDED, t, NEW, u, NEW, main, [t, u, main], [], now)
  {
    var s1 := Next(Init(main, now), DoCreate(t, false));
    var s2 := Next(s1, DoCreate(u, false));
    assert s2.thr == map[main := RUNS, t := NEW, u := NEW];
    assert Next(s2, DoYield).thr == map[main := YIELDED, t := NEW, u := NEW];
  }

  lemma SwitchToFirst(main: Tid, t: Tid, u: Tid, now: Time)
    requires Differ(main, t, u)
    ensures var s := Three(main, YIELDED, t, NEW, u, NEW, main, [t, u, main], [], now);
            && Enabled(s, DoIterate(now))
            && Next(s, DoIterate(now)) == Three(main, YIELDED, t, RUNS, u, NEW, t, [u, main], [], now)
  {
    var s := Three(main, YIELDED, t, NEW, u, NEW, main, [t, u, main], [], now);
    assert Expire(s.(now := now)) == s;
    assert Decide(s).thr == map[main := YIELDED, t := RUNS, u := NEW];
  }

  lemma FirstSleeps(main: Tid, t: Tid, u: Tid, now: Time)
    requires Differ(main, t, u)
    ensures var s := Three(main, YIELDED, t, RUNS, u, NEW, t, [u, main], [], now);
            && Enabled(s, DoPrepare(INFTIME))
            && var s1 := Next(s, DoPrepare(INFTIME));
               && s1 == Three(main, YIELDED, t, PREPARED, u, NEW, t, [u, main], [t], now) && Enabled(s1, DoBlock)
               && Next(s1, DoBlock) == Three(main, YIELDED, t, BLOCKS, u, NEW, t, [u, main], [t], now)
  {
    var s := Three(main, YIELDED, t, RUNS, u, NEW, t, [u, main], [], now);
    var s1 := Next(s, DoPrepare(INFTIME));
    assert s1.thr == map[main := YIELDED, t := PREPARED, u := NEW];
    assert Next(s1, DoBlock).thr == map[main := YIELDED, t := BLOCKS, u := NEW];
  }

  lemma SwitchToSecond(main: Tid, t: Tid, u: Tid, now: Time)
    requires Differ(main, t, u)
    ensures var s := Three(main, YIELDED, t, BLOCKS, u, NEW, t, [u, main], [t], now);
            && Enabled(s, DoIterate(now))
            && Next(s, DoIterate(now)) == Three(main, YIELDED, t, ASLEEP, u, RUNS, u, [main], [t], now)
  {
    var s := Three(main, YIELDED, t, BLOCKS, u, NEW, t, [u, main], [t], now);
    assert Expire(s.(now := now)) == s;
    assert Decide(s).thr == map[main := YIELDED, t := ASLEEP, u := RUNS];
  }

  lemma SecondSleeps(main: Tid, t: Tid, u: Tid, now: Time)
    requires Differ(main, t, u)
    ensures var s := Three(main, YIELDED, t, ASLEEP, u, RUNS, u, [main], [t], now);
            && Enabled(s, DoPrepare(INFTIME))
            && var s1 := Next(s, DoPrepare(INFTIME));
               && s1 == Three(main, YIELDED, t, ASLEEP, u, PREPARED, u, [main], [t, u], now) && Enabled(s1, DoBlock)
               && Next(s1, DoBlock) == Three(main, YIELDED, t, ASLEEP, u, BLOCKS, u, [main], [t, u], now)
  {
    var s := Three(main, YIELDED, t, ASLEEP, u, RUNS, u, [main], [t], now);
    var s1 := Next(s, DoPrepare(INFTIME));
    assert s1.thr == map[main := YIELDED, t := ASLEEP, u := PREPARED];
    assert Next(s1, DoBlock).thr == map[main := YIELDED, t := ASLEEP, u := BLOCKS];
  }

  lemma SwitchBack(main: Tid, t: Tid, u: Tid, now: Time)
    requires Differ(main, t, u)
    ensures var s := Three(main, YIELDED, t, ASLEEP, u, BLOCKS, u, [main], [t, u], now);
            && Enabled(s, DoIterate(now))
            && var s1 := Next(s, DoIterate(now));
               && s1 == Three(main, RUNS.(pc := YieldDone), t, ASLEEP, u, ASLEEP, main, [], [t, u], now)
               && Enabled(s1, DoReturn)
               && Next(s1, DoReturn) == Three(main, RUNS, t, ASLEEP, u, ASLEEP, main, [], [t, u], now)
  {
    var s := Three(main, YIELDED, t, ASLEEP, u, BLOCKS, u, [main], [t, u], now);
    assert Expire(s.(now := now)) == s;
    assert Decide(s).thr == map[main := RUNS.(pc := YieldDone), t := ASLEEP, u := ASLEEP];
    var s1 := Next(s, DoIterate(now));
    assert Reap(s1).thr == s1.thr;
    assert Next(s1, DoReturn).thr == map[main := RUNS, t := ASLEEP, u := ASLEEP];
  }

  lemma Extend(fs: seq<Fine>, steps: seq<FineStep>, step: FineStep) returns (fs': seq<Fine>, steps': seq<FineStep>)
    requires FineRun(fs, steps) && FineEnabled(fs[|steps|], step)
    ensures FineRun(fs', steps') && fs' == fs + [FineNext(fs[|steps|], step)] && steps' == steps + [step]
  {
    hide FineEnabled, FineNext, Init;
    fs', steps' := fs + [FineNext(fs[|steps|], step)], steps + [step];
    assert fs'[0] == fs[0];
  }

  /** A call that wakes nobody, at the end of a run. */
  lemma ExtendCall(fs: seq<Fine>, steps: seq<FineStep>, step: Step) returns (fs': seq<Fine>, steps': seq<FineStep>)
    requires FineRun(fs, steps) && !step.DoWake? && !step.DoSignal? && !step.DoNotify?
    requires !fs[|steps|].torn && fs[|steps|].look.NoLook? && Enabled(fs[|steps|].s, step)
    ensures FineRun(fs', steps') && |steps'| == |steps| + 1
    ensures fs'[|steps'|] == Fine(Next(fs[|steps|].s, step), NoLook, false)
  {
    hide FineEnabled, FineNext, FineRun, Next, Enabled;
    StartOf(fs, steps);
    var f := Called(fs[|steps|], step);
    fs', steps' := Extend(fs, steps, Call(step));
  }

  /** The main thread runs and the two others sleep. */
  lemma BothAsleep(main: Tid, t: Tid, u: Tid, now: Time) returns (fs: seq<Fine>, steps: seq<FineStep>)
    requires Differ(main, t, u)
    ensures FineRun(fs, steps)
    ensures fs[|steps|] == Fine(Three(main, RUNS, t, ASLEEP, u, ASLEEP, main, [], [t, u], now), NoLook, false)
  {
    hide Next, Enabled, FineRun, Three, Init;
    Begins(main, t, u, now);
    SwitchToFirst(main, t, u, now);
    FirstSleeps(main, t, u, now);
    SwitchToSecond(main, t, u, now);
    SecondSleeps(main, t, u, now);
    SwitchBack(main, t, u, now);
    fs, steps := Outset(main, now);
    fs, steps := ExtendCall(fs, steps, DoCreate(t, false));
    fs, steps := ExtendCall(fs, steps, DoCreate(u, false));
    fs, steps := ExtendCall(fs, steps, DoYield);
    fs, steps := ExtendCall(fs, steps, DoIterate(now));
    fs, steps := ExtendCall(fs, steps, DoPrepare(INFTIME));
    fs, steps := ExtendCall(fs, steps, DoBlock);
    fs, steps := ExtendCall(fs, steps, DoIterate(now));
    fs, steps := ExtendCall(fs, steps, DoPrepare(INFTIME));
    fs, steps := ExtendCall(fs, steps, DoBlock);
    fs, steps := ExtendCall(fs, steps, DoIterate(now));
    fs, steps := ExtendCall(fs, steps, DoReturn);
  }

  lemma Outset(main: Tid, now: Time) returns (fs: seq<Fine>, steps: seq<FineStep>)
    ensures FineRun(fs, steps) && steps == [] && fs == [Fine(Init(main, now), NoLook, false)]
  {
    hide Init;
    fs, steps := [Fine(Init(main, now), NoLook, false)], [];
  }

  /** The main thread begins to wake t, interrupts wake t and then u, and the main thread moves t. */
  lemma Overtakes(main: Tid, t: Tid, u: Tid, now: Time)
    requires Differ(main, t, u)
    ensures var f := Fine(Three(main, RUNS, t, ASLEEP, u, ASLEEP, main, [], [t, u], now), NoLook, false);
            && FineEnabled(f, Call(DoWake(t)))
            && var f1 := FineNext(f, Call(DoWake(t)));
               && f1 == f.(look := Seen(t, Tailq.BlockQ)) && FineEnabled(f1, Irq(t))
               && var f2 := FineNext(f1, Irq(t));
                  f2 == f1.(s := Three(main, RUNS, t, WOKEN, u, ASLEEP, main, [t], [u], now))
  {
    var s := Three(main, RUNS, t, ASLEEP, u, ASLEEP, main, [], [t, u], now);
    assert Store(s, t).thr == s.thr;
    assert Remove([t, u], t) == [u];
    assert Wake(s, t).thr == map[main := RUNS, t := WOKEN, u := ASLEEP];
  }

  lemma MovedBack(main: Tid, t: Tid, u: Tid, now: Time)
    requires Differ(main, t, u)
    ensures var f2 := Fine(Three(main, RUNS, t, WOKEN, u, ASLEEP, main, [t], [u], now), Seen(t, Tailq.BlockQ), false);
            && FineEnabled(f2, Irq(u))
            && var f3 := FineNext(f2, Irq(u));
               && f3 == f2.(s := Three(main, RUNS, t, WOKEN, u, WOKEN, main, [t, u], [], now))
               && FineEnabled(f3, Move)
               && FineNext(f3, Move) == Fine(Three(main, RUNS, t, WOKEN, u, WOKEN, main, [u, t], [], now), NoLook, false)
  {
    var s := Three(main, RUNS, t, WOKEN, u, ASLEEP, main, [t], [u], now);
    assert Remove([u], u) == [];
    var s3 := Three(main, RUNS, t, WOKEN, u, WOKEN, main, [t, u], [], now);
    assert Wake(s, u).thr == s3.thr;
    assert Remove([t, u], t) == [u];
    assert Moved(s3, t).thr == s3.thr;
  }

  /** In a run from the start a runnable thread loses its place without any decision: t is first on
      runq, with u behind it, and the move of t puts it behind u. */
  lemma FallbackRun(main: Tid, t: Tid, u: Tid, now: Time) returns (fs: seq<Fine>, steps: seq<FineStep>)
    requires Differ(main, t, u)
    ensures FineRun(fs, steps) && |steps| >= 4 && steps[|steps| - 4..] == [Call(DoWake(t)), Irq(t), Irq(u), Move]
    ensures var n := |steps|;
            !fs[n].torn && fs[n - 1].s.runq == [t, u] && fs[n].s.runq == [u, t] && fs[n - 1].s.thr == fs[n].s.thr
  {
    hide Next, Enabled, FineNext, FineEnabled, FineRun;
    Overtakes(main, t, u, now);
    MovedBack(main, t, u, now);
    fs, steps := BothAsleep(main, t, u, now);
    StartOf(fs, steps);
    fs, steps := Extend(fs, steps, Call(DoWake(t)));
    fs, steps := Extend(fs, steps, Irq(t));
    fs, steps := Extend(fs, steps, Irq(u));
    fs, steps := Extend(fs, steps, Move);
  }
}
