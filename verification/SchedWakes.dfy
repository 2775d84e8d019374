/** A whole wakeup as a function of the state and of the threads that interrupts wake in the
    middle of it. */
module SchedWakes {
  import opened Queues
  import Tailq
  import opened SchedSpec
  import opened SchedInv
  import opened SchedSteps
  import opened SchedRuns
  import opened SchedWindow
  import opened SchedWindowRuns

  /** The wakeups by interrupts, one after the other. */
  function Interrupts(s: State, us: seq<Tid>): (r: State)
    ensures r.thr.Keys == s.thr.Keys && r.cur == s.cur
    decreases |us|
  {
    if us == [] || us[0] !in s.thr then s else Interrupts(Wake(s, us[0]), us[1..])
  }

  /** set_runnable, with the threads that interrupts wake between its look and its move. */
  function SetRunnableAmid(s: State, t: Tid, us: seq<Tid>): Fine
    requires t in s.thr
  {
    var p := Picked(s.thr[t]);
    if p == [] then Fine(s, NoLook, false)
    else
      var s1 := Interrupts(s, us);
      if Tears(s1, t, p[0]) then Fine(MovedTorn(s1, t), NoLook, true) else Fine(Moved(s1, t), NoLook, false)
  }

  /** bmk_sched_wake */
  function WakeAmid(s: State, t: Tid, us: seq<Tid>): Fine
    requires t in s.thr
  {
    SetRunnableAmid(Store(s, t), t, us)
  }

  /** What the wakeups rely on. */
  ghost predicate Orderly(s: State) { NoDup(s.runq) && NoDup(s.timeq) && NoDup(s.blockq) }

  lemma LiftOrderly(s: State, t: Tid, u: Tid)
    requires Orderly(s) && Listed(s, t) && Listed(s, u) && OnHold(s.thr[t])
    ensures Orderly(Lift(s, t)) && Listed(Lift(s, t), u)
  {
    hide Remove, NoDup;
    RemoveMember(s.timeq, t);
    RemoveMember(s.blockq, t);
    AppendMember(s.runq, t);
  }

  lemma WakeOrderly(s: State, t: Tid, u: Tid)
    requires Orderly(s) && Listed(s, t) && Listed(s, u)
    ensures Orderly(Wake(s, t)) && Listed(Wake(s, t), u)
  {
    hide Wake, Orderly;
    WakeIs(s, t);
    if OnHold(s.thr[t]) {
      LiftOrderly(s, t, u);
    } else {
      StoreOrderly(s, t, u);
    }
  }

  lemma StoreOrderly(s: State, t: Tid, u: Tid)
    requires Orderly(s) && t in s.thr && Listed(s, u)
    ensures Orderly(Store(s, t)) && Listed(Store(s, t), u)
  {
    hide NoDup;
  }

  lemma {:induction false} InterruptsSnoc(s: State, us: seq<Tid>, u: Tid)
    requires (forall x | x in us :: x in s.thr) && u in s.thr
    ensures Interrupts(s, us + [u]) == Wake(Interrupts(s, us), u)
    decreases |us|
  {
    hide Wake;
    if us == [] {
      assert Interrupts(s, [u]) == Interrupts(Wake(s, u), [u][1..]);
    } else {
      WakeKeys(s, us[0]);
      assert (us + [u])[1..] == us[1..] + [u] && (us + [u])[0] == us[0];
      InterruptsSnoc(Wake(s, us[0]), us[1..], u);
    }
  }

  lemma WakeKeys(s: State, t: Tid)
    requires t in s.thr
    ensures Wake(s, t).thr.Keys == s.thr.Keys && Wake(s, t).cur == s.cur
  {
    hide Remove;
  }

  /** Without an interrupt the wakeup is the one step. */
  lemma WakeAlone(s: State, t: Tid)
    requires Listed(s, t)
    ensures WakeAmid(s, t, []) == Fine(Wake(s, t), NoLook, false)
  {
    hide Wake, Remove, Moved;
    WakeIs(s, t);
    if OnHold(s.thr[t]) {
      LiftStored(s, t);
    }
  }

  /** In the middle of a wakeup, through any interrupts. */
  lemma {:induction false} InterruptsWindow(s: State, c: State, t: Tid, h: Head, us: seq<Tid>) returns (c': State)
    requires Inv(c) && Window(s, c, t, h) && forall u | u in us :: u in c.thr && !c.thr[u].dead
    ensures Inv(c') && Window(Interrupts(s, us), c', t, h)
    ensures t !in us && Unmoved(s, c, t) ==> Unmoved(Interrupts(s, us), c', t) && c' == Interrupts(c, us)
    decreases |us|
  {
    hide Inv, Window, Wake, Unmoved;
    if us == [] {
      c' := c;
    } else {
      var u := us[0];
      InWindow(s, c, t, h, u);
      if u == t {
        IrqSame(s, c, t, h);
        c' := InterruptsWindow(Wake(s, t), c, t, h, us[1..]);
      } else {
        IrqOther(s, c, t, h, u);
        WakeLives(c, u);
        c' := InterruptsWindow(Wake(s, u), Wake(c, u), t, h, us[1..]);
      }
    }
  }

  lemma WakeLives(c: State, u: Tid)
    requires Inv(c) && u in c.thr && !c.thr[u].dead
    ensures Wake(c, u).thr.Keys == c.thr.Keys && forall x | x in c.thr :: Wake(c, u).thr[x].dead == c.thr[x].dead
  {
    hide Inv, Wake;
    WakeInv(c, u);
  }

  /** A whole wakeup of t in the middle of a call: torn exactly when t was waiting and is the last
      on runq after the interrupts; otherwise the invariant is kept; and if none of them wakes t it is
      the interrupts' wakeups and then its own. */
  lemma WakeAmidMeans(s: State, t: Tid, us: seq<Tid>)
    requires Inv(s) && t in s.thr && !s.thr[t].dead && Wakeup(s, Opener(s, t)) == [t] && Enabled(s, Opener(s, t))
    requires forall u | u in us :: u in s.thr && !s.thr[u].dead
    ensures var f := WakeAmid(s, t, us);
            && (f.torn <==> OnHold(s.thr[t]) && IsLast(Interrupts(Store(s, t), us).runq, t))
            && (!f.torn ==> Inv(f.s) && Inv(AfterWake(f.s)))
            && (t !in us ==> !f.torn && f.s == Wake(if OnHold(s.thr[t]) then Interrupts(s, us) else s, t))
  {
    hide Inv, Wake, Enabled, Wakeup, Remove, Listed, Moved, MovedTorn, AfterWake, Store, Window, Unmoved, Overtaken, Lift;
    Known(s);
    LiveListed(s, t);
    WakeIs(s, t);
    if OnHold(s.thr[t]) {
      var h := Picked(s.thr[t])[0];
      StoreWindow(s, t, h);
      var c := InterruptsWindow(Store(s, t), s, t, h, us);
      WindowMoves(Interrupts(Store(s, t), us), c, t, h);
    } else {
      WakeKeepsCall(s, t);
    }
  }

  lemma StoreWindow(s: State, t: Tid, h: Head)
    requires s.cur in s.thr && t in s.thr && !s.thr[t].dead && Wakeup(s, Opener(s, t)) == [t] && Enabled(s, Opener(s, t))
    requires Picked(s.thr[t]) == [h]
    ensures Window(Store(s, t), s, t, h) && Unmoved(Store(s, t), s, t) && Picked(Store(s, t).thr[t]) == [h]
  {
    hide Enabled, Wakeup;
  }

  lemma WakeKeepsCall(s: State, t: Tid)
    requires Inv(s) && t in s.thr && !s.thr[t].dead && Wakeup(s, Opener(s, t)) == [t] && Enabled(s, Opener(s, t))
    ensures s.cur in Wake(s, t).thr && Wake(s, t).cur == s.cur && Inv(Wake(s, t)) && Inv(AfterWake(Wake(s, t)))
    ensures Picked(Store(s, t).thr[t]) == Picked(s.thr[t])
  {
    hide Inv, Wake, Enabled, Wakeup, AfterWake, Next;
    WakeInv(s, t);
    WakeKeys(s, t);
    OpenerWakes(s, t);
    StepInv(s, Opener(s, t));
  }

  lemma WindowMoves(s: State, c: State, t: Tid, h: Head)
    requires Inv(c) && Window(s, c, t, h)
    ensures t in s.thr && s.cur in s.thr && (Tears(s, t, h) <==> IsLast(s.runq, t))
    ensures Moved(s, t) == Wake(c, t) && Moved(s, t).cur in Moved(s, t).thr && Inv(Moved(s, t)) && Inv(AfterWake(Moved(s, t)))
    ensures Unmoved(s, c, t) ==> !Tears(s, t, h)
  {
    hide Inv, Wake, Enabled, Wakeup, Remove, Listed, Moved, AfterWake, Lift;
    SeenHolds(s, c, t, h);
    InWindow(s, c, t, h, c.cur);
    if Unmoved(s, c, t) {
      MoveUnmoved(s, c, t, h);
      NotRunnable(c, t);
    } else {
      MoveOvertaken(s, c, t, h);
    }
    WakeKeepsCall(c, t);
  }

  /** What wakeups do not touch. */
  predicate SameMarks(th: Thread, th': Thread)
  {
    th'.pc == th.pc && th'.dead == th.dead && th'.mustjoin == th.mustjoin && th'.joined == th.joined
  }

  lemma WakeMarks(s: State, u: Tid, x: Tid)
    requires u in s.thr && x in s.thr
    ensures x in Wake(s, u).thr && SameMarks(s.thr[x], Wake(s, u).thr[x])
  {
    hide Remove;
  }

  lemma {:induction false} InterruptsMarks(s: State, us: seq<Tid>, x: Tid)
    requires x in s.thr
    ensures SameMarks(s.thr[x], Interrupts(s, us).thr[x])
    decreases |us|
  {
    hide Wake;
    if us != [] && us[0] in s.thr {
      WakeMarks(s, us[0], x);
      InterruptsMarks(Wake(s, us[0]), us[1..], x);
    }
  }

  lemma AmidMarks(s: State, t: Tid, us: seq<Tid>, x: Tid)
    requires t in s.thr && x in s.thr
    ensures var f := WakeAmid(s, t, us);
            && f.s.cur == s.cur && x in f.s.thr && SameMarks(s.thr[x], f.s.thr[x])
            && (t in f.s.thr && OnHold(f.s.thr[t]) ==> Picked(s.thr[t]) == [])
  {
    hide Remove, Interrupts;
    InterruptsMarks(Store(s, t), us, x);
  }

  /** The call that makes the wakeup. */
  lemma AmidCall(s: State, t: Tid, us: seq<Tid>)
    requires Inv(s) && t in s.thr && !s.thr[t].dead && Wakeup(s, Opener(s, t)) == [t] && Enabled(s, Opener(s, t))
    requires (forall u | u in us :: u in s.thr && !s.thr[u].dead) && t !in us
    ensures var f, c := WakeAmid(s, t, us), if OnHold(s.thr[t]) then Interrupts(s, us) else s;
            Enabled(c, Opener(s, t)) && f.s.cur in f.s.thr && Next(c, Opener(s, t)) == AfterWake(f.s)
  {
    hide Inv, Wake, Enabled, Wakeup, AfterWake, Next, Window, Unmoved, WakeAmid;
    WakeAmidMeans(s, t, us);
    Known(s);
    AmidMarks(s, t, us, s.cur);
    if OnHold(s.thr[t]) {
      LiveListed(s, t);
      WakeIs(s, t);
      StoreWindow(s, t, Picked(s.thr[t])[0]);
      var c := InterruptsWindow(Store(s, t), s, t, Picked(s.thr[t])[0], us);
      InterruptsMarks(s, us, s.cur);
      WindowCall(Interrupts(Store(s, t), us), c, t, Picked(s.thr[t])[0]);
    } else {
      OpenerWakes(s, t);
    }
  }

  lemma WindowCall(s: State, c: State, t: Tid, h: Head)
    requires Inv(c) && Window(s, c, t, h)
    ensures Enabled(c, Opener(c, t)) && c.cur in Wake(c, t).thr && Next(c, Opener(c, t)) == AfterWake(Wake(c, t))
  {
    hide Inv, Wake, Enabled, Wakeup, AfterWake, Next, Unmoved, Overtaken;
    OpenerWakes(c, t);
  }

  lemma AmidHolds(s: State, t: Tid, us: seq<Tid>)
    requires Inv(s) && t in s.thr && !s.thr[t].dead
    ensures var f := WakeAmid(s, t, us); t in f.s.thr && !OnHold(f.s.thr[t])
  {
    hide Inv, Wake, WakeAmid;
    LiveListed(s, t);
    WakeIs(s, t);
    AmidMarks(s, t, us, t);
    if !OnHold(s.thr[t]) {
      AmidIdle(s, t, us);
    }
  }

  lemma AmidIdle(s: State, t: Tid, us: seq<Tid>)
    requires t in s.thr && Picked(s.thr[t]) == [] && !OnHold(s.thr[t])
    ensures WakeAmid(s, t, us).s == Store(s, t) && !OnHold(Store(s, t).thr[t])
  {
  }

  // ---- The same as steps ----

  function IrqSteps(us: seq<Tid>): seq<FineStep> { seq(|us|, i requires 0 <= i < |us| => Irq(us[i])) }

  lemma {:induction false} RemoveSubset(q: seq<Tid>, t: Tid)
    ensures forall x | x in Remove(q, t) :: x in q
  {
    if q != [] && q[0] != t {
      RemoveSubset(q[1..], t);
    }
  }

  lemma WakeKnown(s: State, u: Tid)
    requires QueueKnown(s) && u in s.thr
    ensures QueueKnown(Wake(s, u))
  {
    hide Remove;
    RemoveSubset(s.timeq, u);
    RemoveSubset(s.blockq, u);
  }

  /** The interrupts as steps of a path. */
  lemma {:induction false} IrqPath(f: Fine, us: seq<Tid>) returns (fs: seq<Fine>)
    requires !f.torn && QueueKnown(f.s) && forall u | u in us :: u in f.s.thr && !f.s.thr[u].dead
    ensures FinePath(fs, IrqSteps(us)) && fs[0] == f && fs[|us|] == f.(s := Interrupts(f.s, us)) && QueueKnown(fs[|us|].s)
    decreases |us|
  {
    hide Wake, QueueKnown;
    if us == [] {
      fs := [f];
    } else {
      var u := us[0];
      assert FineEnabled(f, Irq(u));
      var f1 := FineNext(f, Irq(u));
      WakeKnown(f.s, u);
      WakeKeys(f.s, u);
      forall x | x in us[1..] ensures x in f1.s.thr && !f1.s.thr[x].dead {
        WakeMarks(f.s, u, x);
      }
      var rest := IrqPath(f1, us[1..]);
      fs := [f] + rest;
      assert IrqSteps(us) == [Irq(u)] + IrqSteps(us[1..]);
      StepFirst(f, Irq(u), rest, IrqSteps(us[1..]));
    }
  }

  lemma StepFirst(f: Fine, step: FineStep, fs: seq<Fine>, steps: seq<FineStep>)
    requires FineEnabled(f, step) && FinePath(fs, steps) && fs[0] == FineNext(f, step)
    ensures FinePath([f] + fs, [step] + steps)
  {
    hide FineEnabled, FineNext;
  }

  lemma StepLast(fs: seq<Fine>, steps: seq<FineStep>, step: FineStep)
    requires FinePath(fs, steps) && FineEnabled(fs[|steps|], step)
    ensures FinePath(fs + [FineNext(fs[|steps|], step)], steps + [step])
  {
    hide FineEnabled, FineNext;
  }

  /** A wakeup with interrupts in the middle is a look, the interrupts and a move. */
  lemma AmidIsRun(s: State, step: Step, us: seq<Tid>) returns (fs: seq<Fine>)
    requires FineEnabled(Fine(s, NoLook, false), Call(step)) && Opens(s, step)
    requires forall u | u in us :: u in s.thr && !s.thr[u].dead
    ensures var f, steps := WakeAmid(s, Wakeup(s, step)[0], us), [Call(step)] + IrqSteps(us) + [Move];
            && FinePath(fs, steps) && fs[0] == Fine(s, NoLook, false)
            && f.s.cur in f.s.thr && fs[|steps|] == f.(s := AfterWake(f.s))
  {
    hide Wake, Enabled, Moved, MovedTorn, QueueKnown, AfterWake;
    KnownCurrent(s);
    var f0, t := Fine(s, NoLook, false), Wakeup(s, step)[0];
    var f1 := FineNext(f0, Call(step));
    StoreKnown(s, t);
    var mid := IrqPath(f1, us);
    StepFirst(f0, Call(step), mid, IrqSteps(us));
    fs := [f0] + mid;
    var f2 := mid[|us|];
    assert fs[|us| + 1] == f2;
    KnownCurrent(f2.s);
    assert FineEnabled(f2, Move);
    StepLast(fs, [Call(step)] + IrqSteps(us), Move);
    fs := fs + [FineNext(f2, Move)];
    MovedCurrent(f2.s, t);
  }

  lemma StoreKnown(s: State, t: Tid)
    requires QueueKnown(s) && t in s.thr
    ensures QueueKnown(Store(s, t)) && s.cur in s.thr && Picked(Store(s, t).thr[t]) == Picked(s.thr[t])
  {
  }

  lemma KnownCurrent(s: State)
    requires QueueKnown(s)
    ensures s.cur in s.thr
  {
  }

  lemma MovedCurrent(s: State, t: Tid)
    requires t in s.thr && s.cur in s.thr
    ensures s.cur in Moved(s, t).thr && Moved(s, t).cur == s.cur && s.cur in MovedTorn(s, t).thr && MovedTorn(s, t).cur == s.cur
  {
  }
}
