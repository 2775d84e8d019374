/** What the scheduler promises over every run, interrupts in the middle of wakeups included. */
module SchedWindowRuns {
  import opened Queues
  import Tailq
  import opened SchedSpec
  import opened SchedInv
  import opened SchedSteps
  import opened SchedRuns
  import opened SchedWindow

  // ---- Safety ----

  /** In the middle of a wakeup everything is in order but the time of the thread being woken and,
      once an interrupt has made it runnable, its place on runq. */
  lemma WindowSafe(s: State, c: State, t: Tid, h: Head, u: Tid)
    requires Inv(c) && Window(s, c, t, h) && u in s.thr
    ensures Safe(s, u) && Handshake(s, u)
  {
    hide Inv, Enabled, Wakeup, Wake;
    InWindow(s, c, t, h, u);
    if Unmoved(s, c, t) {
      StoredSafe(c, t, u);
    } else {
      OvertakenSafe(s, c, t, h, u);
    }
  }

  lemma StoredSafe(c: State, t: Tid, u: Tid)
    requires Inv(c) && t in c.thr && u in c.thr
    ensures Safe(Store(c, t), u) && Handshake(Store(c, t), u)
  {
    hide Inv;
    InvSafe(c, u);
    InvHandshake(c, u);
  }

  lemma OvertakenSafe(s: State, c: State, t: Tid, h: Head, u: Tid)
    requires Inv(c) && Window(s, c, t, h) && Overtaken(s, c, t) && u in s.thr
    ensures Safe(s, u) && Handshake(s, u)
  {
    hide Inv, Wake, Remove, Enabled, Wakeup, Role;
    SeenHolds(s, c, t, h);
    WakeInv(c, t);
    WakeIs(c, t);
    RunqNoDup(s, c, t);
    RemoveMember(s.runq, t);
    InvSafe(Wake(c, t), u);
    InvHandshake(Wake(c, t), u);
  }

  /** In every state of every run that is not torn, no assertion has failed and every thread is
      where its flags say; and so is the join and exit handshake. */
  lemma RunSafe(fs: seq<Fine>, steps: seq<FineStep>, i: nat, t: Tid)
    requires FineRun(fs, steps) && i <= |steps| && !fs[i].torn && t in fs[i].s.thr
    ensures Safe(fs[i].s, t) && Handshake(fs[i].s, t)
  {
    hide Inv, FinePath, Init, Window, Safe, Handshake, Spared;
    StartOf(fs, steps);
    var cs, csteps := Reduce(fs, steps, i);
    var f, c := fs[i], cs[i];
    assert Rel(f, c);
    match f.look
    case NoLook =>
      InvSafe(c, t);
      InvHandshake(c, t);
    case Seen(u, h) => WindowSafe(f.s, c, u, h, t);
  }

  lemma StartOf(fs: seq<Fine>, steps: seq<FineStep>)
    requires FineRun(fs, steps)
    ensures |fs| == |steps| + 1 && FinePath(fs, steps) && Rel(fs[0], fs[0].s) && fs[0].look.NoLook?
  {
    hide Rel, Init;
    var main, now :| fs[0] == Fine(Init(main, now), NoLook, false);
    StartRel(main, now);
  }

  /** A call that wakes nobody. */
  lemma Called(f: Fine, step: Step) returns (f': Fine)
    requires !f.torn && f.look.NoLook? && Enabled(f.s, step) && !step.DoWake? && !step.DoSignal? && !step.DoNotify?
    ensures FineEnabled(f, Call(step)) && f' == FineNext(f, Call(step)) == Fine(Next(f.s, step), NoLook, false)
  {
    f' := Fine(Next(f.s, step), NoLook, false);
  }

  /** THR_RUNNING is not on the current thread in every state: it is clear, and the current
      thread on runq without THR_BLOCKPREP, once it has yielded; and clear once it has died. */
  lemma RunningExceptions(main: Tid, now: Time) returns (y: Fine, e: Fine, d: Fine)
    ensures var f := Fine(Init(main, now), NoLook, false);
            FineRun([f, y], [Call(DoYield)]) && FineRun([f, e, d], [Call(DoExit), Call(DoTestMustJoin)])
    ensures y.s.cur == main && main in y.s.thr && !y.s.thr[main].running && y.s.thr[main].onRunq && !y.s.thr[main].blockprep
    ensures d.s.cur == main && main in d.s.thr && !d.s.thr[main].running && d.s.thr[main].dead && !d.s.halted
  {
    var f := Fine(Init(main, now), NoLook, false);
    y := Called(f, DoYield);
    e := Called(f, DoExit);
    d := Called(e, DoTestMustJoin);
    assert FinePath([f, y], [Call(DoYield)]);
    assert FinePath([f, e, d], [Call(DoExit), Call(DoTestMustJoin)]);
  }

  // ---- When queues are torn ----

  /** The step is an interrupt that takes t off the queue it waits on. */
  predicate TakesOff(f: Fine, step: FineStep, t: Tid)
  {
    step == Irq(t) && t in f.s.thr && OnHold(f.s.thr[t])
  }

  predicate IsLast(q: seq<Tid>, t: Tid) { q != [] && q[|q| - 1] == t }

  /** Only an interrupt that makes a thread runnable changes the end of runq. */
  lemma IrqLast(f: Fine, c: State, u: Tid)
    requires Rel(f, c) && f.look.Seen? && FineEnabled(f, Irq(u))
    ensures FineNext(f, Irq(u)).look == f.look
    ensures IsLast(FineNext(f, Irq(u)).s.runq, f.look.t) <==>
            if TakesOff(f, Irq(u), u) then u == f.look.t else IsLast(f.s.runq, f.look.t)
  {
    hide Inv, Wake, Enabled, Wakeup, Remove, Listed;
    var t, h := f.look.t, f.look.h;
    InWindow(f.s, c, t, h, u);
    SeenHolds(f.s, c, t, h);
    if u == t {
      IrqSame(f.s, c, t, h);
    } else {
      LiveListed(c, u);
      RunqNoDup(f.s, c, t);
      StillListed(f.s, c, t, u);
      WakeIs(f.s, u);
    }
  }

  /** The move tears the queues exactly when the thread is the last on runq. */
  lemma MoveTears(f: Fine, c: State)
    requires Rel(f, c) && FineEnabled(f, Move)
    ensures FineNext(f, Move).torn <==> IsLast(f.s.runq, f.look.t)
  {
    hide Inv, Wake, Enabled, Wakeup, Remove, Moved, MovedTorn, Lift;
    var t, h := f.look.t, f.look.h;
    if Unmoved(f.s, c, t) {
      MoveUnmoved(f.s, c, t, h);
      SeenHolds(f.s, c, t, h);
      NotRunnable(c, t);
    } else {
      MoveOvertaken(f.s, c, t, h);
    }
  }

  /** The last interrupt of a+1..b-1 that made a thread runnable made t so. */
  ghost predicate LastTaken(fs: seq<Fine>, steps: seq<FineStep>, a: nat, b: nat, t: Tid)
    requires b <= |steps| && b <= |fs|
  {
    exists i | a < i < b :: TakesOff(fs[i], steps[i], t) && forall j | i < j < b :: !MakesRunnable(fs[j], steps[j])
  }

  predicate MakesRunnable(f: Fine, step: FineStep) { step.Irq? && TakesOff(f, step, step.t) }

  lemma LastTakenStep(fs: seq<Fine>, steps: seq<FineStep>, a: nat, b: nat, t: Tid)
    requires a < b < |steps| && b < |fs|
    ensures LastTaken(fs, steps, a, b + 1, t) <==>
            if MakesRunnable(fs[b], steps[b]) then TakesOff(fs[b], steps[b], t) else LastTaken(fs, steps, a, b, t)
  {
    hide TakesOff, MakesRunnable;
    if LastTaken(fs, steps, a, b, t) && !MakesRunnable(fs[b], steps[b]) {
      var i :| a < i < b && TakesOff(fs[i], steps[i], t) && forall j | i < j < b :: !MakesRunnable(fs[j], steps[j]);
      assert forall j | i < j < b + 1 :: !MakesRunnable(fs[j], steps[j]);
    }
    if LastTaken(fs, steps, a, b + 1, t) && !MakesRunnable(fs[b], steps[b]) {
      var i :| a < i < b + 1 && TakesOff(fs[i], steps[i], t) && forall j | i < j < b + 1 :: !MakesRunnable(fs[j], steps[j]);
      TakesMakes(fs[i], steps[i], t);
      assert i < b;
      assert forall j | i < j < b :: !MakesRunnable(fs[j], steps[j]);
    }
  }

  lemma TakesMakes(f: Fine, step: FineStep, t: Tid)
    requires TakesOff(f, step, t)
    ensures MakesRunnable(f, step)
  {
  }

  /** A window from the look at a up to b: interrupts and nothing else. */
  ghost predicate InWindowOf(fs: seq<Fine>, steps: seq<FineStep>, a: nat, b: nat, t: Tid)
    requires |fs| == |steps| + 1
  {
    && a < b <= |steps| && FinePath(fs, steps)
    && steps[a].Call? && FineEnabled(fs[a], steps[a]) && Opens(fs[a].s, steps[a].step) && Wakeup(fs[a].s, steps[a].step)[0] == t
    && forall i | a < i < b :: steps[i].Irq?
  }

  lemma {:induction false} WindowEnd(fs: seq<Fine>, steps: seq<FineStep>, a: nat, b: nat, t: Tid)
    requires |fs| == |steps| + 1 && InWindowOf(fs, steps, a, b, t) && Rel(fs[0], fs[0].s) && fs[0].look.NoLook?
    ensures !fs[b].torn && fs[b].look.Seen? && fs[b].look.t == t
    ensures IsLast(fs[b].s.runq, t) <==> LastTaken(fs, steps, a, b, t)
    decreases b
  {
    hide InWindowOf, FineNext, FineEnabled, Rel, LastTaken, IsLast, Spared;
    WindowSteps(fs, steps, a, b, t);
    if b == a + 1 {
      var cs, csteps := Reduce(fs, steps, a);
      LookLast(fs[a], cs[a], steps[a].step);
      NoneTaken(fs, steps, a, t);
    } else {
      var m := b - 1;
      WindowShorter(fs, steps, a, m, t);
      WindowEnd(fs, steps, a, m, t);
      var cs, csteps := Reduce(fs, steps, m);
      var u := steps[m].t;
      IrqLast(fs[m], cs[m], u);
      IrqTears(fs[m], u);
      LastTakenStep(fs, steps, a, m, t);
    }
  }

  lemma WindowSteps(fs: seq<Fine>, steps: seq<FineStep>, a: nat, b: nat, t: Tid)
    requires |fs| == |steps| + 1 && InWindowOf(fs, steps, a, b, t)
    ensures a < b <= |steps| && FinePath(fs, steps) && FineEnabled(fs[b - 1], steps[b - 1]) &&
            fs[b] == FineNext(fs[b - 1], steps[b - 1])
    ensures b > a + 1 ==> steps[b - 1].Irq?
    ensures steps[a].Call? && FineEnabled(fs[a], steps[a]) && !fs[a].torn && fs[a].look.NoLook? &&
            Enabled(fs[a].s, steps[a].step)
    ensures Opens(fs[a].s, steps[a].step) && Wakeup(fs[a].s, steps[a].step)[0] == t
  {
    hide FineNext, Enabled, Opens, Wakeup;
  }

  lemma WindowShorter(fs: seq<Fine>, steps: seq<FineStep>, a: nat, m: nat, t: Tid)
    requires |fs| == |steps| + 1 && a < m && InWindowOf(fs, steps, a, m + 1, t)
    ensures InWindowOf(fs, steps, a, m, t) && FineEnabled(fs[m], steps[m]) && !fs[m].torn
  {
    hide FineNext, Enabled, Opens, Wakeup;
  }

  lemma IrqTears(f: Fine, u: Tid)
    requires FineEnabled(f, Irq(u))
    ensures !FineNext(f, Irq(u)).torn && FineNext(f, Irq(u)).look == f.look
    ensures MakesRunnable(f, Irq(u)) == TakesOff(f, Irq(u), u)
    ensures forall t :: TakesOff(f, Irq(u), t) <==> t == u && TakesOff(f, Irq(u), u)
  {
    hide Wake;
  }

  lemma LookLast(f: Fine, c: State, step: Step)
    requires Rel(f, c) && f.look.NoLook? && FineEnabled(f, Call(step)) && Opens(f.s, step)
    ensures var f', t := FineNext(f, Call(step)), Wakeup(f.s, step)[0];
            !f'.torn && f'.look.Seen? && f'.look.t == t && !IsLast(f'.s.runq, t)
  {
    hide Inv, Enabled, Wakeup;
    var t := Wakeup(f.s, step)[0];
    At(c, t);
  }

  lemma NoneTaken(fs: seq<Fine>, steps: seq<FineStep>, a: nat, t: Tid)
    requires a + 1 <= |steps| && a + 1 <= |fs|
    ensures !LastTaken(fs, steps, a, a + 1, t)
  {
  }

  /** Exactly when a wakeup by a thread tears the queues: of the interrupts between its look at a
      and its move at b, the last that made a thread runnable made the one being woken so. */
  lemma TornExactly(fs: seq<Fine>, steps: seq<FineStep>, a: nat, b: nat, t: Tid)
    requires FineRun(fs, steps) && b < |steps| && InWindowOf(fs, steps, a, b, t) && steps[b].Move?
    ensures fs[b + 1].torn <==> LastTaken(fs, steps, a, b, t)
  {
    hide InWindowOf, FineNext, FineEnabled, Rel, LastTaken, IsLast, Spared;
    StartOf(fs, steps);
    WindowEnd(fs, steps, a, b, t);
    var cs, csteps := Reduce(fs, steps, b);
    assert FineEnabled(fs[b], steps[b]) && fs[b + 1] == FineNext(fs[b], steps[b]);
    MoveTears(fs[b], cs[b]);
  }

  /** A rule that callers can keep: threads that interrupt handlers wake are not woken by threads at
      spl 0. Then no run is torn. */
  ghost predicate RuleKept(fs: seq<Fine>, steps: seq<FineStep>, handled: set<Tid>)
    requires FinePath(fs, steps)
  {
    forall i | 0 <= i < |steps| ::
      && (steps[i].Irq? ==> steps[i].t in handled)
      && (steps[i].Call? && Opens(fs[i].s, steps[i].step) ==> Wakeup(fs[i].s, steps[i].step)[0] !in handled)
  }

  lemma {:induction false} SeenUnhandled(fs: seq<Fine>, steps: seq<FineStep>, handled: set<Tid>, i: nat)
    requires FinePath(fs, steps) && RuleKept(fs, steps, handled) && i <= |steps| && fs[0].look.NoLook?
    ensures fs[i].look.Seen? ==> fs[i].look.t !in handled
    decreases i
  {
    if i > 0 {
      SeenUnhandled(fs, steps, handled, i - 1);
      hide Wake, Moved, MovedTorn, AfterWake, Next, Enabled, Wakeup;
      assert fs[i] == FineNext(fs[i - 1], steps[i - 1]);
    }
  }

  lemma RuleSpares(fs: seq<Fine>, steps: seq<FineStep>, handled: set<Tid>, n: nat)
    requires FineRun(fs, steps) && RuleKept(fs, steps, handled) && n <= |steps|
    ensures Spared(fs, steps, n) && !fs[n].torn
  {
    hide FineNext, FineEnabled, Rel, Opens, Wakeup;
    StartOf(fs, steps);
    forall i | 0 <= i < n ensures SparedStep(fs[i], steps[i]) {
      SeenUnhandled(fs, steps, handled, i);
    }
    hide FinePath;
    var cs, csteps := Reduce(fs, steps, n);
  }

  // ---- Order ----

  /** A move that tears nothing leaves the order of runq exactly when the thread has not been made
      runnable since the look; otherwise it falls back to the end. */
  lemma MoveOrder(f: Fine, c: State)
    requires Rel(f, c) && FineEnabled(f, Move) && !FineNext(f, Move).torn
    ensures f.s.runq <= FineNext(f, Move).s.runq <==> OnHold(f.s.thr[f.look.t])
    ensures IsLast(FineNext(f, Move).s.runq, f.look.t)
  {
    hide Inv, Wake, Enabled, Wakeup, Remove, MovedTorn;
    var t, h := f.look.t, f.look.h;
    SeenHolds(f.s, c, t, h);
    MoveTears(f, c);
    if Unmoved(f.s, c, t) {
      RemoveAbsent(f.s.runq, t);
    } else {
      RunqNoDup(f.s, c, t);
      RemoveMember(f.s.runq, t);
    }
  }

  /** Does the step end a schedule() by choosing a thread? */
  ghost predicate FineDecides(f: Fine, step: FineStep)
    requires FineEnabled(f, step)
  {
    step.Call? && Decides(f.s, step.step)
  }

  lemma SameDecides(f: Fine, c: State, step: FineStep)
    requires Rel(f, c) && FineEnabled(f, step) && Enabled(c, Coarse(f, step))
    ensures Decides(c, Coarse(f, step)) <==> FineDecides(f, step)
  {
    hide Inv, Window, Expire, Picked, HasJoiner, JoinerOf;
  }

  ghost function FineDecisions(fs: seq<Fine>, steps: seq<FineStep>, from: nat, last: nat): nat
    requires FinePath(fs, steps) && from <= last <= |steps|
    decreases last
  {
    if from == last then 0
    else FineDecisions(fs, steps, from, last - 1) + (if FineDecides(fs[last - 1], steps[last - 1]) then 1 else 0)
  }

  lemma {:induction false} SameDecisions(fs: seq<Fine>, steps: seq<FineStep>, cs: seq<State>, csteps: seq<Step>,
                                         from: nat, last: nat)
    requires FinePath(fs, steps) && Path(cs, csteps) && from <= last <= |csteps| <= |steps|
    requires forall i | 0 <= i < |csteps| ::
               Rel(fs[i], cs[i]) && fs[i].s.cur in fs[i].s.thr && csteps[i] == Coarse(fs[i], steps[i])
    ensures Decisions(cs, csteps, from, last) == FineDecisions(fs, steps, from, last)
    decreases last
  {
    hide FineEnabled, Enabled, Rel, Coarse, Decides, FineDecides, FineNext, Next;
    if from < last {
      var m := last - 1;
      SameDecisions(fs, steps, cs, csteps, from, m);
      SameDecides(fs[m], cs[m], steps[m]);
    }
  }

  /** The run queue as it is to stand when the wakeup in progress is over, but for the thread being
      woken, which is then put at its end. */
  function Settled(f: Fine): seq<Tid>
  {
    if f.look.Seen? then Remove(f.s.runq, f.look.t) else f.s.runq
  }

  /** The place of the k-th thread there: one further up behind a thread being woken that an
      interrupt has made runnable already. */
  function Place(f: Fine, k: nat): nat
  {
    if f.look.Seen? && k <= |f.s.runq| && f.look.t in f.s.runq[..k] then k - 1 else k
  }

  predicate BeingWoken(f: Fine, t: Tid) { f.look.Seen? && f.look.t == t }

  lemma PlaceIs(f: Fine, k: nat)
    requires k < |f.s.runq| && !BeingWoken(f, f.s.runq[k])
    ensures Place(f, k) < |Settled(f)| && Settled(f)[Place(f, k)] == f.s.runq[k]
  {
    hide Remove;
    if f.look.Seen? {
      RemovePlace(f.s.runq, f.look.t, k);
    }
  }

  lemma SettledIs(f: Fine, c: State)
    requires Rel(f, c)
    ensures Settled(f) == c.runq && f.s.cur == c.cur
  {
    hide Inv, Enabled, Wakeup, Remove, Lift;
    SameHolds(f, c, f.s.cur);
    if f.look.Seen? && Unmoved(f.s, c, f.look.t) {
      SeenHolds(f.s, c, f.look.t, f.look.h);
      NotRunnable(c, f.look.t);
      RemoveAbsent(f.s.runq, f.look.t);
    }
  }

  /** What a move does to runq, torn or not. */
  lemma MoveSettles(f: Fine)
    requires FineEnabled(f, Move)
    ensures var f' := FineNext(f, Move);
            f'.look.NoLook? && f'.s.runq == Settled(f) + if f'.torn then [] else [f.look.t]
  {
    hide Remove;
  }

  /** Over every run, whatever wakeups, timeouts, yields, creations and interrupts happen, in the
      middle of wakeups too: a thread at place k is at place k - d after d <= k further
      decisions, and the decision after that makes it current. */
  lemma PlacesKept(fs: seq<Fine>, steps: seq<FineStep>, from: nat, last: nat, k: nat)
    requires FineRun(fs, steps) && from <= last <= |steps|
    requires k < |Settled(fs[from])| && FineDecisions(fs, steps, from, last) <= k
    ensures var d := FineDecisions(fs, steps, from, last);
            && k - d < |Settled(fs[last])| && Settled(fs[last])[k - d] == Settled(fs[from])[k]
            && (d == k && last < |steps| && FineDecides(fs[last], steps[last]) ==> fs[last + 1].s.cur == Settled(fs[from])[k])
  {
    hide FineEnabled, FineDecides, FineNext, Settled, FineRun;
    StartOf(fs, steps);
    if fs[last].torn {
      TornEnds(fs, steps, last);
      if from < last {
        PlacesWhole(fs, steps, from, last - 1, k);
      }
    } else {
      PlacesWhole(fs, steps, from, last, k);
    }
  }

  /** Nothing follows a tear, and up to it the places are kept. */
  lemma TornEnds(fs: seq<Fine>, steps: seq<FineStep>, last: nat)
    requires FineRun(fs, steps) && last <= |steps| && fs[last].torn
    ensures last == |steps| > 0 && !fs[last - 1].torn
    ensures !FineDecides(fs[last - 1], steps[last - 1]) && Settled(fs[last]) == Settled(fs[last - 1])
  {
    hide Next, Enabled, Wake, Moved, MovedTorn, AfterWake, Settled, Decides;
    StartOf(fs, steps);
    if last < |steps| {
      StepKnown(fs[last], steps[last]);
    }
    assert FineEnabled(fs[last - 1], steps[last - 1]) && fs[last] == FineNext(fs[last - 1], steps[last - 1]);
    MoveTorn(fs[last - 1]);
  }

  lemma MoveTorn(f: Fine)
    ensures FineEnabled(f, Move) && FineNext(f, Move).torn ==> Settled(FineNext(f, Move)) == Settled(f)
  {
    hide FineEnabled, FineNext, Remove;
    if FineEnabled(f, Move) {
      MoveSettles(f);
    }
  }

  lemma PlacesWhole(fs: seq<Fine>, steps: seq<FineStep>, from: nat, last: nat, k: nat)
    requires FineRun(fs, steps) && from <= last <= |steps| && !fs[last].torn
    requires k < |Settled(fs[from])| && FineDecisions(fs, steps, from, last) <= k
    ensures var d := FineDecisions(fs, steps, from, last);
            && k - d < |Settled(fs[last])| && Settled(fs[last])[k - d] == Settled(fs[from])[k]
            && (d == k && last < |steps| && FineDecides(fs[last], steps[last]) ==> fs[last + 1].s.cur == Settled(fs[from])[k])
  {
    hide FineEnabled, Enabled, Rel, Coarse, Decides, FineDecides, FineNext, Next, Still, Spared, Inv, FineDecisions, Decisions,
         Settled;
    StartOf(fs, steps);
    var n := if last < |steps| && !fs[last + 1].torn then last + 1 else last;
    var cs, csteps := Reduce(fs, steps, n);
    SameDecisions(fs, steps, cs, csteps, from, last);
    SettledIs(fs[from], cs[from]);
    SettledIs(fs[last], cs[last]);
    RelInv(fs[0], cs[0]);
    SchedRuns.BoundedWaiting(cs, csteps, from, last, k);
    if last < |steps| && FineDecides(fs[last], steps[last]) {
      DecisionHolds(fs[last], steps[last]);
      SameDecides(fs[last], cs[last], steps[last]);
      SettledIs(fs[last + 1], cs[last + 1]);
    }
  }

  lemma DecisionHolds(f: Fine, step: FineStep)
    requires FineEnabled(f, step) && FineDecides(f, step)
    ensures !FineNext(f, step).torn
  {
    hide Next, Enabled, Decides;
  }

  /** First come, first served, over every run: whatever wakeups, timeouts, yields, creations and
      interrupts happen in between, a thread at position k of runq is at position k - d after
      d <= k further decisions, and the decision after that makes it current. Both states are
      outside wakeups by the current thread. */
  lemma BoundedWaiting(fs: seq<Fine>, steps: seq<FineStep>, from: nat, last: nat, k: nat)
    requires FineRun(fs, steps) && from <= last <= |steps| && fs[from].look.NoLook? && fs[last].look.NoLook?
    requires k < |fs[from].s.runq| && FineDecisions(fs, steps, from, last) <= k
    ensures var d := FineDecisions(fs, steps, from, last);
            && k - d < |fs[last].s.runq| && fs[last].s.runq[k - d] == fs[from].s.runq[k]
            && (d == k && last < |steps| && FineDecides(fs[last], steps[last]) ==> fs[last + 1].s.cur == fs[from].s.runq[k])
  {
    hide FineEnabled, FineDecides, FineNext, FineRun, FineDecisions;
    PlacesKept(fs, steps, from, last, k);
  }

  /** The same from any state, the middle of a wakeup included: a thread before the one being woken
      keeps its place, and one behind it, once an interrupt has made that runnable, comes a place
      further up. */
  lemma BoundedWaitingAmid(fs: seq<Fine>, steps: seq<FineStep>, from: nat, last: nat, k: nat)
    requires FineRun(fs, steps) && from <= last <= |steps|
    requires k < |fs[from].s.runq| && !BeingWoken(fs[from], fs[from].s.runq[k])
    requires FineDecisions(fs, steps, from, last) <= Place(fs[from], k)
    ensures var d, p, x := FineDecisions(fs, steps, from, last), Place(fs[from], k), fs[from].s.runq[k];
            && p - d < |Settled(fs[last])| && Settled(fs[last])[p - d] == x
            && (d == p && last < |steps| && FineDecides(fs[last], steps[last]) ==> fs[last + 1].s.cur == x)
  {
    hide FineEnabled, FineDecides, FineNext, FineRun, FineDecisions, Settled, Place;
    StartOf(fs, steps);
    PlaceIs(fs[from], k);
    PlacesKept(fs, steps, from, last, Place(fs[from], k));
  }

  /** The thread being woken itself: no decision falls into its wakeup, all that are on runq before
      the move at b are before it afterwards, in order, wherever it was among them; if the move
      tears the queues, it is not reached. */
  lemma FallsBehind(fs: seq<Fine>, steps: seq<FineStep>, from: nat, b: nat)
    requires FineRun(fs, steps) && from <= b < |steps| && fs[from].look.Seen? && steps[b].Move?
    requires forall j | from <= j < b :: !steps[j].Move?
    ensures FineDecisions(fs, steps, from, b + 1) == 0 && fs[b].look == fs[from].look && fs[b + 1].look.NoLook?
    ensures Settled(fs[from]) <= Settled(fs[b])
    ensures fs[b + 1].s.runq == Settled(fs[b]) + if fs[b + 1].torn then [] else [fs[from].look.t]
  {
    hide FineEnabled, FineDecides, FineNext, FineRun, Settled;
    StartOf(fs, steps);
    StaysInWindow(fs, steps, from, b);
    NoDecision(fs[b], steps[b]);
    var p, q := Settled(fs[from]), Settled(fs[b]);
    if p != [] {
      PlacesKept(fs, steps, from, b, |p| - 1);
    }
    forall k | 0 <= k < |p| ensures p[k] == q[k] {
      PlacesKept(fs, steps, from, b, k);
    }
    assert FineEnabled(fs[b], steps[b]) && fs[b + 1] == FineNext(fs[b], steps[b]);
    MoveSettles(fs[b]);
  }

  lemma {:induction false} StaysInWindow(fs: seq<Fine>, steps: seq<FineStep>, from: nat, b: nat)
    requires FinePath(fs, steps) && from <= b <= |steps| && fs[from].look.Seen? && forall j | from <= j < b :: !steps[j].Move?
    ensures FineDecisions(fs, steps, from, b) == 0 && fs[b].look == fs[from].look
    decreases b
  {
    hide FineEnabled, FineDecides, FineNext;
    if from < b {
      StaysInWindow(fs, steps, from, b - 1);
      NoDecision(fs[b - 1], steps[b - 1]);
    }
  }

  lemma NoDecision(f: Fine, step: FineStep)
    requires FineEnabled(f, step) && f.look.Seen?
    ensures !FineDecides(f, step) && (!step.Move? ==> FineNext(f, step).look == f.look)
  {
    hide Next, Enabled, Decides, Wake, Moved, MovedTorn, AfterWake;
  }

  lemma RelInv(f: Fine, c: State)
    requires Rel(f, c)
    ensures Inv(c) && !f.torn && (f.look.NoLook? ==> f.s == c)
  {
    hide Inv, Window;
  }

  // ---- Timeouts ----

  /** The expiry loop of the step takes t off timeq. */
  predicate FineExpires(f: Fine, step: FineStep, t: Tid) { step.Call? && Expires(f.s, step.step, t) }

  /** A step outside schedule() takes t off the queue it waits on. */
  predicate FineWakes(f: Fine, f': Fine, step: FineStep, t: Tid)
  {
    && !(step.Call? && step.step.DoIterate?)
    && t in f.s.thr && OnHold(f.s.thr[t]) && t in f'.s.thr && !OnHold(f'.s.thr[t])
  }

  ghost predicate FineExpiredIn(fs: seq<Fine>, steps: seq<FineStep>, p: nat, r: nat, t: Tid)
    requires r <= |steps| && r <= |fs|
  {
    exists i | p < i < r :: FineExpires(fs[i], steps[i], t)
  }

  ghost predicate FineWokenIn(fs: seq<Fine>, steps: seq<FineStep>, p: nat, r: nat, t: Tid)
    requires r <= |steps| && r < |fs|
  {
    exists i | p < i < r :: FineWakes(fs[i], fs[i + 1], steps[i], t)
  }

  /** t waits as far as the other machine is concerned, and no longer here. */
  predicate Ahead(f: Fine, c: State, t: Tid)
  {
    t in c.thr && t in f.s.thr && OnHold(c.thr[t]) && !OnHold(f.s.thr[t])
  }

  lemma SameHolds(f: Fine, c: State, t: Tid)
    requires Rel(f, c)
    ensures f.s.thr.Keys == c.thr.Keys && f.s.cur == c.cur
    ensures t in c.thr && OnHold(f.s.thr[t]) ==> OnHold(c.thr[t])
    ensures Ahead(f, c, t) ==> f.look.Seen? && f.look.t == t && Overtaken(f.s, c, t)
  {
    hide Inv, Remove, Enabled, Wakeup;
  }

  /** It waits no more until the move. */
  lemma AheadStays(f: Fine, c: State, step: FineStep, t: Tid)
    requires Rel(f, c) && Ahead(f, c, t) && FineEnabled(f, step) && Enabled(c, Coarse(f, step))
    requires !FineNext(f, step).torn
    ensures t in FineNext(f, step).s.thr ==> !OnHold(FineNext(f, step).s.thr[t])
  {
    hide Inv, Enabled, Wakeup, Wake, Lift, Remove, Moved, MovedTorn;
    SameHolds(f, c, t);
    match step
    case Irq(u) =>
      InWindow(f.s, c, t, f.look.h, u);
      if u == t {
        IrqSame(f.s, c, t, f.look.h);
        LiftedHolds(c, t);
      } else {
        IrqApart(f.s, c, t, f.look.h, u);
      }
    case Move =>
      MovedHolds(f.s, t);
    case Call(_) =>
  }

  lemma LiftedHolds(c: State, t: Tid)
    requires t in c.thr
    ensures !OnHold(Lift(c, t).thr[t])
  {
  }

  lemma MovedHolds(s: State, t: Tid)
    requires t in s.thr && s.cur in s.thr
    ensures !OnHold(AfterWake(Moved(s, t)).thr[t]) && !OnHold(AfterWake(MovedTorn(s, t)).thr[t])
  {
  }

  lemma IrqApart(s: State, c: State, t: Tid, h: Head, u: Tid)
    requires Inv(c) && Window(s, c, t, h) && u in c.thr && !c.thr[u].dead && u != t
    ensures t in s.thr && u in s.thr && t in Wake(s, u).thr && Wake(s, u).thr[t] == s.thr[t]
  {
    hide Inv, Enabled, Wakeup, Wake, Remove, Listed;
    SeenHolds(s, c, t, h);
    LiveListed(c, u);
    RunqNoDup(s, c, t);
    StillListed(s, c, t, u);
    WakeIs(s, u);
  }

  lemma ExpiresSame(f: Fine, c: State, step: FineStep, t: Tid)
    requires Rel(f, c) && FineEnabled(f, step) && f.s.cur in f.s.thr
    ensures Expires(c, Coarse(f, step), t) <==> FineExpires(f, step, t)
    ensures Coarse(f, step).DoIterate? <==> step.Call? && step.step.DoIterate?
    ensures Coarse(f, step).DoReturn? <==> step.Call? && step.step.DoReturn?
    ensures step.Call? && (step.step.DoPrepare? || step.step.DoReturn? || step.step.DoIterate?) ==>
              f.look.NoLook? && f.s == c && Coarse(f, step) == step.step
  {
    hide Inv, Window, Enabled, Picked;
  }

  /** t stops waiting here when it does there, but for the time between an interrupt that wakes it
      and the move. */
  lemma WokenOne(f: Fine, c: State, step: FineStep, t: Tid)
    requires Rel(f, c) && FineEnabled(f, step) && Enabled(c, Coarse(f, step)) && t in c.thr
    requires Rel(FineNext(f, step), Next(c, Coarse(f, step))) && Held(c, Next(c, Coarse(f, step)), Coarse(f, step), t)
    ensures var f', c' := FineNext(f, step), Next(c, Coarse(f, step));
            FineWakes(f, f', step, t) || Ahead(f, c, t) <==> Wakes(c, Coarse(f, step), t) || Ahead(f', c', t)
  {
    hide Inv, FineNext, Next, Enabled, Window, Coarse, FineEnabled, Wakeup, InBlock;
    StepKnown(f, step);
    var f', c' := FineNext(f, step), Next(c, Coarse(f, step));
    SameHolds(f, c, t);
    SameHolds(f', c', t);
    ExpiresSame(f, c, step, t);
    WakesOnHold(c, Coarse(f, step), t);
    IterateNoWake(c, Coarse(f, step), t);
    if step.Call? && step.step.DoIterate? {
      IterateLook(f, step);
    } else if Ahead(f, c, t) {
      AheadStays(f, c, step, t);
    }
  }

  lemma IterateNoWake(c: State, step: Step, t: Tid)
    ensures step.DoIterate? ==> !Wakes(c, step, t)
  {
  }

  lemma IterateLook(f: Fine, step: FineStep)
    requires FineEnabled(f, step) && step.Call? && (step.step.DoIterate? || step.step.DoPrepare?)
    ensures f.look.NoLook? && FineNext(f, step).look.NoLook?
  {
    hide Next, Enabled;
  }

  /** The runs of the two machines side by side. */
  ghost predicate Matched(fs: seq<Fine>, steps: seq<FineStep>, cs: seq<State>, csteps: seq<Step>)
  {
    && FinePath(fs, steps) && Path(cs, csteps) && |csteps| <= |steps| && Inv(cs[0])
    && (forall i | 0 <= i <= |csteps| :: Rel(fs[i], cs[i]))
    && forall i | 0 <= i < |csteps| :: fs[i].s.cur in fs[i].s.thr && csteps[i] == Coarse(fs[i], steps[i])
  }

  lemma MatchedAt(fs: seq<Fine>, steps: seq<FineStep>, cs: seq<State>, csteps: seq<Step>, i: nat)
    requires Matched(fs, steps, cs, csteps) && i < |csteps|
    ensures |cs| == |csteps| + 1 && |fs| == |steps| + 1 && |csteps| <= |steps|
    ensures fs[i].s.cur in fs[i].s.thr && FineEnabled(fs[i], steps[i]) && fs[i + 1] == FineNext(fs[i], steps[i])
    ensures csteps[i] == Coarse(fs[i], steps[i]) && Enabled(cs[i], csteps[i]) && cs[i + 1] == Next(cs[i], csteps[i])
    ensures Rel(fs[i], cs[i]) && Rel(fs[i + 1], cs[i + 1]) && Path(cs, csteps) && Inv(cs[0])
  {
    hide FineEnabled, FineNext, Coarse, Rel, Enabled, Next, Inv;
  }

  lemma {:induction false} WokenSame(fs: seq<Fine>, steps: seq<FineStep>, cs: seq<State>, csteps: seq<Step>, p: nat, i: nat)
    requires Matched(fs, steps, cs, csteps) && p < i <= |csteps| && |cs| == |csteps| + 1 && |fs| == |steps| + 1 &&
             |csteps| <= |steps|
    requires csteps[p].DoPrepare? && forall j | p < j < i :: !(csteps[j].DoReturn? && cs[j].cur == cs[p].cur)
    ensures FineWokenIn(fs, steps, p, i, cs[p].cur) <==> WokenIn(cs, csteps, p, i, cs[p].cur) || Ahead(fs[i], cs[i], cs[p].cur)
    decreases i
  {
    hide Matched, FineEnabled, FineNext, Coarse, Rel, Enabled, Next, Inv, FineWakes, Ahead, Wakes, Path, Blocking, Held;
    var t, m := cs[p].cur, i - 1;
    MatchedAt(fs, steps, cs, csteps, m);
    if m == p {
      PrepareNotAhead(fs[p], cs[p], steps[p], t);
    } else {
      WokenSame(fs, steps, cs, csteps, p, m);
      PathInv(cs, csteps, m);
      BlockingUntil(cs, csteps, p, m);
      StillInBlock(cs, csteps, p, m, t);
      HoldStep(cs[m], csteps[m], t);
      WokenOne(fs[m], cs[m], steps[m], t);
    }
  }

  lemma StillInBlock(cs: seq<State>, csteps: seq<Step>, p: nat, m: nat, t: Tid)
    requires p < |csteps| && m < |cs| && m <= |csteps| && csteps[p].DoPrepare? &&
             Blocking(cs, csteps, p, m, t, csteps[p].deadline)
    ensures t in cs[m].thr && InBlock(cs[m].thr[t].pc)
  {
  }

  lemma PrepareNotAhead(f: Fine, c: State, step: FineStep, t: Tid)
    requires Rel(f, c) && FineEnabled(f, step) && Coarse(f, step).DoPrepare? && Enabled(c, Coarse(f, step))
    requires Rel(FineNext(f, step), Next(c, Coarse(f, step)))
    ensures !Ahead(FineNext(f, step), Next(c, Coarse(f, step)), t)
  {
    hide FineNext, Next, Enabled, Window, Inv, Picked, Wakeup;
    IterateLook(f, step);
  }

  lemma {:induction false} ExpiredSame(fs: seq<Fine>, steps: seq<FineStep>, cs: seq<State>, csteps: seq<Step>,
                                       p: nat, r: nat, t: Tid)
    requires Matched(fs, steps, cs, csteps) && r <= |csteps| && |cs| == |csteps| + 1 && |fs| == |steps| + 1 &&
             |csteps| <= |steps|
    ensures FineExpiredIn(fs, steps, p, r, t) <==> ExpiredIn(cs, csteps, p, r, t)
  {
    hide Matched, FineEnabled, Coarse, Rel, FineExpires, Expires;
    forall i | p < i < r ensures FineExpires(fs[i], steps[i], t) <==> Expires(cs[i], csteps[i], t) {
      MatchedAt(fs, steps, cs, csteps, i);
      ExpiresSame(fs[i], cs[i], steps[i], t);
    }
  }

  /** bmk_sched_block, over every run: from the blockprepare of a thread at p to the return of its
      block at r, whatever happens in between, interrupts in the middle of its wakeup included,
      it reports a timeout exactly when the expiry loop took it off timeq, which is exactly when
      nothing else took it off its queue; and then the deadline given to blockprepare has
      passed. */
  lemma TimeoutReport(fs: seq<Fine>, steps: seq<FineStep>, p: nat, r: nat)
    requires FineRun(fs, steps) && p < r < |steps|
    requires steps[p].Call? && steps[p].step.DoPrepare? && steps[r] == Call(DoReturn) && fs[r].s.cur == fs[p].s.cur
    requires forall j | p < j < r :: !(steps[j] == Call(DoReturn) && fs[j].s.cur == fs[p].s.cur)
    ensures var s, t, d := fs[r].s, fs[p].s.cur, steps[p].step.deadline;
            && t in s.thr
            && (ReportsTimeout(s) <==> FineExpiredIn(fs, steps, p, r, t))
            && (ReportsTimeout(s) <==> !FineWokenIn(fs, steps, p, r, t))
            && (ReportsTimeout(s) ==> d != INFTIME && d <= s.now)
  {
    hide FineEnabled, FineNext, Coarse, Rel, Enabled, Next, Inv, FineWakes, FineExpires, Ahead, Wakes, Expires, Path, FinePath,
         FineExpiredIn, FineWokenIn, ExpiredIn, WokenIn, Spared;
    StartOf(fs, steps);
    CallNotTorn(fs, steps, r);
    var cs, csteps := Reduce(fs, steps, r + 1);
    RelInv(fs[0], cs[0]);
    assert Matched(fs, steps, cs, csteps);
    hide Matched;
    var t := fs[p].s.cur;
    SameCall(fs, steps, cs, csteps, p);
    SameCall(fs, steps, cs, csteps, r);
    forall j | p < j < r ensures !(csteps[j].DoReturn? && cs[j].cur == t) {
      SameCall(fs, steps, cs, csteps, j);
    }
    SchedRuns.TimeoutReport(cs, csteps, p, r);
    ExpiredSame(fs, steps, cs, csteps, p, r, t);
    WokenSame(fs, steps, cs, csteps, p, r);
    NotAhead(fs[r], cs[r], t);
  }

  lemma CallNotTorn(fs: seq<Fine>, steps: seq<FineStep>, r: nat)
    requires FinePath(fs, steps) && r < |steps| && steps[r].Call?
    ensures |fs| == |steps| + 1 && !fs[r + 1].torn
  {
    assert fs[r + 1] == FineNext(fs[r], steps[r]);
  }

  lemma NotAhead(f: Fine, c: State, t: Tid)
    requires f.s == c
    ensures !Ahead(f, c, t)
  {
  }

  lemma SameCall(fs: seq<Fine>, steps: seq<FineStep>, cs: seq<State>, csteps: seq<Step>, i: nat)
    requires Matched(fs, steps, cs, csteps) && i < |csteps|
    ensures |cs| == |csteps| + 1 && |fs| == |steps| + 1 && |csteps| <= |steps|
    ensures fs[i].s.cur == cs[i].cur && (csteps[i].DoReturn? <==> steps[i] == Call(DoReturn))
    ensures steps[i].Call? && (steps[i].step.DoPrepare? || steps[i].step.DoReturn?) ==>
              fs[i].s == cs[i] && csteps[i] == steps[i].step
  {
    hide Matched, FineEnabled, Coarse, Rel, Expires, FineExpires;
    MatchedAt(fs, steps, cs, csteps, i);
    SameHolds(fs[i], cs[i], fs[i].s.cur);
    ExpiresSame(fs[i], cs[i], steps[i], fs[i].s.cur);
  }
}
