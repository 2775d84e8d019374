/** The mutex of lib/libbmk_rumpuser/rumpuser_synch.c as a state machine over the threads that
    use it. A step is a stretch between two scheduling points; a thread that waits may be
    made runnable by wakeup_one or, since any code may wake a thread, without it. */
module Mutex {
  import opened Queues

  type Tid = nat

  /** Where a thread is: outside, in the loop of enter before its first try or a later one,
      asleep in wait(), made runnable but not yet back from wait(), or past enter. A waiter
      that is `onlist` has not been taken off the list by wakeup_one. */
  datatype Pc = Outside | Trying(first: bool) | Asleep | Roused(onlist: bool) | Holding

  /** struct rumpuser_mtx with its threads; `owner` is bmk_o. */
  datatype State = State(v: bool, owner: seq<Tid>, waiters: seq<Tid>, pc: map<Tid, Pc>, halted: bool)

  function Init(threads: set<Tid>): State
  {
    State(false, [], [], map t | t in threads :: Outside, false)
  }

  function Goto(s: State, t: Tid, pc: Pc): State
  {
    s.(pc := s.pc[t := pc])
  }

  /** rumpuser_mutex_tryenter by t, with what success and failure lead to. */
  function TryEnter(s: State, t: Tid, busy: Pc): State
  {
    if s.owner == [t] then s.(halted := true)
    else if s.v then Goto(s, t, busy)
    else Goto(s.(v := true, owner := [t]), t, Holding)
  }

  /** wakeup_one */
  function WakeupOne(s: State): State
    requires forall w | w in s.waiters :: w in s.pc
  {
    if s.waiters == [] then s
    else Goto(s.(waiters := s.waiters[1..]), s.waiters[0], Roused(false))
  }

  datatype Step =
    | Begin(t: Tid)      // calls rumpuser_mutex_enter
    | TryOnce(t: Tid)    // calls rumpuser_mutex_tryenter
    | Attempt(t: Tid)    // the next tryenter of enter, and wait() after a later failure
    | Rouse(t: Tid)      // something else wakes a waiter
    | Resume(t: Tid)     // a waiter comes back from wait()
    | Exit(t: Tid)       // calls rumpuser_mutex_exit

  /** A thread enters when it is outside and exits when it holds the mutex. */
  predicate Enabled(s: State, step: Step)
  {
    && step.t in s.pc && (forall w | w in s.waiters :: w in s.pc)
    && match step
       case Begin(t) => s.pc[t].Outside?
       case TryOnce(t) => s.pc[t].Outside?
       case Attempt(t) => s.pc[t].Trying?
       case Rouse(t) => s.pc[t].Asleep?
       case Resume(t) => s.pc[t].Roused?
       case Exit(t) => s.pc[t].Holding?
  }

  function Next(s: State, step: Step): State
    requires Enabled(s, step)
  {
    match step
    case Begin(t) => Goto(s, t, Trying(true))
    case TryOnce(t) => TryEnter(s, t, Outside)
    case Attempt(t) =>
      if s.pc[t].first || !s.v || s.owner == [t] then TryEnter(s, t, Trying(false))
      else Goto(s.(waiters := s.waiters + [t]), t, Asleep)
    case Rouse(t) => Goto(s, t, Roused(true))
    case Resume(t) =>
      var s' := if s.pc[t].onlist then s.(waiters := Remove(s.waiters, t)) else s;
      Goto(s', t, Trying(false))
    case Exit(t) =>
      if !s.v then s.(halted := true)
      else WakeupOne(Goto(s.(v := false, owner := []), t, Outside))
  }

  /** Someone is on the way to a tryenter that would succeed if the mutex is free. */
  ghost predicate SomeoneComing(s: State)
  {
    exists t | t in s.pc :: s.pc[t].Roused? || s.pc[t].Trying?
  }

  /** The waiter list holds, once each, the threads asleep and those roused but not by it. */
  ghost predicate ListOk(s: State)
  {
    && NoDup(s.waiters)
    && (forall t | t in s.waiters :: t in s.pc)
    && (forall t | t in s.pc :: t in s.waiters <==> s.pc[t] == Asleep || s.pc[t] == Roused(true))
  }

  ghost predicate Inv(s: State)
  {
    && !s.halted && ListOk(s)
    && (s.v <==> s.owner != [])
    && |s.owner| <= 1 && (forall t | t in s.owner :: t in s.pc)
    && (forall t | t in s.pc :: s.pc[t] == Holding <==> t in s.owner)
    && (!s.v && s.waiters != [] ==> SomeoneComing(s))
  }

  lemma InitInv(threads: set<Tid>)
    ensures Inv(Init(threads))
  {
  }

  lemma TryEnterInv(s: State, t: Tid, busy: Pc)
    requires Inv(s) && t in s.pc && (s.pc[t] == Outside || s.pc[t].Trying?) && (busy == Outside || busy.Trying?)
    ensures Inv(TryEnter(s, t, busy))
  {
  }

  lemma ExitInv(s: State, t: Tid)
    requires Inv(s) && t in s.pc && s.pc[t] == Holding
    ensures Inv(Next(s, Exit(t)))
  {
    hide ListOk, SomeoneComing, WakeupOne;
    var s1 := Goto(s.(v := false, owner := []), t, Outside);
    ReleaseList(s, t);
    WaitersKnown(s1);
    WakeupOneWakes(s1);
    WakeupOneComing(s1);
  }

  lemma ResumeInv(s: State, t: Tid)
    requires Inv(s) && t in s.pc && s.pc[t].Roused?
    ensures Inv(Next(s, Resume(t)))
  {
    RemoveMember(s.waiters, t);
    assert Next(s, Resume(t)).pc[t] == Trying(false);
  }

  lemma StepInv(s: State, step: Step)
    requires Inv(s) && Enabled(s, step)
    ensures Inv(Next(s, step))
  {
    var t := step.t;
    match step
    case Begin(_) => assert Next(s, step).pc[t] == Trying(true);
    case TryOnce(_) => TryEnterInv(s, t, Outside);
    case Attempt(_) =>
      if s.pc[t].first || !s.v || s.owner == [t] {
        TryEnterInv(s, t, Trying(false));
      } else {
        assert forall x :: x in s.waiters + [t] <==> x in s.waiters || x == t;
      }
    case Rouse(_) => assert Next(s, step).pc[t] == Roused(true);
    case Resume(_) => ResumeInv(s, t);
    case Exit(_) => ExitInv(s, t);
  }

  // ---- Runs ----

  ghost predicate Run(states: seq<State>, steps: seq<Step>, threads: set<Tid>)
  {
    && |states| == |steps| + 1 && states[0] == Init(threads)
    && forall i | 0 <= i < |steps| :: Enabled(states[i], steps[i]) && states[i + 1] == Next(states[i], steps[i])
  }

  lemma {:induction false} RunInv(states: seq<State>, steps: seq<Step>, threads: set<Tid>, i: nat)
    requires Run(states, steps, threads) && i <= |steps|
    ensures Inv(states[i])
    decreases i
  {
    if i == 0 {
      InitInv(threads);
    } else {
      RunInv(states, steps, threads, i - 1);
      StepInv(states[i - 1], steps[i - 1]);
    }
  }

  /** In every state of every run: no halt, at most one holder, and no wakeup is lost: when
      the mutex is free and threads are asleep on it, some thread is on its way to take
      it. */
  lemma MutexSafe(states: seq<State>, steps: seq<Step>, threads: set<Tid>, i: nat, t: Tid, u: Tid)
    requires Run(states, steps, threads) && i <= |steps| && t in states[i].pc && u in states[i].pc
    ensures var s := states[i];
            && !s.halted
            && (s.pc[t] == Holding && s.pc[u] == Holding ==> t == u)
            && (s.pc[t] == Holding ==> s.v && s.owner == [t])
            && (!s.v && s.pc[t] == Asleep ==> SomeoneComing(s))
  {
    RunInv(states, steps, threads, i);
  }

  /** A thread on its way to a free mutex takes it when it gets to try. */
  lemma ComingTakes(s: State, t: Tid)
    requires Inv(s) && !s.v && t in s.pc && s.pc[t].Trying?
    ensures Enabled(s, Attempt(t)) && Next(s, Attempt(t)).pc[t] == Holding && Next(s, Attempt(t)).owner == [t]
  {
  }

  // ---- The code ----

  /** The state after every waiter in turn has been taken off the list and woken. */
  function WakeupAll(s: State): State
    requires forall w | w in s.waiters :: w in s.pc
    decreases |s.waiters|
  {
    if s.waiters == [] then s else WakeupAll(WakeupOne(s))
  }

  /** Each thread of `woken` is runnable and off the list, and no other thread has changed. */
  ghost predicate Woke(s: State, s': State, woken: seq<Tid>)
  {
    && s.waiters == woken + s'.waiters && s' == s.(waiters := s'.waiters, pc := s'.pc) && s'.pc.Keys == s.pc.Keys
    && forall t | t in s.pc :: s'.pc[t] == if t in woken then Roused(false) else s.pc[t]
  }

  lemma WakeupOneWakes(s: State)
    requires ListOk(s)
    ensures var s' := WakeupOne(s);
            ListOk(s') && Woke(s, s', if s.waiters == [] then [] else [s.waiters[0]])
  {
    hide NoDup;
    if s.waiters != [] {
      TailMember(s.waiters);
      assert s.waiters[0] in s.waiters;
    }
  }

  lemma WakeupOneComing(s: State)
    requires ListOk(s)
    ensures s.waiters != [] ==> SomeoneComing(WakeupOne(s))
  {
    WaitersKnown(s);
    hide ListOk;
    if s.waiters != [] {
      assert s.waiters[0] in s.waiters;
      assert WakeupOne(s).pc[s.waiters[0]] == Roused(false);
    }
  }

  lemma WakeupOneInv(s: State)
    requires ListOk(s)
    ensures Inv(s) ==> Inv(WakeupOne(s))
  {
    hide ListOk, SomeoneComing, WakeupOne;
    WaitersKnown(s);
    WakeupOneWakes(s);
    WakeupOneComing(s);
    FirstWaits(s);
  }

  lemma FirstWaits(s: State)
    requires ListOk(s)
    ensures if s.waiters == [] then WakeupOne(s) == s else s.waiters[0] in s.pc && s.pc[s.waiters[0]] != Holding
  {
    if s.waiters != [] {
      assert s.waiters[0] in s.waiters;
    }
  }

  lemma WokeAgain(s: State, s1: State, s2: State, a: seq<Tid>, b: seq<Tid>)
    requires Woke(s, s1, a) && Woke(s1, s2, b)
    ensures Woke(s, s2, a + b)
  {
    assert a + (b + s2.waiters) == (a + b) + s2.waiters;
  }

  class MutexObject {
    var v: bool
    var owner: seq<Tid>
    var waiters: seq<Tid>
    var pc: map<Tid, Pc>
    var halted: bool

    ghost function S(): State
      reads this
    {
      State(v, owner, waiters, pc, halted)
    }

    ghost predicate Valid()
      reads this
    {
      Inv(S())
    }

    /** rumpuser_mutex_init */
    constructor (threads: set<Tid>)
      ensures Valid() && S() == Init(threads)
    {
      v, owner, waiters, halted := false, [], [], false;
      pc := map t | t in threads :: Outside;
      new;
      InitInv(threads);
    }

    /** rumpuser_mutex_tryenter: a thread that holds the mutex must not try. */
    method MutexTryenter(cur: Tid, busy: Pc) returns (rv: bool)
      requires Valid() && cur in pc && (pc[cur] == Outside || pc[cur].Trying? || pc[cur] == Holding)
      requires busy == Outside || busy.Trying?
      modifies this
      ensures S() == TryEnter(old(S()), cur, busy)
      ensures halted <==> old(pc[cur]) == Holding
      ensures !halted ==> Valid() && (rv <==> !old(v)) && v && waiters == old(waiters)
      ensures !halted && rv ==> owner == [cur] && pc == old(pc)[cur := Holding]
    {
      if old(pc[cur]) != Holding {
        TryEnterInv(S(), cur, busy);
      }
      if owner == [cur] {
        halted := true;
        return false;
      }
      if v {
        pc := pc[cur := busy];
        return false;
      }
      v := true;
      owner := [cur];
      pc := pc[cur := Holding];
      rv := true;
    }

    /** The next attempt of rumpuser_mutex_enter, and wait() up to its block when it fails: the
        thread then sleeps at the end of the list. */
    method EnterAttempt(cur: Tid) returns (got: bool)
      requires Valid() && Enabled(S(), Attempt(cur))
      modifies this
      ensures Valid() && S() == Next(old(S()), Attempt(cur))
      ensures got <==> !old(v)
      ensures got ==> owner == [cur] && pc == old(pc)[cur := Holding]
      ensures !got && !old(pc[cur].first) ==> waiters == old(waiters) + [cur] && pc == old(pc)[cur := Asleep]
    {
      ghost var s := S();
      StepInv(s, Attempt(cur));
      var first := pc[cur].first;
      got := MutexTryenter(cur, Trying(false));
      if !got && !first {
        waiters := waiters + [cur];
        pc := pc[cur := Asleep];
        assert pc == s.pc[cur := Asleep];
      }
    }

    /** The end of wait(): a thread that wakeup_one did not take off the list leaves it. */
    method WaitReturns(cur: Tid)
      requires Valid() && Enabled(S(), Resume(cur))
      modifies this`waiters, this`pc
      ensures Valid() && S() == Next(old(S()), Resume(cur))
      ensures cur !in waiters && forall t :: t in waiters <==> t in old(waiters) && t != cur
    {
      StepInv(S(), Resume(cur));
      RemoveMember(waiters, cur);
      hide Remove;
      if pc[cur].onlist {
        waiters := Remove(waiters, cur);
      }
      pc := pc[cur := Trying(false)];
    }

    /** wakeup_one: the first waiter is runnable and off the list, and no other thread changes. */
    method WakeOne()
      requires ListOk(S())
      modifies this`waiters, this`pc
      ensures S() == WakeupOne(old(S())) && ListOk(S())
      ensures Woke(old(S()), S(), if old(waiters) == [] then [] else [old(waiters)[0]])
      ensures old(waiters) != [] ==> SomeoneComing(S())
      ensures old(Valid()) ==> Valid()
    {
      hide Inv, SomeoneComing, ListOk, Woke;
      WaitersKnown(S());
      WakeupOneWakes(S());
      WakeupOneComing(S());
      WakeupOneInv(S());
      if waiters != [] {
        var w := waiters[0];
        waiters := waiters[1..];
        pc := pc[w := Roused(false)];
      }
    }

    /** wakeup_all: the list is empty, each that was on it is runnable, and no other thread
        changes. */
    method WakeAll()
      requires ListOk(S())
      modifies this`waiters, this`pc
      ensures S() == WakeupAll(old(S()))
      ensures waiters == [] && Woke(old(S()), S(), old(waiters)) && ListOk(S())
      ensures old(Valid()) ==> Valid()
    {
      hide Inv, SomeoneComing, ListOk, Woke;
      ghost var s, woken := S(), [];
      WaitersKnown(s);
      NoneWoken(s);
      while waiters != []
        invariant ListOk(S()) && Woke(s, S(), woken) && (Inv(s) ==> Inv(S()))
        invariant (forall w | w in waiters :: w in pc) && WakeupAll(S()) == WakeupAll(s)
        decreases |waiters|
      {
        ghost var s1 := S();
        WakeOne();
        WokeAgain(s, s1, S(), woken, [s1.waiters[0]]);
        woken := woken + [s1.waiters[0]];
        WaitersKnown(S());
      }
      AllWoken(s, S(), woken);
    }

    /** rumpuser_mutex_exit: the mutex is free, the first waiter is on its way to it, and no
        other thread changes. */
    method MutexExit(cur: Tid)
      requires Valid() && Enabled(S(), Exit(cur))
      modifies this
      ensures Valid() && S() == Next(old(S()), Exit(cur))
      ensures !v && owner == [] && waiters == if old(waiters) == [] then [] else old(waiters)[1..]
      ensures forall t | t in pc :: t in old(pc) && pc[t] == if t == cur then Outside
                                                            else if old(waiters) != [] && t == old(waiters)[0] then Roused(false)
                                                            else old(pc)[t]
    {
      hide Inv, SomeoneComing, ListOk;
      StepInv(S(), Exit(cur));
      ReleaseList(S(), cur);
      assert v;
      v := false;
      owner := [];
      pc := pc[cur := Outside];
      WakeOne();
    }
  }

  lemma ReleaseList(s: State, t: Tid)
    requires Inv(s) && t in s.pc && s.pc[t] == Holding
    ensures s.v && s.owner == [t] && t !in s.waiters && ListOk(Goto(s.(v := false, owner := []), t, Outside))
  {
  }

  lemma NoneWoken(s: State)
    ensures Woke(s, s, [])
  {
    assert [] + s.waiters == s.waiters;
  }

  lemma AllWoken(s: State, s': State, woken: seq<Tid>)
    requires Woke(s, s', woken) && s'.waiters == []
    ensures woken == s.waiters
  {
    assert woken + [] == woken;
  }

  lemma WaitersKnown(s: State)
    requires ListOk(s)
    ensures forall w | w in s.waiters :: w in s.pc
  {
  }
}
