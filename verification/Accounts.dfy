/** Semaphores over runs (src/semaphore.c): the value is what the posts and the successful waits of
    the run leave of the initial one. */
module Accounts {
  import opened Basics
  import opened Scheduling
  import opened Sync
  import opened Runs
  import Semaphores

  /** The posts to semaphore e among the events of a run. */
  function Posts(es: seq<Event>, e: nat): (n: nat) {
    if es == [] then 0 else (if es[0].op == OnSem(SemPost(e)) then 1 else 0) + Posts(es[1..], e)
  }

  /** The event is a check of semaphore e by sem_wait or sem_trywait, or by a woken waiter. */
  ghost predicate Checks(k: Kernel, ev: Event, e: nat)
    requires Inv(k) && Legal(k, ev)
  {
    || ev.op == OnSem(SemWait(e))
    || ev.op == OnSem(SemTryWait(e))
    || (ev.op == Resume && PcOf(k, Self(k)) == Woken(GetSem(e)))
  }

  /** The checks of semaphore e in a run that find a positive value. */
  ghost function Takes(k: Kernel, es: seq<Event>, e: nat): (n: nat)
    requires Inv(k) && Allowed(k, es)
    decreases |es|
  {
    if es == [] then 0
    else
      StepInv(k, es[0]);
      (if Checks(k, es[0], e) && e in k.sems && k.sems[e].value > 0 then 1 else 0)
      + Takes(Step(k, es[0]), es[1..], e)
  }

  /** What one event does to the value of semaphore e: a post adds one, a check that finds a positive
      value takes one and sends its thread back to user code, and nothing else touches it. */
  ghost predicate Booked(k: Kernel, ev: Event, r: Kernel, e: nat)
    requires Inv(k) && Legal(k, ev) && e in k.sems
  {
    var v := k.sems[e].value;
    && e in r.sems
    && (ev.op == OnSem(SemPost(e)) ==> r.sems[e].value == v + 1)
    && (Checks(k, ev, e) && v > 0 ==>
      r.sems[e].value == v - 1 && Self(k) in r.s.threads && PcOf(r, Self(k)) == User)
    && (ev.op != OnSem(SemPost(e)) && !(Checks(k, ev, e) && v > 0) ==> r.sems[e].value == v)
  }

  /** A check of semaphore d, seen from semaphore e. */
  lemma TakeGives(k: Kernel, d: nat, pick: nat, e: nat)
    requires Live(k.s) && d in k.sems && e in k.sems
    ensures var r, v := Semaphores.TakeSem(k, d, pick), k.sems[e].value;
      && e in r.sems && r.sems[e].value == (if d == e && v > 0 then v - 1 else v)
      && (d == e && v > 0 ==> Self(k) in r.s.threads && PcOf(r, Self(k)) == User)
  {
  }

  lemma WaitBooked(k: Kernel, ev: Event, e: nat)
    requires Inv(k) && Legal(k, ev) && e in k.sems && ev.op.OnSem? && ev.op.sem.SemWait?
    ensures Booked(k, ev, SemStep(k, ev), e)
  {
    TakeGives(k, ev.op.sem.e, ev.pick, e);
    assert SemStep(k, ev) == Semaphores.TakeSem(k, ev.op.sem.e, ev.pick);
  }

  lemma SemBooked(k: Kernel, ev: Event, e: nat)
    requires Inv(k) && Legal(k, ev) && e in k.sems && ev.op.OnSem?
    ensures Booked(k, ev, SemStep(k, ev), e)
  {
    match ev.op.sem
    case SemWait(_) => WaitBooked(k, ev, e);
    case SemTryWait(d) => assert SemStep(k, ev) == Semaphores.TrySem(k, d);
    case SemPost(d) => assert SemStep(k, ev) == Semaphores.Post(k, d);
  }

  /** Going on with any other call leaves all semaphores alone. */
  lemma ResumeElsewhere(k: Kernel, pick: nat)
    requires Inv(k) && k.s.current.Some? && PcOf(k, Self(k)) != User
    requires !(PcOf(k, Self(k)).Woken? && PcOf(k, Self(k)).goal.GetSem?)
    ensures StepResume(k, pick).sems == k.sems
  {
    ResumeKnown(k);
  }

  lemma ResumeBooked(k: Kernel, ev: Event, e: nat)
    requires Inv(k) && Legal(k, ev) && e in k.sems && ev.op == Resume && PcOf(k, Self(k)) != User
    ensures Booked(k, ev, StepResume(k, ev.pick), e)
  {
    var pc := PcOf(k, Self(k));
    if pc.Woken? && pc.goal.GetSem? {
      ResumeKnown(k);
      TakeGives(k, pc.goal.s, ev.pick, e);
    } else {
      ResumeElsewhere(k, ev.pick);
    }
  }

  /** So do the calls on other objects and on threads. */
  lemma Elsewhere(k: Kernel, ev: Event)
    requires Inv(k) && Legal(k, ev) && !ev.op.OnSem? && ev.op != Resume
    ensures Step(k, ev).sems == k.sems
  {
  }

  lemma StepBooked(k: Kernel, ev: Event, e: nat)
    requires Inv(k) && Legal(k, ev) && e in k.sems
    ensures Booked(k, ev, Step(k, ev), e)
  {
    if ev.op.OnSem? {
      SemBooked(k, ev, e);
    } else if ev.op == Resume {
      ResumeBooked(k, ev, e);
    } else {
      Elsewhere(k, ev);
    }
  }

  /** Conservation: over every run the value changes by the posts less the successful waits. */
  lemma {:induction false} SemConserved(k: Kernel, es: seq<Event>, e: nat)
    requires Inv(k) && Allowed(k, es) && e in k.sems
    ensures e in Run(k, es).sems
    ensures Run(k, es).sems[e].value == k.sems[e].value + Posts(es, e) - Takes(k, es, e)
    decreases |es|
  {
    if es != [] {
      StepInv(k, es[0]);
      StepBooked(k, es[0], e);
      SemConserved(Step(k, es[0]), es[1..], e);
    }
  }

  /** Hence no more waits succeed than the initial value and the posts allow, the value stays within
      the code's int, and while threads wait, woken threads account for all of it. */
  lemma SemSafe(k: Kernel, es: seq<Event>, e: nat)
    requires Inv(k) && Allowed(k, es) && e in k.sems
    ensures var r := Run(k, es);
      && Takes(k, es, e) <= k.sems[e].value + Posts(es, e)
      && e in r.sems && 0 <= r.sems[e].value <= INT_MAX
      && (Queue(r.s, SemQ(e)) != [] ==> r.sems[e].value <= |Woke(r.s, GetSem(e))|)
  {
    SemConserved(k, es, e);
    assert SemAt(Run(k, es).s, e, Run(k, es).sems[e]);
  }
}
