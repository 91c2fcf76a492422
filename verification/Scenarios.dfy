/** Reachable runs that the guarantees about runs apply to, step by step. */
module Scenarios {
  import opened Basics
  import opened Scheduling
  import opened Sync
  import opened Runs
  import opened Guarantees
  import opened Waking
  import opened Witnesses
  import Joining
  import Mutexes
  import RwLocks

  /** One step in front of a run. */
  lemma Before(k: Kernel, ev: Event, r: Kernel, es: seq<Event>)
    requires Inv(k) && Legal(k, ev) && Step(k, ev) == r && Inv(r) && Allowed(r, es)
    ensures Allowed(k, [ev] + es) && Run(k, [ev] + es) == Run(r, es)
  {
    assert ([ev] + es)[1..] == es;
  }

  // ---------------------------------------------------------------- a wait on a mutex locked twice

  ghost function Waits(): (s: Sched) {
    Sched(Some(1), [], map[0 := At(Waiting(CondQ(0), GetMutex(0)), Blocked), 1 := At(User, Running)],
          map[CondQ(0) := [0]])
  }

  ghost function Signalled(): (s: Sched) {
    Sched(Some(1), [0], map[0 := At(Woken(GetMutex(0)), Ready), 1 := At(User, Running)], map[CondQ(0) := []])
  }

  ghost function Back(): (s: Sched) {
    Sched(Some(0), [1], map[0 := At(Woken(GetMutex(0)), Running), 1 := At(User, Ready)], map[CondQ(0) := []])
  }

  ghost function Again(): (s: Sched) {
    Sched(Some(0), [1], map[0 := At(User, Running), 1 := At(User, Ready)], map[CondQ(0) := []])
  }

  ghost function Left(): (u: Mutex) {
    Mutex(Recursive, 0, None, 2, {})
  }

  lemma TwiceGives()
    requires Live(Pair())
    ensures Mutexes.TryLock(WithMutex(Pair(), HeldBy0(Recursive, 1)), 0) == WithMutex(Pair(), HeldBy0(Recursive, 2))
  {
    assert map[0 := HeldBy0(Recursive, 1)][0 := HeldBy0(Recursive, 2)] == map[0 := HeldBy0(Recursive, 2)];
  }

  /** A recursive mutex that thread 0 has locked twice. */
  lemma TwiceReachable()
    ensures Reachable(WithMutex(Pair(), HeldBy0(Recursive, 2))) && Inv(WithMutex(Pair(), HeldBy0(Recursive, 2)))
  {
    FreeReachable(Recursive);
    Locks(Pair(), Recursive);
    LocksAgain();
  }

  lemma LocksAgain()
    requires Reachable(WithMutex(Pair(), HeldBy0(Recursive, 1))) && Inv(WithMutex(Pair(), HeldBy0(Recursive, 1)))
    ensures Reachable(WithMutex(Pair(), HeldBy0(Recursive, 2))) && Inv(WithMutex(Pair(), HeldBy0(Recursive, 2)))
  {
    var k, ev := WithMutex(Pair(), HeldBy0(Recursive, 1)), Event(OnMutex(TryLock(0)), 0);
    TwiceGives();
    assert MutexStep(k, ev) == Mutexes.TryLock(k, 0);
    Goes(k, ev, WithMutex(Pair(), HeldBy0(Recursive, 2)));
  }

  lemma LeaveGives()
    requires Live(Pair())
    ensures Mutexes.Leave(Pair(), 0, 0) == Enlist(Pair(), 0, CondQ(0), GetMutex(0))
    ensures Sane(Mutexes.Leave(Pair(), 0, 0)) && Schedule(Mutexes.Leave(Pair(), 0, 0), 0) == Waits()
  {
    var e := Enlist(Pair(), 0, CondQ(0), GetMutex(0));
    assert Queue(Pair(), CondQ(0)) + [0] == [0];
    assert e.queues == map[CondQ(0) := [0]];
    assert Queue(e, MutexQ(0)) == [];
    assert Without([1], 0) == [];
    assert Schedule(e, 0).threads == Waits().threads;
  }

  lemma WaitGives()
    requires Live(Pair())
    ensures Mutexes.CondWait(WithMutex(Pair(), HeldBy0(Recursive, 2)), 0, 0, 0) == WithMutex(Waits(), Left())
  {
    LeaveGives();
    assert Mutexes.Vacated(HeldBy0(Recursive, 2), 0) == Left();
    assert map[0 := HeldBy0(Recursive, 2)][0 := Left()] == map[0 := Left()];
  }

  lemma SignalGives()
    requires Live(Waits())
    ensures Mutexes.Signal(WithMutex(Waits(), Left()), 0) == WithMutex(Signalled(), Left())
  {
    WakeOneLive(Waits(), CondQ(0));
    assert [0][1..] == [];
    assert WakeOne(Waits(), CondQ(0)).threads == Signalled().threads;
    assert WakeOne(Waits(), CondQ(0)).queues == Signalled().queues;
  }

  lemma BackGives()
    requires Live(Signalled())
    ensures Scheduling.Yield(Signalled(), 0) == Back()
  {
    var e := Move(Signalled(), 1, User, Ready).(runq := [0] + [1]);
    assert Without(e.runq, 0) == [1];
    assert Schedule(e, 0).threads == Back().threads;
  }

  lemma AgainGives()
    requires Live(Back())
    ensures Mutexes.TakeMutex(WithMutex(Back(), Left()), 0, 0) == WithMutex(Again(), HeldBy0(Recursive, 1))
  {
    assert Mutexes.Granted(Left(), 0) == HeldBy0(Recursive, 1);
    assert map[0 := Left()][0 := HeldBy0(Recursive, 1)] == map[0 := HeldBy0(Recursive, 1)];
    assert Return(Back()).threads == Again().threads;
  }

  lemma WaitStep()
    ensures Reachable(WithMutex(Waits(), Left())) && Inv(WithMutex(Waits(), Left()))
    ensures var k, ev := WithMutex(Pair(), HeldBy0(Recursive, 2)), Event(OnCond(CondWait(0, 0)), 0);
      Inv(k) && Legal(k, ev) && Step(k, ev) == WithMutex(Waits(), Left())
  {
    TwiceReachable();
    var k, ev := WithMutex(Pair(), HeldBy0(Recursive, 2)), Event(OnCond(CondWait(0, 0)), 0);
    WaitGives();
    assert CondStep(k, ev) == Mutexes.CondWait(k, 0, 0, 0);
    Goes(k, ev, WithMutex(Waits(), Left()));
  }

  lemma SignalStep()
    ensures Reachable(WithMutex(Signalled(), Left())) && Inv(WithMutex(Signalled(), Left()))
    ensures var k, ev := WithMutex(Waits(), Left()), Event(OnCond(Signal(0)), 0);
      Inv(k) && Legal(k, ev) && Step(k, ev) == WithMutex(Signalled(), Left())
  {
    WaitStep();
    var k, ev := WithMutex(Waits(), Left()), Event(OnCond(Signal(0)), 0);
    SignalGives();
    assert CondStep(k, ev) == Mutexes.Signal(k, 0);
    Goes(k, ev, WithMutex(Signalled(), Left()));
  }

  lemma BackStep()
    ensures Reachable(WithMutex(Back(), Left())) && Inv(WithMutex(Back(), Left()))
    ensures var k, ev := WithMutex(Signalled(), Left()), Event(OnThread(Yield), 0);
      Inv(k) && Legal(k, ev) && Step(k, ev) == WithMutex(Back(), Left())
  {
    SignalStep();
    var k, ev := WithMutex(Signalled(), Left()), Event(OnThread(Yield), 0);
    BackGives();
    assert StepYield(k, 0) == WithMutex(Back(), Left());
    assert ThreadStep(k, ev) == StepYield(k, 0);
    Goes(k, ev, WithMutex(Back(), Left()));
  }

  lemma AgainStep()
    ensures Reachable(WithMutex(Again(), HeldBy0(Recursive, 1))) && Inv(WithMutex(Again(), HeldBy0(Recursive, 1)))
    ensures var k, ev := WithMutex(Back(), Left()), Event(Resume, 0);
      Inv(k) && Legal(k, ev) && Step(k, ev) == WithMutex(Again(), HeldBy0(Recursive, 1))
  {
    BackStep();
    var k, ev := WithMutex(Back(), Left()), Event(Resume, 0);
    AgainGives();
    assert StepResume(k, 0) == Mutexes.TakeMutex(k, 0, 0);
    Goes(k, ev, WithMutex(Again(), HeldBy0(Recursive, 1)));
  }

  ghost function SignalThenYield(): (es: seq<Event>) {
    [Event(OnCond(Signal(0)), 0)] + ([Event(OnThread(Yield), 0)] + [])
  }

  /** One step in front of a run in which t stays in its call. */
  lemma StaysBefore(k: Kernel, ev: Event, r: Kernel, es: seq<Event>, t: Tid, g: Goal)
    requires Inv(k) && Legal(k, ev) && Step(k, ev) == r && Inv(r) && Allowed(r, es)
    requires t in Seekers(k.s, g) && StaysIn(r, es, t, g)
    ensures Allowed(k, [ev] + es) && StaysIn(k, [ev] + es, t, g) && Run(k, [ev] + es) == Run(r, es)
  {
    assert ([ev] + es)[1..] == es;
  }

  lemma YieldRun()
    ensures var k, es := WithMutex(Signalled(), Left()), [Event(OnThread(Yield), 0)] + [];
      && Inv(k) && Allowed(k, es) && StaysIn(k, es, 0, GetMutex(0)) && Run(k, es) == WithMutex(Back(), Left())
  {
    var k1, k2, ev := WithMutex(Signalled(), Left()), WithMutex(Back(), Left()), Event(OnThread(Yield), 0);
    BackStep();
    assert 0 in Seekers(k1.s, GetMutex(0)) && 0 in Seekers(k2.s, GetMutex(0));
    assert Allowed(k2, []) && StaysIn(k2, [], 0, GetMutex(0)) && Run(k2, []) == k2;
    StaysBefore(k1, ev, k2, [], 0, GetMutex(0));
  }

  /** While another thread signals and yields, thread 0 stays in its call. */
  lemma WaitRun()
    ensures var k := WithMutex(Waits(), Left());
      && Inv(k) && Allowed(k, SignalThenYield()) && StaysIn(k, SignalThenYield(), 0, GetMutex(0))
      && Run(k, SignalThenYield()) == WithMutex(Back(), Left())
  {
    var k0, k1, ev := WithMutex(Waits(), Left()), WithMutex(Signalled(), Left()), Event(OnCond(Signal(0)), 0);
    SignalStep();
    YieldRun();
    assert 0 in Seekers(k0.s, GetMutex(0));
    StaysBefore(k0, ev, k1, [Event(OnThread(Yield), 0)] + [], 0, GetMutex(0));
  }

  /** Locked twice, waited on, signalled and taken again: the mutex is then held once, and one
      unlock frees it. */
  lemma WaitForgetsDepth()
    ensures var k := WithMutex(Pair(), HeldBy0(Recursive, 2));
      var es := [Event(OnCond(CondWait(0, 0)), 0)] + SignalThenYield();
      && Reachable(k) && Inv(k) && k.mutexes[0].depth == 2
      && Allowed(k, es) && WaitsThroughout(k, es, 0, 0)
      && Legal(Run(k, es), Event(Resume, 0))
      && Step(Run(k, es), Event(Resume, 0)) == WithMutex(Again(), HeldBy0(Recursive, 1))
    ensures var k := WithMutex(Again(), HeldBy0(Recursive, 1));
      Inv(k) && Mutexes.Unlock(k, 0).mutexes[0].lock == 0 && Mutexes.Unlock(k, 0).mutexes[0].holders == {}
  {
    var k, ev := WithMutex(Pair(), HeldBy0(Recursive, 2)), Event(OnCond(CondWait(0, 0)), 0);
    TwiceReachable();
    WaitStep();
    WaitRun();
    Before(k, ev, WithMutex(Waits(), Left()), SignalThenYield());
    assert ([ev] + SignalThenYield())[1..] == SignalThenYield();
    AgainStep();
  }

  /** The waiter of the run above is at the head of its queue, so one signal takes it off; and the
      event after the run is one that makes a blocked call return. */
  lemma SignalApplies()
    ensures var k := WithMutex(Waits(), Left());
      && Inv(k) && Allowed(k, SignalThenYield()) && Queue(k.s, CondQ(0)) == [0]
      && Accounted(k, SignalThenYield(), 0, 0, 0) && !QueuedThroughout(k, SignalThenYield(), 0, 0)
    ensures var k := WithMutex(Back(), Left());
      && Inv(k) && Legal(k, Event(Resume, 0)) && 0 in Seekers(k.s, GetMutex(0))
      && GoesOn(k, Step(k, Event(Resume, 0)), 0, GetMutex(0))
  {
    var k := WithMutex(Waits(), Left());
    WaitRun();
    NoSignalMissed(k, SignalThenYield(), 0, 0);
    assert Signals(SignalThenYield(), 0) >= 1 by {
      assert SignalThenYield()[0].op == OnCond(Signal(0));
    }
    AgainStep();
    assert 0 in Seekers(Back(), GetMutex(0));
    NoSpuriousReturn(WithMutex(Back(), Left()), Event(Resume, 0), 0, GetMutex(0));
  }

  // ---------------------------------------------------------------- a join

  ghost function Plain(s: Sched): (k: Kernel) {
    Kernel(s, map[], map[], map[])
  }

  ghost function ParkedOn1(): (s: Sched) {
    Sched(Some(1), [], map[0 := At(Scheduling.Joining(1), Blocked), 1 := Tcb(User, Running, Some(0), 0, None)], map[])
  }

  ghost function Exited7(): (s: Sched) {
    Sched(Some(0), [], map[0 := At(JoinWoken(1), Running), 1 := Tcb(Dead, Terminated, Some(0), 7, None)], map[])
  }

  ghost function Joined7(): (s: Sched) {
    Sched(Some(0), [], map[0 := Tcb(User, Running, None, 0, Some(7))], map[])
  }

  lemma ParkGives()
    requires Live(Pair())
    ensures JoinRound(Pair(), 1, 0) == ParkedOn1()
  {
    var e := Park(Pair(), 1);
    assert Without([1], 0) == [];
    assert Schedule(e, 0).threads == ParkedOn1().threads;
  }

  lemma ExitGives()
    requires Live(ParkedOn1())
    ensures Scheduling.Exit(ParkedOn1(), 7, 0) == Exited7()
  {
    JoinerParked(ParkedOn1());
    BuryRunq(ParkedOn1(), 7);
    var e := Bury(ParkedOn1(), 7);
    assert e.runq == [0];
    assert Without([0], 0) == [];
    assert Schedule(e, 0).threads == Exited7().threads;
  }

  lemma ReapGives()
    requires Live(Exited7())
    ensures JoinRound(Exited7(), 1, 0) == Joined7()
  {
    assert Reap(Exited7(), 1).threads == Joined7().threads;
  }

  lemma ParkStep()
    ensures Reachable(Plain(ParkedOn1())) && Inv(Plain(ParkedOn1()))
  {
    Starts(Plain(Alone()));
    Creates(Plain(Alone()));
    assert Plain(Alone()).(s := Pair()) == Plain(Pair());
    var k, ev := Plain(Pair()), Event(OnThread(Join(1)), 0);
    ParkGives();
    assert StepJoin(k, 1, 0) == Plain(ParkedOn1());
    assert ThreadStep(k, ev) == StepJoin(k, 1, 0);
    Goes(k, ev, Plain(ParkedOn1()));
  }

  lemma ExitStep()
    ensures Inv(Plain(Exited7())) && Inv(Plain(ParkedOn1()))
    ensures var k, ev := Plain(ParkedOn1()), Event(OnThread(Exit(7)), 0);
      Legal(k, ev) && Step(k, ev) == Plain(Exited7())
  {
    ParkStep();
    var k, ev := Plain(ParkedOn1()), Event(OnThread(Exit(7)), 0);
    ExitGives();
    assert StepExit(k, 7, 0) == Plain(Exited7());
    assert ThreadStep(k, ev) == StepExit(k, 7, 0);
    Goes(k, ev, Plain(Exited7()));
  }

  lemma ReapStep()
    ensures Inv(Plain(Exited7()))
    ensures var k, ev := Plain(Exited7()), Event(Resume, 0); Legal(k, ev) && Step(k, ev) == Plain(Joined7())
  {
    ExitStep();
    var k := Plain(Exited7());
    ReapGives();
    assert StepResume(k, 0) == Plain(Joined7());
  }

  /** Thread 0 joins thread 1, which exits with 7: the join returns with 7. */
  lemma JoinApplies()
    ensures var k, es := Plain(ParkedOn1()), [Event(OnThread(Exit(7)), 0)] + [];
      && Reachable(k) && Inv(k) && Allowed(k, es) && Joining.Parked(k.s, 0, 1) && Joining.JoinsThroughout(k, es, 0)
      && Legal(Run(k, es), Event(Resume, 0)) && Step(Run(k, es), Event(Resume, 0)) == Plain(Joined7())
      && Joining.Delivered(Joined7(), 0, 1, 7)
  {
    var k, r, ev := Plain(ParkedOn1()), Plain(Exited7()), Event(OnThread(Exit(7)), 0);
    ParkStep();
    ExitStep();
    ReapStep();
    assert Allowed(r, []) && Run(r, []) == r && Joining.JoinsThroughout(r, [], 0);
    Before(k, ev, r, []);
    assert ([ev] + [])[1..] == [];
  }

  // ---------------------------------------------------------------- a pending writer

  ghost function WriterWaits(): (s: Sched) {
    Sched(Some(0), [], map[0 := At(User, Running), 1 := At(Waiting(WriteQ(0), GetWrite(0)), Blocked)],
          map[WriteQ(0) := [1]])
  }

  lemma WriterGives()
    requires Live(Swapped())
    ensures RwLocks.WrLock(WithRw(Swapped(), ReadBy0(0)), 0, 0) == WithRw(WriterWaits(), ReadBy0(1))
  {
    var e := Enlist(Swapped(), 1, WriteQ(0), GetWrite(0));
    assert Queue(Swapped(), WriteQ(0)) + [1] == [1];
    assert e.queues == map[WriteQ(0) := [1]];
    assert Without([0], 0) == [];
    assert Schedule(e, 0).threads == WriterWaits().threads;
    assert Block(Swapped(), WriteQ(0), GetWrite(0), 0) == WriterWaits();
    assert map[0 := ReadBy0(0)][0 := ReadBy0(1)] == map[0 := ReadBy0(1)];
  }

  lemma WriterStep()
    ensures Reachable(WithRw(WriterWaits(), ReadBy0(1))) && Inv(WithRw(WriterWaits(), ReadBy0(1)))
  {
    ReadReachable();
    var k, ev := WithRw(Swapped(), ReadBy0(0)), Event(OnRw(WrLock(0)), 0);
    WriterGives();
    assert RwStep(k, ev) == RwLocks.WrLock(k, 0, 0);
    Goes(k, ev, WithRw(WriterWaits(), ReadBy0(1)));
  }

  lemma RefusedStep(k: Kernel, ev: Event)
    requires k == WithRw(WriterWaits(), ReadBy0(1)) && ev == Event(OnRw(TryRdLock(0)), 0) && Inv(k)
    ensures 1 in Seekers(k.s, GetWrite(0)) && Legal(k, ev) && Step(k, ev) == k
  {
    assert RwStep(k, ev) == RwLocks.TryRead(k, 0) == k;
  }

  /** With a writer pending, a reader that tries again is refused, although readers hold the lock. */
  lemma WriterApplies()
    ensures var k, es := WithRw(WriterWaits(), ReadBy0(1)), [Event(OnRw(TryRdLock(0)), 0)] + [];
      && Reachable(k) && Inv(k) && Allowed(k, es) && 0 in k.rws && SeeksThroughout(k, es, 1, 0)
      && k.rws[0].readHolders == multiset{0} && Run(k, es) == k
  {
    var k, ev := WithRw(WriterWaits(), ReadBy0(1)), Event(OnRw(TryRdLock(0)), 0);
    WriterStep();
    RefusedStep(k, ev);
    assert Allowed(k, []) && Run(k, []) == k && SeeksThroughout(k, [], 1, 0);
    Before(k, ev, k, []);
    assert ([ev] + [])[1..] == [];
  }
}
