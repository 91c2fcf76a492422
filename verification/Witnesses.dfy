/** Concrete runs: inputs outside the discipline for which the code does not keep what it is meant
    to keep, and inputs that the guarantees apply to. */
module Witnesses {
  import opened Basics
  import opened Scheduling
  import opened Sync
  import opened Runs
  import opened Guarantees
  import Mutexes
  import Semaphores
  import RwLocks

  /** A thread that is in no call, or at pc. */
  ghost function At(pc: Pc, state: State): (b: Tcb) {
    Tcb(pc, state, None, 0, None)
  }

  /** Thread 0 alone, after uthread_init. */
  ghost function Alone(): (s: Sched) {
    Sched(Some(0), [], map[0 := At(User, Running)], map[])
  }

  /** Threads 0 and 1, the second ready behind the first. */
  ghost function Pair(): (s: Sched) {
    Sched(Some(0), [1], map[0 := At(User, Running), 1 := At(User, Ready)], map[])
  }

  /** The same two when the second runs. */
  ghost function Swapped(): (s: Sched) {
    Sched(Some(1), [0], map[0 := At(User, Ready), 1 := At(User, Running)], map[])
  }

  ghost predicate Fresh(k: Kernel) {
    k.s == Alone() && Init(k)
  }

  /** A legal step from a reachable state. */
  lemma Goes(k: Kernel, ev: Event, r: Kernel)
    requires Reachable(k) && Inv(k) && Legal(k, ev) && Step(k, ev) == r
    ensures Reachable(r) && Inv(r)
  {
    StepReachable(k, ev);
    ReachableInv(r);
  }

  lemma Starts(k: Kernel)
    requires Fresh(k)
    ensures Reachable(k) && Inv(k)
  {
    InitReachable(k);
    ReachableInv(k);
  }

  /** A second thread is created. */
  lemma Creates(k: Kernel)
    requires Reachable(k) && Inv(k) && k.s == Alone()
    ensures Reachable(k.(s := Pair())) && Inv(k.(s := Pair()))
  {
    var ev := Event(OnThread(Create(1)), 0);
    assert |k.s.threads| == 1;
    CreateGives();
    assert StepCreate(k, 1) == k.(s := Pair());
    assert ThreadStep(k, ev) == StepCreate(k, 1);
    Goes(k, ev, k.(s := Pair()));
  }

  lemma CreateGives()
    ensures Scheduling.Create(Alone(), 1) == Pair()
  {
    assert Scheduling.Create(Alone(), 1).threads == Pair().threads;
  }

  /** The first yields to the second. */
  lemma Yields(k: Kernel)
    requires Reachable(k) && Inv(k) && k.s == Pair()
    ensures Reachable(k.(s := Swapped())) && Inv(k.(s := Swapped()))
  {
    var ev := Event(OnThread(Yield), 0);
    YieldGives();
    assert StepYield(k, 0) == k.(s := Swapped());
    assert ThreadStep(k, ev) == StepYield(k, 0);
    Goes(k, ev, k.(s := Swapped()));
  }

  lemma YieldGives()
    requires Live(Pair())
    ensures Scheduling.Yield(Pair(), 0) == Swapped()
  {
    var e := Move(Pair(), 0, User, Ready).(runq := [1] + [0]);
    assert Without(e.runq, 0) == [0];
    assert Schedule(e, 0).threads == Swapped().threads;
  }

  // ---------------------------------------------------------------- stray unlock and stray wait

  /** Unlocking a NORMAL or RECURSIVE mutex that someone else holds releases it, so that the caller
      can then take it: two threads hold the mutex. */
  lemma StrayUnlockTwoHolders(k: Kernel, m: nat)
    requires Inv(k) && Live(k.s) && m in k.mutexes
    requires k.mutexes[m].kind != ErrorCheck && k.mutexes[m].lock == 1 && k.mutexes[m].owner != k.s.current
    ensures var r := Mutexes.Unlock(k, m);
      && Live(r.s) && m in r.mutexes
      && Mutexes.TryLock(r, m).mutexes[m].holders == {k.mutexes[m].owner.value, k.s.current.value}
  {
    assert MutexAt(k.s, m, k.mutexes[m]);
    WakeOneLive(k.s, MutexQ(m));
    assert Mutexes.Unlock(k, m).s == WakeOne(k.s, MutexQ(m));
  }

  ghost function WithMutex(s: Sched, u: Mutex): (k: Kernel) {
    Kernel(s, map[0 := u], map[], map[])
  }

  ghost function FreeMutex(kind: Kind): (u: Mutex) {
    Mutex(kind, 0, None, 0, {})
  }

  ghost function HeldBy0(kind: Kind, depth: int): (u: Mutex) {
    Mutex(kind, 1, Some(0), depth, {0})
  }

  lemma TryLockGives(s: Sched, kind: Kind)
    requires Live(s) && s.current == Some(0)
    ensures Mutexes.TryLock(WithMutex(s, FreeMutex(kind)), 0) == WithMutex(s, HeldBy0(kind, 1))
  {
    assert Mutexes.Granted(FreeMutex(kind), 0) == HeldBy0(kind, 1);
    assert map[0 := FreeMutex(kind)][0 := HeldBy0(kind, 1)] == map[0 := HeldBy0(kind, 1)];
  }

  /** Thread 0 takes the mutex. */
  lemma Locks(s: Sched, kind: Kind)
    requires s == Alone() || s == Pair()
    requires Reachable(WithMutex(s, FreeMutex(kind))) && Inv(WithMutex(s, FreeMutex(kind)))
    ensures Reachable(WithMutex(s, HeldBy0(kind, 1))) && Inv(WithMutex(s, HeldBy0(kind, 1)))
  {
    var k, ev := WithMutex(s, FreeMutex(kind)), Event(OnMutex(TryLock(0)), 0);
    TryLockGives(s, kind);
    assert MutexStep(k, ev) == Mutexes.TryLock(k, 0);
    Goes(k, ev, WithMutex(s, HeldBy0(kind, 1)));
  }

  lemma FreeReachable(kind: Kind)
    ensures Reachable(WithMutex(Pair(), FreeMutex(kind))) && Inv(WithMutex(Pair(), FreeMutex(kind)))
  {
    var k := WithMutex(Alone(), FreeMutex(kind));
    Starts(k);
    Creates(k);
    assert k.(s := Pair()) == WithMutex(Pair(), FreeMutex(kind));
  }

  /** Thread 0 holds the mutex while thread 1 runs. */
  lemma HeldReachable(kind: Kind)
    ensures Reachable(WithMutex(Swapped(), HeldBy0(kind, 1))) && Inv(WithMutex(Swapped(), HeldBy0(kind, 1)))
  {
    FreeReachable(kind);
    Locks(Pair(), kind);
    var k := WithMutex(Pair(), HeldBy0(kind, 1));
    Yields(k);
    assert k.(s := Swapped()) == WithMutex(Swapped(), HeldBy0(kind, 1));
  }

  /** Some reachable state lets a stray unlock through. */
  lemma StrayUnlockReachable()
    ensures exists k :: (
      && Reachable(k) && Inv(k) && Live(k.s) && 0 in k.mutexes
      && !Mutexes.MayUnlock(k, 0) && !Inv(Mutexes.Unlock(k, 0)))
  {
    var k := WithMutex(Swapped(), HeldBy0(Normal, 1));
    HeldReachable(Normal);
    Mutexes.UnlockInvIff(k, 0);
  }

  /** Likewise a wait with someone else's mutex, of any kind. */
  lemma StrayWaitReachable(kind: Kind, c: nat, pick: nat)
    ensures exists k :: (
      && Reachable(k) && Inv(k) && Live(k.s) && 0 in k.mutexes && PcOf(k, Self(k)) == User
      && !Mutexes.MayWait(k, 0) && !Inv(Mutexes.CondWait(k, c, 0, pick)))
  {
    HeldReachable(kind);
    StrayWaitBreaks(WithMutex(Swapped(), HeldBy0(kind, 1)), c, pick);
  }

  lemma StrayWaitBreaks(k: Kernel, c: nat, pick: nat)
    requires Inv(k) && k.s == Swapped() && 0 in k.mutexes && k.mutexes[0].owner == Some(0) && k.mutexes[0].lock == 1
    ensures Live(k.s) && PcOf(k, Self(k)) == User
    ensures !Mutexes.MayWait(k, 0) && !Inv(Mutexes.CondWait(k, c, 0, pick))
  {
    Mutexes.CondWaitInvIff(k, c, 0, pick);
  }

  // ---------------------------------------------------------------- the other departures

  ghost function WithRw(s: Sched, u: Rw): (k: Kernel) {
    Kernel(s, map[], map[], map[0 := u])
  }

  ghost function FreeRw(): (u: Rw) {
    Rw(0, 0, None, 0, multiset{}, multiset{})
  }

  ghost function ReadBy0(pending: int): (u: Rw) {
    Rw(1, 0, None, pending, multiset{0}, multiset{})
  }

  lemma TryReadGives(s: Sched)
    requires Live(s) && s.current == Some(0)
    ensures RwLocks.TryRead(WithRw(s, FreeRw()), 0) == WithRw(s, ReadBy0(0))
  {
    assert RwLocks.Reading(FreeRw(), 0) == ReadBy0(0);
    assert map[0 := FreeRw()][0 := ReadBy0(0)] == map[0 := ReadBy0(0)];
  }

  lemma Reads()
    requires Reachable(WithRw(Pair(), FreeRw())) && Inv(WithRw(Pair(), FreeRw()))
    ensures Reachable(WithRw(Pair(), ReadBy0(0))) && Inv(WithRw(Pair(), ReadBy0(0)))
  {
    var k, ev := WithRw(Pair(), FreeRw()), Event(OnRw(TryRdLock(0)), 0);
    TryReadGives(Pair());
    assert RwStep(k, ev) == RwLocks.TryRead(k, 0);
    Goes(k, ev, WithRw(Pair(), ReadBy0(0)));
  }

  /** Thread 0 reads while thread 1 runs. */
  lemma ReadReachable()
    ensures Reachable(WithRw(Swapped(), ReadBy0(0))) && Inv(WithRw(Swapped(), ReadBy0(0)))
  {
    var k := WithRw(Alone(), FreeRw());
    Starts(k);
    Creates(k);
    assert k.(s := Pair()) == WithRw(Pair(), FreeRw());
    Reads();
    Yields(WithRw(Pair(), ReadBy0(0)));
    assert WithRw(Pair(), ReadBy0(0)).(s := Swapped()) == WithRw(Swapped(), ReadBy0(0));
  }

  /** Some reachable state lets a stray release of a read lock through. */
  lemma StrayReadUnlockReachable()
    ensures exists k :: (
      && Reachable(k) && Inv(k) && Live(k.s) && 0 in k.rws
      && !RwLocks.MayRwUnlock(k, 0) && !Inv(RwLocks.RwUnlock(k, 0)))
  {
    var k := WithRw(Swapped(), ReadBy0(0));
    ReadReachable();
    RwLocks.RwUnlockInvIff(k, 0);
  }

  /** A semaphore may start at the largest int; the next post leaves the range. */
  lemma OverflowReachable()
    ensures exists k :: Reachable(k) && Inv(k) && Live(k.s) && 0 in k.sems && !Inv(Semaphores.Post(k, 0))
  {
    var k := Kernel(Alone(), map[], map[0 := Sem(INT_MAX)], map[]);
    Starts(k);
    Semaphores.PostInvIff(k, 0);
  }

  /** A thread that is alone is handed the processor back by its yield, whatever the policy; after
      its second yield it is neither running nor ready. */
  lemma LoneYieldReachable(pick: nat, pick2: nat)
    ensures Reachable(Kernel(Alone(), map[], map[], map[])) && Live(Alone()) && !PicksAnother(Alone(), pick)
    ensures Sane(Scheduling.Yield(Alone(), pick))
    ensures var r := Scheduling.Yield(Scheduling.Yield(Alone(), pick), pick2);
      0 in r.threads && Runnable(r.threads[0].pc) && 0 !in r.runq && r.current != Some(0)
  {
    Starts(Kernel(Alone(), map[], map[], map[]));
    YieldTwiceDrops(Alone(), pick, pick2);
  }

  /** Thread 0 asleep on the mutex it holds itself. */
  ghost function Asleep(): (s: Sched) {
    Sched(None, [], map[0 := At(Waiting(MutexQ(0), GetMutex(0)), Blocked)], map[MutexQ(0) := [0]])
  }

  lemma BlockGives(pick: nat)
    requires Live(Alone())
    ensures Block(Alone(), MutexQ(0), GetMutex(0), pick) == Asleep()
  {
    var e := Enlist(Alone(), 0, MutexQ(0), GetMutex(0));
    assert Queue(Alone(), MutexQ(0)) + [0] == [0];
    assert e.queues == map[MutexQ(0) := [0]];
    assert Schedule(e, pick).threads == Asleep().threads;
  }

  lemma RelockGives()
    requires Live(Alone())
    ensures Mutexes.Lock(WithMutex(Alone(), HeldBy0(Normal, 1)), 0, 0) == WithMutex(Asleep(), HeldBy0(Normal, 1))
  {
    var k := WithMutex(Alone(), HeldBy0(Normal, 1));
    BlockGives(0);
    assert k.mutexes[0 := HeldBy0(Normal, 1)] == k.mutexes;
  }

  /** Locking a NORMAL mutex twice reaches the idle processor with a thread waiting, and that is a
      true deadlock. */
  lemma DeadlockReachable()
    ensures var k := WithMutex(Asleep(), HeldBy0(Normal, 1));
      Reachable(k) && k.s.current == None && Queue(k.s, MutexQ(0)) != [] && TrueDeadlock(k)
  {
    Starts(WithMutex(Alone(), FreeMutex(Normal)));
    Locks(Alone(), Normal);
    Relocks();
    DeadlockIsTrue(WithMutex(Asleep(), HeldBy0(Normal, 1)));
  }

  lemma Relocks()
    requires Reachable(WithMutex(Alone(), HeldBy0(Normal, 1))) && Inv(WithMutex(Alone(), HeldBy0(Normal, 1)))
    ensures Reachable(WithMutex(Asleep(), HeldBy0(Normal, 1)))
  {
    var k, ev := WithMutex(Alone(), HeldBy0(Normal, 1)), Event(OnMutex(Lock(0)), 0);
    RelockGives();
    assert MutexStep(k, ev) == Mutexes.Lock(k, 0, 0);
    Goes(k, ev, WithMutex(Asleep(), HeldBy0(Normal, 1)));
  }
}
