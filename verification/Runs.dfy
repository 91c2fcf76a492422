/** Runs of the whole library: any interleaving of the calls below by any number of threads, with
    any choice of the run queue's policy, as long as each step is one the library supports. */
module Runs {
  import opened Basics
  import opened Scheduling
  import opened Sync
  import Mutexes
  import Semaphores
  import RwLocks
  import ThreadTable

  datatype MutexOp = Lock(m: nat) | TryLock(m: nat) | Unlock(m: nat)

  datatype CondOp = CondWait(c: nat, m: nat) | Signal(c: nat) | Broadcast(c: nat)

  datatype SemOp = SemWait(e: nat) | SemTryWait(e: nat) | SemPost(e: nat)

  datatype RwOp = RdLock(w: nat) | TryRdLock(w: nat) | WrLock(w: nat) | TryWrLock(w: nat) | RwUnlock(w: nat)

  /** Yield stands for uthread_yield and for a preempting tick. */
  datatype ThreadOp = Create(t: Tid) | Join(t: Tid) | Exit(v: int) | Yield

  /** What the running thread does next: a call from user code, or going on with a call after
      scheduler_schedule has returned. */
  datatype Op =
    | OnMutex(mutex: MutexOp)
    | OnCond(cond: CondOp)
    | OnSem(sem: SemOp)
    | OnRw(rw: RwOp)
    | OnThread(thread: ThreadOp)
    | Resume

  /** `pick` is the position of the thread that the run queue hands out if asked during the step. */
  datatype Event = Event(op: Op, pick: nat)

  function Self(k: Kernel): (t: Tid)
    requires k.s.current.Some?
  {
    k.s.current.value
  }

  function PcOf(k: Kernel, t: Tid): (pc: Pc)
    requires t in k.s.threads
  {
    k.s.threads[t].pc
  }

  /** What the library asks of a caller in user code: objects that exist, releases of what one
      holds, room for the value and for the thread, and a run queue that does not hand a yielding
      thread the processor back. */
  predicate Disciplined(k: Kernel, ev: Event)
    requires k.s.current.Some?
  {
    match ev.op
    case OnMutex(op) => op.m in k.mutexes && (op.Unlock? ==> Mutexes.MayUnlock(k, op.m))
    case OnCond(op) => op.CondWait? ==> op.m in k.mutexes && Mutexes.MayWait(k, op.m)
    case OnSem(op) => op.e in k.sems && (op.SemPost? ==> k.sems[op.e].value < INT_MAX)
    case OnRw(op) => op.w in k.rws && (op.RwUnlock? ==> RwLocks.MayRwUnlock(k, op.w))
    case OnThread(op) => ThreadDiscipline(k, op, ev.pick)
    case Resume => false
  }

  predicate ThreadDiscipline(k: Kernel, op: ThreadOp, pick: nat) {
    match op
    case Create(t) => t !in k.s.threads && |k.s.threads| < ThreadTable.MAX_THREADS
    case Join(t) => t in k.s.threads
    case Exit(v) => true
    case Yield => PicksAnother(k.s, pick)
  }

  /** A thread inside a call goes on with it; one in user code makes any disciplined call. */
  ghost predicate Legal(k: Kernel, ev: Event)
    requires Inv(k)
  {
    && k.s.current.Some?
    && (PcOf(k, Self(k)) == User ==> Disciplined(k, ev))
    && (PcOf(k, Self(k)) != User ==> ev.op == Resume)
  }

  // ---------------------------------------------------------------- one step

  /** The call that the running thread is in is about an existing object or thread. */
  lemma ResumeKnown(k: Kernel)
    requires Inv(k) && k.s.current.Some? && PcOf(k, Self(k)) != User
    ensures var pc := PcOf(k, Self(k));
      && (pc.Woken? ==> Exists(k, About(pc.goal)))
      && (pc.JoinWoken? ==> (
        && pc.target in k.s.threads && pc.target != Self(k)
        && k.s.threads[pc.target].pc == Dead && k.s.threads[pc.target].joiner == k.s.current))
      && (pc.Woken? || pc.JoinWoken?)
  {
    var self := Self(k);
    assert JoinOk(k.s.threads, self);
    if PcOf(k, self).Woken? {
      assert self in Seekers(k.s, PcOf(k, self).goal);
    }
  }

  ghost function StepResume(k: Kernel, pick: nat): (r: Kernel)
    requires Inv(k) && k.s.current.Some? && PcOf(k, Self(k)) != User
  {
    ResumeKnown(k);
    match PcOf(k, Self(k))
    case Woken(g) => (
      match g
      case GetMutex(m) => Mutexes.TakeMutex(k, m, pick)
      case GetSem(e) => Semaphores.TakeSem(k, e, pick)
      case GetRead(w) => RwLocks.TakeRead(k, w, pick)
      case GetWrite(w) => RwLocks.TakeWrite(k, w, k.rws[w], pick))
    case JoinWoken(u) => k.(s := JoinRound(k.s, u, pick))
  }

  /** uthread_join from its start. */
  ghost function StepJoin(k: Kernel, u: Tid, pick: nat): (r: Kernel)
    requires Inv(k) && k.s.current.Some? && u in k.s.threads
    ensures r.mutexes == k.mutexes && r.sems == k.sems && r.rws == k.rws
    ensures r.s.queues == k.s.queues
  {
    if JoinRefused(k.s, u) then k else k.(s := JoinRound(k.s, u, pick))
  }

  /** uthread_create: scheduler_add_thread and enqueue. */
  ghost function StepCreate(k: Kernel, t: Tid): (r: Kernel)
    requires t !in k.s.threads
    ensures r.mutexes == k.mutexes && r.sems == k.sems && r.rws == k.rws
    ensures r.s.queues == k.s.queues
  {
    k.(s := Scheduling.Create(k.s, t))
  }

  /** uthread_exit of a joinable thread. */
  ghost function StepExit(k: Kernel, v: int, pick: nat): (r: Kernel)
    requires Inv(k) && k.s.current.Some?
    ensures r.mutexes == k.mutexes && r.sems == k.sems && r.rws == k.rws
    ensures r.s.queues == k.s.queues
  {
    k.(s := Scheduling.Exit(k.s, v, pick))
  }

  ghost function StepYield(k: Kernel, pick: nat): (r: Kernel)
    requires Inv(k) && k.s.current.Some?
    ensures r.mutexes == k.mutexes && r.sems == k.sems && r.rws == k.rws
    ensures r.s.queues == k.s.queues
  {
    k.(s := Scheduling.Yield(k.s, pick))
  }

  ghost function MutexStep(k: Kernel, ev: Event): (r: Kernel)
    requires Inv(k) && Legal(k, ev) && ev.op.OnMutex?
  {
    match ev.op.mutex
    case Lock(m) => Mutexes.Lock(k, m, ev.pick)
    case TryLock(m) => Mutexes.TryLock(k, m)
    case Unlock(m) => Mutexes.Unlock(k, m)
  }

  ghost function CondStep(k: Kernel, ev: Event): (r: Kernel)
    requires Inv(k) && Legal(k, ev) && ev.op.OnCond?
  {
    match ev.op.cond
    case CondWait(c, m) => Mutexes.CondWait(k, c, m, ev.pick)
    case Signal(c) => Mutexes.Signal(k, c)
    case Broadcast(c) => Mutexes.Broadcast(k, c)
  }

  ghost function SemStep(k: Kernel, ev: Event): (r: Kernel)
    requires Inv(k) && Legal(k, ev) && ev.op.OnSem?
  {
    match ev.op.sem
    case SemWait(e) => Semaphores.TakeSem(k, e, ev.pick)
    case SemTryWait(e) => Semaphores.TrySem(k, e)
    case SemPost(e) => Semaphores.Post(k, e)
  }

  ghost function RwStep(k: Kernel, ev: Event): (r: Kernel)
    requires Inv(k) && Legal(k, ev) && ev.op.OnRw?
  {
    match ev.op.rw
    case RdLock(w) => RwLocks.TakeRead(k, w, ev.pick)
    case TryRdLock(w) => RwLocks.TryRead(k, w)
    case WrLock(w) => RwLocks.WrLock(k, w, ev.pick)
    case TryWrLock(w) => RwLocks.TryWrite(k, w)
    case RwUnlock(w) => RwLocks.RwUnlock(k, w)
  }

  ghost function Step(k: Kernel, ev: Event): (r: Kernel)
    requires Inv(k) && Legal(k, ev)
  {
    match ev.op
    case OnMutex(_) => MutexStep(k, ev)
    case OnCond(_) => CondStep(k, ev)
    case OnSem(_) => SemStep(k, ev)
    case OnRw(_) => RwStep(k, ev)
    case OnThread(_) => ThreadStep(k, ev)
    case Resume => StepResume(k, ev.pick)
  }

  ghost function ThreadStep(k: Kernel, ev: Event): (r: Kernel)
    requires Inv(k) && Legal(k, ev) && ev.op.OnThread?
  {
    match ev.op.thread
    case Create(t) => StepCreate(k, t)
    case Join(t) => StepJoin(k, t, ev.pick)
    case Exit(v) => StepExit(k, v, ev.pick)
    case Yield => StepYield(k, ev.pick)
  }

  // ---------------------------------------------------------------- every step keeps the invariant

  /** The same calls on objects are in progress in r as in s. */
  ghost predicate SameCalls(s: Sched, r: Sched) {
    && r.queues == s.queues
    && (forall t :: t in s.threads && InCall(s.threads[t].pc) ==> t in r.threads && r.threads[t].pc == s.threads[t].pc)
    && (forall t :: t in r.threads && InCall(r.threads[t].pc) ==> t in s.threads && InCall(s.threads[t].pc))
  }

  lemma SameCallsObjects(k: Kernel, s: Sched)
    requires ObjectsOk(k) && SameCalls(k.s, s)
    ensures ObjectsOk(k.(s := s))
  {
    forall g
      ensures Woke(s, g) == Woke(k.s, g) && Seekers(s, g) == Seekers(k.s, g)
    {
    }
    ObjectsSame(k, s);
  }

  lemma BuryCalls(s: Sched, v: int)
    requires Live(s) && s.threads[s.current.value].pc == User
    ensures SameCalls(s, Bury(s, v))
  {
    JoinerParked(s);
  }

  lemma ScheduleCalls(s: Sched, e: Sched, pick: nat)
    requires SameCalls(s, e) && RunqOk(e) && CurrentParked(e)
    ensures SameCalls(s, Schedule(e, pick))
  {
    ScheduleSame(e, pick);
  }

  lemma ExitCalls(s: Sched, v: int, pick: nat)
    requires Live(s) && s.threads[s.current.value].pc == User
    ensures SameCalls(s, Scheduling.Exit(s, v, pick))
  {
    BuryCalls(s, v);
    BuryRunq(s, v);
    ScheduleCalls(s, Bury(s, v), pick);
  }

  lemma JoinCalls(s: Sched, u: Tid, pick: nat)
    requires Live(s) && u in s.threads && !JoinRefused(s, u)
    requires s.threads[s.current.value].pc in {User, JoinWoken(u)}
    ensures SameCalls(s, JoinRound(s, u, pick))
  {
    assert JoinOk(s.threads, s.current.value);
    if s.threads[u].pc != Dead {
      ParkLive(s, u);
      assert SameCalls(s, Park(s, u));
      ScheduleCalls(s, Park(s, u), pick);
    }
  }

  lemma JoinInv(k: Kernel, u: Tid, pick: nat)
    requires Inv(k) && k.s.current.Some? && u in k.s.threads && !JoinRefused(k.s, u)
    requires PcOf(k, Self(k)) in {User, JoinWoken(u)}
    ensures Inv(k.(s := JoinRound(k.s, u, pick)))
  {
    JoinRoundLive(k.s, u, pick);
    JoinCalls(k.s, u, pick);
    SameCallsObjects(k, JoinRound(k.s, u, pick));
  }

  lemma JoinStepInv(k: Kernel, u: Tid, pick: nat)
    requires Inv(k) && k.s.current.Some? && u in k.s.threads && PcOf(k, Self(k)) == User
    ensures Inv(StepJoin(k, u, pick))
  {
    if !JoinRefused(k.s, u) {
      JoinInv(k, u, pick);
    }
  }

  lemma CreateInv(k: Kernel, t: Tid)
    requires Inv(k) && k.s.current.Some? && t !in k.s.threads
    ensures Inv(StepCreate(k, t))
  {
    CreateLive(k.s, t);
    SameCallsObjects(k, Scheduling.Create(k.s, t));
  }

  lemma ExitInv(k: Kernel, v: int, pick: nat)
    requires Inv(k) && k.s.current.Some? && PcOf(k, Self(k)) == User
    ensures Inv(StepExit(k, v, pick))
  {
    ExitLive(k.s, v, pick);
    ExitCalls(k.s, v, pick);
    SameCallsObjects(k, Scheduling.Exit(k.s, v, pick));
  }

  lemma YieldInv(k: Kernel, pick: nat)
    requires Inv(k) && k.s.current.Some? && PicksAnother(k.s, pick)
    ensures Inv(StepYield(k, pick))
  {
    YieldLiveIff(k.s, pick);
    YieldSame(k.s, pick);
    SameCallsObjects(k, Scheduling.Yield(k.s, pick));
  }

  lemma ResumeInv(k: Kernel, pick: nat)
    requires Inv(k) && k.s.current.Some? && PcOf(k, Self(k)) != User
    ensures Inv(StepResume(k, pick))
  {
    ResumeKnown(k);
    match PcOf(k, Self(k))
    case Woken(g) => {
      match g
      case GetMutex(m) => Mutexes.TakeMutexInv(k, m, pick);
      case GetSem(e) => Semaphores.TakeSemInv(k, e, pick);
      case GetRead(w) => RwLocks.TakeReadInv(k, w, pick);
      case GetWrite(w) => RwLocks.RetryWriteInv(k, w, pick);
    }
    case JoinWoken(u) => JoinInv(k, u, pick);
  }

  lemma MutexStepInv(k: Kernel, ev: Event)
    requires Inv(k) && Legal(k, ev) && ev.op.OnMutex?
    ensures Inv(MutexStep(k, ev))
  {
    match ev.op.mutex
    case Lock(m) => Mutexes.LockInv(k, m, ev.pick);
    case TryLock(m) => Mutexes.TryLockInv(k, m);
    case Unlock(m) => Mutexes.UnlockInvIff(k, m);
  }

  lemma CondStepInv(k: Kernel, ev: Event)
    requires Inv(k) && Legal(k, ev) && ev.op.OnCond?
    ensures Inv(CondStep(k, ev))
  {
    match ev.op.cond
    case CondWait(c, m) => Mutexes.CondWaitInvIff(k, c, m, ev.pick);
    case Signal(c) => Mutexes.SignalInv(k, c);
    case Broadcast(c) => Mutexes.BroadcastInv(k, c);
  }

  lemma SemStepInv(k: Kernel, ev: Event)
    requires Inv(k) && Legal(k, ev) && ev.op.OnSem?
    ensures Inv(SemStep(k, ev))
  {
    match ev.op.sem
    case SemWait(e) => Semaphores.TakeSemInv(k, e, ev.pick);
    case SemTryWait(e) => Semaphores.TrySemInv(k, e);
    case SemPost(e) => Semaphores.PostInvIff(k, e);
  }

  lemma RdLockIs(k: Kernel, ev: Event)
    requires Inv(k) && Legal(k, ev) && ev.op.OnRw? && ev.op.rw.RdLock?
    ensures PcOf(k, Self(k)) == User && ev.op.rw.w in k.rws && RwStep(k, ev) == RwLocks.TakeRead(k, ev.op.rw.w, ev.pick)
  {
  }

  lemma TryRdLockIs(k: Kernel, ev: Event)
    requires Inv(k) && Legal(k, ev) && ev.op.OnRw? && ev.op.rw.TryRdLock?
    ensures PcOf(k, Self(k)) == User && ev.op.rw.w in k.rws && RwStep(k, ev) == RwLocks.TryRead(k, ev.op.rw.w)
  {
  }

  lemma WrLockIs(k: Kernel, ev: Event)
    requires Inv(k) && Legal(k, ev) && ev.op.OnRw? && ev.op.rw.WrLock?
    ensures PcOf(k, Self(k)) == User && ev.op.rw.w in k.rws && RwStep(k, ev) == RwLocks.WrLock(k, ev.op.rw.w, ev.pick)
  {
  }

  lemma TryWrLockIs(k: Kernel, ev: Event)
    requires Inv(k) && Legal(k, ev) && ev.op.OnRw? && ev.op.rw.TryWrLock?
    ensures PcOf(k, Self(k)) == User && ev.op.rw.w in k.rws && RwStep(k, ev) == RwLocks.TryWrite(k, ev.op.rw.w)
  {
  }

  lemma RdLockStepInv(k: Kernel, ev: Event)
    requires Inv(k) && Legal(k, ev) && ev.op.OnRw? && ev.op.rw.RdLock?
    ensures Inv(RwStep(k, ev))
  {
    RdLockIs(k, ev);
    RwLocks.TakeReadInv(k, ev.op.rw.w, ev.pick);
  }

  lemma TryRdLockStepInv(k: Kernel, ev: Event)
    requires Inv(k) && Legal(k, ev) && ev.op.OnRw? && ev.op.rw.TryRdLock?
    ensures Inv(RwStep(k, ev))
  {
    TryRdLockIs(k, ev);
    RwLocks.TryReadInv(k, ev.op.rw.w);
  }

  lemma WrLockStepInv(k: Kernel, ev: Event)
    requires Inv(k) && Legal(k, ev) && ev.op.OnRw? && ev.op.rw.WrLock?
    ensures Inv(RwStep(k, ev))
  {
    WrLockIs(k, ev);
    RwLocks.WrLockInv(k, ev.op.rw.w, ev.pick);
  }

  lemma TryWrLockStepInv(k: Kernel, ev: Event)
    requires Inv(k) && Legal(k, ev) && ev.op.OnRw? && ev.op.rw.TryWrLock?
    ensures Inv(RwStep(k, ev))
  {
    TryWrLockIs(k, ev);
    RwLocks.TryWriteInv(k, ev.op.rw.w);
  }

  lemma RwUnlockIs(k: Kernel, ev: Event)
    requires Inv(k) && Legal(k, ev) && ev.op.OnRw? && ev.op.rw.RwUnlock?
    ensures ev.op.rw.w in k.rws && RwLocks.MayRwUnlock(k, ev.op.rw.w)
    ensures RwStep(k, ev) == RwLocks.RwUnlock(k, ev.op.rw.w)
  {
  }

  lemma RwUnlockStepInv(k: Kernel, ev: Event)
    requires Inv(k) && Legal(k, ev) && ev.op.OnRw? && ev.op.rw.RwUnlock?
    ensures Inv(RwStep(k, ev))
  {
    RwUnlockIs(k, ev);
    RwLocks.RwUnlockInvIff(k, ev.op.rw.w);
  }

  lemma RwStepInv(k: Kernel, ev: Event)
    requires Inv(k) && Legal(k, ev) && ev.op.OnRw?
    ensures Inv(RwStep(k, ev))
  {
    match ev.op.rw
    case RdLock(_) => RdLockStepInv(k, ev);
    case TryRdLock(_) => TryRdLockStepInv(k, ev);
    case WrLock(_) => WrLockStepInv(k, ev);
    case TryWrLock(_) => TryWrLockStepInv(k, ev);
    case RwUnlock(_) => RwUnlockStepInv(k, ev);
  }

  lemma ThreadStepInv(k: Kernel, ev: Event)
    requires Inv(k) && Legal(k, ev) && ev.op.OnThread?
    ensures Inv(ThreadStep(k, ev))
  {
    match ev.op.thread
    case Create(t) => CreateInv(k, t);
    case Join(u) => JoinStepInv(k, u, ev.pick);
    case Exit(v) => ExitInv(k, v, ev.pick);
    case Yield => YieldInv(k, ev.pick);
  }

  lemma StepInv(k: Kernel, ev: Event)
    requires Inv(k) && Legal(k, ev)
    ensures Inv(Step(k, ev))
  {
    match ev.op
    case OnMutex(_) => MutexStepInv(k, ev);
    case OnCond(_) => CondStepInv(k, ev);
    case OnSem(_) => SemStepInv(k, ev);
    case OnRw(_) => RwStepInv(k, ev);
    case OnThread(_) => ThreadStepInv(k, ev);
    case Resume => ResumeInv(k, ev.pick);
  }

  // ---------------------------------------------------------------- runs

  /** The library after uthread_init, with any objects the init functions make. */
  ghost predicate Init(k: Kernel) {
    && (exists main :: k.s == Sched(Some(main), [], map[main := Tcb(User, Running, None, 0, None)], map[]))
    && (forall m :: m in k.mutexes ==> k.mutexes[m] == Mutex(k.mutexes[m].kind, 0, None, 0, {}))
    && (forall e :: e in k.sems ==> 0 <= k.sems[e].value <= INT_MAX)
    && (forall w :: w in k.rws ==> k.rws[w] == Rw(0, 0, None, 0, multiset{}, multiset{}))
  }

  lemma InitInv(k: Kernel)
    requires Init(k)
    ensures Inv(k)
  {
    forall g
      ensures Seekers(k.s, g) == {} && Woke(k.s, g) == {}
    {
    }
    InitBase(k.s);
  }

  lemma InitBase(s: Sched)
    requires exists main :: s == Sched(Some(main), [], map[main := Tcb(User, Running, None, 0, None)], map[])
    ensures Base(s) && CurrentRuns(s)
  {
  }

  /** Every event of es is legal where it happens. */
  ghost predicate Allowed(k: Kernel, es: seq<Event>)
    requires Inv(k)
    decreases |es|
  {
    if es == [] then true
    else
      Legal(k, es[0]) && (StepInv(k, es[0]); Allowed(Step(k, es[0]), es[1..]))
  }

  ghost function Run(k: Kernel, es: seq<Event>): (r: Kernel)
    requires Inv(k) && Allowed(k, es)
    ensures Inv(r)
    decreases |es|
  {
    if es == [] then k
    else
      StepInv(k, es[0]);
      Run(Step(k, es[0]), es[1..])
  }
}
