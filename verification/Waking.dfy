/** How blocked calls end, over runs: signals reach the longest waiter, and a call returns only with
    what it asked for; what a wait does to the recursion count. */
module Waking {
  import opened Basics
  import opened Scheduling
  import opened Sync
  import opened Runs
  import Mutexes
  import Semaphores
  import RwLocks

  // ---------------------------------------------------------------- what a step leaves alone

  lemma ResumeFrame(k: Kernel, pick: nat)
    requires Inv(k) && k.s.current.Some? && PcOf(k, Self(k)).Woken?
    ensures Calm(k.s, StepResume(k, pick).s, Self(k))
  {
    ResumeKnown(k);
    match PcOf(k, Self(k)).goal
    case GetMutex(m) => Mutexes.TakeMutexFrame(k, m, pick);
    case GetSem(e) => Semaphores.TakeSemFrame(k, e, pick);
    case GetRead(w) => RwLocks.TakeReadFrame(k, w, pick);
    case GetWrite(w) => RwLocks.TakeWriteFrame(k, w, k.rws[w], pick);
  }

  predicate IsJoin(op: Op) {
    op.OnThread? && (op.thread.Join? || op.thread.Exit?)
  }

  lemma MutexFrame(k: Kernel, ev: Event)
    requires Inv(k) && Legal(k, ev) && ev.op.OnMutex?
    ensures Calm(k.s, MutexStep(k, ev).s, Self(k))
  {
    match ev.op.mutex
    case Lock(m) => Mutexes.LockFrame(k, m, ev.pick);
    case TryLock(m) => Mutexes.TryLockFrame(k, m);
    case Unlock(m) => Mutexes.UnlockFrame(k, m);
  }

  lemma SemFrame(k: Kernel, ev: Event)
    requires Inv(k) && Legal(k, ev) && ev.op.OnSem?
    ensures Calm(k.s, SemStep(k, ev).s, Self(k))
  {
    match ev.op.sem
    case SemWait(e) => Semaphores.TakeSemFrame(k, e, ev.pick);
    case SemTryWait(e) => Semaphores.TrySemFrame(k, e);
    case SemPost(e) => Semaphores.PostFrame(k, e);
  }

  lemma RdLockFrame(k: Kernel, ev: Event)
    requires Inv(k) && Legal(k, ev) && ev.op.OnRw? && ev.op.rw.RdLock?
    ensures Calm(k.s, RwStep(k, ev).s, Self(k))
  {
    RdLockIs(k, ev);
    RwLocks.TakeReadFrame(k, ev.op.rw.w, ev.pick);
  }

  lemma TryRdLockFrame(k: Kernel, ev: Event)
    requires Inv(k) && Legal(k, ev) && ev.op.OnRw? && ev.op.rw.TryRdLock?
    ensures Calm(k.s, RwStep(k, ev).s, Self(k))
  {
    TryRdLockIs(k, ev);
    RwLocks.TryReadFrame(k, ev.op.rw.w);
  }

  lemma WrLockFrame(k: Kernel, ev: Event)
    requires Inv(k) && Legal(k, ev) && ev.op.OnRw? && ev.op.rw.WrLock?
    ensures Calm(k.s, RwStep(k, ev).s, Self(k))
  {
    WrLockIs(k, ev);
    RwLocks.WrLockFrame(k, ev.op.rw.w, ev.pick);
  }

  lemma TryWrLockFrame(k: Kernel, ev: Event)
    requires Inv(k) && Legal(k, ev) && ev.op.OnRw? && ev.op.rw.TryWrLock?
    ensures Calm(k.s, RwStep(k, ev).s, Self(k))
  {
    TryWrLockIs(k, ev);
    RwLocks.TryWriteFrame(k, ev.op.rw.w);
  }

  lemma RwUnlockFrame(k: Kernel, ev: Event)
    requires Inv(k) && Legal(k, ev) && ev.op.OnRw? && ev.op.rw.RwUnlock?
    ensures Calm(k.s, RwStep(k, ev).s, Self(k))
  {
    RwUnlockIs(k, ev);
    RwLocks.RwUnlockFrame(k, ev.op.rw.w);
  }

  lemma RwFrame(k: Kernel, ev: Event)
    requires Inv(k) && Legal(k, ev) && ev.op.OnRw?
    ensures Calm(k.s, RwStep(k, ev).s, Self(k))
  {
    match ev.op.rw
    case RdLock(_) => RdLockFrame(k, ev);
    case TryRdLock(_) => TryRdLockFrame(k, ev);
    case WrLock(_) => WrLockFrame(k, ev);
    case TryWrLock(_) => TryWrLockFrame(k, ev);
    case RwUnlock(_) => RwUnlockFrame(k, ev);
  }

  lemma ThreadFrame(k: Kernel, ev: Event)
    requires Inv(k) && Legal(k, ev) && ev.op.OnThread? && !IsJoin(ev.op)
    ensures Calm(k.s, ThreadStep(k, ev).s, Self(k))
  {
    match ev.op.thread
    case Create(t) => CreateFrame(k.s, t, Self(k));
    case Yield => YieldFrame(k.s, ev.pick);
  }

  /** Steps on everything but condition variables and joins. */
  lemma StepFrame(k: Kernel, ev: Event)
    requires Inv(k) && Legal(k, ev) && !ev.op.OnCond? && !IsJoin(ev.op) && !ev.op.Resume?
    ensures Calm(k.s, Step(k, ev).s, Self(k))
  {
    match ev.op
    case OnMutex(_) => MutexFrame(k, ev);
    case OnSem(_) => SemFrame(k, ev);
    case OnRw(_) => RwFrame(k, ev);
    case OnThread(_) => ThreadFrame(k, ev);
  }

  lemma CondFrame(k: Kernel, ev: Event)
    requires Inv(k) && Legal(k, ev) && ev.op.OnCond?
    ensures Frame(k.s, CondStep(k, ev).s, Self(k))
  {
    match ev.op.cond
    case CondWait(c, m) => Mutexes.CondWaitFrame(k, c, m, ev.pick);
    case Signal(c) => WakeOneLive(k.s, CondQ(c)); WakeOneFrame(k.s, CondQ(c), Self(k));
    case Broadcast(c) => WakeAllFrame(k.s, CondQ(c), Self(k));
  }

  lemma CreateFrame(s: Sched, t: Tid, self: Tid)
    requires t !in s.threads
    ensures Calm(s, Scheduling.Create(s, t), self)
  {
  }

  lemma YieldFrame(s: Sched, pick: nat)
    requires Live(s)
    ensures Calm(s, Scheduling.Yield(s, pick), s.current.value)
  {
  }

  // ---------------------------------------------------------------- condition variables

  /** What an event does to the queue of condition variable c. */
  ghost function CondQueueAfter(k: Kernel, op: Op, c: nat): (r: seq<Tid>)
    requires k.s.current.Some?
  {
    var s := Queue(k.s, CondQ(c));
    match op
    case OnCond(Signal(d)) => if d == c && s != [] then s[1..] else s
    case OnCond(Broadcast(d)) => if d == c then [] else s
    case OnCond(CondWait(d, _)) => if d == c then s + [Self(k)] else s
    case _ => s
  }

  lemma StepCond(k: Kernel, ev: Event, c: nat)
    requires Inv(k) && Legal(k, ev)
    ensures Queue(Step(k, ev).s, CondQ(c)) == CondQueueAfter(k, ev.op, c)
  {
    if ev.op.OnCond? {
      OwnCond(k, ev, c);
    } else if IsJoin(ev.op) {
      JoinCond(k, ev);
    } else if ev.op.Resume? {
      ResumeCond(k, ev.pick);
    } else {
      StepFrame(k, ev);
    }
  }

  lemma JoinCond(k: Kernel, ev: Event)
    requires Inv(k) && Legal(k, ev) && IsJoin(ev.op)
    ensures CondKept(k.s, ThreadStep(k, ev).s)
  {
    assert ThreadStep(k, ev).s.queues == k.s.queues;
  }

  lemma ResumeCond(k: Kernel, pick: nat)
    requires Inv(k) && k.s.current.Some? && PcOf(k, Self(k)) != User
    ensures CondKept(k.s, StepResume(k, pick).s)
  {
    ResumeKnown(k);
    if PcOf(k, Self(k)).Woken? {
      ResumeFrame(k, pick);
    } else {
      assert StepResume(k, pick).s.queues == k.s.queues;
    }
  }

  lemma OwnCond(k: Kernel, ev: Event, c: nat)
    requires Inv(k) && Legal(k, ev) && ev.op.OnCond?
    ensures Queue(CondStep(k, ev).s, CondQ(c)) == CondQueueAfter(k, ev.op, c)
  {
    match ev.op.cond
    case CondWait(d, m) => Mutexes.CondWaitFrame(k, d, m, ev.pick);
    case Signal(d) => SignalQueue(k, d, c);
    case Broadcast(d) => assert Queue(Mutexes.Broadcast(k, d).s, CondQ(c)) == CondQueueAfter(k, ev.op, c);
  }

  lemma SignalQueue(k: Kernel, d: nat, c: nat)
    requires Live(k.s)
    ensures Queue(Mutexes.Signal(k, d).s, CondQ(c)) == CondQueueAfter(k, OnCond(Signal(d)), c)
  {
    WakeOneLive(k.s, CondQ(d));
  }

  /** Thread t is queued on c before and after every event of es. */
  ghost predicate QueuedThroughout(k: Kernel, es: seq<Event>, t: Tid, c: nat)
    requires Inv(k) && Allowed(k, es)
    decreases |es|
  {
    && t in Queue(k.s, CondQ(c))
    && (es != [] ==> (StepInv(k, es[0]); QueuedThroughout(Step(k, es[0]), es[1..], t, c)))
  }

  function Signals(es: seq<Event>, c: nat): (n: nat) {
    if es == [] then 0 else (if es[0].op == OnCond(Signal(c)) then 1 else 0) + Signals(es[1..], c)
  }

  predicate Broadcasts(es: seq<Event>, c: nat) {
    exists i :: 0 <= i < |es| && es[i].op == OnCond(Broadcast(c))
  }

  lemma BroadcastsCons(es: seq<Event>, c: nat)
    requires es != []
    ensures Broadcasts(es, c) <==> es[0].op == OnCond(Broadcast(c)) || Broadcasts(es[1..], c)
  {
    var rest := es[1..];
    assert forall i :: 0 <= i < |rest| ==> rest[i] == es[i + 1];
    assert forall i :: 1 <= i < |es| ==> es[i] == rest[i - 1];
  }

  /** One event takes the waiter at position p off the queue, moves it up, or leaves it there. */
  lemma CondMoves(k: Kernel, ev: Event, c: nat, p: nat)
    requires Inv(k) && Legal(k, ev) && p < |Queue(k.s, CondQ(c))|
    ensures var t, q := Queue(k.s, CondQ(c))[p], Queue(Step(k, ev).s, CondQ(c));
      if ev.op == OnCond(Broadcast(c)) || (ev.op == OnCond(Signal(c)) && p == 0) then t !in q
      else var p' := if ev.op == OnCond(Signal(c)) then p - 1 else p; p' < |q| && q[p'] == t
  {
    StepCond(k, ev, c);
    assert Distinct(Queue(k.s, CondQ(c)));
  }

  predicate HasAt(q: seq<Tid>, i: int, t: Tid) {
    0 <= i < |q| && q[i] == t
  }

  /** The waiter that was at position p is still queued, moved up by each of n signals; or it has
      left after more than p signals or a broadcast. */
  predicate Settled(queued: bool, q: seq<Tid>, n: nat, broadcast: bool, p: nat, t: Tid) {
    if queued then n <= p && !broadcast && HasAt(q, p - n, t) else n > p || broadcast
  }

  ghost predicate Accounted(k: Kernel, es: seq<Event>, t: Tid, c: nat, p: nat)
    requires Inv(k) && Allowed(k, es)
  {
    Settled(QueuedThroughout(k, es, t, c), Queue(Run(k, es).s, CondQ(c)), Signals(es, c), Broadcasts(es, c), p, t)
  }

  lemma SettledCons(queued: bool, q: seq<Tid>, n: nat, broadcast: bool, p: nat, t: Tid)
    requires p > 0 && Settled(queued, q, n, broadcast, p - 1, t)
    ensures Settled(queued, q, 1 + n, broadcast, p, t)
  {
  }

  lemma RunCons(k: Kernel, es: seq<Event>, t: Tid, c: nat)
    requires Inv(k) && Allowed(k, es) && es != []
    ensures Inv(Step(k, es[0])) && Allowed(Step(k, es[0]), es[1..])
    ensures Run(k, es) == Run(Step(k, es[0]), es[1..])
    ensures t in Queue(k.s, CondQ(c)) ==>
      QueuedThroughout(k, es, t, c) == QueuedThroughout(Step(k, es[0]), es[1..], t, c)
  {
    StepInv(k, es[0]);
  }

  lemma AccountedCons(k: Kernel, es: seq<Event>, t: Tid, c: nat, p: nat)
    requires Inv(k) && Allowed(k, es) && es != [] && Inv(Step(k, es[0])) && t in Queue(k.s, CondQ(c))
    requires es[0].op != OnCond(Broadcast(c)) && (es[0].op == OnCond(Signal(c)) ==> p > 0)
    requires Accounted(Step(k, es[0]), es[1..], t, c, if es[0].op == OnCond(Signal(c)) then p - 1 else p)
    ensures Accounted(k, es, t, c, p)
  {
    BroadcastsCons(es, c);
    RunCons(k, es, t, c);
    if es[0].op == OnCond(Signal(c)) {
      SettledCons(QueuedThroughout(k, es, t, c), Queue(Run(k, es).s, CondQ(c)), Signals(es[1..], c),
                  Broadcasts(es, c), p, t);
    }
  }

  /** No signal is missed: a waiter with p threads before it stays queued exactly as long as there
      were at most p signals and no broadcast since, and each signal moves it up by one. */
  lemma {:induction false} NoSignalMissed(k: Kernel, es: seq<Event>, c: nat, p: nat)
    requires Inv(k) && Allowed(k, es) && p < |Queue(k.s, CondQ(c))|
    ensures Accounted(k, es, Queue(k.s, CondQ(c))[p], c, p)
    decreases |es|
  {
    if es != [] {
      var t, ev := Queue(k.s, CondQ(c))[p], es[0];
      StepInv(k, ev);
      CondMoves(k, ev, c, p);
      if ev.op == OnCond(Broadcast(c)) || (ev.op == OnCond(Signal(c)) && p == 0) {
        BroadcastsCons(es, c);
        assert !QueuedThroughout(k, es, t, c);
      } else {
        NoSignalMissed(Step(k, ev), es[1..], c, if ev.op == OnCond(Signal(c)) then p - 1 else p);
        AccountedCons(k, es, t, c, p);
      }
    }
  }

  // ---------------------------------------------------------------- returning from a call

  /** What a call seeking g is given when it returns. */
  ghost predicate Given(k: Kernel, r: Kernel, t: Tid, g: Goal) {
    match g
    case GetMutex(m) =>
      && m in k.mutexes && m in r.mutexes && k.mutexes[m].holders == {}
      && r.mutexes[m].holders == {t} && r.mutexes[m].owner == Some(t) && r.mutexes[m].depth == 1
    case GetSem(e) => e in k.sems && e in r.sems && k.sems[e].value > 0 && r.sems[e].value == k.sems[e].value - 1
    case GetRead(w) =>
      && w in k.rws && w in r.rws && k.rws[w].writeHolders == multiset{} && Seekers(k.s, GetWrite(w)) == {}
      && r.rws[w].readHolders == k.rws[w].readHolders + multiset{t}
    case GetWrite(w) =>
      && w in k.rws && w in r.rws && k.rws[w].readHolders == multiset{} && k.rws[w].writeHolders == multiset{}
      && r.rws[w].writeHolders == multiset{t}
  }

  lemma FrameSeekers(s: Sched, r: Sched, self: Tid, t: Tid, g: Goal)
    requires Frame(s, r, self) && t in Seekers(s, g) && t != self
    ensures t in Seekers(r, g)
  {
  }

  lemma SameCallsSeekers(s: Sched, r: Sched, t: Tid, g: Goal)
    requires SameCalls(s, r) && t in Seekers(s, g)
    ensures t in Seekers(r, g)
  {
  }

  lemma ExitSeekers(k: Kernel, v: int, pick: nat, t: Tid, g: Goal)
    requires Inv(k) && k.s.current.Some? && PcOf(k, Self(k)) == User && t in Seekers(k.s, g)
    ensures t in Seekers(StepExit(k, v, pick).s, g)
  {
    ExitCalls(k.s, v, pick);
    SameCallsSeekers(k.s, Scheduling.Exit(k.s, v, pick), t, g);
  }

  lemma StepJoinSeekers(k: Kernel, u: Tid, pick: nat, t: Tid, g: Goal)
    requires Inv(k) && k.s.current.Some? && PcOf(k, Self(k)) == User && u in k.s.threads && t in Seekers(k.s, g)
    ensures t in Seekers(StepJoin(k, u, pick).s, g)
  {
    if !JoinRefused(k.s, u) {
      JoinCalls(k.s, u, pick);
      SameCallsSeekers(k.s, JoinRound(k.s, u, pick), t, g);
    }
  }

  lemma JoinSeekers(k: Kernel, ev: Event, t: Tid, g: Goal)
    requires Inv(k) && Legal(k, ev) && IsJoin(ev.op) && t in Seekers(k.s, g)
    ensures t in Seekers(ThreadStep(k, ev).s, g)
  {
    JoinIs(k, ev);
    match ev.op.thread
    case Exit(v) => ExitSeekers(k, v, ev.pick, t, g);
    case Join(u) => StepJoinSeekers(k, u, ev.pick, t, g);
  }

  lemma JoinIs(k: Kernel, ev: Event)
    requires Inv(k) && Legal(k, ev) && IsJoin(ev.op)
    ensures PcOf(k, Self(k)) == User
    ensures ev.op.thread.Exit? ==> ThreadStep(k, ev) == StepExit(k, ev.op.thread.v, ev.pick)
    ensures ev.op.thread.Join? ==>
      ev.op.thread.t in k.s.threads && ThreadStep(k, ev) == StepJoin(k, ev.op.thread.t, ev.pick)
  {
  }

  lemma CondSeekers(k: Kernel, ev: Event, t: Tid, g: Goal)
    requires Inv(k) && Legal(k, ev) && ev.op.OnCond? && t in Seekers(k.s, g)
    ensures t in Seekers(CondStep(k, ev).s, g)
  {
    CondFrame(k, ev);
    FrameSeekers(k.s, CondStep(k, ev).s, Self(k), t, g);
  }

  lemma CalmSeekers(k: Kernel, r: Sched, t: Tid, g: Goal)
    requires Inv(k) && k.s.current.Some? && PcOf(k, Self(k)) == User && t in Seekers(k.s, g)
    requires Calm(k.s, r, Self(k))
    ensures t in Seekers(r, g)
  {
    FrameSeekers(k.s, r, Self(k), t, g);
  }

  lemma ThreadSeekers(k: Kernel, ev: Event, t: Tid, g: Goal)
    requires Inv(k) && Legal(k, ev) && ev.op.OnThread? && t in Seekers(k.s, g)
    ensures t in Seekers(ThreadStep(k, ev).s, g)
  {
    if IsJoin(ev.op) {
      JoinSeekers(k, ev, t, g);
    } else {
      ThreadFrame(k, ev);
      CalmSeekers(k, ThreadStep(k, ev).s, t, g);
    }
  }

  lemma StepSeekers(k: Kernel, ev: Event, t: Tid, g: Goal)
    requires Inv(k) && Legal(k, ev) && !ev.op.Resume? && t in Seekers(k.s, g)
    ensures t in Seekers(Step(k, ev).s, g)
  {
    match ev.op
    case OnMutex(_) => MutexFrame(k, ev); CalmSeekers(k, MutexStep(k, ev).s, t, g);
    case OnCond(_) => CondSeekers(k, ev, t, g);
    case OnSem(_) => SemFrame(k, ev); CalmSeekers(k, SemStep(k, ev).s, t, g);
    case OnRw(_) => RwFrame(k, ev); CalmSeekers(k, RwStep(k, ev).s, t, g);
    case OnThread(_) => ThreadSeekers(k, ev, t, g);
  }

  /** The call of t that seeks g is still in progress in r, or has returned with what it sought. */
  ghost predicate GoesOn(k: Kernel, r: Kernel, t: Tid, g: Goal) {
    || t in Seekers(r.s, g)
    || (t in r.s.threads && r.s.threads[t].pc == User && Given(k, r, t, g))
  }

  lemma Others(s: Sched, q: Qid, g: Goal, pick: nat, g': Goal, t: Tid)
    requires Tries(s, g) && GoalFits(q, g) && t in Seekers(s, g') && (t != s.current.value || g' == g)
    ensures t in Seekers(Block(s, q, g, pick), g')
    ensures t != s.current.value ==> t in Seekers(Return(s), g')
  {
    BlockEffect(s, q, g, pick, g');
    ReturnEffect(s, g, g');
  }

  lemma MutexGiven(k: Kernel, m: nat, pick: nat)
    requires Inv(k) && k.s.current.Some? && PcOf(k, Self(k)) == Woken(GetMutex(m)) && m in k.mutexes
    requires k.mutexes[m].lock == 0
    ensures GoesOn(k, Mutexes.TakeMutex(k, m, pick), Self(k), GetMutex(m))
  {
    assert MutexAt(k.s, m, k.mutexes[m]);
    assert Given(k, Mutexes.TakeMutex(k, m, pick), Self(k), GetMutex(m));
  }

  lemma MutexReturns(k: Kernel, m: nat, pick: nat, g: Goal, t: Tid)
    requires Inv(k) && k.s.current.Some? && PcOf(k, Self(k)) == Woken(GetMutex(m)) && m in k.mutexes
    requires t in Seekers(k.s, g)
    ensures GoesOn(k, Mutexes.TakeMutex(k, m, pick), t, g)
  {
    if t == Self(k) && k.mutexes[m].lock == 0 {
      MutexGiven(k, m, pick);
    } else {
      Others(k.s, MutexQ(m), GetMutex(m), pick, g, t);
    }
  }

  lemma SemGiven(k: Kernel, e: nat, pick: nat)
    requires Inv(k) && k.s.current.Some? && PcOf(k, Self(k)) == Woken(GetSem(e)) && e in k.sems
    requires k.sems[e].value > 0
    ensures GoesOn(k, Semaphores.TakeSem(k, e, pick), Self(k), GetSem(e))
  {
    assert Given(k, Semaphores.TakeSem(k, e, pick), Self(k), GetSem(e));
  }

  lemma SemReturns(k: Kernel, e: nat, pick: nat, g: Goal, t: Tid)
    requires Inv(k) && k.s.current.Some? && PcOf(k, Self(k)) == Woken(GetSem(e)) && e in k.sems
    requires t in Seekers(k.s, g)
    ensures GoesOn(k, Semaphores.TakeSem(k, e, pick), t, g)
  {
    if t == Self(k) && k.sems[e].value > 0 {
      SemGiven(k, e, pick);
    } else {
      Others(k.s, SemQ(e), GetSem(e), pick, g, t);
    }
  }

  lemma ReadGiven(k: Kernel, w: nat, pick: nat)
    requires Inv(k) && k.s.current.Some? && PcOf(k, Self(k)) == Woken(GetRead(w)) && w in k.rws
    requires !RwLocks.ReadBlocked(k.rws[w])
    ensures GoesOn(k, RwLocks.TakeRead(k, w, pick), Self(k), GetRead(w))
  {
    assert RwAt(k.s, w, k.rws[w]);
    assert Given(k, RwLocks.TakeRead(k, w, pick), Self(k), GetRead(w));
  }

  lemma ReadReturns(k: Kernel, w: nat, pick: nat, g: Goal, t: Tid)
    requires Inv(k) && k.s.current.Some? && PcOf(k, Self(k)) == Woken(GetRead(w)) && w in k.rws
    requires t in Seekers(k.s, g)
    ensures GoesOn(k, RwLocks.TakeRead(k, w, pick), t, g)
  {
    if t == Self(k) && !RwLocks.ReadBlocked(k.rws[w]) {
      ReadGiven(k, w, pick);
    } else {
      Others(k.s, ReadQ(w), GetRead(w), pick, g, t);
    }
  }

  lemma WriteGiven(k: Kernel, w: nat, pick: nat)
    requires Inv(k) && k.s.current.Some? && PcOf(k, Self(k)) == Woken(GetWrite(w)) && w in k.rws
    requires !RwLocks.WriteBlocked(k.rws[w])
    ensures GoesOn(k, RwLocks.TakeWrite(k, w, k.rws[w], pick), Self(k), GetWrite(w))
  {
    assert RwAt(k.s, w, k.rws[w]);
    assert Given(k, RwLocks.TakeWrite(k, w, k.rws[w], pick), Self(k), GetWrite(w));
  }

  lemma WriteReturns(k: Kernel, w: nat, pick: nat, g: Goal, t: Tid)
    requires Inv(k) && k.s.current.Some? && PcOf(k, Self(k)) == Woken(GetWrite(w)) && w in k.rws
    requires t in Seekers(k.s, g)
    ensures GoesOn(k, RwLocks.TakeWrite(k, w, k.rws[w], pick), t, g)
  {
    if t == Self(k) && !RwLocks.WriteBlocked(k.rws[w]) {
      WriteGiven(k, w, pick);
    } else {
      Others(k.s, WriteQ(w), GetWrite(w), pick, g, t);
    }
  }

  /** No event makes a blocked call return without what it waits for: cond_wait returns only as the
      one owner of its mutex, a reader only where no writer holds or seeks the lock. */
  lemma NoSpuriousReturn(k: Kernel, ev: Event, t: Tid, g: Goal)
    requires Inv(k) && Legal(k, ev) && t in Seekers(k.s, g)
    ensures GoesOn(k, Step(k, ev), t, g)
  {
    if ev.op.Resume? {
      ResumeStepReturns(k, ev, t, g);
    } else {
      StepSeekers(k, ev, t, g);
      StillGoesOn(k, Step(k, ev), t, g);
    }
  }

  lemma ResumeStepReturns(k: Kernel, ev: Event, t: Tid, g: Goal)
    requires Inv(k) && Legal(k, ev) && ev.op.Resume? && t in Seekers(k.s, g)
    ensures GoesOn(k, Step(k, ev), t, g)
  {
    ResumeIs(k, ev);
    ResumeReturns(k, ev.pick, Step(k, ev), t, g);
  }

  lemma StillGoesOn(k: Kernel, r: Kernel, t: Tid, g: Goal)
    requires t in Seekers(r.s, g)
    ensures GoesOn(k, r, t, g)
  {
  }

  lemma ResumeIs(k: Kernel, ev: Event)
    requires Inv(k) && Legal(k, ev) && ev.op.Resume?
    ensures PcOf(k, Self(k)) != User && Step(k, ev) == StepResume(k, ev.pick)
  {
  }

  lemma JoinReturns(k: Kernel, u: Tid, pick: nat, g: Goal, t: Tid)
    requires Inv(k) && k.s.current.Some? && u in k.s.threads && !JoinRefused(k.s, u)
    requires PcOf(k, Self(k)) == JoinWoken(u) && t in Seekers(k.s, g)
    ensures GoesOn(k, k.(s := JoinRound(k.s, u, pick)), t, g)
  {
    JoinCalls(k.s, u, pick);
  }

  lemma ResumeReturns(k: Kernel, pick: nat, r: Kernel, t: Tid, g: Goal)
    requires Inv(k) && k.s.current.Some? && PcOf(k, Self(k)) != User && t in Seekers(k.s, g)
    requires r == StepResume(k, pick)
    ensures GoesOn(k, r, t, g)
  {
    ResumeKnown(k);
    if PcOf(k, Self(k)).JoinWoken? {
      JoinReturns(k, PcOf(k, Self(k)).target, pick, g, t);
    } else {
      match PcOf(k, Self(k)).goal
      case GetMutex(m) => MutexReturns(k, m, pick, g, t);
      case GetSem(e) => SemReturns(k, e, pick, g, t);
      case GetRead(w) => ReadReturns(k, w, pick, g, t);
      case GetWrite(w) => WriteReturns(k, w, pick, g, t);
    }
  }

  // ---------------------------------------------------------------- the recursion count over a wait

  /** Thread t seeks g before and after every event of es. */
  ghost predicate StaysIn(k: Kernel, es: seq<Event>, t: Tid, g: Goal)
    requires Inv(k) && Allowed(k, es)
    decreases |es|
  {
    t in Seekers(k.s, g) && (es != [] ==> (StepInv(k, es[0]); StaysIn(Step(k, es[0]), es[1..], t, g)))
  }

  lemma {:induction false} StaysInLast(k: Kernel, es: seq<Event>, t: Tid, g: Goal)
    requires Inv(k) && Allowed(k, es) && StaysIn(k, es, t, g)
    ensures t in Seekers(Run(k, es).s, g)
    decreases |es|
  {
    if es != [] {
      StepInv(k, es[0]);
      StaysInLast(Step(k, es[0]), es[1..], t, g);
    }
  }

  /** The run es begins with thread t waiting on c with m, and t is in that call ever since. */
  ghost predicate WaitsThroughout(k: Kernel, es: seq<Event>, c: nat, m: nat)
    requires Inv(k) && Allowed(k, es)
  {
    && es != [] && es[0].op == OnCond(CondWait(c, m))
    && (StepInv(k, es[0]); StaysIn(Step(k, es[0]), es[1..], Self(k), GetMutex(m)))
  }

  /** cond_wait by an owner that has locked the mutex d times returns with a count of 1, so it
      restores the count if and only if d was 1. */
  lemma WaitRestoresDepthIff(k: Kernel, es: seq<Event>, ev: Event, c: nat, m: nat)
    requires Inv(k) && Allowed(k, es) && WaitsThroughout(k, es, c, m)
    requires m in k.mutexes && k.mutexes[m].owner == k.s.current
    requires Legal(Run(k, es), ev) && Self(k) !in Seekers(Step(Run(k, es), ev).s, GetMutex(m))
    ensures var r := Step(Run(k, es), ev);
      && m in r.mutexes && r.mutexes[m].owner == k.s.current && r.mutexes[m].depth == 1
      && (r.mutexes[m].depth == k.mutexes[m].depth <==> k.mutexes[m].depth == 1)
  {
    var t, e := Self(k), Run(k, es);
    StepInv(k, es[0]);
    StaysInLast(Step(k, es[0]), es[1..], t, GetMutex(m));
    NoSpuriousReturn(e, ev, t, GetMutex(m));
  }
}
