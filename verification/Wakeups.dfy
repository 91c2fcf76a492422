/** What every event does to the wait queues: who goes to sleep and who is woken. */
module Wakeups {
  import opened Scheduling
  import opened Sync
  import opened Runs
  import Mutexes
  import Semaphores
  import RwLocks
  import MutexAccounts
  import RwAccounts

  datatype Wake = Nobody | First(q: Qid) | Everyone(q: Qid)

  /** The running thread goes to the end of the queue `enter`; then the queue `wake` loses its first
      thread, or all. */
  ghost function QueueAfter(s: Sched, enter: Option<Qid>, wake: Wake, q: Qid): (r: seq<Tid>)
    requires s.current.Some?
  {
    var r := if enter == Some(q) then Queue(s, q) + [s.current.value] else Queue(s, q);
    match wake
    case Nobody => r
    case First(p) => if p == q && r != [] then r[1..] else r
    case Everyone(p) => if p == q then [] else r
  }

  ghost predicate IsWoken(s: Sched, wake: Wake, t: Tid) {
    match wake
    case Nobody => false
    case First(q) => Queue(s, q) != [] && t == Queue(s, q)[0]
    case Everyone(q) => t in Queue(s, q)
  }

  /** Every queue changes like that and in no other way, and who leaves one is woken for what it seeks. */
  ghost predicate Shuffles(s: Sched, enter: Option<Qid>, wake: Wake, r: Sched)
    requires s.current.Some?
  {
    && (forall q :: Queue(r, q) == QueueAfter(s, enter, wake, q))
    && (forall t :: IsWoken(s, wake, t) ==>
      && t in s.threads && s.threads[t].pc.Waiting?
      && t in r.threads && r.threads[t].pc == Woken(s.threads[t].pc.goal))
  }

  // ---------------------------------------------------------------- what is meant

  ghost predicate Locked(k: Kernel, m: nat) {
    m in k.mutexes && k.mutexes[m].owner.Some?
  }

  /** The caller owns the mutex already, and the code tells. */
  ghost predicate Relocks(k: Kernel, m: nat) {
    m in k.mutexes && k.mutexes[m].owner == k.s.current && k.mutexes[m].kind != Normal
  }

  /** The queue that a thread goes to sleep on when it seeks g. */
  ghost function SleepsFor(k: Kernel, g: Goal): (q: Option<Qid>) {
    match g
    case GetMutex(m) => if Locked(k, m) then Some(MutexQ(m)) else None
    case GetSem(e) => if e in k.sems && k.sems[e].value == 0 then Some(SemQ(e)) else None
    case GetRead(w) => if w in k.rws && !RwAccounts.OpenToRead(k, w) then Some(ReadQ(w)) else None
    case GetWrite(w) => if w in k.rws && !RwAccounts.OpenToWrite(k, w) then Some(WriteQ(w)) else None
  }

  /** Where the running thread goes to sleep in the event: for what it calls for or seeks again, unless
      it can have it; and on the condition variable it waits on. */
  ghost function EnterOf(k: Kernel, op: Op, pc: Pc): (q: Option<Qid>) {
    match op
    case OnMutex(Lock(m)) => if Relocks(k, m) then None else SleepsFor(k, GetMutex(m))
    case OnCond(CondWait(c, _)) => Some(CondQ(c))
    case OnSem(SemWait(e)) => SleepsFor(k, GetSem(e))
    case OnRw(RdLock(w)) => SleepsFor(k, GetRead(w))
    case OnRw(WrLock(w)) => SleepsFor(k, GetWrite(w))
    case Resume => if pc.Woken? then SleepsFor(k, pc.goal) else None
    case _ => None
  }

  /** The unlock gives the mutex up, or finds it free. */
  ghost predicate GivesUp(k: Kernel, m: nat) {
    && m in k.mutexes
    && var u := k.mutexes[m];
    && (u.owner != k.s.current ==> u.kind != ErrorCheck)
    && (u.owner == k.s.current && u.kind == Recursive ==> u.depth == 1)
  }

  /** Whom the event wakes: a mutex given up, a post and a signal the longest waiter; a broadcast
      everyone; a writer's unlock the longest waiting writer, or every reader if no writer waits; the
      last reader's unlock the longest waiting writer. */
  ghost function WakeOf(k: Kernel, op: Op): (w: Wake)
    requires k.s.current.Some?
  {
    match op
    case OnMutex(Unlock(m)) => if GivesUp(k, m) then First(MutexQ(m)) else Nobody
    case OnCond(CondWait(_, m)) => First(MutexQ(m))
    case OnCond(Signal(c)) => First(CondQ(c))
    case OnCond(Broadcast(c)) => Everyone(CondQ(c))
    case OnSem(SemPost(e)) => First(SemQ(e))
    case OnRw(RwUnlock(w)) => if w in k.rws then RwWake(k, w) else Nobody
    case _ => Nobody
  }

  ghost function RwWake(k: Kernel, w: nat): (r: Wake)
    requires k.s.current.Some? && w in k.rws
  {
    if Self(k) in k.rws[w].writeHolders then
      if Queue(k.s, WriteQ(w)) != [] then First(WriteQ(w)) else Everyone(ReadQ(w))
    else if k.rws[w].readHolders == multiset{Self(k)} then First(WriteQ(w))
    else Nobody
  }

  // ---------------------------------------------------------------- the steps of the scheduler

  lemma KeepShuffles(s: Sched, r: Sched)
    requires s.current.Some? && r.queues == s.queues
    ensures Shuffles(s, None, Nobody, r)
  {
    forall q
      ensures Queue(r, q) == Queue(s, q)
    {
    }
  }

  lemma BlockShuffles(s: Sched, q: Qid, g: Goal, pick: nat)
    requires Live(s)
    ensures Shuffles(s, Some(q), Nobody, Block(s, q, g, pick))
  {
    var r := Block(s, q, g, pick);
    forall p
      ensures Queue(r, p) == QueueAfter(s, Some(q), Nobody, p)
    {
    }
  }

  lemma WakeOneShuffles(s: Sched, q: Qid)
    requires Live(s)
    ensures HeadWaits(s, q) && Shuffles(s, None, First(q), WakeOne(s, q))
  {
    WakeOneLive(s, q);
    var r := WakeOne(s, q);
    forall p
      ensures Queue(r, p) == QueueAfter(s, None, First(q), p)
    {
    }
  }

  lemma WakeAllShuffles(s: Sched, q: Qid)
    requires Live(s)
    ensures Shuffles(s, None, Everyone(q), WakeAll(s, q))
  {
    var r := WakeAll(s, q);
    forall p
      ensures Queue(r, p) == QueueAfter(s, None, Everyone(q), p)
    {
    }
  }

  lemma LeaveShuffles(s: Sched, c: nat, m: nat, pick: nat)
    requires Live(s) && s.threads[s.current.value].pc == User
    ensures Sane(Mutexes.Leave(s, c, m))
    ensures Shuffles(s, Some(CondQ(c)), First(MutexQ(m)), Schedule(Mutexes.Leave(s, c, m), pick))
  {
    Mutexes.CondWaitBase(s, c, m);
    LeaveQueues(s, c, m);
    LeaveWakes(s, c, m);
    SwitchShuffles(s, Some(CondQ(c)), First(MutexQ(m)), Mutexes.Leave(s, c, m), pick);
  }

  /** Switching to another thread touches neither. */
  lemma SwitchShuffles(s: Sched, enter: Option<Qid>, wake: Wake, f: Sched, pick: nat)
    requires s.current.Some? && Shuffles(s, enter, wake, f) && RunqOk(f) && CurrentParked(f)
    ensures Shuffles(s, enter, wake, Schedule(f, pick))
  {
    ScheduleSame(f, pick);
    assert forall q :: Queue(Schedule(f, pick), q) == Queue(f, q);
  }

  lemma LeaveQueues(s: Sched, c: nat, m: nat)
    requires Live(s) && s.threads[s.current.value].pc == User
    ensures forall q :: Queue(Mutexes.Leave(s, c, m), q) == QueueAfter(s, Some(CondQ(c)), First(MutexQ(m)), q)
  {
    Mutexes.LeaveIs(s, c, m);
  }

  lemma LeaveWakes(s: Sched, c: nat, m: nat)
    requires Live(s) && s.threads[s.current.value].pc == User
    ensures var r, q := Mutexes.Leave(s, c, m), Queue(s, MutexQ(m));
      q != [] ==> (
        && q[0] in s.threads && s.threads[q[0]].pc.Waiting?
        && q[0] in r.threads && r.threads[q[0]].pc == Woken(s.threads[q[0]].pc.goal))
  {
    Mutexes.LeaveIs(s, c, m);
    var q := Queue(s, MutexQ(m));
    assert Queue(Enlist(s, s.current.value, CondQ(c), GetMutex(m)), MutexQ(m)) == q;
    if q != [] {
      assert q[0] in q;
    }
  }

  // ---------------------------------------------------------------- the calls

  lemma TakeMutexShuffles(k: Kernel, m: nat, pick: nat)
    requires Live(k.s) && m in k.mutexes && MutexAccounts.Whole(k.mutexes[m])
    ensures Shuffles(k.s, SleepsFor(k, GetMutex(m)), Nobody, Mutexes.TakeMutex(k, m, pick).s)
  {
    BlockShuffles(k.s, MutexQ(m), GetMutex(m), pick);
    KeepShuffles(k.s, Return(k.s));
  }

  lemma TakeSemShuffles(k: Kernel, e: nat, pick: nat)
    requires Live(k.s) && e in k.sems && k.sems[e].value >= 0
    ensures Shuffles(k.s, SleepsFor(k, GetSem(e)), Nobody, Semaphores.TakeSem(k, e, pick).s)
  {
    BlockShuffles(k.s, SemQ(e), GetSem(e), pick);
    KeepShuffles(k.s, Return(k.s));
  }

  lemma TakeReadShuffles(k: Kernel, w: nat, pick: nat)
    requires Live(k.s) && RwAccounts.Told(k, w)
    ensures Shuffles(k.s, SleepsFor(k, GetRead(w)), Nobody, RwLocks.TakeRead(k, w, pick).s)
  {
    BlockShuffles(k.s, ReadQ(w), GetRead(w), pick);
    KeepShuffles(k.s, Return(k.s));
  }

  lemma TakeWriteShuffles(k: Kernel, w: nat, u: Rw, pick: nat)
    requires Live(k.s) && RwAccounts.Told(k, w) && u == k.rws[w].(pending := u.pending)
    ensures Shuffles(k.s, SleepsFor(k, GetWrite(w)), Nobody, RwLocks.TakeWrite(k, w, u, pick).s)
  {
    BlockShuffles(k.s, WriteQ(w), GetWrite(w), pick);
    KeepShuffles(k.s, Return(k.s));
  }

  lemma LockShuffles(k: Kernel, m: nat, pick: nat)
    requires Live(k.s) && m in k.mutexes && MutexAccounts.Whole(k.mutexes[m])
    ensures Shuffles(k.s, if Relocks(k, m) then None else SleepsFor(k, GetMutex(m)), Nobody, Mutexes.Lock(k, m, pick).s)
  {
    TakeMutexShuffles(k, m, pick);
    KeepShuffles(k.s, k.s);
  }

  lemma UnlockShuffles(k: Kernel, m: nat)
    requires Live(k.s) && m in k.mutexes && MutexAccounts.Whole(k.mutexes[m])
    ensures Shuffles(k.s, None, if GivesUp(k, m) then First(MutexQ(m)) else Nobody, Mutexes.Unlock(k, m).s)
  {
    WakeOneShuffles(k.s, MutexQ(m));
    KeepShuffles(k.s, k.s);
  }

  lemma WriterOutShuffles(k: Kernel, w: nat)
    requires Live(k.s) && w in k.rws && RwAccounts.Whole(k.rws[w]) && Self(k) in k.rws[w].writeHolders
    ensures Shuffles(k.s, None, RwWake(k, w), RwLocks.RwUnlock(k, w).s)
  {
    assert RwLocks.RwUnlock(k, w).s == RwLocks.PassOn(k.s, w);
    WakeOneShuffles(k.s, WriteQ(w));
    WakeAllShuffles(k.s, ReadQ(w));
  }

  lemma ReaderOutShuffles(k: Kernel, w: nat)
    requires Live(k.s) && w in k.rws && RwAccounts.Whole(k.rws[w]) && Self(k) in k.rws[w].readHolders
    ensures Shuffles(k.s, None, RwWake(k, w), RwLocks.RwUnlock(k, w).s)
  {
    LastHold(k.rws[w], Self(k));
    assert RwLocks.RwUnlock(k, w).s == RwLocks.LastOut(k.s, w, k.rws[w].readers - 1);
    WakeOneShuffles(k.s, WriteQ(w));
    KeepShuffles(k.s, k.s);
  }

  /** Thread t is the last reader exactly if there is one hold. */
  lemma LastHold(u: Rw, t: Tid)
    requires RwAccounts.Whole(u) && t in u.readHolders
    ensures u.writer == 0 && u.readers >= 1 && u.writeHolders == multiset{}
    ensures u.readers == 1 <==> u.readHolders == multiset{t}
  {
    var rest := u.readHolders - multiset{t};
    assert u.readHolders == rest + multiset{t};
    assert u.readers == |rest| + 1;
    assert |rest| == 0 <==> rest == multiset{};
  }

  lemma RwUnlockShuffles(k: Kernel, w: nat)
    requires Live(k.s) && w in k.rws && RwAccounts.Whole(k.rws[w]) && RwLocks.MayRwUnlock(k, w)
    ensures Shuffles(k.s, None, RwWake(k, w), RwLocks.RwUnlock(k, w).s)
  {
    if Self(k) in k.rws[w].writeHolders {
      WriterOutShuffles(k, w);
    } else if Self(k) in k.rws[w].readHolders {
      ReaderOutShuffles(k, w);
    } else {
      RwAccounts.StrangerRefused(k, w);
      KeepShuffles(k.s, k.s);
    }
  }

  // ---------------------------------------------------------------- every event

  lemma MutexShuffles(k: Kernel, ev: Event)
    requires Inv(k) && Legal(k, ev) && ev.op.OnMutex?
    ensures Shuffles(k.s, EnterOf(k, ev.op, PcOf(k, Self(k))), WakeOf(k, ev.op), MutexStep(k, ev).s)
  {
    MutexAccounts.FreeOrHeld(k, ev.op.mutex.m);
    match ev.op.mutex
    case Lock(m) => LockShuffles(k, m, ev.pick);
    case TryLock(_) => KeepShuffles(k.s, k.s);
    case Unlock(m) => UnlockShuffles(k, m);
  }

  lemma CondShuffles(k: Kernel, ev: Event)
    requires Inv(k) && Legal(k, ev) && ev.op.OnCond?
    ensures Shuffles(k.s, EnterOf(k, ev.op, PcOf(k, Self(k))), WakeOf(k, ev.op), CondStep(k, ev).s)
  {
    match ev.op.cond
    case CondWait(c, m) => LeaveShuffles(k.s, c, m, ev.pick);
    case Signal(c) => WakeOneShuffles(k.s, CondQ(c));
    case Broadcast(c) => WakeAllShuffles(k.s, CondQ(c));
  }

  lemma SemShuffles(k: Kernel, ev: Event)
    requires Inv(k) && Legal(k, ev) && ev.op.OnSem?
    ensures Shuffles(k.s, EnterOf(k, ev.op, PcOf(k, Self(k))), WakeOf(k, ev.op), SemStep(k, ev).s)
  {
    assert SemAt(k.s, ev.op.sem.e, k.sems[ev.op.sem.e]);
    match ev.op.sem
    case SemWait(e) => TakeSemShuffles(k, e, ev.pick);
    case SemTryWait(_) => KeepShuffles(k.s, k.s);
    case SemPost(e) => WakeOneShuffles(k.s, SemQ(e));
  }

  lemma RwShuffles(k: Kernel, ev: Event)
    requires Inv(k) && Legal(k, ev) && ev.op.OnRw?
    ensures Shuffles(k.s, EnterOf(k, ev.op, PcOf(k, Self(k))), WakeOf(k, ev.op), RwStep(k, ev).s)
  {
    RwAccounts.FieldsTell(k, ev.op.rw.w);
    match ev.op.rw
    case RdLock(w) => RdLockIs(k, ev); TakeReadShuffles(k, w, ev.pick);
    case TryRdLock(_) => TryRdLockIs(k, ev); KeepShuffles(k.s, k.s);
    case WrLock(w) => {
      WrLockIs(k, ev);
      TakeWriteShuffles(k, w, k.rws[w].(pending := k.rws[w].pending + 1), ev.pick);
    }
    case TryWrLock(_) => TryWrLockIs(k, ev); KeepShuffles(k.s, k.s);
    case RwUnlock(w) => RwUnlockIs(k, ev); RwUnlockShuffles(k, w);
  }

  lemma ThreadShuffles(k: Kernel, ev: Event)
    requires Inv(k) && Legal(k, ev) && ev.op.OnThread?
    ensures Shuffles(k.s, EnterOf(k, ev.op, PcOf(k, Self(k))), WakeOf(k, ev.op), ThreadStep(k, ev).s)
  {
    KeepShuffles(k.s, ThreadStep(k, ev).s);
  }

  lemma ResumeShuffles(k: Kernel, pick: nat)
    requires Inv(k) && k.s.current.Some? && PcOf(k, Self(k)) != User
    ensures Shuffles(k.s, EnterOf(k, Resume, PcOf(k, Self(k))), Nobody, StepResume(k, pick).s)
  {
    match PcOf(k, Self(k))
    case Woken(g) => WokenShuffles(k, pick);
    case JoinWoken(u) => {
      ResumeKnown(k);
      KeepShuffles(k.s, StepResume(k, pick).s);
    }
  }

  lemma WokenShuffles(k: Kernel, pick: nat)
    requires Inv(k) && k.s.current.Some? && PcOf(k, Self(k)).Woken?
    ensures Shuffles(k.s, SleepsFor(k, PcOf(k, Self(k)).goal), Nobody, StepResume(k, pick).s)
  {
    match PcOf(k, Self(k)).goal
    case GetMutex(m) => {
      MutexAccounts.ResumeIsTake(k, pick);
      MutexAccounts.FreeOrHeld(k, m);
      TakeMutexShuffles(k, m, pick);
    }
    case GetSem(e) => {
      ResumeKnown(k);
      assert SemAt(k.s, e, k.sems[e]);
      TakeSemShuffles(k, e, pick);
    }
    case GetRead(w) => {
      RwAccounts.ResumeIsRead(k, pick);
      RwAccounts.FieldsTell(k, w);
      TakeReadShuffles(k, w, pick);
    }
    case GetWrite(w) => {
      RwAccounts.ResumeIsWrite(k, pick);
      RwAccounts.FieldsTell(k, w);
      TakeWriteShuffles(k, w, k.rws[w], pick);
    }
  }

  /** Every legal event puts its thread to sleep exactly when it cannot have what it calls for, wakes
      exactly those it should, in the order they waited, and changes no queue otherwise. */
  lemma StepShuffles(k: Kernel, ev: Event)
    requires Inv(k) && Legal(k, ev)
    ensures Shuffles(k.s, EnterOf(k, ev.op, PcOf(k, Self(k))), WakeOf(k, ev.op), Step(k, ev).s)
  {
    match ev.op
    case OnMutex(_) => MutexShuffles(k, ev);
    case OnCond(_) => CondShuffles(k, ev);
    case OnSem(_) => SemShuffles(k, ev);
    case OnRw(_) => RwShuffles(k, ev);
    case OnThread(_) => ThreadShuffles(k, ev);
    case Resume => ResumeShuffles(k, ev.pick);
  }
}
