/** Every step of a run does one thing to the lists: one of the operations that HeapScheduling carries
    out on the heap. */
module HeapRuns {
  import opened Scheduling
  import opened Sync
  import opened Runs
  import opened Threads
  import opened WaitQueues
  import opened HeapQueues
  import opened HeapScheduling
  import Mutexes
  import Semaphores
  import RwLocks

  /** The operations of HeapScheduling, under round robin. */
  datatype Action =
    | Stays                          // SameStands, ReapShows
    | Wakes(q: Qid)                  // WakeOneOf
    | WakesAll(q: Qid)               // WakeAllOf
    | Blocks(q: Qid, g: Goal)        // BlockOn
    | Waits(c: nat, u: nat)          // WaitOn
    | Yields                         // YieldNow
    | Creates(t: Tid)                // CreateReady
    | Exits(v: int, j: Option<Tid>)  // ExitNow, where j is the joiner
    | Parks(u: Tid)                  // ParkOn

  /** r is what the action makes of s. */
  ghost predicate Does(s: Sched, a: Action, r: Sched)
    requires Live(s)
  {
    match a
    case Stays =>
      && r.current == s.current && r.runq == s.runq && r.queues == s.queues
      && (forall t :: t in r.threads ==> t in s.threads)
    case Wakes(q) => HeadWaits(s, q) && r == WakeOne(s, q)
    case WakesAll(q) => AllWait(s, q) && r == WakeAll(s, q)
    case Blocks(q, g) => r == Block(s, q, g, 0)
    case Waits(c, u) =>
      && s.threads[s.current.value].pc == User && Sane(Mutexes.Leave(s, c, u))
      && r == Schedule(Mutexes.Leave(s, c, u), 0)
    case Yields => r == Scheduling.Yield(s, 0)
    case Creates(t) => t !in s.threads && r == Scheduling.Create(s, t)
    case Exits(v, j) => j == s.threads[s.current.value].joiner && r == Scheduling.Exit(s, v, 0)
    case Parks(u) =>
      && u in s.threads && !JoinRefused(s, u) && s.threads[u].pc != Dead && s.threads[s.current.value].pc == User
      && r == JoinRound(s, u, 0)
  }

  ghost predicate OneAction(s: Sched, r: Sched)
    requires Live(s)
  {
    exists a :: Does(s, a, r)
  }

  lemma Did(s: Sched, a: Action, r: Sched)
    requires Live(s) && Does(s, a, r)
    ensures OneAction(s, r)
  {
  }

  lemma ReturnAction(s: Sched)
    requires Live(s)
    ensures Does(s, Stays, Return(s))
  {
  }

  lemma TakeMutexAction(k: Kernel, m: nat)
    requires Live(k.s) && m in k.mutexes
    ensures OneAction(k.s, Mutexes.TakeMutex(k, m, 0).s)
  {
    ReturnAction(k.s);
    Did(k.s, if k.mutexes[m].lock != 0 then Blocks(MutexQ(m), GetMutex(m)) else Stays, Mutexes.TakeMutex(k, m, 0).s);
  }

  lemma TakeSemAction(k: Kernel, e: nat)
    requires Live(k.s) && e in k.sems
    ensures OneAction(k.s, Semaphores.TakeSem(k, e, 0).s)
  {
    ReturnAction(k.s);
    Did(k.s, if k.sems[e].value <= 0 then Blocks(SemQ(e), GetSem(e)) else Stays, Semaphores.TakeSem(k, e, 0).s);
  }

  lemma TakeReadAction(k: Kernel, w: nat)
    requires Live(k.s) && w in k.rws
    ensures OneAction(k.s, RwLocks.TakeRead(k, w, 0).s)
  {
    ReturnAction(k.s);
    Did(k.s, if RwLocks.ReadBlocked(k.rws[w]) then Blocks(ReadQ(w), GetRead(w)) else Stays,
        RwLocks.TakeRead(k, w, 0).s);
  }

  lemma TakeWriteAction(k: Kernel, w: nat, u: Rw)
    requires Live(k.s)
    ensures OneAction(k.s, RwLocks.TakeWrite(k, w, u, 0).s)
  {
    ReturnAction(k.s);
    Did(k.s, if RwLocks.WriteBlocked(u) then Blocks(WriteQ(w), GetWrite(w)) else Stays,
        RwLocks.TakeWrite(k, w, u, 0).s);
  }

  lemma StaysAction(s: Sched)
    requires Live(s)
    ensures OneAction(s, s)
  {
    Did(s, Stays, s);
  }

  lemma WakeAction(s: Sched, q: Qid)
    requires Live(s)
    ensures HeadWaits(s, q) && OneAction(s, WakeOne(s, q))
  {
    WakeOneLive(s, q);
    Did(s, Wakes(q), WakeOne(s, q));
  }

  lemma WakeAllAction(s: Sched, q: Qid)
    requires Live(s)
    ensures OneAction(s, WakeAll(s, q))
  {
    Did(s, WakesAll(q), WakeAll(s, q));
  }

  lemma MutexAction(k: Kernel, ev: Event)
    requires Inv(k) && Legal(k, ev) && ev.op.OnMutex? && ev.pick == 0
    ensures OneAction(k.s, MutexStep(k, ev).s)
  {
    match ev.op.mutex
    case Lock(m) => LockAction(k, m);
    case TryLock(_) => StaysAction(k.s);
    case Unlock(m) => UnlockAction(k, m);
  }

  lemma LockAction(k: Kernel, m: nat)
    requires Live(k.s) && m in k.mutexes
    ensures OneAction(k.s, Mutexes.Lock(k, m, 0).s)
  {
    TakeMutexAction(k, m);
    StaysAction(k.s);
  }

  lemma UnlockAction(k: Kernel, m: nat)
    requires Live(k.s) && m in k.mutexes
    ensures OneAction(k.s, Mutexes.Unlock(k, m).s)
  {
    WakeAction(k.s, MutexQ(m));
    StaysAction(k.s);
  }

  lemma CondAction(k: Kernel, ev: Event)
    requires Inv(k) && Legal(k, ev) && ev.op.OnCond? && ev.pick == 0
    ensures OneAction(k.s, CondStep(k, ev).s)
  {
    match ev.op.cond
    case CondWait(c, m) => Mutexes.CondWaitBase(k.s, c, m); Did(k.s, Waits(c, m), CondStep(k, ev).s);
    case Signal(c) => WakeAction(k.s, CondQ(c));
    case Broadcast(c) => WakeAllAction(k.s, CondQ(c));
  }

  lemma SemAction(k: Kernel, ev: Event)
    requires Inv(k) && Legal(k, ev) && ev.op.OnSem? && ev.pick == 0
    ensures OneAction(k.s, SemStep(k, ev).s)
  {
    TakeSemAction(k, ev.op.sem.e);
    StaysAction(k.s);
    WakeAction(k.s, SemQ(ev.op.sem.e));
  }

  lemma RdLockAction(k: Kernel, ev: Event)
    requires Inv(k) && Legal(k, ev) && ev.op.OnRw? && ev.op.rw.RdLock? && ev.pick == 0
    ensures OneAction(k.s, RwStep(k, ev).s)
  {
    RdLockIs(k, ev);
    TakeReadAction(k, ev.op.rw.w);
  }

  lemma WrLockAction(k: Kernel, ev: Event)
    requires Inv(k) && Legal(k, ev) && ev.op.OnRw? && ev.op.rw.WrLock? && ev.pick == 0
    ensures OneAction(k.s, RwStep(k, ev).s)
  {
    WrLockIs(k, ev);
    TakeWriteAction(k, ev.op.rw.w, k.rws[ev.op.rw.w].(pending := k.rws[ev.op.rw.w].pending + 1));
  }

  lemma RwAction(k: Kernel, ev: Event)
    requires Inv(k) && Legal(k, ev) && ev.op.OnRw? && ev.pick == 0
    ensures OneAction(k.s, RwStep(k, ev).s)
  {
    match ev.op.rw
    case RdLock(_) => RdLockAction(k, ev);
    case TryRdLock(_) => TryRdLockIs(k, ev); StaysAction(k.s);
    case WrLock(_) => WrLockAction(k, ev);
    case TryWrLock(_) => TryWrLockIs(k, ev); StaysAction(k.s);
    case RwUnlock(w) => RwUnlockIs(k, ev); RwUnlockAction(k, w);
  }

  lemma RwUnlockAction(k: Kernel, w: nat)
    requires Live(k.s) && w in k.rws
    ensures OneAction(k.s, RwLocks.RwUnlock(k, w).s)
  {
    StaysAction(k.s);
    WakeAction(k.s, WriteQ(w));
    WakeAllAction(k.s, ReadQ(w));
  }

  lemma JoinAction(k: Kernel, u: Tid)
    requires Inv(k) && k.s.current.Some? && u in k.s.threads && !JoinRefused(k.s, u)
    requires PcOf(k, Self(k)) == User || (PcOf(k, Self(k)) == JoinWoken(u) && k.s.threads[u].pc == Dead)
    ensures OneAction(k.s, JoinRound(k.s, u, 0))
  {
    Did(k.s, if k.s.threads[u].pc == Dead then Stays else Parks(u), JoinRound(k.s, u, 0));
  }

  lemma ThreadAction(k: Kernel, ev: Event)
    requires Inv(k) && Legal(k, ev) && ev.op.OnThread? && ev.pick == 0
    ensures OneAction(k.s, ThreadStep(k, ev).s)
  {
    match ev.op.thread
    case Create(t) => Did(k.s, Creates(t), ThreadStep(k, ev).s);
    case Join(u) => if JoinRefused(k.s, u) { StaysAction(k.s); } else { JoinAction(k, u); }
    case Exit(v) => Did(k.s, Exits(v, k.s.threads[Self(k)].joiner), ThreadStep(k, ev).s);
    case Yield => Did(k.s, Yields, ThreadStep(k, ev).s);
  }

  lemma ResumeAction(k: Kernel)
    requires Inv(k) && k.s.current.Some? && PcOf(k, Self(k)) != User
    ensures OneAction(k.s, StepResume(k, 0).s)
  {
    ResumeKnown(k);
    match PcOf(k, Self(k))
    case Woken(g) => {
      match g
      case GetMutex(m) => TakeMutexAction(k, m);
      case GetSem(e) => TakeSemAction(k, e);
      case GetRead(w) => TakeReadAction(k, w);
      case GetWrite(w) => TakeWriteAction(k, w, k.rws[w]);
    }
    case JoinWoken(u) => JoinAction(k, u);
  }

  /** Every legal step of the library does one of these things to the lists. */
  lemma StepIsOneAction(k: Kernel, ev: Event)
    requires Inv(k) && Legal(k, ev) && ev.pick == 0
    ensures OneAction(k.s, Step(k, ev).s)
  {
    match ev.op
    case OnMutex(_) => MutexAction(k, ev);
    case OnCond(_) => CondAction(k, ev);
    case OnSem(_) => SemAction(k, ev);
    case OnRw(_) => RwAction(k, ev);
    case OnThread(_) => ThreadAction(k, ev);
    case Resume => ResumeAction(k);
  }

  // ---------------------------------------------------------------- the same on the heap

  /** The wait queues that the action is about have lists. */
  predicate Listed(qs: map<Qid, WaitQueue>, a: Action) {
    match a
    case Wakes(q) => q in qs
    case WakesAll(q) => q in qs
    case Blocks(q, _) => q in qs
    case Waits(c, u) => CondQ(c) in qs && MutexQ(u) in qs
    case _ => true
  }

  predicate AllListed(qs: map<Qid, WaitQueue>, acts: seq<Action>) {
    acts == [] || (Listed(qs, acts[0]) && AllListed(qs, acts[1..]))
  }

  /** Carrying out the action of a step on the heap keeps the lists standing for the state of the run. */
  method Perform(m: Machine, a: Action, t: Thread, slice: nat, ghost s: Sched, n: Naming, ghost r: Sched)
    returns (next: Thread?, n': Naming)
    requires m.Valid() && Shows(m, s, n) && Live(s) && IsCurrent(s, n, t) && Listed(n.qs, a) && Does(s, a, r)
    modifies m`threads, m.run, m.waits, m.threads`next, m.threads`prev, m.threads`blockedQueue, m.threads`timeslice
    ensures m.Valid() && Shows(m, r, n') && IsCurrent(r, n', next)
    ensures n'.qs == n.qs && forall x :: x in m.threads ==> x in old(m.threads) || fresh(x)
  {
    next, n' := t, n;
    if a.Creates? {
      var b;
      OffNew(s, a.t);
      b, n' := CreateReady(m, slice, a.t, s, n);
      StillCurrent(s, n, a.t, b, t);
    } else if Leaves(a) {
      next := Depart(m, a, t, slice, s, n, r);
    } else {
      Remain(m, a, slice, s, n, r);
      assert r.current == s.current;
    }
  }

  lemma StillCurrent(s: Sched, n: Naming, u: Tid, b: Thread, t: Thread)
    requires Live(s) && IsCurrent(s, n, t) && u !in s.threads
    ensures IsCurrent(Scheduling.Create(s, u), n.(ids := n.ids[u := b]), t)
  {
  }

  /** The actions that switch to another thread. */
  predicate Leaves(a: Action) {
    a.Blocks? || a.Waits? || a.Yields? || a.Exits? || a.Parks?
  }

  method Depart(m: Machine, a: Action, t: Thread, slice: nat, ghost s: Sched, n: Naming, ghost r: Sched)
    returns (next: Thread?)
    requires m.Valid() && Shows(m, s, n) && Live(s) && IsCurrent(s, n, t)
    requires Listed(n.qs, a) && Does(s, a, r) && Leaves(a)
    modifies m.run, m.waits, m.threads`next, m.threads`prev, m.threads`blockedQueue, m.threads`timeslice
    ensures m.Valid() && Shows(m, r, n) && IsCurrent(r, n, next)
  {
    match a
    case Blocks(q, g) => next := BlockOn(m, n.qs[q], t, s, n, q, g);
    case Waits(c, u) => next := WaitOn(m, n.qs[CondQ(c)], n.qs[MutexQ(u)], t, slice, s, n, c, u);
    case Yields => next := YieldNow(m, t, slice, s, n);
    case Exits(v, j) => {
      JoinerParked(s);
      next := ExitNow(m, t, if j.Some? then n.ids[j.value] else null, slice, s, n, v);
    }
    case Parks(u) => next := ParkOn(m, s, n, u);
  }

  /** The others, except creating a thread. */
  method Remain(m: Machine, a: Action, slice: nat, ghost s: Sched, n: Naming, ghost r: Sched)
    requires m.Valid() && Shows(m, s, n) && Live(s) && Listed(n.qs, a) && Does(s, a, r) && !Leaves(a) && !a.Creates?
    modifies m.run, m.waits, m.threads`next, m.threads`prev, m.threads`blockedQueue, m.threads`timeslice
    ensures m.Valid() && Shows(m, r, n)
  {
    match a
    case Stays => SameStands(m.run.members, m.Lists(), s, n, r);
    case Wakes(q) => WakeOneOf(m, n.qs[q], slice, s, n, q);
    case WakesAll(q) => WakeAllOf(m, n.qs[q], slice, s, n, q);
  }

  /** The actions acts are what the events es of a run do to the lists. */
  ghost predicate Carries(k: Kernel, es: seq<Event>, acts: seq<Action>)
    requires Inv(k) && Allowed(k, es)
    decreases |es|
  {
    && |acts| == |es|
    && (es != [] ==> (
      StepInv(k, es[0]);
      Does(k.s, acts[0], Step(k, es[0]).s) && Carries(Step(k, es[0]), es[1..], acts[1..])))
  }

  /** Every run under round robin has such actions. */
  lemma {:induction false} RunHasActions(k: Kernel, es: seq<Event>) returns (acts: seq<Action>)
    requires Inv(k) && Allowed(k, es) && forall i :: 0 <= i < |es| ==> es[i].pick == 0
    ensures Carries(k, es, acts)
    decreases |es|
  {
    acts := [];
    if es != [] {
      StepInv(k, es[0]);
      StepIsOneAction(k, es[0]);
      var a :| Does(k.s, a, Step(k, es[0]).s);
      acts := RunHasActions(Step(k, es[0]), es[1..]);
      acts := [a] + acts;
    }
  }

  /** Over any run, carrying out the actions of its events on the heap keeps the lists standing for the
      state that the run has reached; PlacesOnHeap says what that means for each thread. */
  method Follow(m: Machine, acts: seq<Action>, t: Thread?, slice: nat, n: Naming, ghost k: Kernel, ghost es: seq<Event>)
    returns (next: Thread?, n': Naming)
    requires Inv(k) && Allowed(k, es) && Carries(k, es, acts)
    requires m.Valid() && Shows(m, k.s, n) && IsCurrent(k.s, n, t) && AllListed(n.qs, acts)
    modifies m`threads, m.run, m.waits, m.threads`next, m.threads`prev, m.threads`blockedQueue, m.threads`timeslice
    ensures m.Valid() && Shows(m, Run(k, es).s, n') && IsCurrent(Run(k, es).s, n', next)
    decreases |acts|
  {
    next, n' := t, n;
    if acts != [] {
      ghost var r := FirstAction(k, es, acts);
      next, n' := Perform(m, acts[0], t, slice, k.s, n, r.s);
      next, n' := Follow(m, acts[1..], next, slice, n', r, es[1..]);
    }
  }

  /** The first step of a run, what it does, and the rest. */
  lemma FirstAction(k: Kernel, es: seq<Event>, acts: seq<Action>) returns (r: Kernel)
    requires Inv(k) && Allowed(k, es) && Carries(k, es, acts) && acts != []
    ensures Live(k.s) && Does(k.s, acts[0], r.s)
    ensures Inv(r) && Allowed(r, es[1..]) && Carries(r, es[1..], acts[1..]) && Run(r, es[1..]) == Run(k, es)
  {
    StepInv(k, es[0]);
    r := Step(k, es[0]);
  }
}
