/** What the library guarantees about every state that a run reaches. */
module Guarantees {
  import opened Basics
  import opened Scheduling
  import opened Sync
  import opened Runs
  import Mutexes
  import RwLocks
  import Semaphores

  /** The states that runs from uthread_init reach. */
  ghost predicate Reachable(k: Kernel) {
    exists k0, es :: Init(k0) && Inv(k0) && Allowed(k0, es) && k == Run(k0, es)
  }

  lemma ReachableInv(k: Kernel)
    requires Reachable(k)
    ensures Inv(k)
  {
  }

  /** Reachability starts at every initial state, and is closed under legal steps. */
  lemma InitReachable(k: Kernel)
    requires Init(k)
    ensures Reachable(k)
  {
    InitInv(k);
    assert k == Run(k, []);
  }

  lemma StepReachable(k: Kernel, ev: Event)
    requires Reachable(k) && Inv(k) && Legal(k, ev)
    ensures Reachable(Step(k, ev))
  {
    var k0, es :| Init(k0) && Inv(k0) && Allowed(k0, es) && k == Run(k0, es);
    RunSnoc(k0, es, ev);
  }

  lemma RunOne(k: Kernel, ev: Event)
    requires Inv(k) && Legal(k, ev)
    ensures Allowed(k, [ev]) && Run(k, [ev]) == Step(k, ev)
  {
    StepInv(k, ev);
    assert [ev][1..] == [];
    assert Allowed(Step(k, ev), []) && Run(Step(k, ev), []) == Step(k, ev);
  }

  lemma {:induction false} RunSnoc(k: Kernel, es: seq<Event>, ev: Event)
    requires Inv(k) && Allowed(k, es) && Legal(Run(k, es), ev)
    ensures Allowed(k, es + [ev]) && Run(k, es + [ev]) == Step(Run(k, es), ev)
    decreases |es|
  {
    if es == [] {
      assert es + [ev] == [ev];
      RunOne(k, ev);
    } else {
      var r := es + [ev];
      assert r[0] == es[0] && r[1..] == es[1..] + [ev];
      StepInv(k, es[0]);
      RunSnoc(Step(k, es[0]), es[1..], ev);
    }
  }

  // ---------------------------------------------------------------- one place per thread

  datatype Place = OnProcessor | InRunQueue(i: nat) | InWaitQueue(q: Qid, i: nat) | ParkedOn(u: Tid) | Exited

  /** Thread t is at place p; a place in a queue is a position of it. */
  ghost predicate IsAt(s: Sched, t: Tid, p: Place) {
    match p
    case OnProcessor => s.current == Some(t)
    case InRunQueue(i) => i < |s.runq| && s.runq[i] == t
    case InWaitQueue(q, i) => i < |Queue(s, q)| && Queue(s, q)[i] == t
    case ParkedOn(u) =>
      && t in s.threads && s.threads[t].pc == Joining(u)
      && u in s.threads && s.threads[u].pc != Dead && s.threads[u].joiner == Some(t)
    case Exited => t in s.threads && s.threads[t].pc == Dead
  }

  /** Where the program counter says the thread is. */
  ghost function PlaceOf(s: Sched, t: Tid): (p: Place)
    requires Base(s) && t in s.threads
  {
    var pc := s.threads[t].pc;
    if s.current == Some(t) then OnProcessor
    else if pc.Waiting? then InWaitQueue(pc.q, (var i :| 0 <= i < |Queue(s, pc.q)| && Queue(s, pc.q)[i] == t; i))
    else if pc.Joining? then ParkedOn(pc.target)
    else if pc.Dead? then Exited
    else InRunQueue((var i :| 0 <= i < |s.runq| && s.runq[i] == t; i))
  }

  lemma OnePlace(s: Sched, t: Tid, p: Place)
    requires Base(s) && CurrentRuns(s) && t in s.threads
    ensures IsAt(s, t, p) <==> p == PlaceOf(s, t)
  {
    assert JoinOk(s.threads, t);
    assert p.InWaitQueue? ==> Distinct(Queue(s, p.q));
    assert p.InWaitQueue? && IsAt(s, t, p) ==> t in Queue(s, p.q);
    assert s.threads[t].pc.Waiting? ==> Distinct(Queue(s, s.threads[t].pc.q));
  }

  lemma Nowhere(s: Sched, t: Tid, p: Place)
    requires Base(s) && CurrentRuns(s) && t !in s.threads
    ensures !IsAt(s, t, p)
  {
  }

  lemma Somewhere(s: Sched, t: Tid)
    requires Base(s) && CurrentRuns(s) && t in s.threads
    ensures exists p :: IsAt(s, t, p) && forall p' :: IsAt(s, t, p') ==> p' == p
  {
    forall p
      ensures IsAt(s, t, p) <==> p == PlaceOf(s, t)
    {
      OnePlace(s, t, p);
    }
    assert IsAt(s, t, PlaceOf(s, t));
  }

  /** In every run each thread of the table is in exactly one place, and only threads of the
      table are linked anywhere. */
  lemma OnePlaceInRuns(k: Kernel, t: Tid)
    requires Reachable(k)
    ensures t in k.s.threads ==> exists p :: IsAt(k.s, t, p) && forall p' :: IsAt(k.s, t, p') ==> p' == p
    ensures t !in k.s.threads ==> forall p :: !IsAt(k.s, t, p)
  {
    ReachableInv(k);
    if t in k.s.threads {
      Somewhere(k.s, t);
    } else {
      forall p
        ensures !IsAt(k.s, t, p)
      {
        Nowhere(k.s, t, p);
      }
    }
  }

  // ---------------------------------------------------------------- deadlock

  /** Some thread is queued on the read-write lock w. */
  ghost predicate Waited(s: Sched, w: nat) {
    Queue(s, ReadQ(w)) != [] || Queue(s, WriteQ(w)) != []
  }

  /** Nobody can run, and nobody should: whatever is waited for is held by a thread or has not
      been posted, and whoever is joined has not exited. */
  ghost predicate TrueDeadlock(k: Kernel) {
    && (forall t :: t in k.s.threads ==> !Runnable(k.s.threads[t].pc))
    && (forall m :: m in k.mutexes && Queue(k.s, MutexQ(m)) != [] ==>
      k.mutexes[m].lock == 1 && k.mutexes[m].holders != {})
    && (forall e :: e in k.sems && Queue(k.s, SemQ(e)) != [] ==> k.sems[e].value == 0)
    && (forall w :: w in k.rws && Waited(k.s, w) ==>
      k.rws[w].readHolders != multiset{} || k.rws[w].writeHolders != multiset{})
    && (forall t :: t in k.s.threads && k.s.threads[t].pc.Joining? ==>
      k.s.threads[t].pc.target in k.s.threads && k.s.threads[k.s.threads[t].pc.target].pc != Dead)
  }

  /** With no writer queued, whoever seeks to write has been woken. */
  lemma SeekersWoken(s: Sched, w: nat)
    requires QueuesOk(s) && Queue(s, WriteQ(w)) == []
    ensures Seekers(s, GetWrite(w)) == Woke(s, GetWrite(w))
  {
    forall t | t in Seekers(s, GetWrite(w))
      ensures t in Woke(s, GetWrite(w))
    {
      assert s.threads[t].pc.Waiting? ==> t in Queue(s, s.threads[t].pc.q);
    }
  }

  /** A read-write lock that is waited for is held, unless a woken writer is about to take it. */
  lemma RwWaited(k: Kernel, w: nat)
    requires Inv(k) && w in k.rws && Waited(k.s, w)
    ensures var u := k.rws[w]; u.readers > 0 || u.writer == 1 || Woke(k.s, GetWrite(w)) != {}
  {
    assert RwAt(k.s, w, k.rws[w]);
    if Queue(k.s, WriteQ(w)) == [] {
      SeekersWoken(k.s, w);
    }
  }

  lemma IdleMeansDeadlock(k: Kernel)
    requires Inv(k) && k.s.current == None
    ensures TrueDeadlock(k)
  {
    forall g
      ensures Woke(k.s, g) == {}
    {
      assert forall t :: t in Woke(k.s, g) ==> Runnable(k.s.threads[t].pc);
    }
    forall m | m in k.mutexes && Queue(k.s, MutexQ(m)) != []
      ensures k.mutexes[m].lock == 1 && k.mutexes[m].holders != {}
    {
      assert MutexAt(k.s, m, k.mutexes[m]);
      assert k.mutexes[m].owner.value in k.mutexes[m].holders;
    }
    forall e | e in k.sems && Queue(k.s, SemQ(e)) != []
      ensures k.sems[e].value == 0
    {
      assert SemAt(k.s, e, k.sems[e]);
    }
    forall w | w in k.rws && Waited(k.s, w)
      ensures k.rws[w].readHolders != multiset{} || k.rws[w].writeHolders != multiset{}
    {
      HeldHasHolder(k, w);
    }
    forall t | t in k.s.threads && k.s.threads[t].pc.Joining?
      ensures k.s.threads[t].pc.target in k.s.threads && k.s.threads[k.s.threads[t].pc.target].pc != Dead
    {
      assert JoinOk(k.s.threads, t);
    }
  }

  lemma HeldHasHolder(k: Kernel, w: nat)
    requires Inv(k) && w in k.rws && Waited(k.s, w)
    requires Woke(k.s, GetWrite(w)) == {}
    ensures k.rws[w].readHolders != multiset{} || k.rws[w].writeHolders != multiset{}
  {
    RwWaited(k, w);
    assert RwAt(k.s, w, k.rws[w]);
    if k.rws[w].writer == 1 {
      assert k.rws[w].owner.value in k.rws[w].writeHolders;
    }
  }

  /** In every run the idle thread gets the processor only in a true deadlock. */
  lemma DeadlockIsTrue(k: Kernel)
    requires Reachable(k) && k.s.current == None
    ensures TrueDeadlock(k)
  {
    ReachableInv(k);
    IdleMeansDeadlock(k);
  }

  // ---------------------------------------------------------------- no livelock

  /** The threads that a waker has made ready and that have not yet gone on with their call. */
  ghost function Awake(s: Sched): (r: set<Tid>) {
    set t | t in s.threads && (s.threads[t].pc.Woken? || s.threads[t].pc.JoinWoken?)
  }

  lemma SameAwake(s: Sched, r: Sched)
    requires SamePlaces(s, r)
    ensures Awake(r) == Awake(s)
  {
  }

  lemma BlockTires(s: Sched, q: Qid, g: Goal, pick: nat)
    requires Tries(s, g) && GoalFits(q, g)
    ensures Awake(Block(s, q, g, pick)) == Awake(s) - {s.current.value}
  {
    EnlistBase(s, q, g);
    var e := Enlist(s, s.current.value, q, g);
    ScheduleSame(e, pick);
    SameAwake(e, Schedule(e, pick));
    EnlistTires(s, q, g);
  }

  lemma EnlistTires(s: Sched, q: Qid, g: Goal)
    requires s.current.Some? && s.current.value in s.threads
    ensures Awake(Enlist(s, s.current.value, q, g)) == Awake(s) - {s.current.value}
  {
  }

  lemma ReturnTires(s: Sched)
    requires Live(s)
    ensures Awake(Return(s)) == Awake(s) - {s.current.value}
  {
  }

  lemma ReapTires(s: Sched, u: Tid)
    requires Live(s) && u in s.threads && u != s.current.value && s.threads[u].pc == Dead
    ensures Awake(Reap(s, u)) == Awake(s) - {s.current.value}
  {
  }

  lemma MutexTires(k: Kernel, m: nat, pick: nat)
    requires Tries(k.s, GetMutex(m)) && m in k.mutexes
    ensures Awake(Mutexes.TakeMutex(k, m, pick).s) == Awake(k.s) - {Self(k)}
  {
    BlockTires(k.s, MutexQ(m), GetMutex(m), pick);
    ReturnTires(k.s);
  }

  lemma SemTires(k: Kernel, e: nat, pick: nat)
    requires Tries(k.s, GetSem(e)) && e in k.sems
    ensures Awake(Semaphores.TakeSem(k, e, pick).s) == Awake(k.s) - {Self(k)}
  {
    BlockTires(k.s, SemQ(e), GetSem(e), pick);
    ReturnTires(k.s);
  }

  lemma ReadTires(k: Kernel, w: nat, pick: nat)
    requires Tries(k.s, GetRead(w)) && w in k.rws
    ensures Awake(RwLocks.TakeRead(k, w, pick).s) == Awake(k.s) - {Self(k)}
  {
    BlockTires(k.s, ReadQ(w), GetRead(w), pick);
    ReturnTires(k.s);
  }

  lemma WriteTires(k: Kernel, w: nat, pick: nat)
    requires Tries(k.s, GetWrite(w)) && w in k.rws
    ensures Awake(RwLocks.TakeWrite(k, w, k.rws[w], pick).s) == Awake(k.s) - {Self(k)}
  {
    BlockTires(k.s, WriteQ(w), GetWrite(w), pick);
    ReturnTires(k.s);
  }

  /** Going on with a call takes the thread off the awake ones, and wakes nobody. */
  lemma ResumeTires(k: Kernel, pick: nat)
    requires Inv(k) && k.s.current.Some? && PcOf(k, Self(k)) != User
    ensures Awake(StepResume(k, pick).s) == Awake(k.s) - {Self(k)}
  {
    ResumeKnown(k);
    match PcOf(k, Self(k))
    case Woken(g) => {
      match g
      case GetMutex(m) => MutexTires(k, m, pick);
      case GetSem(e) => SemTires(k, e, pick);
      case GetRead(w) => ReadTires(k, w, pick);
      case GetWrite(w) => WriteTires(k, w, pick);
    }
    case JoinWoken(u) => ReapTires(k.s, u);
  }

  lemma SelfAwake(k: Kernel)
    requires Inv(k) && k.s.current.Some? && PcOf(k, Self(k)) != User
    ensures Self(k) in Awake(k.s) && |Awake(k.s)| == |Awake(k.s) - {Self(k)}| + 1
  {
    ResumeKnown(k);
    assert Awake(k.s) == (Awake(k.s) - {Self(k)}) + {Self(k)};
  }

  /** Control is with user code, or with nobody. */
  ghost predicate Quiet(k: Kernel)
    requires Inv(k)
  {
    k.s.current.Some? ==> PcOf(k, Self(k)) == User
  }

  function Resumes(picks: seq<nat>): (es: seq<Event>)
    ensures |es| == |picks| && forall i :: 0 <= i < |es| ==> es[i] == Event(Resume, picks[i])
  {
    seq(|picks|, i requires 0 <= i < |picks| => Event(Resume, picks[i]))
  }

  lemma ResumeLegal(k: Kernel, pick: nat)
    requires Inv(k) && !Quiet(k)
    ensures Legal(k, Event(Resume, pick)) && Step(k, Event(Resume, pick)) == StepResume(k, pick)
  {
  }

  lemma ResumesCons(picks: seq<nat>, n: nat)
    requires n < |picks|
    ensures var es := Resumes(picks[..n + 1]);
      es != [] && es[0] == Event(Resume, picks[0]) && es[1..] == Resumes(picks[1..][..n])
  {
    assert picks[..n + 1][1..] == picks[1..][..n];
  }

  /** The state that n steps of going on with calls lead to. */
  ghost predicate Settles(k: Kernel, picks: seq<nat>, n: nat)
    requires Inv(k)
  {
    n <= |picks| && Allowed(k, Resumes(picks[..n])) && Quiet(Run(k, Resumes(picks[..n])))
  }

  lemma SettlesNow(k: Kernel, picks: seq<nat>)
    requires Inv(k) && Quiet(k)
    ensures Settles(k, picks, 0)
  {
    assert Resumes(picks[..0]) == [];
  }

  ghost predicate Resumed(k: Kernel, pick: nat, r: Kernel)
    requires Inv(k)
  {
    Legal(k, Event(Resume, pick)) && r == Step(k, Event(Resume, pick))
  }

  lemma SettlesLater(k: Kernel, r: Kernel, picks: seq<nat>, n: nat)
    requires Inv(k) && n < |picks| && Resumed(k, picks[0], r)
    requires Inv(r) && Settles(r, picks[1..], n)
    ensures Settles(k, picks, n + 1)
  {
    ResumesCons(picks, n);
  }

  lemma GoOn(k: Kernel, pick: nat) returns (r: Kernel)
    requires Inv(k) && !Quiet(k)
    ensures Resumed(k, pick, r) && Inv(r) && |Awake(k.s)| == |Awake(r.s)| + 1
  {
    SelfAwake(k);
    ResumeTires(k, pick);
    ResumeLegal(k, pick);
    StepInv(k, Event(Resume, pick));
    r := Step(k, Event(Resume, pick));
  }

  /** No livelock: whatever the run queue picks, after at most as many steps as threads are awake
      control is with user code, or the processor idles (and then IdleMeansDeadlock applies). */
  lemma {:induction false} Progress(k: Kernel, picks: seq<nat>) returns (n: nat)
    requires Inv(k) && |picks| >= |Awake(k.s)|
    ensures n <= |Awake(k.s)| && Settles(k, picks, n)
    decreases |Awake(k.s)|
  {
    if Quiet(k) {
      n := 0;
      SettlesNow(k, picks);
    } else {
      var pick := if picks == [] then 0 else picks[0];
      var r := GoOn(k, pick);
      n := Progress(r, picks[1..]);
      SettlesLater(k, r, picks, n);
      n := n + 1;
    }
  }

  /** Hence no run goes on with calls for longer than that without reaching user code. */
  lemma {:induction false} ResumesBounded(k: Kernel, es: seq<Event>)
    requires Inv(k) && Allowed(k, es) && forall i :: 0 <= i < |es| ==> es[i].op == Resume
    ensures |es| <= |Awake(k.s)|
    decreases |es|
  {
    if es != [] {
      SelfAwake(k);
      ResumeTires(k, es[0].pick);
      StepInv(k, es[0]);
      assert Step(k, es[0]) == StepResume(k, es[0].pick);
      ResumesBounded(Step(k, es[0]), es[1..]);
    }
  }

  // ---------------------------------------------------------------- safety of the objects

  /** In every run a mutex has at most one holder, and a free mutex that is waited for has a woken
      thread about to take it. */
  lemma MutexSafe(k: Kernel, m: nat)
    requires Reachable(k) && m in k.mutexes
    ensures var u := k.mutexes[m];
      && |u.holders| <= 1 && u.holders == Only(u.owner)
      && (u.lock == 1 <==> u.holders != {}) && (u.lock == 0 <==> u.holders == {})
      && (u.lock == 0 && Queue(k.s, MutexQ(m)) != [] ==> Woke(k.s, GetMutex(m)) != {})
  {
    ReachableInv(k);
    assert MutexAt(k.s, m, k.mutexes[m]);
  }

  /** In every run a read-write lock has no writer beside readers, its counters count what they
      are named after, and a free lock that is waited for has a woken writer about to take it. */
  lemma RwSafe(k: Kernel, w: nat)
    requires Reachable(k) && w in k.rws
    ensures var u := k.rws[w];
      && u.readers == |u.readHolders|
      && |u.writeHolders| <= 1 && u.writeHolders == multiset(Only(u.owner))
      && (u.writer == 1 <==> u.owner.Some?) && (u.writer == 0 <==> u.owner == None)
      && (u.writeHolders != multiset{} ==> u.readHolders == multiset{})
      && u.pending == |Seekers(k.s, GetWrite(w))|
    ensures Queue(k.s, ReadQ(w)) != [] ==> k.rws[w].writer == 1 || k.rws[w].pending > 0
    ensures Queue(k.s, WriteQ(w)) != [] ==> k.rws[w].readers > 0 || k.rws[w].writer == 1 || Woke(k.s, GetWrite(w)) != {}
    ensures Waited(k.s, w) && k.rws[w].readHolders == multiset{} && k.rws[w].writeHolders == multiset{} ==>
      Woke(k.s, GetWrite(w)) != {}
  {
    ReachableInv(k);
    assert RwAt(k.s, w, k.rws[w]);
    if Waited(k.s, w) && Woke(k.s, GetWrite(w)) == {} {
      HeldHasHolder(k, w);
    }
  }

  // ---------------------------------------------------------------- writer preference

  /** In every state before an event of es, thread t is inside uthread_rwlock_wrlock on w. */
  ghost predicate SeeksThroughout(k: Kernel, es: seq<Event>, t: Tid, w: nat)
    requires Inv(k) && Allowed(k, es)
    decreases |es|
  {
    if es == [] then true
    else
      t in Seekers(k.s, GetWrite(w)) && (StepInv(k, es[0]); SeeksThroughout(Step(k, es[0]), es[1..], t, w))
  }

  lemma SameRws(k: Kernel, r: Kernel)
    requires r.rws == k.rws
    ensures RwLocks.Shut(k, r)
  {
  }

  lemma MutexShuts(k: Kernel, ev: Event)
    requires Inv(k) && Legal(k, ev) && ev.op.OnMutex?
    ensures MutexStep(k, ev).rws == k.rws
  {
  }

  lemma CondShuts(k: Kernel, ev: Event)
    requires Inv(k) && Legal(k, ev) && ev.op.OnCond?
    ensures CondStep(k, ev).rws == k.rws
  {
  }

  lemma SemShuts(k: Kernel, ev: Event)
    requires Inv(k) && Legal(k, ev) && ev.op.OnSem?
    ensures SemStep(k, ev).rws == k.rws
  {
  }

  lemma RdLockShuts(k: Kernel, ev: Event)
    requires Inv(k) && Legal(k, ev) && ev.op.OnRw? && ev.op.rw.RdLock?
    ensures RwLocks.Shut(k, RwStep(k, ev))
  {
    RdLockIs(k, ev);
    RwLocks.ReadShut(k, ev.op.rw.w, ev.pick);
  }

  lemma TryRdLockShuts(k: Kernel, ev: Event)
    requires Inv(k) && Legal(k, ev) && ev.op.OnRw? && ev.op.rw.TryRdLock?
    ensures RwLocks.Shut(k, RwStep(k, ev))
  {
    TryRdLockIs(k, ev);
    RwLocks.TryReadShut(k, ev.op.rw.w);
  }

  lemma WrLockShuts(k: Kernel, ev: Event)
    requires Inv(k) && Legal(k, ev) && ev.op.OnRw? && ev.op.rw.WrLock?
    ensures RwLocks.Shut(k, RwStep(k, ev))
  {
    WrLockIs(k, ev);
    RwLocks.WrLockShut(k, ev.op.rw.w, ev.pick);
  }

  lemma TryWrLockShuts(k: Kernel, ev: Event)
    requires Inv(k) && Legal(k, ev) && ev.op.OnRw? && ev.op.rw.TryWrLock?
    ensures RwLocks.Shut(k, RwStep(k, ev))
  {
    TryWrLockIs(k, ev);
    RwLocks.TryWriteShut(k, ev.op.rw.w);
  }

  lemma RwUnlockShuts(k: Kernel, ev: Event)
    requires Inv(k) && Legal(k, ev) && ev.op.OnRw? && ev.op.rw.RwUnlock?
    ensures RwLocks.Shut(k, RwStep(k, ev))
  {
    RwUnlockIs(k, ev);
    RwLocks.UnlockShut(k, ev.op.rw.w);
  }

  lemma RwShuts(k: Kernel, ev: Event)
    requires Inv(k) && Legal(k, ev) && ev.op.OnRw?
    ensures RwLocks.Shut(k, RwStep(k, ev))
  {
    match ev.op.rw
    case RdLock(_) => RdLockShuts(k, ev);
    case TryRdLock(_) => TryRdLockShuts(k, ev);
    case WrLock(_) => WrLockShuts(k, ev);
    case TryWrLock(_) => TryWrLockShuts(k, ev);
    case RwUnlock(_) => RwUnlockShuts(k, ev);
  }

  lemma ThreadShuts(k: Kernel, ev: Event)
    requires Inv(k) && Legal(k, ev) && ev.op.OnThread?
    ensures ThreadStep(k, ev).rws == k.rws
  {
  }

  lemma ResumeShuts(k: Kernel, pick: nat)
    requires Inv(k) && k.s.current.Some? && PcOf(k, Self(k)) != User
    ensures RwLocks.Shut(k, StepResume(k, pick))
  {
    ResumeKnown(k);
    match PcOf(k, Self(k))
    case Woken(g) => {
      match g
      case GetMutex(m) => SameRws(k, Mutexes.TakeMutex(k, m, pick));
      case GetSem(e) => SameRws(k, Semaphores.TakeSem(k, e, pick));
      case GetRead(w) => RwLocks.ReadShut(k, w, pick);
      case GetWrite(w) => RwLocks.WriteShut(k, w, pick);
    }
    case JoinWoken(u) => SameRws(k, StepResume(k, pick));
  }

  lemma StepShuts(k: Kernel, ev: Event)
    requires Inv(k) && Legal(k, ev)
    ensures RwLocks.Shut(k, Step(k, ev))
  {
    match ev.op
    case OnMutex(_) => MutexShuts(k, ev); SameRws(k, MutexStep(k, ev));
    case OnCond(_) => CondShuts(k, ev); SameRws(k, CondStep(k, ev));
    case OnSem(_) => SemShuts(k, ev); SameRws(k, SemStep(k, ev));
    case OnRw(_) => RwShuts(k, ev);
    case OnThread(_) => ThreadShuts(k, ev); SameRws(k, ThreadStep(k, ev));
    case Resume => ResumeShuts(k, ev.pick);
  }

  /** A pending writer keeps new readers out, whatever anyone does. */
  lemma PendingShutsReaders(k: Kernel, ev: Event, t: Tid, w: nat)
    requires Inv(k) && Legal(k, ev) && t in Seekers(k.s, GetWrite(w)) && w in k.rws
    ensures w in Step(k, ev).rws && Step(k, ev).rws[w].readHolders <= k.rws[w].readHolders
  {
    assert RwAt(k.s, w, k.rws[w]);
    assert k.rws[w].pending > 0;
    StepShuts(k, ev);
  }

  /** From a wrlock until that writer gets the lock, the read holders only become fewer. */
  lemma {:induction false} WriterPreference(k: Kernel, es: seq<Event>, t: Tid, w: nat)
    requires Inv(k) && Allowed(k, es) && w in k.rws && SeeksThroughout(k, es, t, w)
    ensures w in Run(k, es).rws && Run(k, es).rws[w].readHolders <= k.rws[w].readHolders
    decreases |es|
  {
    if es != [] {
      PendingShutsReaders(k, es[0], t, w);
      StepInv(k, es[0]);
      WriterPreference(Step(k, es[0]), es[1..], t, w);
    }
  }
}
