/** The objects threads block on (src/mutex.c, src/condvar.c, src/semaphore.c, src/rwlock.c), the
    invariant of each, and what a change of one object leaves alone. */
module Sync {
  import opened Basics
  import opened Scheduling

  datatype Kind = Normal | Recursive | ErrorCheck

  /** `holders` records which threads have been told that they own the mutex and have not
      released it since; the code itself keeps only the other fields. */
  datatype Mutex = Mutex(kind: Kind, lock: int, owner: Option<Tid>, depth: int, holders: set<Tid>)

  datatype Sem = Sem(value: int)

  /** `readHolders` and `writeHolders` record who has been granted the lock. */
  datatype Rw = Rw(readers: int, writer: int, owner: Option<Tid>, pending: int,
                   readHolders: multiset<Tid>, writeHolders: multiset<Tid>)

  datatype Kernel = Kernel(s: Sched, mutexes: map<nat, Mutex>, sems: map<nat, Sem>, rws: map<nat, Rw>)

  // ---------------------------------------------------------------- who seeks what

  /** The woken threads that have not yet checked their condition again. */
  ghost function Woke(s: Sched, g: Goal): (r: set<Tid>) {
    set t | t in s.threads && s.threads[t].pc == Woken(g)
  }

  /** The threads inside a call that seeks g: queued, or woken and not yet back. */
  ghost function Seekers(s: Sched, g: Goal): (r: set<Tid>) {
    set t | t in s.threads && (s.threads[t].pc == Woken(g) || (s.threads[t].pc.Waiting? && s.threads[t].pc.goal == g))
  }

  /** The running thread is in user code, or woken and about to try again for g. */
  ghost predicate Tries(s: Sched, g: Goal) {
    Live(s) && s.threads[s.current.value].pc in {User, Woken(g)}
  }

  lemma ScheduleEffect(s: Sched, pick: nat, g: Goal)
    requires RunqOk(s) && CurrentParked(s)
    ensures var r := Schedule(s, pick);
      Woke(r, g) == Woke(s, g) && Seekers(r, g) == Seekers(s, g) && r.queues == s.queues
  {
    ScheduleSame(s, pick);
  }

  lemma BlockEffect(s: Sched, q: Qid, g: Goal, pick: nat, g': Goal)
    requires Tries(s, g) && GoalFits(q, g)
    ensures var r, self := Block(s, q, g, pick), s.current.value;
      && Woke(r, g') == Woke(s, g') - {self}
      && Seekers(r, g') == (if g' == g then Seekers(s, g) + {self} else Seekers(s, g'))
      && r.queues == s.queues[q := Queue(s, q) + [self]]
  {
    EnlistBase(s, q, g);
    EnlistEffect(s, q, g, g');
    ScheduleEffect(Enlist(s, s.current.value, q, g), pick, g');
  }

  lemma EnlistEffect(s: Sched, q: Qid, g: Goal, g': Goal)
    requires Tries(s, g)
    ensures var e, self := Enlist(s, s.current.value, q, g), s.current.value;
      && Woke(e, g') == Woke(s, g') - {self}
      && Seekers(e, g') == (if g' == g then Seekers(s, g) + {self} else Seekers(s, g'))
  {
  }

  lemma ReturnEffect(s: Sched, g: Goal, g': Goal)
    requires Tries(s, g)
    ensures var r, self := Return(s), s.current.value;
      && Woke(r, g') == Woke(s, g') - {self}
      && Seekers(r, g') == Seekers(s, g') - {self}
      && (g' != g ==> self !in Woke(s, g') && self !in Seekers(s, g'))
      && r.queues == s.queues
  {
  }

  lemma WakeOneEffect(s: Sched, q: Qid, g': Goal)
    requires QueuesOk(s)
    ensures HeadWaits(s, q)
    ensures var r := WakeOne(s, q);
      && Seekers(r, g') == Seekers(s, g')
      && (Queue(s, q) == [] ==> r == s)
      && (Queue(s, q) != [] ==> (
        var t := Queue(s, q)[0];
        && Woke(r, g') == (if s.threads[t].pc.goal == g' then Woke(s, g') + {t} else Woke(s, g'))
        && t !in Woke(s, g')
        && GoalFits(q, s.threads[t].pc.goal)
        && r.queues == s.queues[q := Queue(s, q)[1..]]))
  {
    if Queue(s, q) != [] {
      assert Queue(s, q)[0] in Queue(s, q);
    }
  }

  lemma WakeAllEffect(s: Sched, q: Qid, g': Goal)
    requires QueuesOk(s)
    ensures var r := WakeAll(s, q);
      && Seekers(r, g') == Seekers(s, g')
      && Woke(s, g') <= Woke(r, g')
      && ((forall g :: GoalFits(q, g) ==> g != g') ==> Woke(r, g') == Woke(s, g'))
      && r.queues == (if Queue(s, q) == [] then s.queues else s.queues[q := []])
  {
  }

  // ---------------------------------------------------------------- invariants of the objects

  ghost function Only(o: Option<Tid>): (r: set<Tid>) {
    if o.Some? then {o.value} else {}
  }

  /** One owner at most; a free mutex with waiters has a woken thread about to retry. */
  ghost predicate MutexOk(u: Mutex, waiting: bool, woken: bool) {
    && (u.lock == 0 || u.lock == 1)
    && (u.lock == 1 <==> u.owner.Some?)
    && u.holders == Only(u.owner)
    && (u.lock == 1 ==> u.depth >= 1)
    && (u.lock == 0 && waiting ==> woken)
  }

  /** The value stays within 0 and the largest int, and with waiters it is covered by woken threads. */
  ghost predicate SemOk(e: Sem, waiting: bool, woken: nat) {
    && 0 <= e.value <= INT_MAX
    && (waiting ==> e.value <= woken)
  }

  /** No writer beside readers; the counters count; nobody waits for a lock that nobody will pass on. */
  ghost predicate RwOk(w: Rw, readersWait: bool, writersWait: bool, writerWoken: bool, seekers: nat) {
    && w.readers == |w.readHolders|
    && (w.writer == 0 || w.writer == 1)
    && (w.writer == 1 <==> w.owner.Some?)
    && w.writeHolders == multiset(Only(w.owner))
    && (w.writer == 1 ==> w.readers == 0)
    && w.pending == seekers
    && (readersWait ==> w.writer == 1 || w.pending > 0)
    && (writersWait ==> w.readers > 0 || w.writer == 1 || writerWoken)
  }

  ghost predicate MutexAt(s: Sched, m: nat, u: Mutex) {
    MutexOk(u, Queue(s, MutexQ(m)) != [], Woke(s, GetMutex(m)) != {})
  }

  ghost predicate SemAt(s: Sched, e: nat, u: Sem) {
    SemOk(u, Queue(s, SemQ(e)) != [], |Woke(s, GetSem(e))|)
  }

  ghost predicate RwAt(s: Sched, w: nat, u: Rw) {
    RwOk(u, Queue(s, ReadQ(w)) != [], Queue(s, WriteQ(w)) != [], Woke(s, GetWrite(w)) != {}, |Seekers(s, GetWrite(w))|)
  }

  /** The object a goal is about. */
  datatype Object = MutexObj(m: nat) | SemObj(e: nat) | RwObj(w: nat)

  function About(g: Goal): (o: Object) {
    match g
    case GetMutex(m) => MutexObj(m)
    case GetSem(e) => SemObj(e)
    case GetRead(w) => RwObj(w)
    case GetWrite(w) => RwObj(w)
  }

  predicate Exists(k: Kernel, o: Object) {
    match o
    case MutexObj(m) => m in k.mutexes
    case SemObj(e) => e in k.sems
    case RwObj(w) => w in k.rws
  }

  /** Every call in progress is about an object that exists. */
  ghost predicate Known(k: Kernel) {
    forall g :: Seekers(k.s, g) != {} ==> Exists(k, About(g))
  }

  ghost predicate ObjectsOk(k: Kernel) {
    && Known(k)
    && (forall m :: m in k.mutexes ==> MutexAt(k.s, m, k.mutexes[m]))
    && (forall e :: e in k.sems ==> SemAt(k.s, e, k.sems[e]))
    && (forall w :: w in k.rws ==> RwAt(k.s, w, k.rws[w]))
  }

  ghost predicate Inv(k: Kernel) {
    Base(k.s) && CurrentRuns(k.s) && ObjectsOk(k)
  }

  /** Every object but o sees the same waiters and the same woken threads in r as in s. */
  ghost predicate SameBut(s: Sched, r: Sched, o: Object) {
    && (forall g :: About(g) != o ==> Woke(r, g) == Woke(s, g) && Seekers(r, g) == Seekers(s, g))
    && (forall q: Qid, g: Goal :: !q.CondQ? && GoalFits(q, g) && About(g) != o ==> Queue(r, q) == Queue(s, q))
  }

  lemma Others(s: Sched, r: Sched, o: Object, m: nat)
    requires SameBut(s, r, o)
    ensures o != MutexObj(m) ==> forall u :: MutexAt(s, m, u) ==> MutexAt(r, m, u)
    ensures o != SemObj(m) ==> forall u :: SemAt(s, m, u) ==> SemAt(r, m, u)
    ensures o != RwObj(m) ==> forall u :: RwAt(s, m, u) ==> RwAt(r, m, u)
  {
    assert GoalFits(MutexQ(m), GetMutex(m)) && About(GetMutex(m)) == MutexObj(m);
    assert GoalFits(SemQ(m), GetSem(m)) && About(GetSem(m)) == SemObj(m);
    assert GoalFits(ReadQ(m), GetRead(m)) && About(GetRead(m)) == RwObj(m);
    assert GoalFits(WriteQ(m), GetWrite(m)) && About(GetWrite(m)) == RwObj(m);
  }

  /** The kernel in which the scheduler became s and mutex m became u; likewise below. */
  ghost function PutMutex(k: Kernel, s: Sched, m: nat, u: Mutex): (r: Kernel) {
    k.(s := s, mutexes := k.mutexes[m := u])
  }

  ghost function PutSem(k: Kernel, s: Sched, e: nat, u: Sem): (r: Kernel) {
    k.(s := s, sems := k.sems[e := u])
  }

  ghost function PutRw(k: Kernel, s: Sched, w: nat, u: Rw): (r: Kernel) {
    k.(s := s, rws := k.rws[w := u])
  }

  /** If every object but o sees the same, every object but o keeps its invariant. */
  lemma OthersKept(k: Kernel, s: Sched, o: Object)
    requires ObjectsOk(k) && SameBut(k.s, s, o)
    ensures forall m :: m in k.mutexes && o != MutexObj(m) ==> MutexAt(s, m, k.mutexes[m])
    ensures forall e :: e in k.sems && o != SemObj(e) ==> SemAt(s, e, k.sems[e])
    ensures forall w :: w in k.rws && o != RwObj(w) ==> RwAt(s, w, k.rws[w])
  {
    forall m | m in k.mutexes && o != MutexObj(m)
      ensures MutexAt(s, m, k.mutexes[m])
    {
      Others(k.s, s, o, m);
    }
    forall e | e in k.sems && o != SemObj(e)
      ensures SemAt(s, e, k.sems[e])
    {
      Others(k.s, s, o, e);
    }
    forall w | w in k.rws && o != RwObj(w)
      ensures RwAt(s, w, k.rws[w])
    {
      Others(k.s, s, o, w);
    }
  }

  lemma MutexChange(k: Kernel, s: Sched, m: nat, u: Mutex)
    requires ObjectsOk(k) && m in k.mutexes && SameBut(k.s, s, MutexObj(m)) && MutexAt(s, m, u)
    ensures ObjectsOk(PutMutex(k, s, m, u))
  {
    OthersKept(k, s, MutexObj(m));
  }

  lemma SemChange(k: Kernel, s: Sched, e: nat, u: Sem)
    requires ObjectsOk(k) && e in k.sems && SameBut(k.s, s, SemObj(e)) && SemAt(s, e, u)
    ensures ObjectsOk(PutSem(k, s, e, u))
  {
    OthersKept(k, s, SemObj(e));
  }

  lemma RwChange(k: Kernel, s: Sched, w: nat, u: Rw)
    requires ObjectsOk(k) && w in k.rws && SameBut(k.s, s, RwObj(w)) && RwAt(s, w, u)
    ensures ObjectsOk(PutRw(k, s, w, u))
  {
    OthersKept(k, s, RwObj(w));
  }

  /** A step that only moves threads between the processor and the run queue, or about joins. */
  lemma ObjectsSame(k: Kernel, s: Sched)
    requires ObjectsOk(k) && s.queues == k.s.queues
    requires forall g :: Woke(s, g) == Woke(k.s, g) && Seekers(s, g) == Seekers(k.s, g)
    ensures ObjectsOk(k.(s := s))
  {
    var r := k.(s := s);
    forall m | m in r.mutexes
      ensures MutexAt(r.s, m, r.mutexes[m])
    {
      assert MutexAt(k.s, m, k.mutexes[m]);
    }
    forall e | e in r.sems
      ensures SemAt(r.s, e, r.sems[e])
    {
      assert SemAt(k.s, e, k.sems[e]);
    }
    forall w | w in r.rws
      ensures RwAt(r.s, w, r.rws[w])
    {
      assert RwAt(k.s, w, k.rws[w]);
    }
  }

  lemma BlockSame(s: Sched, q: Qid, g: Goal, pick: nat)
    requires Tries(s, g) && GoalFits(q, g)
    ensures SameBut(s, Block(s, q, g, pick), About(g))
  {
    forall g' | About(g') != About(g)
      ensures Woke(Block(s, q, g, pick), g') == Woke(s, g') && Seekers(Block(s, q, g, pick), g') == Seekers(s, g')
    {
      BlockEffect(s, q, g, pick, g');
    }
    BlockEffect(s, q, g, pick, g);
  }

  lemma ReturnSame(s: Sched, g: Goal)
    requires Tries(s, g)
    ensures SameBut(s, Return(s), About(g))
  {
    forall g' | About(g') != About(g)
      ensures Woke(Return(s), g') == Woke(s, g') && Seekers(Return(s), g') == Seekers(s, g')
    {
      ReturnEffect(s, g, g');
    }
  }

  lemma WakeOneSame(s: Sched, q: Qid, g: Goal)
    requires QueuesOk(s) && GoalFits(q, g)
    requires q.CondQ? && Queue(s, q) != [] ==> (
      var t := Queue(s, q)[0]; t in s.threads && s.threads[t].pc.Waiting? && s.threads[t].pc.goal == g)
    ensures HeadWaits(s, q) && SameBut(s, WakeOne(s, q), About(g))
  {
    WakeOneEffect(s, q, g);
    forall g' | About(g') != About(g)
      ensures Woke(WakeOne(s, q), g') == Woke(s, g') && Seekers(WakeOne(s, q), g') == Seekers(s, g')
    {
      WakeOneEffect(s, q, g');
    }
  }

  /** Nothing about threads or queues changes. */
  lemma SameSched(s: Sched, o: Object)
    ensures SameBut(s, s, o)
  {
  }
}
