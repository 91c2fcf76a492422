/** The lists on the heap stand for the run queue and the wait queues of the scheduler state, so that
    what is proved about places in every run holds of the links. */
module HeapScheduling {
  import opened Basics
  import opened Threads
  import opened Links
  import opened Scheduling
  import opened WaitQueues
  import opened HeapQueues
  import Mutexes

  type Lists = map<WaitQueue, seq<Thread>>

  /** Which control block a thread has, which list the wait queue of an object is, and back. */
  datatype Naming = Naming(ids: map<Tid, Thread>, qs: map<Qid, WaitQueue>, of: map<WaitQueue, Qid>)

  /** Every thread has its own control block, every object its own list. */
  ghost predicate OneToOne(n: Naming) {
    && (forall t :: t in n.ids ==> n.ids[t].tid == t)
    && (forall q :: q in n.qs ==> n.qs[q] in n.of && n.of[n.qs[q]] == q)
    && (forall w :: w in n.of ==> n.of[w] in n.qs && n.qs[n.of[w]] == w)
  }

  /** The names cover the lists of m, and control blocks that m knows. */
  ghost predicate Names(m: Machine, n: Naming)
    reads m`threads
  {
    && OneToOne(n)
    && (forall t :: t in n.ids ==> n.ids[t] in m.threads)
    && (forall w :: w in m.waits ==> w in n.of)
    && (forall w :: w in n.of ==> w in m.waits)
  }

  /** A list of control blocks holds the named threads in the same order. */
  ghost predicate Same(n: Naming, ts: seq<Tid>, list: seq<Thread>) {
    |list| == |ts| && forall i :: 0 <= i < |ts| ==> ts[i] in n.ids && n.ids[ts[i]] == list[i]
  }

  /** The lists, taken as values, stand for the queues of s. */
  ghost predicate Stand(run: seq<Thread>, lists: Lists, s: Sched, n: Naming) {
    && (forall t :: t in s.threads ==> t in n.ids)
    && Same(n, s.runq, run)
    && (forall q :: q in n.qs ==> n.qs[q] in lists && Same(n, Queue(s, q), lists[n.qs[q]]))
    && (forall q :: q !in n.qs ==> Queue(s, q) == [])
  }

  ghost predicate Shows(m: Machine, s: Sched, n: Naming)
    reads m, m.run, m.waits
  {
    Names(m, n) && Stand(m.run.members, m.Lists(), s, n)
  }

  // ---------------------------------------------------------------- who is on which list

  /** Thread t is on no list of s. */
  ghost predicate OffLists(s: Sched, t: Tid) {
    t !in s.runq && forall q :: t !in Queue(s, q)
  }

  lemma SameMember(n: Naming, ts: seq<Tid>, list: seq<Thread>, t: Tid)
    requires Same(n, ts, list) && OneToOne(n) && t in n.ids
    ensures n.ids[t] in list <==> t in ts
  {
    if n.ids[t] in list {
      var i :| 0 <= i < |list| && list[i] == n.ids[t];
      assert n.ids[ts[i]].tid == ts[i];
    }
    if t in ts {
      var i :| 0 <= i < |ts| && ts[i] == t;
      assert list[i] == n.ids[t];
    }
  }

  lemma ListMember(m: Machine, s: Sched, n: Naming, t: Tid, w: WaitQueue)
    requires Shows(m, s, n) && w in m.waits && t in n.ids
    ensures w in n.of && (n.ids[t] in w.members <==> t in Queue(s, n.of[w]))
  {
    var q := n.of[w];
    assert n.qs[q] == w && Same(n, Queue(s, q), m.Lists()[w]);
    SameMember(n, Queue(s, q), w.members, t);
  }

  /** The control block of a thread that is on no list of the state is on no list of the heap, and
      its mark is NULL: its links are free to use. */
  lemma OnNoList(m: Machine, s: Sched, n: Naming, t: Tid)
    requires m.Valid() && Shows(m, s, n) && t in n.ids && OffLists(s, t)
    ensures n.ids[t].blockedQueue == null && n.ids[t] !in m.run.members
    ensures forall w :: w in m.waits ==> n.ids[t] !in w.members
  {
    SameMember(n, s.runq, m.run.members, t);
    forall w | w in m.waits
      ensures n.ids[t].blockedQueue != w && n.ids[t] !in w.members
    {
      ListMember(m, s, n, t, w);
      assert m.WaitOk(w);
    }
  }

  /** In every state of a run, the links put each thread where its program counter says: into the run
      queue if it can run and does not, onto the one wait queue its call waits on, and nowhere else. */
  lemma PlacesOnHeap(m: Machine, s: Sched, n: Naming, t: Tid)
    requires m.Valid() && Shows(m, s, n) && Base(s) && CurrentRuns(s) && t in s.threads
    ensures var pc, b := s.threads[t].pc, n.ids[t];
      && (b in m.run.members <==> Runnable(pc) && s.current != Some(t))
      && (forall w :: w in m.waits ==> (b in w.members <==> pc.Waiting? && w == n.qs[pc.q]))
      && (pc.Waiting? ==> b.blockedQueue == n.qs[pc.q])
      && (!pc.Waiting? ==> b.blockedQueue == null)
  {
    var pc, b := s.threads[t].pc, n.ids[t];
    SameMember(n, s.runq, m.run.members, t);
    forall w | w in m.waits
      ensures b in w.members <==> pc.Waiting? && w == n.qs[pc.q]
    {
      ListMember(m, s, n, t, w);
    }
    forall w | w in m.waits
      ensures b.blockedQueue == w <==> b in w.members
    {
      assert m.WaitOk(w);
    }
  }

  // ---------------------------------------------------------------- the same change on both sides

  /** Changing the run queue and the queue q on both sides alike. */
  lemma StandsAfter(run: seq<Thread>, lists: Lists, s: Sched, n: Naming, q: Qid,
                    run': seq<Thread>, list': seq<Thread>, s': Sched)
    requires Stand(run, lists, s, n) && q in n.qs && OneToOne(n) && s'.threads.Keys == s.threads.Keys
    requires Same(n, s'.runq, run') && Same(n, Queue(s', q), list')
    requires forall p :: p != q ==> Queue(s', p) == Queue(s, p)
    ensures Stand(run', lists[n.qs[q] := list'], s', n)
  {
  }

  lemma SameSnoc(n: Naming, ts: seq<Tid>, list: seq<Thread>, t: Tid)
    requires Same(n, ts, list) && t in n.ids
    ensures Same(n, ts + [t], list + [n.ids[t]])
  {
  }

  lemma SameAppend(n: Naming, ts: seq<Tid>, list: seq<Thread>, us: seq<Tid>, more: seq<Thread>)
    requires Same(n, ts, list) && Same(n, us, more)
    ensures Same(n, ts + us, list + more)
  {
  }

  /** wait_queue_add. */
  lemma BlockedStands(run: seq<Thread>, lists: Lists, s: Sched, n: Naming, q: Qid, g: Goal)
    requires Stand(run, lists, s, n) && OneToOne(n) && q in n.qs && s.current.Some? && s.current.value in s.threads
    ensures Stand(run, lists[n.qs[q] := lists[n.qs[q]] + [n.ids[s.current.value]]],
                  Enlist(s, s.current.value, q, g), n)
  {
    var t := s.current.value;
    SameSnoc(n, Queue(s, q), lists[n.qs[q]], t);
    StandsAfter(run, lists, s, n, q, run, lists[n.qs[q]] + [n.ids[t]], Enlist(s, t, q, g));
  }

  /** wait_queue_wake_one. */
  lemma WokenStands(run: seq<Thread>, lists: Lists, s: Sched, n: Naming, q: Qid)
    requires Stand(run, lists, s, n) && OneToOne(n) && q in n.qs && HeadWaits(s, q)
    ensures var l := lists[n.qs[q]];
      var run', l' := if l == [] then run else run + [l[0]], if l == [] then [] else l[1..];
      Stand(run', lists[n.qs[q] := l'], WakeOne(s, q), n)
  {
    var l := lists[n.qs[q]];
    assert Same(n, Queue(s, q), l);
    if l != [] {
      SameSnoc(n, s.runq, run, Queue(s, q)[0]);
      assert Same(n, Queue(s, q)[1..], l[1..]);
      StandsAfter(run, lists, s, n, q, run + [l[0]], l[1..], WakeOne(s, q));
    } else {
      assert lists[n.qs[q] := []] == lists;
    }
  }

  ghost predicate AllWait(s: Sched, q: Qid) {
    forall t :: t in Queue(s, q) ==> t in s.threads && s.threads[t].pc.Waiting?
  }

  /** wait_queue_wake_all. */
  lemma AllStand(run: seq<Thread>, lists: Lists, s: Sched, n: Naming, q: Qid)
    requires Stand(run, lists, s, n) && OneToOne(n) && q in n.qs && AllWait(s, q)
    ensures Stand(run + lists[n.qs[q]], lists[n.qs[q] := []], WakeAll(s, q), n)
  {
    var l := lists[n.qs[q]];
    assert Same(n, Queue(s, q), l);
    SameAppend(n, s.runq, run, Queue(s, q), l);
    assert s.runq + [] == s.runq;
    StandsAfter(run, lists, s, n, q, run + l, [], WakeAll(s, q));
  }

  /** scheduler_schedule under round robin. */
  lemma NextStands(run: seq<Thread>, lists: Lists, s: Sched, n: Naming)
    requires Stand(run, lists, s, n) && Sane(s)
    ensures Stand(if run == [] then [] else run[1..], lists, Schedule(s, 0), n)
    ensures run == [] <==> Schedule(s, 0).current == None
    ensures run != [] ==> Schedule(s, 0).current.value in n.ids && n.ids[Schedule(s, 0).current.value] == run[0]
  {
    if s.runq != [] {
      assert Without(s.runq, 0) == s.runq[1..];
      assert s.runq[0] in s.runq;
    }
    forall q
      ensures Queue(Schedule(s, 0), q) == Queue(s, q)
    {
    }
  }

  /** Going to the end of the run queue. */
  lemma ReadyStands(run: seq<Thread>, lists: Lists, s: Sched, n: Naming, t: Tid, s': Sched)
    requires Stand(run, lists, s, n) && t in n.ids
    requires s'.runq == s.runq + [t] && s'.queues == s.queues && forall u :: u in s'.threads ==> u in n.ids
    ensures Stand(run + [n.ids[t]], lists, s', n)
  {
    SameSnoc(n, s.runq, run, t);
    forall q
      ensures Queue(s', q) == Queue(s, q)
    {
    }
  }

  // ---------------------------------------------------------------- the operations on the heap

  /* Each method keeps the lists standing for the state that the function of the same name leads to.
     `s` is the state before, under the names n. */

  /** The control block t is that of the running thread, or NULL when none runs. */
  ghost predicate IsCurrent(s: Sched, n: Naming, t: Thread?) {
    && (t == null <==> s.current == None)
    && (t != null ==> s.current.value in n.ids && n.ids[s.current.value] == t)
  }

  /** The running thread is on no list. */
  lemma OffCurrent(s: Sched)
    requires Live(s)
    ensures OffLists(s, s.current.value)
  {
    forall q
      ensures s.current.value !in Queue(s, q)
    {
      NotWaiting(s, s.current.value, q);
    }
  }

  lemma CurrentIsFree(m: Machine, t: Thread, s: Sched, n: Naming)
    requires m.Valid() && Shows(m, s, n) && Live(s) && IsCurrent(s, n, t)
    ensures t in m.threads && t.blockedQueue == null && t !in m.run.members
  {
    OffCurrent(s);
    OnNoList(m, s, n, s.current.value);
  }

  /** After uthread_init the main thread runs, and every list is empty. */
  lemma StartShows(m: Machine, main: Thread, n: Naming)
    requires m.Valid() && m.run.members == [] && forall w :: w in m.waits ==> w.members == []
    requires Names(m, n) && n.ids == map[main.tid := main]
    ensures var s := Sched(Some(main.tid), [], map[main.tid := Tcb(User, Running, None, 0, None)], map[]);
      Shows(m, s, n) && IsCurrent(s, n, main)
  {
  }

  /** wait_queue_add for the running thread. */
  method EnlistOn(m: Machine, w: WaitQueue, t: Thread, ghost s: Sched, ghost n: Naming, ghost q: Qid, ghost g: Goal)
    requires m.Valid() && Shows(m, s, n) && Live(s) && IsCurrent(s, n, t) && q in n.qs && n.qs[q] == w
    modifies m.waits, m.threads`next, m.threads`prev, m.threads`blockedQueue
    ensures m.Valid() && Shows(m, Enlist(s, s.current.value, q, g), n)
  {
    CurrentIsFree(m, t, s, n);
    Add(m, w, t, s, n, q, g);
  }

  method Add(m: Machine, w: WaitQueue, t: Thread, ghost s: Sched, ghost n: Naming, ghost q: Qid, ghost g: Goal)
    requires m.Valid() && Shows(m, s, n) && s.current.Some? && s.current.value in s.threads && IsCurrent(s, n, t)
    requires t in m.threads && t.blockedQueue == null && t !in m.run.members && q in n.qs && n.qs[q] == w
    modifies m.waits, m.threads`next, m.threads`prev, m.threads`blockedQueue
    ensures m.Valid() && Shows(m, Enlist(s, s.current.value, q, g), n)
  {
    BlockedStands(m.run.members, m.Lists(), s, n, q, g);
    m.Wait(w, t);
  }

  /** scheduler_schedule under round robin. */
  method Switch(m: Machine, ghost s: Sched, ghost n: Naming) returns (t: Thread?)
    requires m.Valid() && Shows(m, s, n) && Sane(s)
    modifies m.run, m.threads`next, m.threads`prev
    ensures m.Valid() && Shows(m, Schedule(s, 0), n) && IsCurrent(Schedule(s, 0), n, t)
  {
    NextStands(m.run.members, m.Lists(), s, n);
    t := m.Dispatch();
  }

  /** scheduler_unblock of the longest waiter. */
  method WakeOneOf(m: Machine, w: WaitQueue, slice: nat, ghost s: Sched, ghost n: Naming, ghost q: Qid)
    requires m.Valid() && Shows(m, s, n) && HeadWaits(s, q) && q in n.qs && n.qs[q] == w
    modifies m.run, m.waits, m.threads`next, m.threads`prev, m.threads`blockedQueue, m.threads`timeslice
    ensures m.Valid() && Shows(m, WakeOne(s, q), n)
  {
    WokenStands(m.run.members, m.Lists(), s, n, q);
    m.WakeOne(w, slice);
  }

  /** wait_queue_wake_all. */
  method WakeAllOf(m: Machine, w: WaitQueue, slice: nat, ghost s: Sched, ghost n: Naming, ghost q: Qid)
    requires m.Valid() && Shows(m, s, n) && q in n.qs && n.qs[q] == w && AllWait(s, q)
    modifies m.run, m.waits, m.threads`next, m.threads`prev, m.threads`blockedQueue, m.threads`timeslice
    ensures m.Valid() && Shows(m, WakeAll(s, q), n)
  {
    AllStand(m.run.members, m.Lists(), s, n, q);
    m.WakeAll(w, slice);
  }

  /** scheduler_block. */
  method BlockOn(m: Machine, w: WaitQueue, t: Thread, ghost s: Sched, ghost n: Naming, ghost q: Qid, ghost g: Goal)
    returns (next: Thread?)
    requires m.Valid() && Shows(m, s, n) && Live(s) && IsCurrent(s, n, t) && q in n.qs && n.qs[q] == w
    modifies m.run, m.waits, m.threads`next, m.threads`prev, m.threads`blockedQueue
    ensures m.Valid() && Shows(m, Block(s, q, g, 0), n) && IsCurrent(Block(s, q, g, 0), n, next)
  {
    EnlistRunq(s, q, g);
    EnlistOn(m, w, t, s, n, q, g);
    next := Switch(m, Enlist(s, s.current.value, q, g), n);
  }

  /** A thread that is on no list goes to the end of the run queue: uthread_create, scheduler_yield, and
      the joiner in uthread_exit. */
  method ReadyUp(m: Machine, t: Thread, slice: nat, ghost s: Sched, ghost n: Naming, ghost s': Sched)
    requires m.Valid() && Shows(m, s, n) && t.tid in n.ids && n.ids[t.tid] == t && OffLists(s, t.tid)
    requires s'.runq == s.runq + [t.tid] && s'.queues == s.queues && forall u :: u in s'.threads ==> u in n.ids
    modifies m.run, m.threads`next, m.threads`prev, m.threads`timeslice
    ensures m.Valid() && Shows(m, s', n)
  {
    ReadyStands(m.run.members, m.Lists(), s, n, t.tid, s');
    OnNoList(m, s, n, t.tid);
    m.Ready(t, slice);
  }

  /** scheduler_yield. */
  method YieldNow(m: Machine, t: Thread, slice: nat, ghost s: Sched, ghost n: Naming) returns (next: Thread?)
    requires m.Valid() && Shows(m, s, n) && Live(s) && IsCurrent(s, n, t)
    modifies m.run, m.threads`next, m.threads`prev, m.threads`timeslice
    ensures m.Valid() && Shows(m, Yield(s, 0), n) && IsCurrent(Yield(s, 0), n, next)
  {
    ghost var self := s.current.value;
    ghost var e := Move(s, self, s.threads[self].pc, Ready).(runq := s.runq + [self]);
    OffCurrent(s);
    ReadyUp(m, t, slice, s, n, e);
    next := Switch(m, e, n);
  }

  /** Whatever else of the state changes, the lists stand for it. */
  lemma SameStands(run: seq<Thread>, lists: Lists, s: Sched, n: Naming, s': Sched)
    requires Stand(run, lists, s, n) && s'.runq == s.runq && s'.queues == s.queues
    requires forall u :: u in s'.threads ==> u in s.threads
    ensures Stand(run, lists, s', n)
  {
    forall q
      ensures Queue(s', q) == Queue(s, q)
    {
    }
  }

  /** uthread_cond_wait: the caller goes onto one list while the next owner of the mutex leaves another. */
  method WaitOn(m: Machine, wc: WaitQueue, wm: WaitQueue, t: Thread, slice: nat,
                ghost s: Sched, ghost n: Naming, ghost c: nat, ghost u: nat) returns (next: Thread?)
    requires m.Valid() && Shows(m, s, n) && Live(s) && IsCurrent(s, n, t) && s.threads[s.current.value].pc == User
    requires CondQ(c) in n.qs && n.qs[CondQ(c)] == wc && MutexQ(u) in n.qs && n.qs[MutexQ(u)] == wm
    modifies m.run, m.waits, m.threads`next, m.threads`prev, m.threads`blockedQueue, m.threads`timeslice
    ensures Sane(Mutexes.Leave(s, c, u)) && m.Valid() && Shows(m, Schedule(Mutexes.Leave(s, c, u), 0), n)
    ensures IsCurrent(Schedule(Mutexes.Leave(s, c, u), 0), n, next)
  {
    Mutexes.CondWaitBase(s, c, u);
    LeaveOn(m, wc, wm, t, slice, s, n, c, u);
    next := Switch(m, Mutexes.Leave(s, c, u), n);
  }

  method LeaveOn(m: Machine, wc: WaitQueue, wm: WaitQueue, t: Thread, slice: nat,
                 ghost s: Sched, ghost n: Naming, ghost c: nat, ghost u: nat)
    requires m.Valid() && Shows(m, s, n) && Live(s) && IsCurrent(s, n, t) && s.threads[s.current.value].pc == User
    requires CondQ(c) in n.qs && n.qs[CondQ(c)] == wc && MutexQ(u) in n.qs && n.qs[MutexQ(u)] == wm
    modifies m.run, m.waits, m.threads`next, m.threads`prev, m.threads`blockedQueue, m.threads`timeslice
    ensures m.Valid() && Shows(m, Mutexes.Leave(s, c, u), n)
  {
    EnlistOn(m, wc, t, s, n, CondQ(c), GetMutex(u));
    Mutexes.LeaveIs(s, c, u);
    ghost var e := Enlist(s, s.current.value, CondQ(c), GetMutex(u));
    WakeOneOf(m, wm, slice, e, n, MutexQ(u));
  }

  /** A thread inside a join is on no list. */
  lemma OffJoiner(s: Sched, t: Tid)
    requires RunqOk(s) && QueuesOk(s) && t in s.threads && s.threads[t].pc.Joining?
    ensures OffLists(s, t)
  {
    forall q
      ensures t !in Queue(s, q)
    {
      NotWaiting(s, t, q);
    }
  }

  /** The part of uthread_exit before scheduler_schedule: rr_remove of the caller, then the joiner, if
      any, is made ready. */
  method BuryOn(m: Machine, t: Thread, joiner: Thread?, slice: nat, ghost s: Sched, ghost n: Naming, ghost v: int)
    requires m.Valid() && Shows(m, s, n) && Live(s) && IsCurrent(s, n, t)
    requires IsJoiner(s, n, joiner)
    modifies m.run, m.threads`next, m.threads`prev, m.threads`timeslice
    ensures m.Valid() && Shows(m, Bury(s, v), n)
  {
    ghost var self, j := s.current.value, s.threads[s.current.value].joiner;
    ghost var e := if j.Some? then Bury(s, v).(runq := s.runq) else Bury(s, v);
    CurrentIsFree(m, t, s, n);
    JoinerParked(s);
    OffCurrent(s);
    SameStands(m.run.members, m.Lists(), s, n, e);
    m.Withdraw(t);
    if joiner != null {
      OffJoiner(s, j.value);
      ReadyUp(m, joiner, slice, e, n, Bury(s, v));
    }
  }

  /** The control block is that of the running thread's joiner, or NULL when it has none. */
  ghost predicate IsJoiner(s: Sched, n: Naming, joiner: Thread?)
    requires Live(s)
  {
    var j := s.threads[s.current.value].joiner;
    && (joiner == null <==> j == None)
    && (joiner != null ==> j.value in n.ids && n.ids[j.value] == joiner)
  }

  /** uthread_exit. */
  method ExitNow(m: Machine, t: Thread, joiner: Thread?, slice: nat, ghost s: Sched, ghost n: Naming, ghost v: int)
    returns (next: Thread?)
    requires m.Valid() && Shows(m, s, n) && Live(s) && IsCurrent(s, n, t) && IsJoiner(s, n, joiner)
    modifies m.run, m.threads`next, m.threads`prev, m.threads`timeslice
    ensures m.Valid() && Shows(m, Exit(s, v, 0), n) && IsCurrent(Exit(s, v, 0), n, next)
  {
    BuryRunq(s, v);
    BuryOn(m, t, joiner, slice, s, n, v);
    next := Switch(m, Bury(s, v), n);
  }

  /** uthread_create. */
  method CreateReady(m: Machine, slice: nat, tid: Tid, ghost s: Sched, n: Naming)
    returns (b: Thread, n': Naming)
    requires m.Valid() && Shows(m, s, n) && tid !in s.threads && OffLists(s, tid)
    modifies m`threads, m.run, m.threads`next, m.threads`prev, m.threads`timeslice
    ensures fresh(b) && n' == n.(ids := n.ids[tid := b])
    ensures m.Valid() && Shows(m, Create(s, tid), n')
    ensures forall x :: x in m.threads ==> x in old(m.threads) || fresh(x)
  {
    b := new Thread(tid);
    n' := n.(ids := n.ids[tid := b]);
    AdoptAs(m, b, s, n, n');
    ReadyUp(m, b, slice, s, n', Create(s, tid));
  }

  /** A control block that m does not know yet becomes that of a new thread. */
  ghost method AdoptAs(m: Machine, b: Thread, s: Sched, n: Naming, n': Naming)
    requires m.Valid() && Shows(m, s, n) && OffLists(s, b.tid)
    requires b !in m.threads && b.blockedQueue == null && n' == n.(ids := n.ids[b.tid := b])
    modifies m`threads
    ensures m.Valid() && Shows(m, s, n') && m.threads == old(m.threads) + {b}
  {
    NewStands(m.run.members, m.Lists(), s, n, b.tid, b);
    m.Adopt(b);
  }

  /** A thread that does not exist yet is on no list. */
  lemma OffNew(s: Sched, t: Tid)
    requires RunqOk(s) && QueuesOk(s) && t !in s.threads
    ensures OffLists(s, t)
  {
  }

  /** A name for a thread that does not exist yet changes nothing. */
  lemma NewStands(run: seq<Thread>, lists: Lists, s: Sched, n: Naming, t: Tid, b: Thread)
    requires Stand(run, lists, s, n) && OffLists(s, t)
    ensures Stand(run, lists, s, n.(ids := n.ids[t := b]))
  {
    var n' := n.(ids := n.ids[t := b]);
    assert forall i :: 0 <= i < |s.runq| ==> s.runq[i] in s.runq;
    forall q | q in n.qs
      ensures Same(n', Queue(s, q), lists[n.qs[q]])
    {
      assert forall i :: 0 <= i < |Queue(s, q)| ==> Queue(s, q)[i] in Queue(s, q);
    }
  }

  /** uthread_join of a thread that has not exited. */
  method ParkOn(m: Machine, ghost s: Sched, ghost n: Naming, ghost u: Tid) returns (next: Thread?)
    requires m.Valid() && Shows(m, s, n) && Live(s) && u in s.threads && !JoinRefused(s, u)
    requires s.threads[u].pc != Dead && s.threads[s.current.value].pc == User
    modifies m.run, m.threads`next, m.threads`prev
    ensures m.Valid() && Shows(m, JoinRound(s, u, 0), n) && IsCurrent(JoinRound(s, u, 0), n, next)
  {
    ParkLive(s, u);
    SameStands(m.run.members, m.Lists(), s, n, Park(s, u));
    next := Switch(m, Park(s, u), n);
  }

  /** uthread_join of one that has: the control block that it frees is on no list. */
  lemma ReapShows(m: Machine, s: Sched, n: Naming, u: Tid)
    requires m.Valid() && Shows(m, s, n) && Live(s) && u in s.threads && !JoinRefused(s, u)
    requires s.threads[u].pc == Dead && s.threads[s.current.value].pc in {User, JoinWoken(u)}
    ensures Shows(m, JoinRound(s, u, 0), n)
    ensures n.ids[u].blockedQueue == null && n.ids[u] !in m.run.members
    ensures forall w :: w in m.waits ==> n.ids[u] !in w.members
  {
    SameStands(m.run.members, m.Lists(), s, n, Reap(s, u));
    forall q
      ensures u !in Queue(s, q)
    {
      NotWaiting(s, u, q);
    }
    OnNoList(m, s, n, u);
  }
}
