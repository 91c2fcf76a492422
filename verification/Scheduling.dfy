/** The scheduler core (src/scheduler.c) as a value: threads with a program counter, one run
    queue and every wait queue; and the invariant that each thread is in exactly one place. */
module Scheduling {
  import opened Basics

  datatype Option<+T> = None | Some(value: T)

  type Tid = nat

  /** What a blocked call still has to obtain once its thread is woken. */
  datatype Goal = GetMutex(m: nat) | GetSem(s: nat) | GetRead(r: nat) | GetWrite(r: nat)

  /** The wait queues of all objects. */
  datatype Qid = MutexQ(m: nat) | CondQ(c: nat) | SemQ(s: nat) | ReadQ(r: nat) | WriteQ(r: nat)

  /** Where a thread stands between two calls of scheduler_schedule. */
  datatype Pc =
    | User                             // in user code
    | Waiting(q: Qid, goal: Goal)      // linked on a wait queue
    | Woken(goal: Goal)                // unlinked by a waker, about to check its condition again
    | Joining(target: Tid)             // parked as the joiner of a thread
    | JoinWoken(target: Tid)           // enqueued by the exiting target, about to check again
    | Dead                             // has called uthread_exit

  datatype State = Ready | Running | Blocked | Terminated

  datatype Tcb = Tcb(pc: Pc, state: State, joiner: Option<Tid>, retval: int, joined: Option<int>)

  /** `current` is None when the idle thread runs. */
  datatype Sched = Sched(current: Option<Tid>, runq: seq<Tid>, threads: map<Tid, Tcb>, queues: map<Qid, seq<Tid>>)

  /** The thread is inside a blocking call on an object. */
  predicate InCall(pc: Pc) {
    pc.Waiting? || pc.Woken?
  }

  /** Inside uthread_join, or exited. */
  predicate InJoin(pc: Pc) {
    pc.Joining? || pc.JoinWoken? || pc.Dead?
  }

  /** What a step on objects by self leaves alone: joiner links and exit values, and of the other
      threads who joins, who has exited and what the calls in progress seek. */
  ghost predicate Frame(s: Sched, r: Sched, self: Tid) {
    forall t :: t in s.threads ==> (
      && t in r.threads && r.threads[t].joiner == s.threads[t].joiner && r.threads[t].retval == s.threads[t].retval
      && (t != self && InJoin(s.threads[t].pc) ==> r.threads[t].pc == s.threads[t].pc)
      && (t != self && InCall(s.threads[t].pc) ==>
        InCall(r.threads[t].pc) && r.threads[t].pc.goal == s.threads[t].pc.goal))
  }

  // ---------------------------------------------------------------- queues and scheduling

  function Queue(k: Sched, q: Qid): (s: seq<Tid>) {
    if q in k.queues then k.queues[q] else []
  }

  function Move(k: Sched, t: Tid, pc: Pc, state: State): (r: Sched)
    requires t in k.threads
  {
    k.(threads := k.threads[t := k.threads[t].(pc := pc, state := state)])
  }

  /** wait_queue_add by the running thread, with its state set to BLOCKED. */
  function Enlist(k: Sched, t: Tid, q: Qid, goal: Goal): (r: Sched)
    requires t in k.threads
  {
    Move(k, t, Waiting(q, goal), Blocked).(queues := k.queues[q := Queue(k, q) + [t]])
  }

  /** scheduler_unblock, for a thread that has just been unlinked. */
  function Unblock(k: Sched, t: Tid, pc: Pc): (r: Sched)
    requires t in k.threads
  {
    Move(k, t, pc, Ready).(runq := k.runq + [t])
  }

  ghost predicate HeadWaits(k: Sched, q: Qid) {
    Queue(k, q) != [] ==> Queue(k, q)[0] in k.threads && k.threads[Queue(k, q)[0]].pc.Waiting?
  }

  function WakeOne(k: Sched, q: Qid): (r: Sched)
    requires HeadWaits(k, q)
    ensures r.queues == (if Queue(k, q) == [] then k.queues else k.queues[q := Queue(k, q)[1..]])
  {
    if Queue(k, q) == [] then k
    else
      var t := Queue(k, q)[0];
      Unblock(k.(queues := k.queues[q := Queue(k, q)[1..]]), t, Woken(k.threads[t].pc.goal))
  }

  /** The position that `pick` stands for in a queue of n threads; picks range over all of them. */
  function Slot(pick: nat, n: nat): (i: nat)
    requires n > 0
    ensures i < n && (pick < n ==> i == pick)
  {
    if pick < n then pick else 0
  }

  /** scheduler_schedule, where `pick` is the position the run queue's policy chooses. */
  function Schedule(k: Sched, pick: nat): (r: Sched)
    requires k.current.Some? && k.current.value in k.threads
    requires forall t :: t in k.runq ==> t in k.threads
    ensures r.queues == k.queues
  {
    var self := k.current.value;
    if k.runq == [] then
      Idle(k, self)
    else
      var i := Slot(pick, |k.runq|);
      var next := k.runq[i];
      var k1 := k.(runq := Without(k.runq, i));
      if next == self then k1
      else
        var k2 := Idle(k1, self);
        Move(k2, next, k2.threads[next].pc, Running).(current := Some(next))
  }

  /** The running thread stops; a RUNNING thread becomes READY. */
  function Idle(k: Sched, self: Tid): (r: Sched)
    requires self in k.threads
  {
    var t := k.threads[self];
    Move(k, self, t.pc, if t.state == Running then Ready else t.state).(current := None)
  }

  /** wait_queue_wake_all: every waiter becomes ready, in the order they waited. */
  ghost function WakeAll(k: Sched, q: Qid): (r: Sched)
    requires forall t :: t in Queue(k, q) ==> t in k.threads && k.threads[t].pc.Waiting?
    ensures r.queues == (if Queue(k, q) == [] then k.queues else k.queues[q := []])
  {
    if Queue(k, q) == [] then k
    else
      k.(queues := k.queues[q := []],
         runq := k.runq + Queue(k, q),
         threads := map t | t in k.threads ::
           if t in Queue(k, q) then k.threads[t].(pc := Woken(k.threads[t].pc.goal), state := Ready)
           else k.threads[t])
  }

  /** The queues of the condition variables are the same. */
  ghost predicate CondKept(s: Sched, r: Sched) {
    forall c :: Queue(r, CondQ(c)) == Queue(s, CondQ(c))
  }

  /** A step of self on an object that is not a condition variable. */
  ghost predicate Calm(s: Sched, r: Sched, self: Tid) {
    Frame(s, r, self) && CondKept(s, r)
  }

  // ---------------------------------------------------------------- one place per thread

  predicate Runnable(pc: Pc) {
    pc.User? || pc.Woken? || pc.JoinWoken?
  }

  predicate GoalFits(q: Qid, g: Goal) {
    match q
    case MutexQ(m) => g == GetMutex(m)
    case CondQ(_) => g.GetMutex?
    case SemQ(s) => g == GetSem(s)
    case ReadQ(r) => g == GetRead(r)
    case WriteQ(r) => g == GetWrite(r)
  }

  /** The run queue holds exactly the runnable threads that are not on the processor, once. */
  ghost predicate RunqOk(k: Sched) {
    && Distinct(k.runq)
    && (forall t :: t in k.runq ==>
      t in k.threads && Runnable(k.threads[t].pc) && k.threads[t].state == Ready && k.current != Some(t))
    && (forall t :: t in k.threads && Runnable(k.threads[t].pc) ==> t in k.runq || k.current == Some(t))
  }

  /** Each wait queue holds exactly the threads whose call waits on it, once. */
  ghost predicate QueuesOk(k: Sched) {
    && (forall q :: Distinct(Queue(k, q)))
    && (forall q, t :: t in Queue(k, q) ==> t in k.threads && k.threads[t].pc.Waiting? && k.threads[t].pc.q == q)
    && (forall t :: t in k.threads && k.threads[t].pc.Waiting? ==>
      && t in Queue(k, k.threads[t].pc.q)
      && GoalFits(k.threads[t].pc.q, k.threads[t].pc.goal) && k.threads[t].state == Blocked)
  }

  /** Joiner links and parked joiners correspond; a joiner is woken exactly when its target is dead. */
  ghost predicate JoinOk(ts: map<Tid, Tcb>, t: Tid)
    requires t in ts
  {
    var b := ts[t];
    && (b.pc.Joining? ==> (
      && b.state == Blocked && b.pc.target in ts
      && ts[b.pc.target].pc != Dead && ts[b.pc.target].joiner == Some(t)))
    && (b.pc.JoinWoken? ==> (
      && b.pc.target in ts
      && ts[b.pc.target].pc == Dead && ts[b.pc.target].joiner == Some(t)))
    && (b.joiner.Some? ==> (
      && b.joiner.value in ts
      && (ts[b.joiner.value].pc == Joining(t) || ts[b.joiner.value].pc == JoinWoken(t))))
    && (b.pc == Dead ==> b.state == Terminated)
  }

  ghost predicate JoinsOk(ts: map<Tid, Tcb>) {
    forall t {:trigger JoinOk(ts, t)} :: t in ts ==> JoinOk(ts, t)
  }

  ghost predicate Base(k: Sched) {
    RunqOk(k) && QueuesOk(k) && JoinsOk(k.threads)
  }

  /** Between two steps: the current thread runs, and the processor idles only when nothing is ready. */
  ghost predicate CurrentRuns(k: Sched) {
    && (k.current.Some? ==> (
      && k.current.value in k.threads
      && Runnable(k.threads[k.current.value].pc) && k.threads[k.current.value].state == Running))
    && (k.current == None ==> k.runq == [])
  }

  /** Inside a step, between parking the current thread and switching away from it. */
  ghost predicate CurrentParked(k: Sched) {
    && k.current.Some? && k.current.value in k.threads
    && !Runnable(k.threads[k.current.value].pc) && k.threads[k.current.value].state != Running
  }

  lemma AppendOne(s: seq<Tid>, x: Tid)
    ensures forall y :: y in s + [x] <==> y in s || y == x
    ensures Distinct(s) && x !in s ==> Distinct(s + [x])
  {
  }

  lemma DropOne(s: seq<Tid>, i: nat)
    requires i < |s| && Distinct(s)
    ensures Distinct(Without(s, i)) && s[i] !in Without(s, i)
    ensures forall y :: y in s <==> y == s[i] || y in Without(s, i)
  {
    var r := Without(s, i);
    assert forall j :: 0 <= j < i ==> r[j] == s[j];
    assert forall j :: i <= j < |r| ==> r[j] == s[j + 1];
    forall y | y in s && y != s[i]
      ensures y in r
    {
      var j :| 0 <= j < |s| && s[j] == y;
      assert y == r[if j < i then j else j - 1];
    }
  }

  lemma DropHead(s: seq<Tid>)
    requires s != [] && Distinct(s)
    ensures Distinct(s[1..]) && s[0] !in s[1..]
    ensures forall y :: y in s <==> y == s[0] || y in s[1..]
  {
  }

  lemma WakeOneRunq(k: Sched, q: Qid)
    requires RunqOk(k) && QueuesOk(k) && Queue(k, q) != [] && k.current != Some(Queue(k, q)[0])
    ensures HeadWaits(k, q) && RunqOk(WakeOne(k, q))
  {
    var t := Queue(k, q)[0];
    assert t in Queue(k, q);
    AppendOne(k.runq, t);
  }

  lemma WakeOneQueues(k: Sched, q: Qid)
    requires QueuesOk(k) && Queue(k, q) != []
    ensures HeadWaits(k, q) && QueuesOk(WakeOne(k, q))
  {
    var t := Queue(k, q)[0];
    assert t in Queue(k, q);
    var r := WakeOne(k, q);
    DropHead(Queue(k, q));
    forall q'
      ensures Distinct(Queue(r, q'))
    {
      assert Distinct(Queue(k, q'));
    }
    forall q', u | u in Queue(r, q')
      ensures u in r.threads && r.threads[u].pc.Waiting? && r.threads[u].pc.q == q'
    {
      assert u in Queue(k, q');
    }
  }

  /** Changing one thread's program counter among values that are not about joining keeps the
      joiner links. */
  lemma MoveJoins(k: Sched, t: Tid, pc: Pc, state: State)
    requires JoinsOk(k.threads) && t in k.threads
    requires !k.threads[t].pc.Joining? && !k.threads[t].pc.JoinWoken? && k.threads[t].pc != Dead
    requires !pc.Joining? && !pc.JoinWoken? && pc != Dead
    ensures JoinsOk(Move(k, t, pc, state).threads)
  {
    var r := Move(k, t, pc, state);
    forall u | u in r.threads
      ensures JoinOk(r.threads, u)
    {
      assert JoinOk(k.threads, u);
    }
  }

  lemma WakeOneBase(k: Sched, q: Qid)
    requires Base(k) && (Queue(k, q) != [] ==> k.current != Some(Queue(k, q)[0]))
    ensures HeadWaits(k, q) && Base(WakeOne(k, q))
  {
    if Queue(k, q) != [] {
      var t := Queue(k, q)[0];
      assert t in Queue(k, q);
      WakeOneRunq(k, q);
      WakeOneQueues(k, q);
      MoveJoins(k, t, Woken(k.threads[t].pc.goal), Ready);
    }
  }

  lemma EnlistRunq(k: Sched, q: Qid, g: Goal)
    requires RunqOk(k) && k.current.Some? && k.current.value in k.threads
    ensures RunqOk(Enlist(k, k.current.value, q, g))
  {
  }

  lemma NotWaiting(k: Sched, t: Tid, q: Qid)
    requires QueuesOk(k) && t in k.threads && !k.threads[t].pc.Waiting?
    ensures t !in Queue(k, q)
  {
  }

  lemma EnlistQueues(k: Sched, t: Tid, q: Qid, g: Goal)
    requires QueuesOk(k) && t in k.threads && !k.threads[t].pc.Waiting? && GoalFits(q, g)
    ensures QueuesOk(Enlist(k, t, q, g))
  {
    var r := Enlist(k, t, q, g);
    NotWaiting(k, t, q);
    AppendOne(Queue(k, q), t);
    assert Queue(r, q) == Queue(k, q) + [t];
    forall q'
      ensures Distinct(Queue(r, q'))
    {
      if q' == q {
        assert Distinct(Queue(k, q));
      } else {
        assert Queue(r, q') == Queue(k, q') && Distinct(Queue(k, q'));
      }
    }
    forall q', u | u in Queue(r, q')
      ensures u in r.threads && r.threads[u].pc.Waiting? && r.threads[u].pc.q == q'
    {
      if q' != q {
        assert Queue(r, q') == Queue(k, q') && u in Queue(k, q');
        NotWaiting(k, t, q');
      } else if u != t {
        assert u in Queue(k, q);
      }
    }
  }

  lemma EnlistBase(k: Sched, q: Qid, g: Goal)
    requires Base(k) && CurrentRuns(k) && k.current.Some? && GoalFits(q, g)
    requires !k.threads[k.current.value].pc.JoinWoken?
    ensures Base(Enlist(k, k.current.value, q, g)) && CurrentParked(Enlist(k, k.current.value, q, g))
  {
    EnlistRunq(k, q, g);
    EnlistQueues(k, k.current.value, q, g);
    MoveJoins(k, k.current.value, Waiting(q, g), Blocked);
  }

  lemma ScheduleRunq(k: Sched, pick: nat)
    requires RunqOk(k) && CurrentParked(k)
    ensures RunqOk(Schedule(k, pick)) && CurrentRuns(Schedule(k, pick))
  {
    if k.runq != [] {
      DropOne(k.runq, Slot(pick, |k.runq|));
    }
  }

  /** Only the states of runnable threads may differ. */
  ghost predicate SamePlaces(k: Sched, r: Sched) {
    && r.queues == k.queues
    && r.threads.Keys == k.threads.Keys
    && (forall t :: t in k.threads ==>
      && r.threads[t].pc == k.threads[t].pc && r.threads[t].joiner == k.threads[t].joiner
      && (!Runnable(k.threads[t].pc) ==> r.threads[t].state == k.threads[t].state))
  }

  /** Queues that do not change stay right while the same threads wait on them. */
  lemma QueuesKept(k: Sched, r: Sched)
    requires QueuesOk(k) && r.queues == k.queues
    requires forall t :: t in k.threads && k.threads[t].pc.Waiting? ==>
      t in r.threads && r.threads[t].pc == k.threads[t].pc && r.threads[t].state == k.threads[t].state
    requires forall t :: t in r.threads && r.threads[t].pc.Waiting? ==> t in k.threads && k.threads[t].pc.Waiting?
    ensures QueuesOk(r)
  {
    forall q
      ensures Distinct(Queue(r, q))
    {
      assert Distinct(Queue(k, q));
    }
    forall q, t | t in Queue(r, q)
      ensures t in r.threads && r.threads[t].pc.Waiting? && r.threads[t].pc.q == q
    {
      assert t in Queue(k, q);
    }
  }

  lemma SameQueues(k: Sched, r: Sched)
    requires QueuesOk(k) && SamePlaces(k, r)
    ensures QueuesOk(r)
  {
    QueuesKept(k, r);
  }

  lemma SameJoins(k: Sched, r: Sched)
    requires JoinsOk(k.threads) && SamePlaces(k, r)
    ensures JoinsOk(r.threads)
  {
    forall t | t in r.threads
      ensures JoinOk(r.threads, t)
    {
      assert JoinOk(k.threads, t);
    }
  }

  lemma ScheduleSame(k: Sched, pick: nat)
    requires RunqOk(k) && CurrentParked(k)
    ensures SamePlaces(k, Schedule(k, pick))
  {
  }

  lemma ScheduleBase(k: Sched, pick: nat)
    requires Base(k) && CurrentParked(k)
    ensures Base(Schedule(k, pick)) && CurrentRuns(Schedule(k, pick))
  {
    ScheduleRunq(k, pick);
    ScheduleSame(k, pick);
    SameQueues(k, Schedule(k, pick));
    SameJoins(k, Schedule(k, pick));
  }

  // ---------------------------------------------------------------- steps of the running thread

  ghost predicate Live(k: Sched) {
    Base(k) && CurrentRuns(k) && k.current.Some?
  }

  /** The running thread blocks on q: wait_queue_add, then scheduler_schedule. */
  ghost function Block(k: Sched, q: Qid, g: Goal, pick: nat): (r: Sched)
    requires Live(k)
    ensures r.queues == k.queues[q := Queue(k, q) + [k.current.value]]
  {
    EnlistRunq(k, q, g);
    Schedule(Enlist(k, k.current.value, q, g), pick)
  }

  /** The running thread returns to user code. */
  ghost function Return(k: Sched): (r: Sched)
    requires Live(k)
    ensures r.queues == k.queues
  {
    Move(k, k.current.value, User, Running)
  }

  lemma BlockLive(k: Sched, q: Qid, g: Goal, pick: nat)
    requires Live(k) && GoalFits(q, g) && !k.threads[k.current.value].pc.JoinWoken?
    ensures Base(Block(k, q, g, pick)) && CurrentRuns(Block(k, q, g, pick))
  {
    EnlistBase(k, q, g);
    ScheduleBase(Enlist(k, k.current.value, q, g), pick);
  }

  lemma MoveQueues(k: Sched, t: Tid, pc: Pc, state: State)
    requires QueuesOk(k) && t in k.threads && !k.threads[t].pc.Waiting? && !pc.Waiting?
    ensures QueuesOk(Move(k, t, pc, state))
  {
    var r := Move(k, t, pc, state);
    QueuesKept(k, r);
  }

  lemma ReturnLive(k: Sched)
    requires Live(k) && !k.threads[k.current.value].pc.JoinWoken?
    ensures Live(Return(k))
  {
    MoveQueues(k, k.current.value, User, Running);
    MoveJoins(k, k.current.value, User, Running);
  }

  lemma WakeOneLive(k: Sched, q: Qid)
    requires Live(k)
    ensures HeadWaits(k, q) && Live(WakeOne(k, q)) && WakeOne(k, q).current == k.current
  {
    if Queue(k, q) != [] {
      assert Queue(k, q)[0] in Queue(k, q);
    }
    WakeOneBase(k, q);
  }

  // ---------------------------------------------------------------- waking everyone

  lemma AppendAll(s: seq<Tid>, u: seq<Tid>)
    requires Distinct(s) && Distinct(u) && forall x :: x in u ==> x !in s
    ensures Distinct(s + u)
    ensures forall y :: y in s + u <==> y in s || y in u
  {
    var r := s + u;
    forall i, j | 0 <= i < j < |r|
      ensures r[i] != r[j]
    {
      if j >= |s| {
        assert r[j] == u[j - |s|] && r[j] in u;
        if i < |s| {
          assert r[i] in s;
        }
      }
    }
  }

  lemma WakeAllRunq(k: Sched, q: Qid)
    requires RunqOk(k) && QueuesOk(k) && (k.current.Some? ==> k.current.value !in Queue(k, q))
    ensures RunqOk(WakeAll(k, q))
  {
    assert Distinct(Queue(k, q));
    AppendAll(k.runq, Queue(k, q));
  }

  lemma WakeAllQueues(k: Sched, q: Qid)
    requires QueuesOk(k)
    ensures QueuesOk(WakeAll(k, q))
  {
    var r := WakeAll(k, q);
    forall q'
      ensures Distinct(Queue(r, q'))
    {
      assert Distinct(Queue(k, q'));
    }
    forall q', u | u in Queue(r, q')
      ensures u in r.threads && r.threads[u].pc.Waiting? && r.threads[u].pc.q == q'
    {
      assert u in Queue(k, q');
    }
  }

  lemma WakeAllJoins(k: Sched, q: Qid)
    requires QueuesOk(k) && JoinsOk(k.threads)
    ensures JoinsOk(WakeAll(k, q).threads)
  {
    var r := WakeAll(k, q);
    forall t | t in r.threads
      ensures JoinOk(r.threads, t)
    {
      assert JoinOk(k.threads, t);
    }
  }

  lemma WakeAllLive(k: Sched, q: Qid)
    requires Live(k)
    ensures Live(WakeAll(k, q)) && WakeAll(k, q).current == k.current
  {
    WakeAllRunq(k, q);
    WakeAllQueues(k, q);
    WakeAllJoins(k, q);
  }

  // ---------------------------------------------------------------- yielding

  ghost predicate Sane(k: Sched) {
    && k.current.Some? && k.current.value in k.threads
    && forall t :: t in k.runq ==> t in k.threads
  }

  /** scheduler_yield: a RUNNING thread goes back into the run queue, then scheduler_schedule. */
  ghost function Yield(k: Sched, pick: nat): (r: Sched)
    requires Sane(k)
    ensures r.queues == k.queues
  {
    var self := k.current.value;
    if k.threads[self].state == Running then
      Schedule(Move(k, self, k.threads[self].pc, Ready).(runq := k.runq + [self]), pick)
    else
      Schedule(k, pick)
  }

  /** The policy picks some other thread. */
  predicate PicksAnother(k: Sched, pick: nat) {
    Slot(pick, |k.runq| + 1) < |k.runq|
  }

  lemma YieldRunq(k: Sched, pick: nat)
    requires Live(k) && PicksAnother(k, pick)
    ensures RunqOk(Yield(k, pick)) && CurrentRuns(Yield(k, pick))
  {
    var self := k.current.value;
    var s := k.runq + [self];
    var i := Slot(pick, |s|);
    AppendOne(k.runq, self);
    DropOne(s, i);
    assert s[i] == k.runq[i] && s[i] in k.runq;
  }

  lemma YieldSame(k: Sched, pick: nat)
    requires Live(k)
    ensures SamePlaces(k, Yield(k, pick))
  {
  }

  /** A yield keeps every thread in its place exactly when the run queue does not hand the
      processor back to the yielding thread. */
  lemma YieldLiveIff(k: Sched, pick: nat)
    requires Live(k)
    ensures Live(Yield(k, pick)) <==> PicksAnother(k, pick)
    ensures PicksAnother(k, pick) ==> Yield(k, pick).current != k.current
  {
    YieldSame(k, pick);
    SameQueues(k, Yield(k, pick));
    SameJoins(k, Yield(k, pick));
    if PicksAnother(k, pick) {
      YieldRunq(k, pick);
    } else {
      assert (k.runq + [k.current.value])[Slot(pick, |k.runq| + 1)] == k.current.value;
    }
  }

  /** Otherwise the thread keeps running with state READY, and its next yield drops it: it can
      run again but is neither on the processor nor in the run queue. */
  lemma YieldTwiceDrops(k: Sched, pick: nat, pick2: nat)
    requires Live(k) && !PicksAnother(k, pick)
    ensures Sane(Yield(k, pick)) && Yield(k, pick).current == k.current
    ensures var self, r := k.current.value, Yield(Yield(k, pick), pick2);
      && self in r.threads && Runnable(r.threads[self].pc)
      && self !in r.runq && r.current != Some(self)
  {
    var self := k.current.value;
    var k1 := Yield(k, pick);
    assert (k.runq + [self])[Slot(pick, |k.runq| + 1)] == self;
    assert k1.runq == k.runq;
    if k.runq != [] {
      DropOne(k.runq, Slot(pick2, |k.runq|));
    }
  }

  // ---------------------------------------------------------------- creating, exiting, joining

  ghost function Create(k: Sched, t: Tid): (r: Sched)
    requires t !in k.threads
    ensures r.queues == k.queues
  {
    k.(threads := k.threads[t := Tcb(User, Ready, None, 0, None)], runq := k.runq + [t])
  }

  lemma CreateLive(k: Sched, t: Tid)
    requires Live(k) && t !in k.threads
    ensures Live(Create(k, t))
  {
    var r := Create(k, t);
    AppendOne(k.runq, t);
    assert RunqOk(r);
    CreateQueues(k, t);
    CreateJoins(k, t);
  }

  lemma CreateQueues(k: Sched, t: Tid)
    requires QueuesOk(k) && t !in k.threads
    ensures QueuesOk(Create(k, t))
  {
    var r := Create(k, t);
    QueuesKept(k, r);
  }

  lemma CreateJoins(k: Sched, t0: Tid)
    requires JoinsOk(k.threads) && t0 !in k.threads
    ensures JoinsOk(Create(k, t0).threads)
  {
    var r := Create(k, t0);
    forall t | t in r.threads
      ensures JoinOk(r.threads, t)
    {
      if t != t0 {
        assert JoinOk(k.threads, t);
      }
    }
  }

  /** uthread_exit of a joinable thread up to scheduler_schedule: the joiner, if any, is made ready. */
  ghost function Bury(k: Sched, v: int): (r: Sched)
    requires Live(k)
    ensures r.queues == k.queues
  {
    var self := k.current.value;
    var k1 := Move(k, self, Dead, Terminated);
    var k2 := k1.(threads := k1.threads[self := k1.threads[self].(retval := v)], runq := Dropped(k1.runq, self));
    var j := k.threads[self].joiner;
    JoinerParked(k);
    if j.Some? then Unblock(k2, j.value, JoinWoken(self)) else k2
  }

  ghost function Exit(k: Sched, v: int, pick: nat): (r: Sched)
    requires Live(k)
    ensures r.queues == k.queues
  {
    BuryRunq(k, v);
    Schedule(Bury(k, v), pick)
  }

  lemma JoinerParked(k: Sched)
    requires Live(k)
    ensures var self := k.current.value; var j := k.threads[self].joiner;
      j.Some? ==> j.value in k.threads && k.threads[j.value].pc == Joining(self) && j.value != self
  {
    var self := k.current.value;
    assert JoinOk(k.threads, self);
    if k.threads[self].joiner.Some? {
      assert JoinOk(k.threads, k.threads[self].joiner.value);
    }
  }

  lemma BuryRunq(k: Sched, v: int)
    requires Live(k)
    ensures RunqOk(Bury(k, v)) && CurrentParked(Bury(k, v))
  {
    JoinerParked(k);
    var j := k.threads[k.current.value].joiner;
    if j.Some? {
      AppendOne(k.runq, j.value);
    }
  }

  lemma BuryQueues(k: Sched, v: int)
    requires Live(k)
    ensures QueuesOk(Bury(k, v))
  {
    var r := Bury(k, v);
    JoinerParked(k);
    QueuesKept(k, r);
  }

  lemma BuryJoins(k: Sched, v: int)
    requires Live(k) && !k.threads[k.current.value].pc.JoinWoken?
    ensures JoinsOk(Bury(k, v).threads)
  {
    var r := Bury(k, v);
    JoinerParked(k);
    forall t | t in r.threads
      ensures JoinOk(r.threads, t)
    {
      assert JoinOk(k.threads, t);
      assert JoinOk(k.threads, k.current.value);
    }
  }

  lemma ExitLive(k: Sched, v: int, pick: nat)
    requires Live(k) && !k.threads[k.current.value].pc.JoinWoken?
    ensures Base(Exit(k, v, pick)) && CurrentRuns(Exit(k, v, pick))
  {
    BuryRunq(k, v);
    BuryQueues(k, v);
    BuryJoins(k, v);
    ScheduleBase(Bury(k, v), pick);
  }

  /** The refusals of uthread_join: joining oneself, or a thread that another thread joins. */
  predicate JoinRefused(k: Sched, u: Tid)
    requires k.current.Some? && u in k.threads
  {
    u == k.current.value || (k.threads[u].joiner.Some? && k.threads[u].joiner != k.current)
  }

  /** The running thread parks itself as the joiner of u. */
  ghost function Park(k: Sched, u: Tid): (r: Sched)
    requires Live(k) && u in k.threads
  {
    Move(k, k.current.value, Joining(u), Blocked).(threads :=
      Move(k, k.current.value, Joining(u), Blocked).threads[u := k.threads[u].(joiner := k.current)])
  }

  /** The exit value of u is handed over and u is freed. */
  ghost function Reap(k: Sched, u: Tid): (r: Sched)
    requires Live(k) && u in k.threads
  {
    var self := k.current.value;
    k.(threads := k.threads[self := k.threads[self].(pc := User, joined := Some(k.threads[u].retval))] - {u})
  }

  /** One round of the loop of uthread_join. */
  ghost function JoinRound(k: Sched, u: Tid, pick: nat): (r: Sched)
    requires Live(k) && u in k.threads && u != k.current.value
    ensures r.queues == k.queues
  {
    if k.threads[u].pc != Dead then Schedule(Park(k, u), pick) else Reap(k, u)
  }

  lemma ParkLive(k: Sched, u: Tid)
    requires Live(k) && u in k.threads && !JoinRefused(k, u) && k.threads[u].pc != Dead
    requires k.threads[k.current.value].pc == User
    ensures Base(Park(k, u)) && CurrentParked(Park(k, u))
  {
    ParkQueues(k, u);
    ParkJoins(k, u);
  }

  lemma ParkQueues(k: Sched, u: Tid)
    requires Live(k) && u in k.threads && !JoinRefused(k, u)
    ensures QueuesOk(Park(k, u))
  {
    var r := Park(k, u);
    QueuesKept(k, r);
  }

  lemma ParkJoins(k: Sched, u: Tid)
    requires Live(k) && u in k.threads && !JoinRefused(k, u) && k.threads[u].pc != Dead
    requires k.threads[k.current.value].pc == User
    ensures JoinsOk(Park(k, u).threads)
  {
    var r := Park(k, u);
    forall t | t in r.threads
      ensures JoinOk(r.threads, t)
    {
      assert JoinOk(k.threads, t);
      assert JoinOk(k.threads, k.current.value) && JoinOk(k.threads, u);
    }
  }

  lemma ReapLive(k: Sched, u: Tid)
    requires Live(k) && u in k.threads && !JoinRefused(k, u) && k.threads[u].pc == Dead
    requires k.threads[k.current.value].pc in {User, JoinWoken(u)}
    ensures Live(Reap(k, u))
  {
    ReapQueues(k, u);
    ReapJoins(k, u);
  }

  lemma ReapQueues(k: Sched, u: Tid)
    requires Live(k) && u in k.threads && !JoinRefused(k, u) && k.threads[u].pc == Dead
    ensures QueuesOk(Reap(k, u))
  {
    var r := Reap(k, u);
    QueuesKept(k, r);
  }

  lemma ReapJoins(k: Sched, u: Tid)
    requires Live(k) && u in k.threads && !JoinRefused(k, u) && k.threads[u].pc == Dead
    requires k.threads[k.current.value].pc in {User, JoinWoken(u)}
    ensures JoinsOk(Reap(k, u).threads)
  {
    var r := Reap(k, u);
    forall t | t in r.threads
      ensures JoinOk(r.threads, t)
    {
      assert JoinOk(k.threads, t);
      assert JoinOk(k.threads, k.current.value) && JoinOk(k.threads, u);
    }
  }

  lemma JoinRoundLive(k: Sched, u: Tid, pick: nat)
    requires Live(k) && u in k.threads && !JoinRefused(k, u)
    requires k.threads[k.current.value].pc in {User, JoinWoken(u)}
    ensures Base(JoinRound(k, u, pick)) && CurrentRuns(JoinRound(k, u, pick))
  {
    assert JoinOk(k.threads, k.current.value);
    if k.threads[u].pc != Dead {
      ParkLive(k, u);
      ScheduleBase(Park(k, u), pick);
    } else {
      ReapLive(k, u);
    }
  }

  // ---------------------------------------------------------------- what steps leave alone

  lemma ScheduleFrame(k: Sched, pick: nat)
    requires Sane(k)
    ensures Calm(k, Schedule(k, pick), k.current.value)
  {
  }

  lemma BlockFrame(k: Sched, q: Qid, g: Goal, pick: nat)
    requires Live(k)
    ensures Frame(k, Block(k, q, g, pick), k.current.value)
    ensures forall c :: q != CondQ(c) ==> Queue(Block(k, q, g, pick), CondQ(c)) == Queue(k, CondQ(c))
  {
    EnlistRunq(k, q, g);
    ScheduleFrame(Enlist(k, k.current.value, q, g), pick);
  }

  lemma ReturnFrame(k: Sched)
    requires Live(k)
    ensures Calm(k, Return(k), k.current.value)
  {
  }

  lemma WakeOneFrame(k: Sched, q: Qid, self: Tid)
    requires HeadWaits(k, q)
    ensures Frame(k, WakeOne(k, q), self)
    ensures forall c :: q != CondQ(c) ==> Queue(WakeOne(k, q), CondQ(c)) == Queue(k, CondQ(c))
  {
  }

  lemma WakeAllFrame(k: Sched, q: Qid, self: Tid)
    requires QueuesOk(k)
    ensures Frame(k, WakeAll(k, q), self)
    ensures forall c :: q != CondQ(c) ==> Queue(WakeAll(k, q), CondQ(c)) == Queue(k, CondQ(c))
  {
  }
}
