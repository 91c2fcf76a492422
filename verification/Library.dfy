/** The scheduler state g_scheduler and the operations of src/scheduler.c and src/uthread.c that
    change it, proved against the functions of Scheduling. */
module Library {
  import opened Basics
  import opened Scheduling

  /** Thread control blocks are the values of `threads`; a wait queue is the sequence of threads
      linked on it. */
  class Scheduler {
    var current: Option<Tid>
    var runq: seq<Tid>
    var threads: map<Tid, Tcb>
    var queues: map<Qid, seq<Tid>>

    /** uthread_init: the calling thread becomes the running thread of an otherwise empty library. */
    constructor (main: Tid)
      ensures Snapshot() == Sched(Some(main), [], map[main := Tcb(User, Running, None, 0, None)], map[])
    {
      current, runq := Some(main), [];
      threads, queues := map[main := Tcb(User, Running, None, 0, None)], map[];
    }

    function Snapshot(): (s: Sched)
      reads this
    {
      Sched(current, runq, threads, queues)
    }

    // -------------------------------------------------------------- wait queues

    function Waiters(q: Qid): (s: seq<Tid>)
      reads this
      ensures s == Queue(Snapshot(), q)
    {
      if q in queues then queues[q] else []
    }

    method SetPc(t: Tid, pc: Pc, state: State)
      requires t in threads
      modifies this`threads
      ensures Snapshot() == Move(old(Snapshot()), t, pc, state)
    {
      threads := threads[t := threads[t].(pc := pc, state := state)];
    }

    /** self->state = BLOCKED and wait_queue_add. */
    method Enlist(q: Qid, goal: Goal)
      requires current.Some? && current.value in threads
      modifies this`threads, this`queues
      ensures Snapshot() == Scheduling.Enlist(old(Snapshot()), old(current.value), q, goal)
    {
      SetPc(current.value, Waiting(q, goal), Blocked);
      queues := queues[q := Waiters(q) + [current.value]];
    }

    /** wait_queue_remove. */
    method Unlink(q: Qid) returns (t: Option<Tid>)
      modifies this`queues
      ensures old(Waiters(q)) == [] ==> t == None && Snapshot() == old(Snapshot())
      ensures old(Waiters(q)) != [] ==> t == Some(old(Waiters(q))[0])
      ensures old(Waiters(q)) != [] ==> Snapshot() == old(Snapshot()).(queues := old(queues)[q := old(Waiters(q))[1..]])
    {
      var s := Waiters(q);
      if s == [] {
        return None;
      }
      queues := queues[q := s[1..]];
      return Some(s[0]);
    }

    /** scheduler_unblock. */
    method Unblock(t: Tid, pc: Pc)
      requires t in threads
      modifies this`threads, this`runq
      ensures Snapshot() == Scheduling.Unblock(old(Snapshot()), t, pc)
    {
      SetPc(t, pc, Ready);
      runq := runq + [t];
    }

    /** wait_queue_wake_one. */
    method WakeOne(q: Qid)
      requires HeadWaits(Snapshot(), q)
      modifies this`threads, this`runq, this`queues
      ensures Snapshot() == Scheduling.WakeOne(old(Snapshot()), q)
    {
      var t := Unlink(q);
      if t.Some? {
        Unblock(t.value, Woken(threads[t.value].pc.goal));
      }
    }

    /** wait_queue_wake_all. */
    method WakeAll(q: Qid)
      requires QueuesOk(Snapshot())
      modifies this`threads, this`runq, this`queues
      ensures Snapshot() == Scheduling.WakeAll(old(Snapshot()), q)
    {
      ghost var s0 := Snapshot();
      ghost var w := Waiters(q);
      ghost var n := 0;
      WokenNone(s0, q);
      WokenUnlinked(s0, q, 0);
      var t := Unlink(q);
      while t.Some?
        invariant 0 <= n <= |w| && WokenReady(s0, q)
        invariant t == if n < |w| then Some(w[n]) else None
        invariant Snapshot() == WokenFirst(s0, q, n, if n < |w| then n + 1 else n)
        decreases |w| - n
      {
        WokenNext(s0, q, n);
        Unblock(t.value, Woken(threads[t.value].pc.goal));
        n := n + 1;
        WokenUnlinked(s0, q, n);
        t := Unlink(q);
      }
      WokenEvery(s0, q);
    }

    // -------------------------------------------------------------- scheduling

    /** scheduler_schedule, where `pick` is the position that the run queue's dequeue chooses. */
    method Schedule(pick: nat)
      requires Sane(Snapshot())
      modifies this`current, this`threads, this`runq
      ensures Snapshot() == Scheduling.Schedule(old(Snapshot()), pick)
    {
      var self := current.value;
      var next: Option<Tid> := None;
      if runq != [] {
        var i := Slot(pick, |runq|);
        next := Some(runq[i]);
        runq := Without(runq, i);
      }
      if next == current {
        return;
      }
      if threads[self].state == Running {
        SetPc(self, threads[self].pc, Ready);
      }
      if next.Some? {
        SetPc(next.value, threads[next.value].pc, Running);
      }
      current := next;
    }

    /** scheduler_yield; a preempting tick does the same to a running thread. */
    method Yield(pick: nat)
      requires Sane(Snapshot())
      modifies this`current, this`threads, this`runq
      ensures Snapshot() == Scheduling.Yield(old(Snapshot()), pick)
    {
      var self := current.value;
      if threads[self].state == Running {
        Unblock(self, threads[self].pc);
      }
      Schedule(pick);
    }

    /** The running thread queues itself and switches away. */
    method Block(q: Qid, goal: Goal, pick: nat)
      requires Live(Snapshot())
      modifies this
      ensures Snapshot() == Scheduling.Block(old(Snapshot()), q, goal, pick)
    {
      EnlistRunq(Snapshot(), q, goal);
      Enlist(q, goal);
      Schedule(pick);
    }

    /** The running thread leaves its call. */
    method Return()
      requires Live(Snapshot())
      modifies this`threads
      ensures Snapshot() == Scheduling.Return(old(Snapshot()))
    {
      SetPc(current.value, User, Running);
    }

    // -------------------------------------------------------------- threads

    /** The part of uthread_create that registers and enqueues the new thread. */
    method Create(t: Tid)
      requires t !in threads
      modifies this`threads, this`runq
      ensures Snapshot() == Scheduling.Create(old(Snapshot()), t)
    {
      threads := threads[t := Tcb(User, Ready, None, 0, None)];
      runq := runq + [t];
    }

    /** uthread_exit of a joinable thread, up to scheduler_schedule. */
    method Bury(v: int)
      requires Live(Snapshot())
      modifies this`threads, this`runq
      ensures Snapshot() == Scheduling.Bury(old(Snapshot()), v)
    {
      JoinerParked(Snapshot());
      var self := current.value;
      var j := threads[self].joiner;
      threads := threads[self := threads[self].(pc := Dead, state := Terminated, retval := v)];
      runq := Dropped(runq, self);
      if j.Some? {
        Unblock(j.value, JoinWoken(self));
      }
    }

    /** uthread_exit of a joinable thread. */
    method Exit(v: int, pick: nat)
      requires Live(Snapshot())
      modifies this`current, this`threads, this`runq
      ensures Snapshot() == Scheduling.Exit(old(Snapshot()), v, pick)
    {
      BuryRunq(Snapshot(), v);
      Bury(v);
      Schedule(pick);
    }

    /** uthread_join up to its next scheduler_schedule or its return; None while it has not returned. */
    method Join(u: Tid, pick: nat) returns (rc: Option<int>)
      requires Live(Snapshot()) && u in threads
      requires threads[current.value].pc in {User, JoinWoken(u)}
      modifies this
      ensures Snapshot() ==
        if JoinRefused(old(Snapshot()), u) then old(Snapshot()) else JoinRound(old(Snapshot()), u, pick)
      ensures rc == Some(EDEADLK) <==> u == old(current.value)
      ensures rc == Some(EINVAL) <==> u != old(current.value) && JoinRefused(old(Snapshot()), u)
      ensures rc == None <==> !JoinRefused(old(Snapshot()), u) && old(threads[u].pc) != Dead
      ensures rc == Some(SUCCESS) ==> (
        && u !in threads && current == old(current) && current.value in threads
        && threads[current.value].joined == Some(old(threads[u].retval)))
    {
      var self := current.value;
      if u == self {
        return Some(EDEADLK);
      }
      if threads[u].joiner.Some? && threads[u].joiner != Some(self) {
        return Some(EINVAL);
      }
      if threads[u].pc != Dead {
        ghost var s := Snapshot();
        assert JoinOk(s.threads, self);
        ParkLive(s, u);
        SetPc(self, Scheduling.Joining(u), Blocked);
        threads := threads[u := threads[u].(joiner := Some(self))];
        assert Snapshot() == Park(s, u);
        Schedule(pick);
        return None;
      }
      threads := threads[self := threads[self].(pc := User, joined := Some(threads[u].retval))] - {u};
      return Some(SUCCESS);
    }
  }

  // ---------------------------------------------------------------- the loop of wait_queue_wake_all

  ghost predicate WokenReady(s: Sched, q: Qid) {
    && Distinct(Queue(s, q))
    && forall t :: t in Queue(s, q) ==> t in s.threads && s.threads[t].pc.Waiting?
  }

  /** n waiters have been made ready, and m have been unlinked. */
  ghost function WokenFirst(s: Sched, q: Qid, n: nat, m: nat): (r: Sched)
    requires WokenReady(s, q) && n <= |Queue(s, q)| && m <= |Queue(s, q)|
  {
    var w := Queue(s, q);
    s.(queues := if m == 0 then s.queues else s.queues[q := w[m..]],
       runq := s.runq + w[..n],
       threads := map t | t in s.threads ::
         if t in w[..n] then s.threads[t].(pc := Woken(s.threads[t].pc.goal), state := Ready) else s.threads[t])
  }

  lemma WokenNone(s: Sched, q: Qid)
    requires QueuesOk(s)
    ensures WokenReady(s, q) && WokenFirst(s, q, 0, 0) == s
  {
    assert Distinct(Queue(s, q));
    assert s.runq + Queue(s, q)[..0] == s.runq;
  }

  lemma WokenUnlinked(s: Sched, q: Qid, n: nat)
    requires WokenReady(s, q) && n <= |Queue(s, q)|
    ensures var e := WokenFirst(s, q, n, n); var w := Queue(s, q);
      && Queue(e, q) == w[n..]
      && (n < |w| ==> e.(queues := e.queues[q := w[n..][1..]]) == WokenFirst(s, q, n, n + 1))
  {
    var w := Queue(s, q);
    if n < |w| {
      assert w[n..][1..] == w[n + 1..];
    }
  }

  lemma WokenNext(s: Sched, q: Qid, n: nat)
    requires WokenReady(s, q) && n < |Queue(s, q)|
    ensures var t := Queue(s, q)[n];
      && t in s.threads && WokenFirst(s, q, n, n + 1).threads[t] == s.threads[t]
      && WokenFirst(s, q, n + 1, n + 1) == Unblock(WokenFirst(s, q, n, n + 1), t, Woken(s.threads[t].pc.goal))
  {
    var w := Queue(s, q);
    var t := w[n];
    assert t in w;
    assert w[..n + 1] == w[..n] + [t];
    assert t !in w[..n];
    assert s.runq + w[..n + 1] == (s.runq + w[..n]) + [t];
    var u := Unblock(WokenFirst(s, q, n, n + 1), t, Woken(s.threads[t].pc.goal));
    assert WokenFirst(s, q, n + 1, n + 1).threads == u.threads;
  }

  lemma WokenEvery(s: Sched, q: Qid)
    requires WokenReady(s, q)
    ensures WokenFirst(s, q, |Queue(s, q)|, |Queue(s, q)|) == WakeAll(s, q)
  {
    var w := Queue(s, q);
    assert w[..|w|] == w && w[|w|..] == [];
    var e, r := WokenFirst(s, q, |w|, |w|), WakeAll(s, q);
    if w == [] {
      assert s.runq + w == s.runq;
    }
    forall t | t in s.threads
      ensures e.threads[t] == r.threads[t]
    {
    }
    assert e.threads == r.threads && e.queues == r.queues && e.runq == r.runq;
  }
}
