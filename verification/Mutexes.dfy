/** Mutexes and condition variables (src/mutex.c, src/condvar.c). One step is what the running
    thread does up to its next scheduler_schedule, with preemption disabled. */
module Mutexes {
  import opened Scheduling
  import opened Sync

  function Granted(u: Mutex, self: Tid): (r: Mutex) {
    u.(lock := 1, owner := Some(self), depth := 1, holders := u.holders + {self})
  }

  function Deeper(u: Mutex): (r: Mutex) {
    u.(depth := u.depth + 1)
  }

  function Released(u: Mutex, self: Tid): (r: Mutex) {
    u.(lock := 0, owner := None, depth := 0, holders := u.holders - {self})
  }

  /** The loop of uthread_mutex_lock, and of uthread_cond_wait after it is woken. */
  ghost function TakeMutex(k: Kernel, m: nat, pick: nat): (r: Kernel)
    requires Live(k.s) && m in k.mutexes
    ensures r.sems == k.sems && r.rws == k.rws
  {
    var u := k.mutexes[m];
    if u.lock != 0 then PutMutex(k, Block(k.s, MutexQ(m), GetMutex(m), pick), m, u)
    else PutMutex(k, Return(k.s), m, Granted(u, k.s.current.value))
  }

  /** uthread_mutex_lock. */
  ghost function Lock(k: Kernel, m: nat, pick: nat): (r: Kernel)
    requires Live(k.s) && m in k.mutexes
    ensures r.sems == k.sems && r.rws == k.rws
  {
    var u := k.mutexes[m];
    if u.owner == k.s.current && u.kind == Recursive then PutMutex(k, k.s, m, Deeper(u))
    else if u.owner == k.s.current && u.kind == ErrorCheck then k
    else TakeMutex(k, m, pick)
  }

  /** uthread_mutex_trylock. */
  ghost function TryLock(k: Kernel, m: nat): (r: Kernel)
    requires Live(k.s) && m in k.mutexes
    ensures r.sems == k.sems && r.rws == k.rws
    ensures r.s == k.s
  {
    var u := k.mutexes[m];
    if u.owner == k.s.current && u.kind == Recursive then PutMutex(k, k.s, m, Deeper(u))
    else if u.owner == k.s.current && u.kind == ErrorCheck then k
    else if u.lock == 0 then PutMutex(k, k.s, m, Granted(u, k.s.current.value))
    else k
  }

  /** uthread_mutex_unlock. */
  ghost function Unlock(k: Kernel, m: nat): (r: Kernel)
    requires Live(k.s) && m in k.mutexes
    ensures r.sems == k.sems && r.rws == k.rws
  {
    var u := k.mutexes[m];
    if u.kind == ErrorCheck && u.owner != k.s.current then k
    else if u.kind == Recursive && u.owner == k.s.current && u.depth - 1 > 0 then
      PutMutex(k, k.s, m, u.(depth := u.depth - 1))
    else
      WakeOneLive(k.s, MutexQ(m));
      PutMutex(k, WakeOne(k.s, MutexQ(m)), m, Released(u, k.s.current.value))
  }

  lemma TakeMutexInv(k: Kernel, m: nat, pick: nat)
    requires Inv(k) && Tries(k.s, GetMutex(m)) && m in k.mutexes
    ensures Inv(TakeMutex(k, m, pick))
  {
    var g, u := GetMutex(m), k.mutexes[m];
    assert MutexAt(k.s, m, u);
    if u.lock != 0 {
      BlockLive(k.s, MutexQ(m), g, pick);
      BlockSame(k.s, MutexQ(m), g, pick);
      MutexChange(k, Block(k.s, MutexQ(m), g, pick), m, u);
    } else {
      ReturnLive(k.s);
      ReturnSame(k.s, g);
      MutexChange(k, Return(k.s), m, Granted(u, k.s.current.value));
    }
  }

  /** A change of the mutex alone. */
  lemma MutexAlone(k: Kernel, m: nat, u: Mutex)
    requires Inv(k) && m in k.mutexes
    requires MutexAt(k.s, m, k.mutexes[m]) ==> MutexAt(k.s, m, u)
    ensures Inv(PutMutex(k, k.s, m, u))
  {
    SameSched(k.s, MutexObj(m));
    MutexChange(k, k.s, m, u);
  }

  lemma LockInv(k: Kernel, m: nat, pick: nat)
    requires Inv(k) && Tries(k.s, GetMutex(m)) && m in k.mutexes
    ensures Inv(Lock(k, m, pick))
  {
    var u := k.mutexes[m];
    if u.owner == k.s.current && u.kind == Recursive {
      MutexAlone(k, m, Deeper(u));
    } else if !(u.owner == k.s.current && u.kind == ErrorCheck) {
      TakeMutexInv(k, m, pick);
    }
  }

  lemma TryLockInv(k: Kernel, m: nat)
    requires Inv(k) && Live(k.s) && m in k.mutexes
    ensures Inv(TryLock(k, m))
  {
    var u := k.mutexes[m];
    if u.owner == k.s.current && u.kind == Recursive {
      MutexAlone(k, m, Deeper(u));
    } else if !(u.owner == k.s.current && u.kind == ErrorCheck) && u.lock == 0 {
      MutexAlone(k, m, Granted(u, k.s.current.value));
    }
  }

  /** The calls to unlock that the owner makes, that the code refuses, or that find the mutex free. */
  predicate MayUnlock(k: Kernel, m: nat)
    requires m in k.mutexes
  {
    k.mutexes[m].owner == k.s.current || k.mutexes[m].kind == ErrorCheck || k.mutexes[m].lock == 0
  }

  lemma ReleaseInv(k: Kernel, m: nat)
    requires Inv(k) && Live(k.s) && m in k.mutexes && (k.mutexes[m].owner == k.s.current || k.mutexes[m].lock == 0)
    ensures HeadWaits(k.s, MutexQ(m))
    ensures Inv(PutMutex(k, WakeOne(k.s, MutexQ(m)), m, Released(k.mutexes[m], k.s.current.value)))
  {
    var u := k.mutexes[m];
    assert MutexAt(k.s, m, u);
    WakeOneLive(k.s, MutexQ(m));
    WakeOneSame(k.s, MutexQ(m), GetMutex(m));
    WakeOneEffect(k.s, MutexQ(m), GetMutex(m));
    MutexChange(k, WakeOne(k.s, MutexQ(m)), m, Released(u, k.s.current.value));
  }

  /** An unlock keeps the invariant exactly when it is not a stray release of someone else's lock. */
  lemma UnlockInvIff(k: Kernel, m: nat)
    requires Inv(k) && Live(k.s) && m in k.mutexes
    ensures Inv(Unlock(k, m)) <==> MayUnlock(k, m)
  {
    var u := k.mutexes[m];
    assert MutexAt(k.s, m, u);
    if !MayUnlock(k, m) {
      assert u.owner.value in Unlock(k, m).mutexes[m].holders;
      assert !MutexAt(Unlock(k, m).s, m, Unlock(k, m).mutexes[m]);
    } else if u.kind == ErrorCheck && u.owner != k.s.current {
    } else if u.kind == Recursive && u.owner == k.s.current && u.depth - 1 > 0 {
      MutexAlone(k, m, u.(depth := u.depth - 1));
    } else {
      ReleaseInv(k, m);
    }
  }

  // ---------------------------------------------------------------- condition variables

  /** uthread_cond_wait up to its first scheduler_schedule: queue, release, wake, switch. The
      recursion count is left alone. */
  ghost function CondWait(k: Kernel, c: nat, m: nat, pick: nat): (r: Kernel)
    requires Live(k.s) && m in k.mutexes && k.s.threads[k.s.current.value].pc == User
    ensures r.sems == k.sems && r.rws == k.rws
  {
    CondWaitBase(k.s, c, m);
    PutMutex(k, Schedule(Leave(k.s, c, m), pick), m, Vacated(k.mutexes[m], k.s.current.value))
  }

  function Vacated(u: Mutex, self: Tid): (r: Mutex) {
    u.(lock := 0, owner := None, holders := u.holders - {self})
  }

  /** The waiter is queued, and the next owner of the mutex woken. */
  ghost function Leave(s: Sched, c: nat, m: nat): (r: Sched)
    requires Live(s) && s.threads[s.current.value].pc == User
  {
    EnlistBase(s, CondQ(c), GetMutex(m));
    HeadOk(Enlist(s, s.current.value, CondQ(c), GetMutex(m)), MutexQ(m));
    WakeOne(Enlist(s, s.current.value, CondQ(c), GetMutex(m)), MutexQ(m))
  }

  lemma HeadOk(s: Sched, q: Qid)
    requires QueuesOk(s)
    ensures HeadWaits(s, q)
  {
    if Queue(s, q) != [] {
      assert Queue(s, q)[0] in Queue(s, q);
    }
  }

  lemma LeaveIs(s: Sched, c: nat, m: nat)
    requires Live(s) && s.threads[s.current.value].pc == User
    ensures var e := Enlist(s, s.current.value, CondQ(c), GetMutex(m));
      HeadWaits(e, MutexQ(m)) && WakeOne(e, MutexQ(m)) == Leave(s, c, m)
  {
    EnlistBase(s, CondQ(c), GetMutex(m));
    HeadOk(Enlist(s, s.current.value, CondQ(c), GetMutex(m)), MutexQ(m));
  }

  lemma CondWaitBase(s: Sched, c: nat, m: nat)
    requires Live(s) && s.threads[s.current.value].pc == User
    ensures Base(Leave(s, c, m)) && CurrentParked(Leave(s, c, m))
  {
    EnlistBase(s, CondQ(c), GetMutex(m));
    var e := Enlist(s, s.current.value, CondQ(c), GetMutex(m));
    var q := MutexQ(m);
    if Queue(e, q) != [] {
      assert Queue(e, q)[0] in Queue(e, q);
    }
    WakeOneBase(e, q);
  }

  /** uthread_cond_signal. */
  ghost function Signal(k: Kernel, c: nat): (r: Kernel)
    requires Live(k.s)
    ensures r.mutexes == k.mutexes && r.sems == k.sems && r.rws == k.rws
  {
    WakeOneLive(k.s, CondQ(c));
    k.(s := WakeOne(k.s, CondQ(c)))
  }

  /** uthread_cond_broadcast. */
  ghost function Broadcast(k: Kernel, c: nat): (r: Kernel)
    requires Live(k.s)
    ensures r.mutexes == k.mutexes && r.sems == k.sems && r.rws == k.rws
  {
    k.(s := WakeAll(k.s, CondQ(c)))
  }

  /** The waiter owns the mutex, or nobody does. */
  predicate MayWait(k: Kernel, m: nat)
    requires m in k.mutexes
  {
    k.mutexes[m].owner == k.s.current || k.mutexes[m].lock == 0
  }

  lemma LeaveEffect(s: Sched, c: nat, m: nat, g': Goal)
    requires Live(s) && s.threads[s.current.value].pc == User
    ensures var r := Leave(s, c, m);
      && (g' != GetMutex(m) ==> Woke(r, g') == Woke(s, g') && Seekers(r, g') == Seekers(s, g'))
      && (g' == GetMutex(m) && Queue(s, MutexQ(m)) != [] ==> Woke(r, g') != {})
      && (forall q :: q != MutexQ(m) && q != CondQ(c) ==> Queue(r, q) == Queue(s, q))
      && (Queue(s, MutexQ(m)) == [] ==> Queue(r, MutexQ(m)) == [])
  {
    var q, g := MutexQ(m), GetMutex(m);
    EnlistBase(s, CondQ(c), g);
    var e := Enlist(s, s.current.value, CondQ(c), g);
    assert Queue(e, q) == Queue(s, q);
    EnlistEffect(s, CondQ(c), g, g');
    WakeOneEffect(e, q, g');
  }

  lemma CondWaitSame(s: Sched, c: nat, m: nat, pick: nat)
    requires Live(s) && s.threads[s.current.value].pc == User
    ensures Sane(Leave(s, c, m))
    ensures var r := Schedule(Leave(s, c, m), pick);
      && SameBut(s, r, MutexObj(m))
      && (Queue(s, MutexQ(m)) != [] ==> Woke(r, GetMutex(m)) != {})
      && (Queue(s, MutexQ(m)) == [] ==> Queue(r, MutexQ(m)) == [])
  {
    CondWaitBase(s, c, m);
    var f := Leave(s, c, m);
    var r := Schedule(f, pick);
    forall g' | About(g') != MutexObj(m)
      ensures Woke(r, g') == Woke(s, g') && Seekers(r, g') == Seekers(s, g')
    {
      LeaveEffect(s, c, m, g');
      ScheduleEffect(f, pick, g');
    }
    LeaveEffect(s, c, m, GetMutex(m));
    ScheduleEffect(f, pick, GetMutex(m));
  }

  /** A wait keeps the invariant exactly when it does not release someone else's lock. */
  lemma CondWaitInvIff(k: Kernel, c: nat, m: nat, pick: nat)
    requires Inv(k) && Live(k.s) && m in k.mutexes && k.s.threads[k.s.current.value].pc == User
    ensures Inv(CondWait(k, c, m, pick)) <==> MayWait(k, m)
  {
    var u := k.mutexes[m];
    assert MutexAt(k.s, m, u);
    CondWaitBase(k.s, c, m);
    var r := CondWait(k, c, m, pick);
    if MayWait(k, m) {
      ScheduleBase(Leave(k.s, c, m), pick);
      CondWaitSame(k.s, c, m, pick);
      MutexChange(k, r.s, m, Vacated(u, k.s.current.value));
    } else {
      assert u.owner.value in r.mutexes[m].holders;
      assert !MutexAt(r.s, m, r.mutexes[m]);
    }
  }

  /** The longest waiter on a condition variable will take some existing mutex. */
  lemma HeadGoal(k: Kernel, c: nat)
    requires Inv(k) && Queue(k.s, CondQ(c)) != []
    ensures var t := Queue(k.s, CondQ(c))[0];
      && t in k.s.threads && k.s.threads[t].pc.Waiting?
      && k.s.threads[t].pc.goal.GetMutex? && k.s.threads[t].pc.goal.m in k.mutexes
  {
    var t := Queue(k.s, CondQ(c))[0];
    assert t in Queue(k.s, CondQ(c));
    var g := k.s.threads[t].pc.goal;
    assert t in Seekers(k.s, g);
    assert Exists(k, About(g));
  }

  lemma SignalChange(k: Kernel, c: nat, m: nat)
    requires Inv(k) && Queue(k.s, CondQ(c)) != [] && m in k.mutexes
    requires HeadWaits(k.s, CondQ(c)) && k.s.threads[Queue(k.s, CondQ(c))[0]].pc.goal == GetMutex(m)
    ensures ObjectsOk(PutMutex(k, WakeOne(k.s, CondQ(c)), m, k.mutexes[m]))
  {
    var q, s, u := CondQ(c), k.s, k.mutexes[m];
    assert MutexAt(s, m, u);
    WakeOneEffect(s, q, GetMutex(m));
    WakeOneSame(s, q, GetMutex(m));
    MutexChange(k, WakeOne(s, q), m, u);
  }

  lemma SignalInv(k: Kernel, c: nat)
    requires Inv(k) && Live(k.s)
    ensures Inv(Signal(k, c))
  {
    var q, s := CondQ(c), k.s;
    WakeOneLive(s, q);
    if Queue(s, q) != [] {
      HeadGoal(k, c);
      var m := s.threads[Queue(s, q)[0]].pc.goal.m;
      SignalChange(k, c, m);
      assert k.mutexes[m := k.mutexes[m]] == k.mutexes;
    }
  }

  lemma BroadcastInv(k: Kernel, c: nat)
    requires Inv(k) && Live(k.s)
    ensures Inv(Broadcast(k, c))
  {
    var q := CondQ(c);
    var r := Broadcast(k, c);
    WakeAllLive(k.s, q);
    forall g
      ensures Seekers(r.s, g) == Seekers(k.s, g)
    {
      WakeAllEffect(k.s, q, g);
    }
    forall m | m in k.mutexes
      ensures MutexAt(r.s, m, r.mutexes[m])
    {
      assert MutexAt(k.s, m, k.mutexes[m]);
      WakeAllEffect(k.s, q, GetMutex(m));
    }
    forall e | e in k.sems
      ensures SemAt(r.s, e, r.sems[e])
    {
      assert SemAt(k.s, e, k.sems[e]);
      WakeAllEffect(k.s, q, GetSem(e));
    }
    forall w | w in k.rws
      ensures RwAt(r.s, w, r.rws[w])
    {
      assert RwAt(k.s, w, k.rws[w]);
      WakeAllRw(k.s, c, w, k.rws[w]);
    }
  }

  lemma WakeAllRw(s: Sched, c: nat, w: nat, u: Rw)
    requires QueuesOk(s) && RwAt(s, w, u)
    ensures RwAt(WakeAll(s, CondQ(c)), w, u)
  {
    WakeAllEffect(s, CondQ(c), GetWrite(w));
  }

  // ---------------------------------------------------------------- what the calls leave alone

  lemma TakeMutexFrame(k: Kernel, m: nat, pick: nat)
    requires Live(k.s) && m in k.mutexes
    ensures Calm(k.s, TakeMutex(k, m, pick).s, k.s.current.value)
  {
    BlockFrame(k.s, MutexQ(m), GetMutex(m), pick);
    ReturnFrame(k.s);
  }

  lemma LockFrame(k: Kernel, m: nat, pick: nat)
    requires Live(k.s) && m in k.mutexes
    ensures Calm(k.s, Lock(k, m, pick).s, k.s.current.value)
  {
    TakeMutexFrame(k, m, pick);
  }

  lemma TryLockFrame(k: Kernel, m: nat)
    requires Live(k.s) && m in k.mutexes
    ensures Calm(k.s, TryLock(k, m).s, k.s.current.value)
  {
  }

  lemma UnlockFrame(k: Kernel, m: nat)
    requires Live(k.s) && m in k.mutexes
    ensures Calm(k.s, Unlock(k, m).s, k.s.current.value)
  {
    WakeOneLive(k.s, MutexQ(m));
    WakeOneFrame(k.s, MutexQ(m), k.s.current.value);
  }

  lemma LeaveFrame(s: Sched, c: nat, m: nat)
    requires Live(s) && s.threads[s.current.value].pc == User
    ensures Frame(s, Leave(s, c, m), s.current.value) && Leave(s, c, m).current == s.current
    ensures forall d :: d != c ==> Queue(Leave(s, c, m), CondQ(d)) == Queue(s, CondQ(d))
    ensures Queue(Leave(s, c, m), CondQ(c)) == Queue(s, CondQ(c)) + [s.current.value]
  {
    EnlistBase(s, CondQ(c), GetMutex(m));
    var e := Enlist(s, s.current.value, CondQ(c), GetMutex(m));
    HeadOk(e, MutexQ(m));
    WakeOneFrame(e, MutexQ(m), s.current.value);
  }

  lemma FrameTrans(s: Sched, e: Sched, r: Sched, self: Tid)
    requires Frame(s, e, self) && Frame(e, r, self)
    ensures Frame(s, r, self)
  {
  }

  lemma CondWaitFrame(k: Kernel, c: nat, m: nat, pick: nat)
    requires Live(k.s) && m in k.mutexes && k.s.threads[k.s.current.value].pc == User
    ensures Frame(k.s, CondWait(k, c, m, pick).s, k.s.current.value)
    ensures forall d :: d != c ==> Queue(CondWait(k, c, m, pick).s, CondQ(d)) == Queue(k.s, CondQ(d))
    ensures Queue(CondWait(k, c, m, pick).s, CondQ(c)) == Queue(k.s, CondQ(c)) + [k.s.current.value]
  {
    LeaveFrame(k.s, c, m);
    CondWaitBase(k.s, c, m);
    var e := Leave(k.s, c, m);
    ScheduleFrame(e, pick);
    FrameTrans(k.s, e, Schedule(e, pick), k.s.current.value);
  }
}
