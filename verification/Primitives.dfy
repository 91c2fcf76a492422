/** The blocking objects as the code keeps them: fields changed in place around the scheduler.
    Each method is one step of the running thread, and returns None where the call blocks and has
    not returned yet. The ghost argument k is the whole library before the step; each method is
    proved to do exactly what the step functions over such values do. */
module Primitives {
  import opened Basics
  import opened Scheduling
  import opened Sync
  import opened Library
  import Mutexes
  import Semaphores
  import RwLocks

  class MutexObject {
    const id: nat
    const kind: Kind
    var lock: int
    var owner: Option<Tid>
    var depth: int
    ghost var holders: set<Tid>

    /** uthread_mutex_init. */
    constructor (id: nat, kind: Kind)
      ensures this.id == id && Value() == Mutex(kind, 0, None, 0, {})
    {
      this.id, this.kind := id, kind;
      lock, owner, depth, holders := 0, None, 0, {};
    }

    ghost function Value(): (u: Mutex)
      reads this
    {
      Mutex(kind, lock, owner, depth, holders)
    }

    /** The library k is what the scheduler and this mutex show. */
    ghost predicate Shown(s: Scheduler, k: Kernel)
      reads this, s
    {
      k.s == s.Snapshot() && Live(k.s) && id in k.mutexes && k.mutexes[id] == Value()
    }

    method Grant(self: Tid)
      modifies this`lock, this`owner, this`depth, this`holders
      ensures Value() == Mutexes.Granted(old(Value()), self)
    {
      lock, owner, depth, holders := 1, Some(self), 1, holders + {self};
    }

    /** One round of the loop of uthread_mutex_lock and uthread_cond_wait. */
    method Take(s: Scheduler, pick: nat, ghost k: Kernel) returns (rc: Option<int>)
      requires Shown(s, k)
      modifies this, s
      ensures PutMutex(k, s.Snapshot(), id, Value()) == Mutexes.TakeMutex(k, id, pick)
      ensures rc == if k.mutexes[id].lock == 0 then Some(SUCCESS) else None
      ensures rc == Some(SUCCESS) ==> s.current == k.s.current && lock == 1 && owner == s.current && depth == 1
      ensures rc == None ==> Value() == k.mutexes[id]
    {
      if lock != 0 {
        s.Block(MutexQ(id), GetMutex(id), pick);
        return None;
      }
      s.Return();
      Grant(s.current.value);
      return Some(SUCCESS);
    }

    /** uthread_mutex_lock. */
    method Lock(s: Scheduler, pick: nat, ghost k: Kernel) returns (rc: Option<int>)
      requires Shown(s, k)
      modifies this, s
      ensures PutMutex(k, s.Snapshot(), id, Value()) == Mutexes.Lock(k, id, pick)
      ensures rc == Some(EDEADLK) <==> k.mutexes[id].owner == k.s.current && kind == ErrorCheck
      ensures rc == Some(SUCCESS) ==> s.current == k.s.current && owner == s.current
      ensures kind == Recursive && k.mutexes[id].owner == k.s.current ==>
        rc == Some(SUCCESS) && depth == old(depth) + 1 && lock == old(lock)
      ensures rc == Some(SUCCESS) && k.mutexes[id].owner != k.s.current ==> old(lock) == 0 && lock == 1 && depth == 1
      ensures rc == None ==> k.mutexes[id].lock != 0 && Value() == k.mutexes[id]
    {
      if owner == s.current {
        if kind == Recursive {
          depth := depth + 1;
          return Some(SUCCESS);
        } else if kind == ErrorCheck {
          assert k.mutexes[id := k.mutexes[id]] == k.mutexes;
          return Some(EDEADLK);
        }
      }
      rc := Take(s, pick, k);
      assert Mutexes.Lock(k, id, pick) == Mutexes.TakeMutex(k, id, pick);
    }

    /** uthread_mutex_trylock. */
    method TryLock(s: Scheduler, ghost k: Kernel) returns (rc: int)
      requires Shown(s, k)
      modifies this
      ensures PutMutex(k, s.Snapshot(), id, Value()) == Mutexes.TryLock(k, id)
      ensures rc == SUCCESS ==> owner == s.current
      ensures kind == Recursive && k.mutexes[id].owner == k.s.current ==>
        rc == SUCCESS && depth == old(depth) + 1 && lock == old(lock)
      ensures rc == SUCCESS && k.mutexes[id].owner != k.s.current ==> old(lock) == 0 && lock == 1 && depth == 1
      ensures rc == EBUSY ==> Value() == k.mutexes[id] && (lock != 0 || (kind == ErrorCheck && owner == s.current))
      ensures rc == SUCCESS || rc == EBUSY
    {
      if owner == s.current {
        if kind == Recursive {
          depth := depth + 1;
          return SUCCESS;
        } else if kind == ErrorCheck {
          assert k.mutexes[id := k.mutexes[id]] == k.mutexes;
          return EBUSY;
        }
      }
      if lock == 0 {
        Grant(s.current.value);
        return SUCCESS;
      }
      assert k.mutexes[id := k.mutexes[id]] == k.mutexes;
      return EBUSY;
    }

    /** uthread_mutex_unlock. */
    method Unlock(s: Scheduler, ghost k: Kernel) returns (rc: int)
      requires Shown(s, k)
      modifies this, s
      ensures PutMutex(k, s.Snapshot(), id, Value()) == Mutexes.Unlock(k, id)
      ensures rc == EPERM <==> kind == ErrorCheck && k.mutexes[id].owner != k.s.current
      ensures rc != EPERM ==> rc == SUCCESS
      ensures rc == EPERM ==> Value() == old(Value())
      ensures rc == SUCCESS ==>
        if kind == Recursive && old(owner) == k.s.current && old(depth) > 1
        then lock == old(lock) && owner == old(owner) && depth == old(depth) - 1 && s.Snapshot() == k.s
        else lock == 0 && owner == None
      ensures s.current == k.s.current
    {
      if kind == ErrorCheck && owner != s.current {
        assert k.mutexes[id := k.mutexes[id]] == k.mutexes;
        return EPERM;
      }
      if kind == Recursive && owner == s.current {
        depth := depth - 1;
        if depth > 0 {
          return SUCCESS;
        }
      }
      lock, owner, depth, holders := 0, None, 0, holders - {s.current.value};
      WakeOneLive(k.s, MutexQ(id));
      s.WakeOne(MutexQ(id));
      return SUCCESS;
    }
  }

  class CondObject {
    const id: nat
    var signals: nat

    /** uthread_cond_init. */
    constructor (id: nat)
      ensures this.id == id && signals == 0
    {
      this.id, signals := id, 0;
    }

    /** uthread_cond_wait up to its first scheduler_schedule; MutexObject.Take does the rest. */
    method Wait(s: Scheduler, u: MutexObject, pick: nat, ghost k: Kernel)
      requires u.Shown(s, k) && k.s.threads[k.s.current.value].pc == User
      modifies s, u
      ensures PutMutex(k, s.Snapshot(), u.id, u.Value()) == Mutexes.CondWait(k, id, u.id, pick)
      ensures u.lock == 0 && u.owner == None && u.depth == old(u.depth)
    {
      Mutexes.CondWaitBase(k.s, id, u.id);
      Mutexes.LeaveIs(k.s, id, u.id);
      s.Enlist(CondQ(id), GetMutex(u.id));
      u.lock, u.owner, u.holders := 0, None, u.holders - {s.current.value};
      s.WakeOne(MutexQ(u.id));
      assert s.Snapshot() == Mutexes.Leave(k.s, id, u.id);
      s.Schedule(pick);
    }

    /** uthread_cond_signal: the longest waiter, if any, becomes ready. */
    method Signal(s: Scheduler, ghost k: Kernel)
      requires k.s == s.Snapshot() && Live(k.s)
      modifies this, s
      ensures k.(s := s.Snapshot()) == Mutexes.Signal(k, id) && signals == old(signals) + 1
      ensures s.runq == k.s.runq + Queue(k.s, CondQ(id))[..if Queue(k.s, CondQ(id)) == [] then 0 else 1]
    {
      signals := signals + 1;
      WakeOneLive(k.s, CondQ(id));
      s.WakeOne(CondQ(id));
    }

    /** uthread_cond_broadcast: every waiter becomes ready, longest first. */
    method Broadcast(s: Scheduler, ghost k: Kernel)
      requires k.s == s.Snapshot() && Live(k.s)
      modifies this, s
      ensures k.(s := s.Snapshot()) == Mutexes.Broadcast(k, id) && signals == old(signals) + 1
      ensures s.runq == k.s.runq + Queue(k.s, CondQ(id)) && Queue(s.Snapshot(), CondQ(id)) == []
    {
      signals := signals + 1;
      s.WakeAll(CondQ(id));
    }
  }

  class SemObject {
    const id: nat
    var value: int

    /** uthread_sem_init. */
    constructor (id: nat, value: int)
      ensures this.id == id && Value() == Sem(value)
    {
      this.id, this.value := id, value;
    }

    ghost function Value(): (u: Sem)
      reads this
    {
      Sem(value)
    }

    ghost predicate Shown(s: Scheduler, k: Kernel)
      reads this, s
    {
      k.s == s.Snapshot() && Live(k.s) && id in k.sems && k.sems[id] == Value()
    }

    /** One round of the loop of uthread_sem_wait. */
    method Wait(s: Scheduler, pick: nat, ghost k: Kernel) returns (rc: Option<int>)
      requires Shown(s, k)
      modifies this, s
      ensures PutSem(k, s.Snapshot(), id, Value()) == Semaphores.TakeSem(k, id, pick)
      ensures rc == if k.sems[id].value > 0 then Some(SUCCESS) else None
      ensures value == if rc == None then old(value) else old(value) - 1
    {
      if value <= 0 {
        s.Block(SemQ(id), GetSem(id), pick);
        return None;
      }
      value := value - 1;
      s.Return();
      return Some(SUCCESS);
    }

    /** uthread_sem_trywait. */
    method TryWait(s: Scheduler, ghost k: Kernel) returns (rc: int)
      requires Shown(s, k)
      modifies this
      ensures PutSem(k, s.Snapshot(), id, Value()) == Semaphores.TrySem(k, id)
      ensures rc == if k.sems[id].value > 0 then SUCCESS else EAGAIN
      ensures value == if rc == EAGAIN then old(value) else old(value) - 1
    {
      if value > 0 {
        value := value - 1;
        return SUCCESS;
      }
      assert k.sems[id := k.sems[id]] == k.sems;
      return EAGAIN;
    }

    /** uthread_sem_post. */
    method Post(s: Scheduler, ghost k: Kernel)
      requires Shown(s, k)
      modifies this, s
      ensures PutSem(k, s.Snapshot(), id, Value()) == Semaphores.Post(k, id)
      ensures value == old(value) + 1
    {
      value := value + 1;
      WakeOneLive(k.s, SemQ(id));
      s.WakeOne(SemQ(id));
    }
  }

  class RwObject {
    const id: nat
    var readers: int
    var writer: int
    var owner: Option<Tid>
    var pending: int
    ghost var readHolders: multiset<Tid>
    ghost var writeHolders: multiset<Tid>

    /** uthread_rwlock_init. */
    constructor (id: nat)
      ensures this.id == id && Value() == Rw(0, 0, None, 0, multiset{}, multiset{})
    {
      this.id := id;
      readers, writer, owner, pending := 0, 0, None, 0;
      readHolders, writeHolders := multiset{}, multiset{};
    }

    ghost function Value(): (u: Rw)
      reads this
    {
      Rw(readers, writer, owner, pending, readHolders, writeHolders)
    }

    ghost predicate Shown(s: Scheduler, k: Kernel)
      reads this, s
    {
      k.s == s.Snapshot() && Live(k.s) && id in k.rws && k.rws[id] == Value()
    }

    /** One round of the loop of uthread_rwlock_rdlock. */
    method TakeRead(s: Scheduler, pick: nat, ghost k: Kernel) returns (rc: Option<int>)
      requires Shown(s, k)
      modifies this, s
      ensures PutRw(k, s.Snapshot(), id, Value()) == RwLocks.TakeRead(k, id, pick)
      ensures rc == if RwLocks.ReadBlocked(k.rws[id]) then None else Some(SUCCESS)
      ensures if rc == None then Value() == old(Value()) else readers == old(readers) + 1 && writer == old(writer) == 0
    {
      if writer != 0 || pending > 0 {
        s.Block(ReadQ(id), GetRead(id), pick);
        return None;
      }
      readers, readHolders := readers + 1, readHolders + multiset{s.current.value};
      s.Return();
      return Some(SUCCESS);
    }

    /** uthread_rwlock_tryrdlock. */
    method TryRead(s: Scheduler, ghost k: Kernel) returns (rc: int)
      requires Shown(s, k)
      modifies this
      ensures PutRw(k, s.Snapshot(), id, Value()) == RwLocks.TryRead(k, id)
      ensures rc == if RwLocks.ReadBlocked(k.rws[id]) then EBUSY else SUCCESS
      ensures if rc == EBUSY then Value() == old(Value()) else readers == old(readers) + 1 && writer == old(writer) == 0
    {
      if writer != 0 || pending > 0 {
        assert k.rws[id := k.rws[id]] == k.rws;
        return EBUSY;
      }
      readers, readHolders := readers + 1, readHolders + multiset{s.current.value};
      return SUCCESS;
    }

    /** One round of the loop of uthread_rwlock_wrlock. */
    method TakeWrite(s: Scheduler, pick: nat, ghost k: Kernel) returns (rc: Option<int>)
      requires k.s == s.Snapshot() && Live(k.s)
      modifies this, s
      ensures PutRw(k, s.Snapshot(), id, Value()) == RwLocks.TakeWrite(k, id, old(Value()), pick)
      ensures rc == if RwLocks.WriteBlocked(old(Value())) then None else Some(SUCCESS)
      ensures if rc == None then Value() == old(Value())
              else writer == 1 && owner == k.s.current && readers == old(readers) <= 0 && pending == old(pending) - 1
    {
      if readers > 0 || writer != 0 {
        s.Block(WriteQ(id), GetWrite(id), pick);
        return None;
      }
      pending := pending - 1;
      writer, owner, writeHolders := 1, s.current, writeHolders + multiset{s.current.value};
      s.Return();
      return Some(SUCCESS);
    }

    /** uthread_rwlock_wrlock from its start. */
    method WrLock(s: Scheduler, pick: nat, ghost k: Kernel) returns (rc: Option<int>)
      requires Shown(s, k)
      modifies this, s
      ensures PutRw(k, s.Snapshot(), id, Value()) == RwLocks.WrLock(k, id, pick)
      ensures rc == if RwLocks.WriteBlocked(k.rws[id]) then None else Some(SUCCESS)
      ensures if rc == None then writer == old(writer) && owner == old(owner) && pending == old(pending) + 1
              else writer == 1 && owner == k.s.current && pending == old(pending)
      ensures readers == old(readers)
    {
      pending := pending + 1;
      rc := TakeWrite(s, pick, k);
    }

    /** uthread_rwlock_trywrlock. */
    method TryWrite(s: Scheduler, ghost k: Kernel) returns (rc: int)
      requires Shown(s, k)
      modifies this
      ensures PutRw(k, s.Snapshot(), id, Value()) == RwLocks.TryWrite(k, id)
      ensures rc == if RwLocks.WriteBlocked(k.rws[id]) then EBUSY else SUCCESS
      ensures if rc == EBUSY then Value() == old(Value())
              else writer == 1 && owner == k.s.current && readers == old(readers) <= 0 && pending == old(pending)
    {
      if readers > 0 || writer != 0 {
        assert k.rws[id := k.rws[id]] == k.rws;
        return EBUSY;
      }
      writer, owner, writeHolders := 1, s.current, writeHolders + multiset{s.current.value};
      return SUCCESS;
    }

    method ReleaseWrite(s: Scheduler, ghost k: Kernel)
      requires Shown(s, k)
      modifies this, s
      ensures s.Snapshot() == RwLocks.PassOn(k.s, id)
      ensures Value() == RwLocks.DoneWriting(k.rws[id], k.s.current.value)
    {
      writer, owner, writeHolders := 0, None, writeHolders - multiset{s.current.value};
      PassOn(s);
    }

    /** One waiting writer is woken, or all waiting readers. */
    method PassOn(s: Scheduler)
      requires Live(s.Snapshot())
      modifies s
      ensures s.Snapshot() == RwLocks.PassOn(old(s.Snapshot()), id)
    {
      WakeOneLive(s.Snapshot(), WriteQ(id));
      if s.Waiters(WriteQ(id)) != [] {
        s.WakeOne(WriteQ(id));
      } else {
        s.WakeAll(ReadQ(id));
      }
    }

    method ReleaseRead(s: Scheduler, ghost k: Kernel)
      requires Shown(s, k)
      modifies this, s
      ensures s.Snapshot() == RwLocks.LastOut(k.s, id, k.rws[id].readers - 1)
      ensures Value() == RwLocks.DoneReading(k.rws[id], k.s.current.value)
    {
      readers, readHolders := readers - 1, readHolders - multiset{s.current.value};
      if readers == 0 && s.Waiters(WriteQ(id)) != [] {
        WakeOneLive(k.s, WriteQ(id));
        s.WakeOne(WriteQ(id));
      }
    }

    /** uthread_rwlock_unlock. */
    method Unlock(s: Scheduler, ghost k: Kernel) returns (rc: int)
      requires Shown(s, k)
      modifies this, s
      ensures PutRw(k, s.Snapshot(), id, Value()) == RwLocks.RwUnlock(k, id)
      ensures rc == EPERM <==> if k.rws[id].writer != 0 then k.rws[id].owner != k.s.current else k.rws[id].readers <= 0
      ensures rc != EPERM ==> rc == SUCCESS
      ensures if rc == EPERM then Value() == old(Value())
              else if old(writer) != 0 then writer == 0 && owner == None && readers == old(readers)
              else readers == old(readers) - 1 && writer == 0
    {
      if writer != 0 {
        if owner != s.current {
          assert k.rws[id := k.rws[id]] == k.rws;
          return EPERM;
        }
        ReleaseWrite(s, k);
      } else if readers > 0 {
        ReleaseRead(s, k);
      } else {
        assert k.rws[id := k.rws[id]] == k.rws;
        return EPERM;
      }
      return SUCCESS;
    }
  }
}
