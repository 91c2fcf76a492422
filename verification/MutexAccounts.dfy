/** Mutexes over runs (src/mutex.c): who holds a mutex and how often, counted from the events. */
module MutexAccounts {
  import opened Scheduling
  import opened Sync
  import opened Runs
  import Mutexes

  predicate IsFree(u: Mutex) {
    u.lock == 0 && u.owner == None && u.holders == {}
  }

  predicate HeldBy(u: Mutex, t: Tid, n: int) {
    u.lock == 1 && u.owner == Some(t) && u.holders == {t} && u.depth == n
  }

  /** The event is a call to lock or to try to lock mutex m. */
  predicate Asks(op: Op, m: nat) {
    op == OnMutex(Lock(m)) || op == OnMutex(TryLock(m))
  }

  /** The event is such a call, or a woken waiter of mutex m that checks again. */
  ghost predicate Attempts(k: Kernel, ev: Event, m: nat)
    requires Inv(k) && Legal(k, ev)
  {
    Asks(ev.op, m) || (ev.op == Resume && PcOf(k, Self(k)) == Woken(GetMutex(m)))
  }

  /** The event is a wait with mutex m. */
  predicate WaitsWith(op: Op, m: nat) {
    op.OnCond? && op.cond.CondWait? && op.cond.m == m
  }

  /** What an event of thread self does to mutex m, before it u and after it v: an attempt takes it
      exactly when it is free; the owner of a RECURSIVE one counts up and down; the owner's last unlock
      and its wait free it; nothing that another thread does takes it from its owner. */
  predicate Moves(self: Tid, attempts: bool, op: Op, m: nat, u: Mutex, v: Mutex) {
    && v.kind == u.kind
    && (IsFree(u) ==> if attempts then HeldBy(v, self, 1) else IsFree(v))
    && (u.owner == Some(self) ==>
      if Asks(op, m) && u.kind == Recursive then HeldBy(v, self, u.depth + 1)
      else if op == OnMutex(Unlock(m)) && u.kind == Recursive && u.depth > 1 then HeldBy(v, self, u.depth - 1)
      else if op == OnMutex(Unlock(m)) || WaitsWith(op, m) then IsFree(v)
      else HeldBy(v, self, u.depth))
    && (u.owner.Some? && u.owner != Some(self) ==> HeldBy(v, u.owner.value, u.depth))
  }

  /** A mutex is free or held. */
  predicate Whole(u: Mutex) {
    if u.owner.Some? then HeldBy(u, u.owner.value, u.depth) && u.depth >= 1 else IsFree(u)
  }

  lemma FreeOrHeld(k: Kernel, m: nat)
    requires Inv(k) && m in k.mutexes
    ensures Whole(k.mutexes[m])
  {
    assert MutexAt(k.s, m, k.mutexes[m]);
  }

  /** Nothing happens to m. */
  lemma NoMove(self: Tid, op: Op, m: nat, u: Mutex)
    requires Whole(u) && !Asks(op, m) && op != OnMutex(Unlock(m)) && !WaitsWith(op, m)
    ensures Moves(self, false, op, m, u, u) && (!IsFree(u) ==> Moves(self, true, op, m, u, u))
  {
  }

  lemma LockMoves(k: Kernel, a: nat, pick: nat, m: nat)
    requires Live(k.s) && a in k.mutexes && m in k.mutexes && Whole(k.mutexes[m])
    ensures var r := Mutexes.Lock(k, a, pick);
      m in r.mutexes && Moves(Self(k), a == m, OnMutex(Lock(a)), m, k.mutexes[m], r.mutexes[m])
  {
  }

  lemma TryLockMoves(k: Kernel, a: nat, m: nat)
    requires Live(k.s) && a in k.mutexes && m in k.mutexes && Whole(k.mutexes[m])
    ensures var r := Mutexes.TryLock(k, a);
      m in r.mutexes && Moves(Self(k), a == m, OnMutex(TryLock(a)), m, k.mutexes[m], r.mutexes[m])
  {
  }

  lemma UnlockMoves(k: Kernel, a: nat, m: nat)
    requires Live(k.s) && a in k.mutexes && m in k.mutexes && Whole(k.mutexes[m]) && Mutexes.MayUnlock(k, a)
    ensures var r := Mutexes.Unlock(k, a);
      m in r.mutexes && Moves(Self(k), false, OnMutex(Unlock(a)), m, k.mutexes[m], r.mutexes[m])
  {
  }

  lemma WaitMoves(k: Kernel, c: nat, a: nat, pick: nat, m: nat)
    requires Live(k.s) && a in k.mutexes && m in k.mutexes && Whole(k.mutexes[m]) && Mutexes.MayWait(k, a)
    requires k.s.threads[Self(k)].pc == User
    ensures var r := Mutexes.CondWait(k, c, a, pick);
      m in r.mutexes && Moves(Self(k), false, OnCond(CondWait(c, a)), m, k.mutexes[m], r.mutexes[m])
  {
  }

  /** A woken waiter of mutex a checks again. */
  lemma TakeMoves(k: Kernel, a: nat, pick: nat, m: nat)
    requires Live(k.s) && a in k.mutexes && m in k.mutexes && Whole(k.mutexes[m])
    ensures var r := Mutexes.TakeMutex(k, a, pick);
      m in r.mutexes && Moves(Self(k), a == m, Resume, m, k.mutexes[m], r.mutexes[m])
  {
  }

  /** Going on with a call that does not seek a mutex. */
  lemma ResumeElsewhere(k: Kernel, pick: nat)
    requires Inv(k) && k.s.current.Some? && PcOf(k, Self(k)) != User
    requires !(PcOf(k, Self(k)).Woken? && PcOf(k, Self(k)).goal.GetMutex?)
    ensures StepResume(k, pick).mutexes == k.mutexes
  {
    ResumeKnown(k);
  }

  lemma ResumeIsTake(k: Kernel, pick: nat)
    requires Inv(k) && k.s.current.Some? && PcOf(k, Self(k)).Woken? && PcOf(k, Self(k)).goal.GetMutex?
    ensures var a := PcOf(k, Self(k)).goal.m; a in k.mutexes && StepResume(k, pick) == Mutexes.TakeMutex(k, a, pick)
  {
    ResumeKnown(k);
  }

  lemma ResumeMoves(k: Kernel, pick: nat, m: nat)
    requires Inv(k) && m in k.mutexes && k.s.current.Some? && PcOf(k, Self(k)) != User
    ensures var r := StepResume(k, pick);
      && m in r.mutexes
      && Moves(Self(k), PcOf(k, Self(k)) == Woken(GetMutex(m)), Resume, m, k.mutexes[m], r.mutexes[m])
  {
    FreeOrHeld(k, m);
    var pc := PcOf(k, Self(k));
    if pc.Woken? && pc.goal.GetMutex? {
      ResumeIsTake(k, pick);
      TakeMoves(k, pc.goal.m, pick, m);
    } else {
      ResumeElsewhere(k, pick);
      NoMove(Self(k), Resume, m, k.mutexes[m]);
    }
  }

  lemma Elsewhere(k: Kernel, ev: Event)
    requires Inv(k) && Legal(k, ev) && !ev.op.OnMutex? && !(ev.op.OnCond? && ev.op.cond.CondWait?) && ev.op != Resume
    ensures Step(k, ev).mutexes == k.mutexes
  {
  }

  lemma StepMoves(k: Kernel, ev: Event, m: nat)
    requires Inv(k) && Legal(k, ev) && m in k.mutexes
    ensures m in Step(k, ev).mutexes
    ensures Moves(Self(k), Attempts(k, ev, m), ev.op, m, k.mutexes[m], Step(k, ev).mutexes[m])
  {
    FreeOrHeld(k, m);
    match ev.op
    case OnMutex(_) => CallMoves(k, ev, m);
    case OnCond(CondWait(c, a)) => WaitMoves(k, c, a, ev.pick, m);
    case Resume => ResumeMoves(k, ev.pick, m);
    case _ => Elsewhere(k, ev); NoMove(Self(k), ev.op, m, k.mutexes[m]);
  }

  lemma CallMoves(k: Kernel, ev: Event, m: nat)
    requires Inv(k) && Legal(k, ev) && m in k.mutexes && ev.op.OnMutex?
    ensures m in MutexStep(k, ev).mutexes
    ensures Moves(Self(k), Attempts(k, ev, m), ev.op, m, k.mutexes[m], MutexStep(k, ev).mutexes[m])
  {
    FreeOrHeld(k, m);
    match ev.op.mutex
    case Lock(a) => LockMoves(k, a, ev.pick, m);
    case TryLock(a) => TryLockMoves(k, a, m);
    case Unlock(a) => UnlockMoves(k, a, m);
  }

  // ---------------------------------------------------------------- over runs

  /** The calls of thread t to lock or to try to lock mutex m in a run. */
  ghost function Locks(k: Kernel, es: seq<Event>, t: Tid, m: nat): (n: nat)
    requires Inv(k) && Allowed(k, es)
    decreases |es|
  {
    if es == [] then 0
    else
      StepInv(k, es[0]);
      (if Self(k) == t && Asks(es[0].op, m) then 1 else 0) + Locks(Step(k, es[0]), es[1..], t, m)
  }

  /** The calls of thread t to unlock it. */
  ghost function Unlocks(k: Kernel, es: seq<Event>, t: Tid, m: nat): (n: nat)
    requires Inv(k) && Allowed(k, es)
    decreases |es|
  {
    if es == [] then 0
    else
      StepInv(k, es[0]);
      (if Self(k) == t && es[0].op == OnMutex(Unlock(m)) then 1 else 0) + Unlocks(Step(k, es[0]), es[1..], t, m)
  }

  /** Thread t owns mutex m before and after every event of es. */
  ghost predicate OwnsThroughout(k: Kernel, es: seq<Event>, t: Tid, m: nat)
    requires Inv(k) && Allowed(k, es)
    decreases |es|
  {
    && m in k.mutexes && k.mutexes[m].owner == Some(t)
    && (es != [] ==> (StepInv(k, es[0]); OwnsThroughout(Step(k, es[0]), es[1..], t, m)))
  }

  /** Counting from n, the locks of t stay ahead of its unlocks along es, and t does not wait with m. */
  ghost predicate StaysAhead(k: Kernel, es: seq<Event>, t: Tid, m: nat, n: int)
    requires Inv(k) && Allowed(k, es)
    decreases |es|
  {
    && n > 0
    && (es != [] ==> (
      StepInv(k, es[0]);
      && !(Self(k) == t && WaitsWith(es[0].op, m))
      && StaysAhead(Step(k, es[0]), es[1..], t, m, Counted(n, k, es[0], t, m))))
  }

  /** The count n after the event. */
  function Counted(n: int, k: Kernel, ev: Event, t: Tid, m: nat): (r: int)
    requires k.s.current.Some?
  {
    if Self(k) != t then n else if Asks(ev.op, m) then n + 1 else if ev.op == OnMutex(Unlock(m)) then n - 1 else n
  }

  /** One event of a run in which t owns a RECURSIVE mutex: t stays the owner, with the count changed,
      exactly if the count stays positive and t does not wait with it. */
  lemma RecursiveMoves(k: Kernel, ev: Event, t: Tid, m: nat)
    requires Inv(k) && Legal(k, ev) && m in k.mutexes
    requires k.mutexes[m].kind == Recursive && k.mutexes[m].owner == Some(t)
    ensures var r, n := Step(k, ev), Counted(k.mutexes[m].depth, k, ev, t, m);
      && n >= 0 && m in r.mutexes && r.mutexes[m].kind == Recursive
      && (if n > 0 && !(Self(k) == t && WaitsWith(ev.op, m)) then HeldBy(r.mutexes[m], t, n) else IsFree(r.mutexes[m]))
  {
    StepMoves(k, ev, m);
    FreeOrHeld(k, m);
  }

  /** The same, seen from after the event. */
  lemma StillOwner(k: Kernel, ev: Event, r: Kernel, t: Tid, m: nat)
    requires Inv(k) && Legal(k, ev) && r == Step(k, ev) && m in k.mutexes
    requires k.mutexes[m].kind == Recursive && k.mutexes[m].owner == Some(t)
    ensures m in r.mutexes && r.mutexes[m].kind == Recursive && k.mutexes[m].depth > 0
    ensures r.mutexes[m].owner == Some(t) <==>
      Counted(k.mutexes[m].depth, k, ev, t, m) > 0 && !(Self(k) == t && WaitsWith(ev.op, m))
    ensures r.mutexes[m].owner == Some(t) ==> r.mutexes[m].depth == Counted(k.mutexes[m].depth, k, ev, t, m)
  {
    FreeOrHeld(k, m);
    RecursiveMoves(k, ev, t, m);
  }

  lemma {:induction false} AheadKeeps(k: Kernel, es: seq<Event>, t: Tid, m: nat)
    requires Inv(k) && Allowed(k, es)
    requires m in k.mutexes && k.mutexes[m].kind == Recursive && k.mutexes[m].owner == Some(t)
    requires StaysAhead(k, es, t, m, k.mutexes[m].depth)
    ensures OwnsThroughout(k, es, t, m)
    decreases |es|
  {
    if es != [] {
      StepInv(k, es[0]);
      var r := Step(k, es[0]);
      StillOwner(k, es[0], r, t, m);
      AheadKeeps(r, es[1..], t, m);
    }
  }

  lemma {:induction false} AheadCons(k: Kernel, es: seq<Event>, r: Kernel, t: Tid, m: nat, n: int, n': int)
    requires Inv(k) && Allowed(k, es) && es != [] && r == Step(k, es[0]) && Inv(r) && Allowed(r, es[1..])
    requires n > 0 && !(Self(k) == t && WaitsWith(es[0].op, m))
    requires StaysAhead(r, es[1..], t, m, n') && n' == Counted(n, k, es[0], t, m)
    ensures StaysAhead(k, es, t, m, n)
  {
  }

  lemma {:induction false} KeptIsAhead(k: Kernel, es: seq<Event>, t: Tid, m: nat)
    requires Inv(k) && Allowed(k, es)
    requires m in k.mutexes && k.mutexes[m].kind == Recursive && k.mutexes[m].owner == Some(t)
    requires OwnsThroughout(k, es, t, m)
    ensures StaysAhead(k, es, t, m, k.mutexes[m].depth)
    decreases |es|
  {
    FreeOrHeld(k, m);
    if es != [] {
      StepInv(k, es[0]);
      var r := Step(k, es[0]);
      StillOwner(k, es[0], r, t, m);
      KeptIsAhead(r, es[1..], t, m);
      AheadCons(k, es, r, t, m, k.mutexes[m].depth, r.mutexes[m].depth);
    }
  }

  lemma {:induction false} KeptCounts(k: Kernel, es: seq<Event>, t: Tid, m: nat)
    requires Inv(k) && Allowed(k, es)
    requires m in k.mutexes && k.mutexes[m].kind == Recursive && k.mutexes[m].owner == Some(t)
    requires OwnsThroughout(k, es, t, m)
    ensures m in Run(k, es).mutexes && Run(k, es).mutexes[m].kind == Recursive
    ensures HeldBy(Run(k, es).mutexes[m], t, k.mutexes[m].depth + Locks(k, es, t, m) - Unlocks(k, es, t, m))
    decreases |es|
  {
    FreeOrHeld(k, m);
    if es != [] {
      StepInv(k, es[0]);
      RecursiveMoves(k, es[0], t, m);
      KeptCounts(Step(k, es[0]), es[1..], t, m);
    }
  }

  /** A thread keeps a RECURSIVE mutex exactly as long as its locks stay ahead of its unlocks and it
      does not wait with it; meanwhile it is the only holder, and the recursion count is the number by
      which they are ahead. */
  lemma {:induction false} RecursiveBalance(k: Kernel, es: seq<Event>, t: Tid, m: nat)
    requires Inv(k) && Allowed(k, es)
    requires m in k.mutexes && k.mutexes[m].kind == Recursive && k.mutexes[m].owner == Some(t)
    ensures OwnsThroughout(k, es, t, m) <==> StaysAhead(k, es, t, m, k.mutexes[m].depth)
    ensures OwnsThroughout(k, es, t, m) ==> (
      && m in Run(k, es).mutexes && Run(k, es).mutexes[m].kind == Recursive
      && HeldBy(Run(k, es).mutexes[m], t, k.mutexes[m].depth + Locks(k, es, t, m) - Unlocks(k, es, t, m)))
  {
    if StaysAhead(k, es, t, m, k.mutexes[m].depth) {
      AheadKeeps(k, es, t, m);
    }
    if OwnsThroughout(k, es, t, m) {
      KeptIsAhead(k, es, t, m);
      KeptCounts(k, es, t, m);
    }
  }

  /** The same counted from the event by which t becomes the owner: its first success counts as one. */
  lemma {:induction false} BalanceSinceTaken(k: Kernel, ev: Event, es: seq<Event>, t: Tid, m: nat)
    requires Inv(k) && Legal(k, ev) && Self(k) == t && Attempts(k, ev, m)
    requires m in k.mutexes && k.mutexes[m].kind == Recursive && IsFree(k.mutexes[m])
    requires Inv(Step(k, ev)) && Allowed(Step(k, ev), es)
    ensures var r := Step(k, ev);
      && (OwnsThroughout(r, es, t, m) <==> StaysAhead(r, es, t, m, 1))
      && (OwnsThroughout(r, es, t, m) ==> (
        && m in Run(r, es).mutexes
        && HeldBy(Run(r, es).mutexes[m], t, 1 + Locks(r, es, t, m) - Unlocks(r, es, t, m))))
  {
    StepMoves(k, ev, m);
    RecursiveBalance(Step(k, ev), es, t, m);
  }

  /** The unlock that brings the count to 0 frees the mutex, and no other does. */
  lemma {:induction false} LastUnlockFrees(k: Kernel, es: seq<Event>, ev: Event, t: Tid, m: nat)
    requires Inv(k) && Allowed(k, es) && OwnsThroughout(k, es, t, m) && k.mutexes[m].kind == Recursive
    requires Legal(Run(k, es), ev) && Self(Run(k, es)) == t && ev.op == OnMutex(Unlock(m))
    ensures var r, n := Step(Run(k, es), ev), k.mutexes[m].depth + Locks(k, es, t, m) - Unlocks(k, es, t, m);
      && m in r.mutexes
      && (IsFree(r.mutexes[m]) <==> n == 1)
      && (n != 1 ==> HeldBy(r.mutexes[m], t, n - 1))
  {
    RecursiveBalance(k, es, t, m);
    StepMoves(Run(k, es), ev, m);
    FreeOrHeld(Run(k, es), m);
  }

  /** A mutex of any kind stays its owner's until an unlock or a wait of that owner. */
  lemma {:induction false} KeptUntilReleased(k: Kernel, es: seq<Event>, t: Tid, m: nat)
    requires Inv(k) && Allowed(k, es) && m in k.mutexes && k.mutexes[m].owner == Some(t)
    requires ReleasesNot(k, es, t, m)
    ensures OwnsThroughout(k, es, t, m) && m in Run(k, es).mutexes && Run(k, es).mutexes[m].holders == {t}
    decreases |es|
  {
    FreeOrHeld(k, m);
    if es != [] {
      StepInv(k, es[0]);
      StepMoves(k, es[0], m);
      KeptUntilReleased(Step(k, es[0]), es[1..], t, m);
    }
  }

  /** Thread t neither unlocks mutex m nor waits with it along es. */
  ghost predicate ReleasesNot(k: Kernel, es: seq<Event>, t: Tid, m: nat)
    requires Inv(k) && Allowed(k, es)
    decreases |es|
  {
    es != [] ==> (
      StepInv(k, es[0]);
      && !(Self(k) == t && (es[0].op == OnMutex(Unlock(m)) || WaitsWith(es[0].op, m)))
      && ReleasesNot(Step(k, es[0]), es[1..], t, m))
  }
}
