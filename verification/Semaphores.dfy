/** Semaphores (src/semaphore.c). */
module Semaphores {
  import opened Basics
  import opened Scheduling
  import opened Sync

  function Taken(u: Sem): (r: Sem) {
    u.(value := u.value - 1)
  }

  function Posted(u: Sem): (r: Sem) {
    u.(value := u.value + 1)
  }

  /** One round of the loop of uthread_sem_wait. */
  ghost function TakeSem(k: Kernel, e: nat, pick: nat): (r: Kernel)
    requires Live(k.s) && e in k.sems
    ensures r.mutexes == k.mutexes && r.rws == k.rws
  {
    var u := k.sems[e];
    if u.value <= 0 then PutSem(k, Block(k.s, SemQ(e), GetSem(e), pick), e, u)
    else PutSem(k, Return(k.s), e, Taken(u))
  }

  /** uthread_sem_trywait. */
  ghost function TrySem(k: Kernel, e: nat): (r: Kernel)
    requires Live(k.s) && e in k.sems
    ensures r.mutexes == k.mutexes && r.rws == k.rws
    ensures r.s == k.s
  {
    var u := k.sems[e];
    if u.value > 0 then PutSem(k, k.s, e, Taken(u)) else k
  }

  /** uthread_sem_post. */
  ghost function Post(k: Kernel, e: nat): (r: Kernel)
    requires Live(k.s) && e in k.sems
    ensures r.mutexes == k.mutexes && r.rws == k.rws
  {
    WakeOneLive(k.s, SemQ(e));
    PutSem(k, WakeOne(k.s, SemQ(e)), e, Posted(k.sems[e]))
  }

  lemma SetMinus(s: set<Tid>, t: Tid)
    ensures |s - {t}| == if t in s then |s| - 1 else |s|
  {
    if t in s {
      assert s == (s - {t}) + {t};
    } else {
      assert s - {t} == s;
    }
  }

  lemma SemBlocks(k: Kernel, e: nat, pick: nat)
    requires Inv(k) && Tries(k.s, GetSem(e)) && e in k.sems && k.sems[e].value <= 0
    ensures Inv(PutSem(k, Block(k.s, SemQ(e), GetSem(e), pick), e, k.sems[e]))
  {
    var g, u := GetSem(e), k.sems[e];
    assert SemAt(k.s, e, u);
    BlockLive(k.s, SemQ(e), g, pick);
    BlockSame(k.s, SemQ(e), g, pick);
    BlockEffect(k.s, SemQ(e), g, pick, g);
    SemChange(k, Block(k.s, SemQ(e), g, pick), e, u);
  }

  /** Taking one unit uses up at most one woken thread. */
  lemma SemAcquires(k: Kernel, e: nat)
    requires Inv(k) && Tries(k.s, GetSem(e)) && e in k.sems && k.sems[e].value > 0
    ensures Inv(PutSem(k, Return(k.s), e, Taken(k.sems[e])))
  {
    var g, u := GetSem(e), k.sems[e];
    assert SemAt(k.s, e, u);
    ReturnLive(k.s);
    ReturnSame(k.s, g);
    ReturnEffect(k.s, g, g);
    SetMinus(Woke(k.s, g), k.s.current.value);
    SemChange(k, Return(k.s), e, Taken(u));
  }

  lemma TakeSemInv(k: Kernel, e: nat, pick: nat)
    requires Inv(k) && Tries(k.s, GetSem(e)) && e in k.sems
    ensures Inv(TakeSem(k, e, pick))
  {
    if k.sems[e].value <= 0 {
      SemBlocks(k, e, pick);
    } else {
      SemAcquires(k, e);
    }
  }

  lemma TrySemInv(k: Kernel, e: nat)
    requires Inv(k) && Live(k.s) && e in k.sems
    ensures Inv(TrySem(k, e))
  {
    var u := k.sems[e];
    assert SemAt(k.s, e, u);
    if u.value > 0 {
      SameSched(k.s, SemObj(e));
      SemChange(k, k.s, e, Taken(u));
    }
  }

  /** A post keeps the invariant exactly when the value has room in the code's int. */
  lemma PostInvIff(k: Kernel, e: nat)
    requires Inv(k) && Live(k.s) && e in k.sems
    ensures Inv(Post(k, e)) <==> k.sems[e].value < INT_MAX
  {
    var g, u, q := GetSem(e), k.sems[e], SemQ(e);
    assert SemAt(k.s, e, u);
    WakeOneLive(k.s, q);
    if u.value < INT_MAX {
      WakeOneSame(k.s, q, g);
      WakeOneEffect(k.s, q, g);
      SemChange(k, WakeOne(k.s, q), e, Posted(u));
    } else {
      assert !SemAt(Post(k, e).s, e, Post(k, e).sems[e]);
    }
  }

  lemma TakeSemFrame(k: Kernel, e: nat, pick: nat)
    requires Live(k.s) && e in k.sems
    ensures Calm(k.s, TakeSem(k, e, pick).s, k.s.current.value)
  {
    BlockFrame(k.s, SemQ(e), GetSem(e), pick);
    ReturnFrame(k.s);
  }

  lemma TrySemFrame(k: Kernel, e: nat)
    requires Live(k.s) && e in k.sems
    ensures Calm(k.s, TrySem(k, e).s, k.s.current.value)
  {
  }

  lemma PostFrame(k: Kernel, e: nat)
    requires Live(k.s) && e in k.sems
    ensures Calm(k.s, Post(k, e).s, k.s.current.value)
  {
    WakeOneLive(k.s, SemQ(e));
    WakeOneFrame(k.s, SemQ(e), k.s.current.value);
  }
}
