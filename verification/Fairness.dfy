/** What the mutex does not promise: a woken waiter that finds the mutex taken goes to the tail of the
    queue again (src/mutex.c), so that a waiter can be overtaken without bound. */
module Fairness {
  import opened Basics
  import opened Scheduling
  import opened Sync
  import opened Runs
  import opened Guarantees
  import opened Waking
  import opened Witnesses
  import Mutexes

  /** A woken waiter gets the mutex at its turn if and only if it then finds the mutex free. */
  lemma TakesIff(k: Kernel, m: nat, pick: nat)
    requires Inv(k) && k.s.current.Some? && PcOf(k, Self(k)) == Woken(GetMutex(m)) && m in k.mutexes
    ensures Self(k) !in Seekers(StepResume(k, pick).s, GetMutex(m)) <==> k.mutexes[m].lock == 0
  {
    BlockEffect(k.s, MutexQ(m), GetMutex(m), pick, GetMutex(m));
    ReturnEffect(k.s, GetMutex(m), GetMutex(m));
  }

  /** Thread o runs and has locked mutex m once, others wait for it, and nobody is ready. */
  ghost predicate Contended(k: Kernel, o: Tid, m: nat) {
    && Inv(k) && m in k.mutexes && k.s.current == Some(o) && k.s.runq == []
    && k.s.threads[o].pc == User && k.mutexes[m].owner == Some(o) && k.mutexes[m].depth == 1
    && Queue(k.s, MutexQ(m)) != []
  }

  // ---------------------------------------------------------------- one round

  /* The owner unlocks, locks again before the woken waiter runs, and yields; the waiter goes on. */

  /** The longest waiter is ready and the mutex is free. */
  ghost function Unlocked(k: Kernel, o: Tid, m: nat): (r: Kernel)
    requires Contended(k, o, m)
  {
    Mutexes.HeadOk(k.s, MutexQ(m));
    PutMutex(k, WakeOne(k.s, MutexQ(m)), m, Mutexes.Released(k.mutexes[m], o))
  }

  /** The mutex is taken again. */
  ghost function Relocked(k: Kernel, o: Tid, m: nat): (r: Kernel)
    requires Contended(k, o, m)
  {
    Mutexes.HeadOk(k.s, MutexQ(m));
    k.(s := WakeOne(k.s, MutexQ(m)))
  }

  /** The waiter runs. */
  ghost function Overtaken(k: Kernel, o: Tid, m: nat): (r: Kernel)
    requires Contended(k, o, m)
  {
    var t := Queue(k.s, MutexQ(m))[0];
    Mutexes.HeadOk(k.s, MutexQ(m));
    var s := WakeOne(k.s, MutexQ(m));
    var ts := s.threads[o := s.threads[o].(state := Ready)];
    k.(s := s.(current := Some(t), runq := [o], threads := ts[t := ts[t].(state := Running)]))
  }

  /** The waiter is at the tail, and everything else is as before the round. */
  ghost function Rotated(k: Kernel, m: nat): (r: Kernel)
    requires Queue(k.s, MutexQ(m)) != []
  {
    var w := Queue(k.s, MutexQ(m));
    k.(s := k.s.(queues := k.s.queues[MutexQ(m) := w[1..] + [w[0]]]))
  }

  lemma Waiter(k: Kernel, o: Tid, m: nat)
    requires Contended(k, o, m)
    ensures var t := Queue(k.s, MutexQ(m))[0];
      t in k.s.threads && t != o && k.s.threads[t].pc == Waiting(MutexQ(m), GetMutex(m))
      && k.s.threads[t].state == Blocked
  {
    assert Queue(k.s, MutexQ(m))[0] in Queue(k.s, MutexQ(m));
  }

  lemma UnlockStep(k: Kernel, o: Tid, m: nat)
    requires Contended(k, o, m)
    ensures var ev := Event(OnMutex(Unlock(m)), 0);
      Legal(k, ev) && Step(k, ev) == Unlocked(k, o, m) && Inv(Unlocked(k, o, m))
  {
    var ev := Event(OnMutex(Unlock(m)), 0);
    assert MutexStep(k, ev) == Mutexes.Unlock(k, m);
    StepInv(k, ev);
  }

  /** Released and granted again, the mutex is as it was. */
  lemma Regranted(k: Kernel, o: Tid, m: nat)
    requires Contended(k, o, m)
    ensures Mutexes.Granted(Mutexes.Released(k.mutexes[m], o), o) == k.mutexes[m]
  {
    assert MutexAt(k.s, m, k.mutexes[m]);
    assert {o} - {o} + {o} == {o};
  }

  lemma LockGives(k: Kernel, o: Tid, m: nat)
    requires Contended(k, o, m) && Live(Unlocked(k, o, m).s)
    ensures Mutexes.Lock(Unlocked(k, o, m), m, 0) == Relocked(k, o, m)
  {
    var f := Unlocked(k, o, m);
    Waiter(k, o, m);
    Regranted(k, o, m);
    assert f.s.threads[o := f.s.threads[o].(pc := User, state := Running)] == f.s.threads;
    assert Return(f.s) == f.s;
    assert f.mutexes[m := k.mutexes[m]] == k.mutexes;
  }

  lemma LockStep(k: Kernel, o: Tid, m: nat)
    requires Contended(k, o, m) && Inv(Unlocked(k, o, m))
    ensures var f, ev := Unlocked(k, o, m), Event(OnMutex(Lock(m)), 0);
      Legal(f, ev) && Step(f, ev) == Relocked(k, o, m) && Inv(Relocked(k, o, m))
  {
    var f, ev := Unlocked(k, o, m), Event(OnMutex(Lock(m)), 0);
    LockGives(k, o, m);
    assert MutexStep(f, ev) == Mutexes.Lock(f, m, 0);
    StepInv(f, ev);
  }

  lemma YieldStep(k: Kernel, o: Tid, m: nat)
    requires Contended(k, o, m) && Inv(Relocked(k, o, m))
    ensures var f, ev := Relocked(k, o, m), Event(OnThread(Yield), 0);
      Legal(f, ev) && Step(f, ev) == Overtaken(k, o, m) && Inv(Overtaken(k, o, m))
  {
    var f, ev := Relocked(k, o, m), Event(OnThread(Yield), 0);
    var t := Queue(k.s, MutexQ(m))[0];
    Waiter(k, o, m);
    assert f.s.runq == [t];
    YieldTo(f.s, o, t);
    assert ThreadStep(f, ev) == StepYield(f, 0) == Overtaken(k, o, m);
    StepInv(f, ev);
  }

  /** A yield when one other thread is ready. */
  lemma YieldTo(s: Sched, o: Tid, t: Tid)
    requires Live(s) && s.current == Some(o) && s.runq == [t] && s.threads[o].state == Running && t != o
    ensures var ts := s.threads[o := s.threads[o].(state := Ready)];
      t in s.threads
      && Scheduling.Yield(s, 0) == s.(current := Some(t), runq := [o], threads := ts[t := ts[t].(state := Running)])
  {
    assert s.runq[0] in s.runq;
    var e := Move(s, o, s.threads[o].pc, Ready).(runq := [t] + [o]);
    assert Without(e.runq, 0) == [o];
  }

  lemma BlockStep(k: Kernel, o: Tid, m: nat)
    requires Contended(k, o, m) && Inv(Overtaken(k, o, m))
    ensures var f, ev := Overtaken(k, o, m), Event(Resume, 0);
      Legal(f, ev) && Step(f, ev) == Rotated(k, m) && Inv(Rotated(k, m))
  {
    var f, ev := Overtaken(k, o, m), Event(Resume, 0);
    Waiter(k, o, m);
    TakeGives(k, o, m);
    assert StepResume(f, 0) == Mutexes.TakeMutex(f, m, 0);
    StepInv(f, ev);
  }

  lemma TakeGives(k: Kernel, o: Tid, m: nat)
    requires Contended(k, o, m) && Live(Overtaken(k, o, m).s)
    ensures Mutexes.TakeMutex(Overtaken(k, o, m), m, 0) == Rotated(k, m)
  {
    assert MutexAt(k.s, m, k.mutexes[m]);
    BlockTo(k, o, m);
    assert k.mutexes[m := k.mutexes[m]] == k.mutexes;
  }

  lemma BlockTo(k: Kernel, o: Tid, m: nat)
    requires Contended(k, o, m) && Live(Overtaken(k, o, m).s)
    ensures Block(Overtaken(k, o, m).s, MutexQ(m), GetMutex(m), 0) == Rotated(k, m).s
  {
    var s, w := Overtaken(k, o, m).s, Queue(k.s, MutexQ(m));
    Waiter(k, o, m);
    var e := Enlist(s, w[0], MutexQ(m), GetMutex(m));
    assert e.queues == k.s.queues[MutexQ(m) := w[1..] + [w[0]]];
    assert Without([o], 0) == [];
    assert Schedule(e, 0).threads == k.s.threads;
  }

  // ---------------------------------------------------------------- any number of rounds

  /** The events of a run by which thread o becomes the owner of mutex m. */
  ghost function Gains(k: Kernel, es: seq<Event>, o: Tid, m: nat): (n: nat)
    requires Inv(k) && Allowed(k, es)
    decreases |es|
  {
    if es == [] then 0
    else
      StepInv(k, es[0]);
      (if Owns(Step(k, es[0]), o, m) && !Owns(k, o, m) then 1 else 0) + Gains(Step(k, es[0]), es[1..], o, m)
  }

  ghost predicate Owns(k: Kernel, o: Tid, m: nat) {
    m in k.mutexes && k.mutexes[m].owner == Some(o)
  }

  /** Along es thread o takes the mutex n times, and t is in the same call to lock it throughout. */
  ghost predicate Bypasses(k: Kernel, es: seq<Event>, o: Tid, m: nat, t: Tid, n: nat)
    requires Inv(k)
  {
    Allowed(k, es) && StaysIn(k, es, t, GetMutex(m)) && Gains(k, es, o, m) == n
  }

  /** A legal step during which t is in a call to lock m; gained says whether o gets the mutex. */
  ghost predicate Leads(k: Kernel, ev: Event, r: Kernel, o: Tid, m: nat, t: Tid, gained: bool) {
    && Inv(k) && Legal(k, ev) && Step(k, ev) == r && Inv(r)
    && t in Seekers(k.s, GetMutex(m)) && (gained <==> Owns(r, o, m) && !Owns(k, o, m))
  }

  lemma BypassesCons(k: Kernel, ev: Event, r: Kernel, es: seq<Event>, o: Tid, m: nat, t: Tid, gained: bool, n: nat)
    requires Leads(k, ev, r, o, m, t, gained) && Bypasses(r, es, o, m, t, n)
    ensures Bypasses(k, [ev] + es, o, m, t, n + if gained then 1 else 0)
    ensures Run(k, [ev] + es) == Run(r, es)
  {
    assert ([ev] + es)[1..] == es;
  }

  /** Throughout a round every waiter stays in its call. */
  lemma StillSeeks(k: Kernel, o: Tid, m: nat, t: Tid)
    requires Contended(k, o, m) && t in Queue(k.s, MutexQ(m))
    ensures t in Seekers(k.s, GetMutex(m)) && t in Seekers(Unlocked(k, o, m).s, GetMutex(m))
    ensures t in Seekers(Relocked(k, o, m).s, GetMutex(m)) && t in Seekers(Overtaken(k, o, m).s, GetMutex(m))
  {
  }

  lemma UnlockLeads(k: Kernel, o: Tid, m: nat, t: Tid)
    requires Contended(k, o, m) && t in Queue(k.s, MutexQ(m))
    ensures Leads(k, Event(OnMutex(Unlock(m)), 0), Unlocked(k, o, m), o, m, t, false)
  {
    UnlockStep(k, o, m);
    StillSeeks(k, o, m, t);
  }

  lemma LockLeads(k: Kernel, o: Tid, m: nat, t: Tid)
    requires Contended(k, o, m) && t in Queue(k.s, MutexQ(m)) && Inv(Unlocked(k, o, m))
    ensures Leads(Unlocked(k, o, m), Event(OnMutex(Lock(m)), 0), Relocked(k, o, m), o, m, t, true)
  {
    LockStep(k, o, m);
    StillSeeks(k, o, m, t);
  }

  lemma YieldLeads(k: Kernel, o: Tid, m: nat, t: Tid)
    requires Contended(k, o, m) && t in Queue(k.s, MutexQ(m)) && Inv(Relocked(k, o, m))
    ensures Leads(Relocked(k, o, m), Event(OnThread(Yield), 0), Overtaken(k, o, m), o, m, t, false)
  {
    YieldStep(k, o, m);
    StillSeeks(k, o, m, t);
  }

  lemma BlockLeads(k: Kernel, o: Tid, m: nat, t: Tid)
    requires Contended(k, o, m) && t in Queue(k.s, MutexQ(m)) && Inv(Overtaken(k, o, m))
    ensures Leads(Overtaken(k, o, m), Event(Resume, 0), Rotated(k, m), o, m, t, false)
  {
    BlockStep(k, o, m);
    StillSeeks(k, o, m, t);
  }

  /** The second half of a round, for one waiter, in front of a run from the rotated queue. */
  lemma LateCons(k: Kernel, es: seq<Event>, o: Tid, m: nat, t: Tid, n: nat, r: seq<Event>)
    requires Contended(k, o, m) && t in Queue(k.s, MutexQ(m)) && Inv(Relocked(k, o, m))
    requires Inv(Rotated(k, m)) && Arrives(Rotated(k, m), es, o, m, t, n)
    requires r == [Event(OnThread(Yield), 0)] + ([Event(Resume, 0)] + es)
    ensures Arrives(Relocked(k, o, m), r, o, m, t, n)
  {
    var b, c := Relocked(k, o, m), Overtaken(k, o, m);
    YieldLeads(k, o, m, t);
    BlockLeads(k, o, m, t);
    BypassesCons(c, Event(Resume, 0), Rotated(k, m), es, o, m, t, false, n);
    BypassesCons(b, Event(OnThread(Yield), 0), c, [Event(Resume, 0)] + es, o, m, t, false, n);
  }

  /** The first half. */
  lemma EarlyCons(k: Kernel, es: seq<Event>, o: Tid, m: nat, t: Tid, n: nat, r: seq<Event>)
    requires Contended(k, o, m) && t in Queue(k.s, MutexQ(m))
    requires Inv(Relocked(k, o, m)) && Arrives(Relocked(k, o, m), es, o, m, t, n)
    requires r == [Event(OnMutex(Unlock(m)), 0)] + ([Event(OnMutex(Lock(m)), 0)] + es)
    ensures Arrives(k, r, o, m, t, n + 1)
  {
    var a, b := Unlocked(k, o, m), Relocked(k, o, m);
    UnlockLeads(k, o, m, t);
    LockLeads(k, o, m, t);
    BypassesCons(a, Event(OnMutex(Lock(m)), 0), b, es, o, m, t, true, n);
    BypassesCons(k, Event(OnMutex(Unlock(m)), 0), a, [Event(OnMutex(Lock(m)), 0)] + es, o, m, t, false, n + 1);
  }

  /** The first of the run queue is picked each time. */
  ghost predicate FirstPicked(es: seq<Event>) {
    forall i :: 0 <= i < |es| ==> es[i].pick == 0
  }

  /** The run bypasses t, and ends where another round can follow. */
  ghost predicate Arrives(k: Kernel, es: seq<Event>, o: Tid, m: nat, t: Tid, n: nat)
    requires Inv(k)
  {
    && Bypasses(k, es, o, m, t, n)
    && Contended(Run(k, es), o, m) && t in Queue(Run(k, es).s, MutexQ(m))
  }

  lemma RotatedContended(k: Kernel, o: Tid, m: nat)
    requires Contended(k, o, m) && Inv(Rotated(k, m))
    ensures Contended(Rotated(k, m), o, m)
    ensures forall t :: t in Queue(k.s, MutexQ(m)) <==> t in Queue(Rotated(k, m).s, MutexQ(m))
  {
  }

  lemma TwoMore(a: Event, b: Event, es: seq<Event>) returns (r: seq<Event>)
    requires FirstPicked(es) && a.pick == 0 && b.pick == 0
    ensures r == [a] + ([b] + es) && |r| == |es| + 2 && FirstPicked(r)
  {
    r := [a] + ([b] + es);
  }

  lemma LateArrives(k: Kernel, es: seq<Event>, o: Tid, m: nat, n: nat) returns (r: seq<Event>)
    requires Contended(k, o, m) && Inv(Relocked(k, o, m)) && Inv(Rotated(k, m)) && FirstPicked(es)
    requires forall t :: t in Queue(k.s, MutexQ(m)) ==> Arrives(Rotated(k, m), es, o, m, t, n)
    ensures |r| == |es| + 2 && FirstPicked(r)
    ensures forall t :: t in Queue(k.s, MutexQ(m)) ==> Arrives(Relocked(k, o, m), r, o, m, t, n)
  {
    r := TwoMore(Event(OnThread(Yield), 0), Event(Resume, 0), es);
    LateAll(k, es, o, m, n, r);
  }

  lemma LateAll(k: Kernel, es: seq<Event>, o: Tid, m: nat, n: nat, r: seq<Event>)
    requires Contended(k, o, m) && Inv(Relocked(k, o, m)) && Inv(Rotated(k, m))
    requires forall t :: t in Queue(k.s, MutexQ(m)) ==> Arrives(Rotated(k, m), es, o, m, t, n)
    requires r == [Event(OnThread(Yield), 0)] + ([Event(Resume, 0)] + es)
    ensures forall t :: t in Queue(k.s, MutexQ(m)) ==> Arrives(Relocked(k, o, m), r, o, m, t, n)
  {
    forall t | t in Queue(k.s, MutexQ(m))
      ensures Arrives(Relocked(k, o, m), r, o, m, t, n)
    {
      LateCons(k, es, o, m, t, n, r);
    }
  }

  lemma EarlyArrives(k: Kernel, es: seq<Event>, o: Tid, m: nat, n: nat) returns (r: seq<Event>)
    requires Contended(k, o, m) && Inv(Relocked(k, o, m)) && FirstPicked(es)
    requires forall t :: t in Queue(k.s, MutexQ(m)) ==> Arrives(Relocked(k, o, m), es, o, m, t, n)
    ensures |r| == |es| + 2 && FirstPicked(r)
    ensures forall t :: t in Queue(k.s, MutexQ(m)) ==> Arrives(k, r, o, m, t, n + 1)
  {
    r := TwoMore(Event(OnMutex(Unlock(m)), 0), Event(OnMutex(Lock(m)), 0), es);
    EarlyAll(k, es, o, m, n, r);
  }

  lemma EarlyAll(k: Kernel, es: seq<Event>, o: Tid, m: nat, n: nat, r: seq<Event>)
    requires Contended(k, o, m) && Inv(Relocked(k, o, m))
    requires forall t :: t in Queue(k.s, MutexQ(m)) ==> Arrives(Relocked(k, o, m), es, o, m, t, n)
    requires r == [Event(OnMutex(Unlock(m)), 0)] + ([Event(OnMutex(Lock(m)), 0)] + es)
    ensures forall t :: t in Queue(k.s, MutexQ(m)) ==> Arrives(k, r, o, m, t, n + 1)
  {
    forall t | t in Queue(k.s, MutexQ(m))
      ensures Arrives(k, r, o, m, t, n + 1)
    {
      EarlyCons(k, es, o, m, t, n, r);
    }
  }

  lemma RotatedInv(k: Kernel, o: Tid, m: nat)
    requires Contended(k, o, m)
    ensures Inv(Relocked(k, o, m)) && Inv(Rotated(k, m))
  {
    UnlockStep(k, o, m);
    LockStep(k, o, m);
    YieldStep(k, o, m);
    BlockStep(k, o, m);
  }

  lemma NoRounds(k: Kernel, o: Tid, m: nat, t: Tid)
    requires Contended(k, o, m) && t in Queue(k.s, MutexQ(m))
    ensures Arrives(k, [], o, m, t, 0)
  {
    StillSeeks(k, o, m, t);
  }

  /** A waiter can be overtaken any number of times, under round robin too: for every n there is a
      run of 4 n events in which the first of the run queue is picked each time and the owner takes the
      mutex n times again while every waiter stays in the same call, and which can go on like that. */
  lemma {:induction false} MutexBypassed(k: Kernel, o: Tid, m: nat, n: nat) returns (es: seq<Event>)
    requires Contended(k, o, m)
    ensures |es| == 4 * n && FirstPicked(es)
    ensures forall t :: t in Queue(k.s, MutexQ(m)) ==> Arrives(k, es, o, m, t, n)
    decreases n
  {
    if n == 0 {
      es := [];
      forall t | t in Queue(k.s, MutexQ(m))
        ensures Arrives(k, es, o, m, t, n)
      {
        NoRounds(k, o, m, t);
      }
    } else {
      RotatedInv(k, o, m);
      RotatedContended(k, o, m);
      es := MutexBypassed(Rotated(k, m), o, m, n - 1);
      es := LateArrives(k, es, o, m, n - 1);
      es := EarlyArrives(k, es, o, m, n - 1);
    }
  }

  // ---------------------------------------------------------------- such a state is reached

  ghost function OneWaits(): (s: Sched) {
    Sched(Some(0), [], map[0 := At(User, Running), 1 := At(Waiting(MutexQ(0), GetMutex(0)), Blocked)],
          map[MutexQ(0) := [1]])
  }

  lemma WaitsGives(kind: Kind)
    requires Live(Swapped())
    ensures Mutexes.Lock(WithMutex(Swapped(), HeldBy0(kind, 1)), 0, 0) == WithMutex(OneWaits(), HeldBy0(kind, 1))
  {
    var k := WithMutex(Swapped(), HeldBy0(kind, 1));
    var e := Enlist(Swapped(), 1, MutexQ(0), GetMutex(0));
    assert Queue(Swapped(), MutexQ(0)) + [1] == [1];
    assert e.queues == map[MutexQ(0) := [1]];
    assert Without([0], 0) == [];
    assert Schedule(e, 0).threads == OneWaits().threads;
    assert Block(Swapped(), MutexQ(0), GetMutex(0), 0) == OneWaits();
    assert k.mutexes[0 := HeldBy0(kind, 1)] == k.mutexes;
  }

  /** Thread 0 holds a mutex, of any kind, that thread 1 waits for. */
  lemma ContendedReachable(kind: Kind)
    ensures var k := WithMutex(OneWaits(), HeldBy0(kind, 1)); Reachable(k) && Contended(k, 0, 0)
  {
    HeldReachable(kind);
    var k, ev := WithMutex(Swapped(), HeldBy0(kind, 1)), Event(OnMutex(Lock(0)), 0);
    WaitsGives(kind);
    assert MutexStep(k, ev) == Mutexes.Lock(k, 0, 0);
    Goes(k, ev, WithMutex(OneWaits(), HeldBy0(kind, 1)));
  }
}
