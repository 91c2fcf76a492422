/** When a tick takes the processor from the running thread under CFS (cfs_should_preempt). */
module CfsPreemption {
  import opened CfsSpec
  import opened Vruntime

  /** The answer of the code: used up, or ahead of the first thread by more than the granularity,
      where the difference is taken in unsigned 64-bit arithmetic. */
  predicate Preempts<T>(q: Queue<T>, vruntime: nat, slice: nat) {
    q.entries != [] && (slice == 0 || (vruntime - q.entries[0].key) % TWO_TO_64 > MIN_GRANULARITY)
  }

  /** The answer meant: the first thread has a significantly lower vruntime. */
  predicate MeantToPreempt<T>(q: Queue<T>, vruntime: nat, slice: nat) {
    q.entries != [] && (slice == 0 || vruntime - q.entries[0].key > MIN_GRANULARITY)
  }

  /** The code answers as meant if and only if the slice is used up, nobody waits, the running thread
      is not behind the first one, or it is behind by almost the whole 64-bit range. */
  lemma PreemptsAsMeantIff<T>(q: Queue<T>, vruntime: nat, slice: nat)
    requires vruntime < TWO_TO_64 && (q.entries != [] ==> q.entries[0].key < TWO_TO_64)
    ensures (Preempts(q, vruntime, slice) <==> MeantToPreempt(q, vruntime, slice)) <==> (
      || slice == 0 || q.entries == []
      || q.entries[0].key <= vruntime || q.entries[0].key - vruntime >= TWO_TO_64 - MIN_GRANULARITY)
  {
  }

  /** A thread enters with vruntime 6 while the running one is at 5 with its slice not used up: the
      running thread is preempted although it is behind, and is then the first to leave the queue. */
  lemma BehindIsPreempted<T>(a: T, running: T)
    requires a != running
    ensures var q := Run(Queue([], 0), [Arrive(a, 6), Tick(5)]);
      && Preempts(q, 5, 1) && !MeantToPreempt(q, 5, 1)
      && Step(q, Arrive(running, 5)).entries[0].thread == running
  {
    var ops := [Arrive(a, 6), Tick(5)];
    assert ops[1..] == [Tick(5)];
    var q := Step(Queue([], 0), ops[0]);
    assert q == Queue([Entry(a, 6)], 0);
    var r := Step(q, ops[1]);
    assert Run(q, ops[1..]) == Run(r, ops[1..][1..]) == r;
    NextIsNewcomer(r, running, 5);
  }
}
