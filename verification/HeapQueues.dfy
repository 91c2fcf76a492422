/** The run queue and all wait queues together on the heap, sharing the `next` and `prev` links of
    the threads (src/internal.h, src/scheduler.c, src/sched_rr.c). */
module HeapQueues {
  import opened Basics
  import opened Threads
  import opened Links
  import opened WaitQueues
  import opened RoundRobin

  class Machine {
    const run: RrState
    const waits: seq<WaitQueue>
    ghost var threads: set<Thread>

    ghost predicate RunOk()
      reads this, run, threads`next, threads`prev, threads`blockedQueue
    {
      && (forall t :: t in run.members ==> t in threads)
      && run.Valid()
      && (forall t :: t in run.members ==> t.blockedQueue == null)
    }

    ghost predicate WaitOk(q: WaitQueue)
      reads this, q, threads`next, threads`prev, threads`blockedQueue
    {
      (forall t :: t in q.members ==> t in threads) && q.Valid() && q.Marks(threads)
    }

    /** The mark of every thread is NULL or one of the wait queues. */
    ghost predicate MarksOk()
      reads this, threads`blockedQueue
    {
      forall t :: t in threads ==> t.blockedQueue == null || t.blockedQueue in waits
    }

    /** Every list is linked, blocked_queue names the wait queue a thread is on, and no thread of the
        run queue is on one. */
    ghost predicate Valid()
      reads this, run, waits, threads`next, threads`prev, threads`blockedQueue
    {
      && (forall i, j :: 0 <= i < j < |waits| ==> waits[i] != waits[j])
      && RunOk() && MarksOk()
      && forall q :: q in waits ==> WaitOk(q)
    }

    /** The wait queues as sequences. */
    ghost function Lists(): (r: map<WaitQueue, seq<Thread>>)
      reads waits
    {
      map w | w in waits :: w.members
    }

    /** Empty queues, and threads that are on none. */
    constructor (run: RrState, waits: seq<WaitQueue>, ghost threads: set<Thread>)
      requires run.Valid() && run.members == []
      requires forall i, j :: 0 <= i < j < |waits| ==> waits[i] != waits[j]
      requires forall q :: q in waits ==> q.Valid() && q.members == []
      requires forall t :: t in threads ==> t.blockedQueue == null
      ensures Valid() && this.run == run && this.waits == waits && this.threads == threads
    {
      this.run, this.waits, this.threads := run, waits, threads;
    }

    /** No thread is on two lists. */
    lemma OneList(t: Thread, q: WaitQueue)
      requires Valid() && q in waits && t in q.members
      ensures t !in run.members && forall p :: p in waits && p != q ==> t !in p.members
    {
      assert WaitOk(q);
      forall p | p in waits && p != q
        ensures t !in p.members
      {
        assert WaitOk(p);
        q.Apart(p);
      }
    }

    /** wait_queue_add for the running thread, which is on no list. */
    method Wait(q: WaitQueue, t: Thread)
      requires Valid() && q in waits && t in threads && t.blockedQueue == null && t !in run.members
      modifies q, threads`next, t`prev, t`blockedQueue
      ensures Valid() && run.members == old(run.members) && q.members == old(q.members) + [t]
      ensures Lists() == old(Lists())[q := q.members]
    {
      assert WaitOk(q);
      forall p | p in waits && p != q
        ensures forall x :: x in p.members ==> x !in q.members && x != t
      {
        assert WaitOk(p);
        q.Apart(p);
      }
      q.Push(t);
      assert RunOk() && MarksOk();
      assert WaitOk(q);
      forall p | p in waits
        ensures WaitOk(p)
      {
        if p != q {
          assert old(WaitOk(p));
        }
      }
    }

    /** wait_queue_remove and scheduler_unblock: the longest waiter goes to the end of the run queue. */
    method WakeOne(q: WaitQueue, slice: nat)
      requires Valid() && q in waits
      modifies q, run, threads`next, threads`prev, threads`blockedQueue, threads`timeslice
      ensures Valid()
      ensures run.members == if old(q.members) == [] then old(run.members) else old(run.members) + [old(q.members)[0]]
      ensures q.members == if old(q.members) == [] then [] else old(q.members)[1..]
      ensures q.head == Neighbour(q.members, 0)
      ensures Lists() == old(Lists())[q := q.members]
    {
      HeadIs(q);
      if q.head != null {
        MoveHead(q, slice);
      }
    }

    /** The same when somebody waits. */
    method MoveHead(q: WaitQueue, slice: nat)
      requires Valid() && q in waits && q.head != null && q.members != [] && q.head == q.members[0]
      modifies q, run, threads`next, threads`prev, threads`blockedQueue, threads`timeslice
      ensures Valid() && run.members == old(run.members) + [old(q.members)[0]] && q.members == old(q.members)[1..]
      ensures q.head == Neighbour(q.members, 0)
      ensures Lists() == old(Lists())[q := q.members]
    {
      var t := q.head;
      Take(q, t);
      Ready(t, slice);
      HeadIs(q);
    }

    /** The longest waiter is unlinked; it is then on no list. */
    method Take(q: WaitQueue, t: Thread)
      requires Valid() && q in waits && q.members != [] && t == q.members[0]
      modifies q, threads`next, threads`prev, t`blockedQueue
      ensures Valid() && run.members == old(run.members) && q.members == old(q.members)[1..]
      ensures Lists() == old(Lists())[q := q.members]
      ensures t in threads && t.blockedQueue == null && t !in run.members
    {
      assert WaitOk(q);
      OneList(t, q);
      forall x | x in q.members
        ensures x in threads && x !in run.members && forall p :: p in waits && p != q ==> x !in p.members
      {
        OneList(x, q);
      }
      q.Pop(t);
      assert RunOk() && MarksOk();
      assert WaitOk(q);
      forall p | p in waits
        ensures WaitOk(p)
      {
        if p != q {
          assert old(WaitOk(p));
        }
      }
    }

    /** A thread that is on no list goes to the end of the run queue. */
    method Ready(t: Thread, slice: nat)
      requires Valid() && t in threads && t.blockedQueue == null && t !in run.members
      modifies run, threads`next, t`prev, t`timeslice
      ensures Valid() && run.members == old(run.members) + [t] && t.timeslice == slice
      ensures Lists() == old(Lists())
    {
      forall x | x in run.members
        ensures forall p :: p in waits ==> x !in p.members
      {
        Unblocked(x);
      }
      forall p | p in waits
        ensures t !in p.members
      {
        assert WaitOk(p);
      }
      run.Enqueue(t, slice);
      assert RunOk() && MarksOk();
      forall p | p in waits
        ensures WaitOk(p)
      {
        assert old(WaitOk(p));
      }
    }

    /** wait_queue_wake_all: the waiters go to the end of the run queue in the order they waited. */
    method WakeAll(q: WaitQueue, slice: nat)
      requires Valid() && q in waits
      modifies q, run, threads`next, threads`prev, threads`blockedQueue, threads`timeslice
      ensures Valid() && run.members == old(run.members) + old(q.members) && q.members == []
      ensures Lists() == old(Lists())[q := q.members]
    {
      ghost var w, r, n, lists := q.members, run.members, 0, Lists();
      HeadIs(q);
      while q.head != null
        invariant Drained(q, w, r, n, lists)
        decreases |w| - n
      {
        DrainOne(q, slice, w, r, n, lists);
        n := n + 1;
      }
      assert w[..n] == w;
    }

    /** The first n of the waiters w have moved behind r. */
    ghost predicate Drained(q: WaitQueue, w: seq<Thread>, r: seq<Thread>, n: nat, lists: map<WaitQueue, seq<Thread>>)
      reads this, run, waits, q, threads`next, threads`prev, threads`blockedQueue
    {
      && Valid() && n <= |w| && q.head == Neighbour(q.members, 0)
      && q.members == w[n..] && run.members == r + w[..n] && Lists() == lists[q := q.members]
    }

    method DrainOne(q: WaitQueue, slice: nat, ghost w: seq<Thread>, ghost r: seq<Thread>, ghost n: nat,
                    ghost lists: map<WaitQueue, seq<Thread>>)
      requires q in waits && Drained(q, w, r, n, lists) && q.head != null
      modifies q, run, threads`next, threads`prev, threads`blockedQueue, threads`timeslice
      ensures n < |w| && Drained(q, w, r, n + 1, lists)
    {
      Overwrites(lists, q, q.members, w[n + 1..]);
      Slide(w, n, r);
      MoveHead(q, slice);
    }

    lemma Slide(w: seq<Thread>, n: nat, r: seq<Thread>)
      requires n < |w|
      ensures w[n..][1..] == w[n + 1..] && w[n..][0] == w[n] && (r + w[..n]) + [w[n]] == r + w[..n + 1]
    {
    }

    lemma Overwrites(lists: map<WaitQueue, seq<Thread>>, q: WaitQueue, a: seq<Thread>, b: seq<Thread>)
      ensures lists[q := a][q := b] == lists[q := b]
    {
    }

    lemma HeadIs(q: WaitQueue)
      requires Valid() && q in waits
      ensures q.head == Neighbour(q.members, 0)
    {
      assert WaitOk(q);
    }

    /** rr_dequeue: the first thread of the run queue, which is then on no list. */
    method Dispatch() returns (t: Thread?)
      requires Valid()
      modifies run, threads`next, threads`prev
      ensures Valid() && t == Neighbour(old(run.members), 0)
      ensures t != null ==> t in threads && t.blockedQueue == null && t !in run.members
      ensures run.members == if old(run.members) == [] then [] else old(run.members)[1..]
      ensures Lists() == old(Lists())
    {
      forall x | x in run.members
        ensures x in threads && forall p :: p in waits ==> x !in p.members
      {
        Unblocked(x);
      }
      t := run.Dequeue();
      assert RunOk() && MarksOk();
      forall p | p in waits
        ensures WaitOk(p)
      {
        assert old(WaitOk(p));
      }
    }

    /** rr_remove: the thread leaves the run queue if it is there. */
    method Withdraw(t: Thread)
      requires Valid()
      modifies run, threads`next, threads`prev
      ensures Valid() && run.members == Dropped(old(run.members), t)
      ensures Lists() == old(Lists())
    {
      forall x | x in run.members
        ensures x in threads && forall p :: p in waits ==> x !in p.members
      {
        Unblocked(x);
      }
      DroppedIn(run.members, t);
      run.Remove(t);
      assert RunOk() && MarksOk();
      forall p | p in waits
        ensures WaitOk(p)
      {
        assert old(WaitOk(p));
      }
    }

    /** A thread of the run queue is on no wait queue. */
    lemma Unblocked(x: Thread)
      requires Valid() && x in run.members
      ensures forall p :: p in waits ==> x !in p.members
    {
      forall p | p in waits
        ensures x !in p.members
      {
        if x in p.members {
          OneList(x, p);
        }
      }
    }

    /** A new control block, which is on no list. */
    ghost method Adopt(t: Thread)
      requires Valid() && t !in threads && t.blockedQueue == null
      modifies this`threads
      ensures Valid() && threads == old(threads) + {t}
    {
      threads := threads + {t};
      assert RunOk() && MarksOk();
      forall p | p in waits
        ensures WaitOk(p)
      {
        assert old(WaitOk(p));
      }
    }
  }

  lemma {:induction false} DroppedIn(s: seq<Thread>, t: Thread)
    ensures forall x :: x in Dropped(s, t) ==> x in s
  {
    if s != [] && s[0] != t {
      DroppedIn(s[1..], t);
    }
  }
}
