/** The round-robin run queue (src/sched_rr.c). */
module RoundRobin {
  import opened Basics
  import opened Threads
  import opened Links

  /** The test of rr_should_preempt. */
  predicate TurnIsOver<T>(s: seq<T>, slice: nat) {
    slice == 0 && s != []
  }

  class RrState {
    var head: Thread?
    var tail: Thread?
    var count: int
    ghost var members: seq<Thread>

    ghost predicate Valid()
      reads this, members`next, members`prev
    {
      && Linked(members)
      && head == Neighbour(members, 0) && tail == Neighbour(members, |members| - 1)
      && count == |members|
    }

    /** rr_init. */
    constructor ()
      ensures Valid() && members == []
    {
      head, tail, count, members := null, null, 0, [];
    }

    /** rr_enqueue. */
    method Enqueue(t: Thread, slice: nat)
      requires Valid() && t !in members
      modifies this, members`next, t`next, t`prev, t`timeslice
      ensures Valid() && members == Apply(old(members), Put(t)) && t.timeslice == slice
    {
      ghost var r := members + [t];
      LinkLast(members, tail, t);
      assert Linked(r);
      if tail == null {
        head := t;
      }
      tail := t;
      count := count + 1;
      members := r;
      t.timeslice := slice;
    }

    /** rr_dequeue. */
    method Dequeue() returns (t: Thread?)
      requires Valid()
      modifies this, members`next, members`prev
      ensures Valid() && members == Apply(old(members), Get)
      ensures t == Neighbour(old(members), 0)
    {
      if head == null {
        return null;
      }
      t := head;
      assert LinkedAt(members, 0);
      head := t.next;
      if head == null {
        tail := null;
      }
      UnlinkFirst(members, t);
      count := count - 1;
      members := members[1..];
    }

    /** rr_should_preempt. */
    method ShouldPreempt(current: Thread) returns (r: bool)
      requires Valid()
      ensures r <==> TurnIsOver(members, current.timeslice)
      ensures r <==> current.timeslice == 0 && members != []
    {
      return current.timeslice == 0 && count > 0;
    }

    /** The search of rr_remove. */
    method Find(t: Thread) returns (found: bool, ghost i: nat)
      requires Valid()
      ensures found <==> t in members
      ensures found ==> i < |members| && members[i] == t
    {
      var x := head;
      i := 0;
      while x != null
        invariant i <= |members| && x == Neighbour(members, i) && t !in members[..i]
        decreases |members| - i
      {
        if x == t {
          return true, i;
        }
        assert LinkedAt(members, i);
        x := x.next;
        i := i + 1;
      }
      return false, i;
    }

    /** The member at position i is unlinked. */
    method Extract(t: Thread, ghost i: nat)
      requires Valid() && i < |members| && members[i] == t
      modifies this, members`next, members`prev
      ensures Valid() && members == Without(old(members), i)
    {
      ghost var r := Without(members, i);
      WithoutAt(members, i);
      assert LinkedAt(members, i);
      if t.prev == null {
        head := t.next;
      }
      if t.next == null {
        tail := t.prev;
      }
      assert head == Neighbour(r, 0) && tail == Neighbour(r, |r| - 1);
      UnlinkAt(members, i, t);
      count := count - 1;
      members := r;
    }

    /** rr_remove. */
    method Remove(t: Thread)
      requires Valid()
      modifies this, members`next, members`prev
      ensures Valid() && members == Apply(old(members), Drop(t))
    {
      ghost var s := members;
      var found; ghost var i;
      found, i := Find(t);
      if found {
        DropAt(s, i);
        Extract(t, i);
      }
    }
  }

  // ---------------------------------------------------------------- runs of the queue

  datatype Op = Put(t: Thread) | Get | Drop(t: Thread)

  lemma {:induction false} DropAt(s: seq<Thread>, i: nat)
    requires Distinct(s) && i < |s|
    ensures Dropped(s, s[i]) == Without(s, i)
  {
    if i > 0 {
      assert Distinct(s[1..]);
      DropAt(s[1..], i - 1);
      assert [s[0]] + Without(s[1..], i - 1) == Without(s, i);
    }
  }

  ghost function Apply(s: seq<Thread>, op: Op): (r: seq<Thread>) {
    match op
    case Put(t) => s + [t]
    case Get => if s == [] then [] else s[1..]
    case Drop(t) => Dropped(s, t)
  }

  /** The threads that the dequeues of ops hand out. */
  ghost function Served(s: seq<Thread>, ops: seq<Op>): (r: seq<Thread>)
    decreases |ops|
  {
    if ops == [] then []
    else if ops[0] == Get && s != [] then [s[0]] + Served(s[1..], ops[1..])
    else Served(Apply(s, ops[0]), ops[1..])
  }

  ghost function Gets(ops: seq<Op>): (n: nat) {
    if ops == [] then 0 else (if ops[0] == Get then 1 else 0) + Gets(ops[1..])
  }

  /** Whatever is enqueued meanwhile, the thread at position k is handed out by the dequeue that
      follows exactly k others. */
  lemma {:induction false} ServedInTurn(s: seq<Thread>, ops: seq<Op>, k: nat)
    requires k < |s| && k < Gets(ops) && forall i :: 0 <= i < |ops| ==> !ops[i].Drop?
    ensures k < |Served(s, ops)| && Served(s, ops)[k] == s[k]
    decreases |ops|
  {
    if ops[0] == Get {
      if k > 0 {
        ServedInTurn(s[1..], ops[1..], k - 1);
      }
    } else {
      ServedInTurn(Apply(s, ops[0]), ops[1..], k);
    }
  }

  /** A thread that goes into the queue is the next to leave, as after a yield, if and only if the
      queue is empty. */
  lemma NextIsNewcomer(s: seq<Thread>, t: Thread)
    requires t !in s
    ensures Neighbour(Apply(s, Put(t)), 0) == t <==> s == []
  {
    if s != [] {
      assert s[0] in s;
    }
  }
}
