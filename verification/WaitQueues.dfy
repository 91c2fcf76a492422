/** The intrusive wait queues of src/scheduler.c, proved to behave as sequences. */
module WaitQueues {
  import opened Basics
  import opened Threads
  import opened Links

  /** r is s without t, in the same order. */
  ghost predicate Extracted(s: seq<Thread>, t: Thread, r: seq<Thread>) {
    exists i :: 0 <= i < |s| && s[i] == t && r == Without(s, i)
  }

  class WaitQueue {
    var head: Thread?
    var tail: Thread?
    var count: int
    ghost var members: seq<Thread>

    ghost predicate Valid()
      reads this, members`next, members`prev, members`blockedQueue
    {
      && Linked(members)
      && head == Neighbour(members, 0) && tail == Neighbour(members, |members| - 1)
      && count == |members|
      && Marked(members)
    }

    ghost predicate Marked(s: seq<Thread>)
      reads s`blockedQueue
    {
      forall i :: 0 <= i < |s| ==> s[i].blockedQueue == this
    }

    /** Among the threads ts, blocked_queue marks no thread that is not a member. */
    ghost predicate Marks(ts: set<Thread>)
      reads this, ts`blockedQueue
    {
      forall t :: t in ts && t.blockedQueue == this ==> t in members
    }

    /** wait_queue_init. */
    constructor ()
      ensures Valid() && members == []
    {
      head, tail, count, members := null, null, 0, [];
    }

    /** No thread is on two queues, since blocked_queue names one. */
    lemma Apart(other: WaitQueue)
      requires Valid() && other.Valid() && other != this
      ensures forall t :: t in other.members ==> t !in members && t.blockedQueue == other
    {
    }

    /** wait_queue_add by a thread that is on no queue. Every other queue stays as it is. */
    method Add(t: Thread, ghost ts: set<Thread>, ghost other: WaitQueue)
      requires Valid() && t.blockedQueue == null && Marks(ts)
      requires other != this && other.Valid()
      modifies this, members`next, t`next, t`prev, t`blockedQueue
      ensures Valid() && members == old(members) + [t] && Marks(ts)
      ensures other.Valid()
    {
      Apart(other);
      Push(t);
    }

    method Push(t: Thread)
      requires Valid() && t.blockedQueue == null
      modifies this, members`next, t`next, t`prev, t`blockedQueue
      ensures Valid() && members == old(members) + [t]
    {
      ghost var r := members + [t];
      t.blockedQueue := this;
      LinkLast(members, tail, t);
      assert Linked(r) && Marked(r);
      if tail == null {
        head := t;
      }
      tail := t;
      count := count + 1;
      members := r;
      assert Linked(members) && Marked(members);
    }

    /** wait_queue_remove. */
    method Remove(ghost ts: set<Thread>, ghost other: WaitQueue) returns (t: Thread?)
      requires Valid() && Marks(ts)
      requires other != this && other.Valid()
      modifies this, members`next, members`prev, members`blockedQueue
      ensures Valid() && Marks(ts)
      ensures other.Valid()
      ensures old(members) == [] ==> t == null && members == []
      ensures old(members) != [] ==> t == old(members)[0] && members == old(members)[1..] && t.blockedQueue == null
    {
      if head == null {
        return null;
      }
      Apart(other);
      t := head;
      Pop(t);
    }

    method Pop(t: Thread)
      requires Valid() && members != [] && t == members[0]
      modifies this, members`next, members`prev, t`blockedQueue
      ensures Valid() && members == old(members)[1..] && t.blockedQueue == null
    {
      ghost var r := members[1..];
      assert LinkedAt(members, 0);
      head := t.next;
      if head == null {
        tail := null;
      }
      assert head == Neighbour(r, 0) && tail == Neighbour(r, |r| - 1);
      t.blockedQueue := null;
      assert Marked(r);
      UnlinkFirst(members, t);
      count := count - 1;
      members := r;
    }

    /** The member at position i is unlinked. */
    method Extract(t: Thread, ghost i: nat)
      requires Valid() && i < |members| && members[i] == t
      modifies this, members`next, members`prev, t`blockedQueue
      ensures Valid() && members == Without(old(members), i) && t.blockedQueue == null
    {
      ghost var r := Without(members, i);
      WithoutAt(members, i);
      assert LinkedAt(members, i);
      if t.prev == null {
        head := t.next;
      }
      if t.next == null {
        tail := t.prev;
      }
      assert head == Neighbour(r, 0) && tail == Neighbour(r, |r| - 1);
      t.blockedQueue := null;
      assert Marked(r);
      UnlinkAt(members, i, t);
      count := count - 1;
      members := r;
    }

    /** wait_queue_remove_specific: constant time, because blocked_queue tells membership. */
    method RemoveSpecific(t: Thread, ghost ts: set<Thread>, ghost other: WaitQueue) returns (r: Thread?)
      requires Valid() && Marks(ts) && t in ts
      requires other != this && other.Valid()
      modifies this, members`next, members`prev, t`blockedQueue
      ensures Valid() && Marks(ts)
      ensures other.Valid()
      ensures t !in old(members) ==> r == null && members == old(members)
      ensures t in old(members) ==> r == t && t.blockedQueue == null && Extracted(old(members), t, members)
    {
      if t.blockedQueue != this {
        return null;
      }
      Apart(other);
      ghost var i :| 0 <= i < |members| && members[i] == t;
      WithoutMembers(members, i);
      Extract(t, i);
      return t;
    }
  }
}
