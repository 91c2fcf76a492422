/** Doubly linked lists through the `next` and `prev` fields of threads, as sequences. */
module Links {
  import opened Basics
  import opened Threads

  /** The thread at position i, or null past either end. */
  function Neighbour(s: seq<Thread>, i: int): (t: Thread?) {
    if 0 <= i < |s| then s[i] else null
  }

  /** The links of the thread at position i of s lead to its neighbours in s. */
  ghost predicate LinkedAt(s: seq<Thread>, i: nat)
    requires i < |s|
    reads s`next, s`prev
  {
    s[i].next == Neighbour(s, i + 1) && s[i].prev == Neighbour(s, i - 1)
  }

  /** The links of each thread of s lead to its neighbours in s, and no thread occurs twice. */
  ghost predicate Linked(s: seq<Thread>)
    reads s`next, s`prev
  {
    Distinct(s) && forall i :: 0 <= i < |s| ==> LinkedAt(s, i)
  }

  lemma WithoutAt(s: seq<Thread>, i: nat)
    requires i < |s|
    ensures forall j :: 0 <= j < i ==> Without(s, i)[j] == s[j]
    ensures forall j :: i <= j < |s| - 1 ==> Without(s, i)[j] == s[j + 1]
  {
  }

  lemma WithoutMembers(s: seq<Thread>, i: nat)
    requires i < |s|
    ensures forall x :: x in s && x != s[i] ==> x in Without(s, i)
  {
    WithoutAt(s, i);
    forall x | x in s && x != s[i]
      ensures x in Without(s, i)
    {
      var j :| 0 <= j < |s| && s[j] == x;
      assert x == Without(s, i)[if j < i then j else j - 1];
    }
  }

  lemma NotInWithout(s: seq<Thread>, i: nat)
    requires Distinct(s) && i < |s|
    ensures s[i] !in Without(s, i)
  {
  }

  /** Thread t is linked behind `tail`, the last thread of s. */
  method LinkLast(ghost s: seq<Thread>, tail: Thread?, t: Thread)
    requires Linked(s) && tail == Neighbour(s, |s| - 1) && t !in s
    modifies s`next, t`next, t`prev
    ensures Linked(s + [t])
  {
    ghost var r := s + [t];
    t.next := null;
    t.prev := tail;
    if tail != null {
      assert tail == s[|s| - 1];
      tail.next := t;
    }
    forall i | 0 <= i < |r|
      ensures LinkedAt(r, i)
    {
      if i < |s| {
        assert old(LinkedAt(s, i));
      }
    }
  }

  /** The first thread of s is unlinked. */
  method UnlinkFirst(ghost s: seq<Thread>, t: Thread)
    requires Linked(s) && t == Neighbour(s, 0)
    modifies s`next, s`prev
    ensures Linked(s[1..]) && t.next == null && t.prev == null
  {
    ghost var r := s[1..];
    assert LinkedAt(s, 0);
    if t.next != null {
      assert t.next == s[1];
      t.next.prev := null;
    }
    t.next := null;
    t.prev := null;
    forall i | 0 <= i < |r|
      ensures LinkedAt(r, i)
    {
      assert old(LinkedAt(s, i + 1)) && r[i] == s[i + 1];
    }
  }

  /** The thread at position i of s is unlinked from wherever it is. */
  method UnlinkAt(ghost s: seq<Thread>, ghost i: nat, t: Thread)
    requires Linked(s) && i < |s| && s[i] == t
    modifies s`next, s`prev
    ensures Linked(Without(s, i)) && t.next == null && t.prev == null
  {
    ghost var r := Without(s, i);
    WithoutAt(s, i);
    assert LinkedAt(s, i);
    if t.prev != null {
      assert t.prev == s[i - 1];
      t.prev.next := t.next;
    }
    if t.next != null {
      assert t.next == s[i + 1];
      t.next.prev := t.prev;
    }
    t.next := null;
    t.prev := null;
    forall j | 0 <= j < |r|
      ensures LinkedAt(r, j)
    {
      assert old(LinkedAt(s, if j < i then j else j + 1));
    }
  }
}
