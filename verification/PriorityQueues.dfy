/** An unsigned 32-bit word by its binary digits. */
module Bitmaps {
  import opened Basics

  const LEVELS := 32

  /** The first value that does not fit an unsigned 32-bit word. */
  const WORD := 0x1_0000_0000

  /** Bit i of b, that is, whether b & (1 << i) is not 0. */
  predicate Bit(b: nat, i: nat) {
    if i == 0 then b % 2 == 1 else Bit(b / 2, i - 1)
  }

  /** b | (1 << p). */
  function WithBit(b: nat, p: nat): (r: nat) {
    if p == 0 then b / 2 * 2 + 1 else WithBit(b / 2, p - 1) * 2 + b % 2
  }

  /** b & ~(1 << p). */
  function WithoutBit(b: nat, p: nat): (r: nat) {
    if p == 0 then b / 2 * 2 else WithoutBit(b / 2, p - 1) * 2 + b % 2
  }

  lemma {:induction false} SetBit(b: nat, p: nat, i: nat)
    ensures Bit(WithBit(b, p), i) <==> i == p || Bit(b, i)
  {
    if p != 0 && i != 0 {
      SetBit(b / 2, p - 1, i - 1);
    }
  }

  lemma {:induction false} ClearBit(b: nat, p: nat, i: nat)
    ensures Bit(WithoutBit(b, p), i) <==> i != p && Bit(b, i)
  {
    if p != 0 && i != 0 {
      ClearBit(b / 2, p - 1, i - 1);
    }
  }

  /** Neither operation leaves the width of the word. */
  lemma {:induction false} StaysInWidth(b: nat, p: nat, w: nat)
    requires p < w && b < Pow2(w)
    ensures WithBit(b, p) < Pow2(w) && WithoutBit(b, p) < Pow2(w)
  {
    var half, bit := b / 2, b % 2;
    assert b == 2 * half + bit && 0 <= bit <= 1;
    assert half < Pow2(w - 1);
    if p != 0 {
      StaysInWidth(half, p - 1, w - 1);
    }
  }

  lemma StaysInWord(b: nat, p: nat)
    requires p < LEVELS && b < WORD
    ensures WithBit(b, p) < WORD && WithoutBit(b, p) < WORD
  {
    assert Pow2(8) == 0x100 && Pow2(16) == 0x1_0000;
    assert Pow2(24) == 0x100_0000 && Pow2(32) == WORD;
    StaysInWidth(b, p, LEVELS);
  }

  lemma {:induction false} NoBits(i: nat)
    ensures !Bit(0, i)
  {
    if i != 0 {
      NoBits(i - 1);
    }
  }
}

/** The fixed-priority run queues (src/sched_priority.c). */
module PriorityQueues {
  import opened Basics
  import opened Threads
  import opened Links
  import opened Bitmaps

  /** A thread is at most once in at most one level. */
  ghost predicate Apart(levels: seq<seq<Thread>>) {
    forall i, j, t :: 0 <= i < |levels| && 0 <= j < |levels| && i != j && t in levels[i] ==> t !in levels[j]
  }

  ghost predicate Within(levels: seq<seq<Thread>>, all: set<Thread>) {
    forall i, t :: 0 <= i < |levels| && t in levels[i] ==> t in all
  }

  /** Bit i is set exactly when level i is not empty. */
  ghost predicate Marked(bitmap: nat, levels: seq<seq<Thread>>) {
    forall i :: 0 <= i < |levels| ==> (Bit(bitmap, i) <==> levels[i] != [])
  }

  ghost predicate Nowhere(levels: seq<seq<Thread>>, t: Thread) {
    forall i :: 0 <= i < |levels| ==> t !in levels[i]
  }

  lemma AddedApart(levels: seq<seq<Thread>>, p: nat, t: Thread)
    requires Apart(levels) && p < |levels| && Nowhere(levels, t)
    ensures Apart(levels[p := levels[p] + [t]])
    ensures forall all :: Within(levels, all) ==> Within(levels[p := levels[p] + [t]], all + {t})
  {
  }

  lemma FewerApart(levels: seq<seq<Thread>>, p: nat, i: nat)
    requires Apart(levels) && p < |levels| && i < |levels[p]|
    ensures Apart(levels[p := Without(levels[p], i)])
    ensures Distinct(levels[p]) ==> Nowhere(levels[p := Without(levels[p], i)], levels[p][i])
    ensures forall all :: Within(levels, all) ==> Within(levels[p := Without(levels[p], i)], all)
  {
    if Distinct(levels[p]) {
      NotInWithout(levels[p], i);
    }
  }

  ghost function Total(levels: seq<seq<Thread>>): (n: nat) {
    if levels == [] then 0 else |levels[0]| + Total(levels[1..])
  }

  lemma {:induction false} TotalUpdate(levels: seq<seq<Thread>>, p: nat, s: seq<Thread>)
    requires p < |levels|
    ensures Total(levels[p := s]) == Total(levels) - |levels[p]| + |s|
  {
    var r := levels[p := s];
    if p == 0 {
      assert r[1..] == levels[1..];
    } else {
      TotalUpdate(levels[1..], p - 1, s);
      assert r[1..] == levels[1..][p - 1 := s];
    }
  }

  lemma {:induction false} TotalEmpty(levels: seq<seq<Thread>>)
    requires forall i :: 0 <= i < |levels| ==> levels[i] == []
    ensures Total(levels) == 0
  {
    if levels != [] {
      TotalEmpty(levels[1..]);
    }
  }

  /** p is the highest non-empty level, or -1 if all are empty. */
  ghost predicate Highest(levels: seq<seq<Thread>>, p: int) {
    && -1 <= p < |levels|
    && (p >= 0 ==> levels[p] != [])
    && forall i :: p < i < |levels| ==> levels[i] == []
  }

  /** Where a priority outside the levels is put. */
  function Clamp(priority: int): (p: nat)
    ensures 0 <= priority < LEVELS ==> p == priority
    ensures priority < 0 ==> p == 0
    ensures priority >= LEVELS ==> p == LEVELS - 1
  {
    if priority < 0 then 0 else if priority >= LEVELS then LEVELS - 1 else priority
  }

  ghost function ThreadsOf(levels: seq<seq<Thread>>): (r: set<Thread>) {
    set i, t | 0 <= i < |levels| && t in levels[i] :: t
  }

  /** Every thread is in the level of its priority. */
  ghost predicate Filed(levels: seq<seq<Thread>>)
    reads ThreadsOf(levels)`priority
  {
    forall i, t :: 0 <= i < |levels| && t in levels[i] ==> i == Clamp(t.priority)
  }

  lemma AddedFiled(levels: seq<seq<Thread>>, t: Thread)
    requires Filed(levels) && |levels| == LEVELS
    ensures var p := Clamp(t.priority); Filed(levels[p := levels[p] + [t]])
  {
  }

  lemma FewerFiled(levels: seq<seq<Thread>>, p: nat, i: nat)
    requires Filed(levels) && p < |levels| && i < |levels[p]|
    ensures Filed(levels[p := Without(levels[p], i)])
  {
    assert forall x :: x in Without(levels[p], i) ==> x in levels[p];
  }

  /** Every thread other than t is. */
  ghost predicate FiledBut(levels: seq<seq<Thread>>, t: Thread)
    reads ThreadsOf(levels)`priority
  {
    forall i, x :: 0 <= i < |levels| && x in levels[i] && x != t ==> i == Clamp(x.priority)
  }

  lemma RelocatedFiled(levels: seq<seq<Thread>>, t: Thread, r: seq<seq<Thread>>)
    requires FiledBut(levels, t) && Apart(levels) && forall i :: 0 <= i < |levels| ==> Distinct(levels[i])
    requires if Nowhere(levels, t) then r == levels else Relocated(levels, t, Clamp(t.priority), r)
    ensures Filed(r)
  {
    if !Nowhere(levels, t) {
      var p: nat, i: nat :| MovedFrom(levels, t, p, i, Clamp(t.priority), r);
      NotInWithout(levels[p], i);
      assert forall x :: x in Without(levels[p], i) ==> x in levels[p] && x != t;
    }
  }

  lemma HighestFiled(levels: seq<seq<Thread>>, p: nat, t: Thread)
    requires Filed(levels) && Highest(levels, p) && t in levels[p]
    ensures forall x :: !Nowhere(levels, x) ==> Clamp(x.priority) <= Clamp(t.priority)
  {
  }

  class PriorityState {
    const queues: array<Thread?>
    var bitmap: nat
    var count: int
    ghost var levels: seq<seq<Thread>>
    ghost var all: set<Thread>

    ghost predicate HeadsFor(r: seq<seq<Thread>>)
      reads queues
    {
      queues.Length == |r| && forall i :: 0 <= i < |r| ==> queues[i] == Neighbour(r[i], 0)
    }

    /** Everything but the counter: bit i is set exactly when level i is not empty. */
    ghost predicate Shaped()
      reads this, queues, all`next, all`prev
    {
      && |levels| == LEVELS && bitmap < WORD
      && Apart(levels)
      && Within(levels, all)
      && (forall i :: 0 <= i < LEVELS ==> Linked(levels[i]))
      && HeadsFor(levels)
      && Marked(bitmap, levels)
    }

    ghost predicate Valid()
      reads this, queues, all`next, all`prev
    {
      Shaped() && count == Total(levels)
    }

    /** find_highest_priority. */
    method FindHighest() returns (p: int)
      requires Shaped()
      ensures Highest(levels, p)
    {
      if bitmap == 0 {
        forall i | 0 <= i < LEVELS
          ensures levels[i] == []
        {
          NoBits(i);
        }
        return -1;
      }
      p := LEVELS - 1;
      while p >= 0
        invariant -1 <= p < LEVELS
        invariant forall i :: p < i < LEVELS ==> levels[i] == []
      {
        if Bit(bitmap, p) {
          return p;
        }
        p := p - 1;
      }
    }

    /** The walk along level p in priority_remove and priority_update_priority. */
    method Find(t: Thread, p: nat) returns (found: bool, ghost i: nat)
      requires Shaped() && p < LEVELS
      ensures found <==> t in levels[p]
      ensures found ==> i < |levels[p]| && levels[p][i] == t
    {
      ghost var s := levels[p];
      var x := queues[p];
      i := 0;
      while x != null
        invariant i <= |s| && x == Neighbour(s, i) && t !in s[..i]
        decreases |s| - i
      {
        if x == t {
          return true, i;
        }
        assert LinkedAt(s, i);
        x := x.next;
        i := i + 1;
      }
      return false, i;
    }

    /** The search over all levels. */
    method FindLevel(t: Thread) returns (p: int, ghost i: nat)
      requires Shaped()
      ensures p < 0 ==> Nowhere(levels, t)
      ensures p >= 0 ==> p < LEVELS && i < |levels[p]| && levels[p][i] == t
    {
      p, i := 0, 0;
      while p < LEVELS
        invariant 0 <= p <= LEVELS
        invariant forall q :: 0 <= q < p ==> t !in levels[q]
      {
        var found;
        found, i := Find(t, p);
        if found {
          return;
        }
        p := p + 1;
      }
      return -1, 0;
    }

    /** The last thread of level p, which is not empty. */
    method FindTail(p: nat) returns (t: Thread)
      requires Shaped() && p < LEVELS && levels[p] != []
      ensures t == levels[p][|levels[p]| - 1]
    {
      ghost var s := levels[p];
      ghost var i := 0;
      t := queues[p];
      assert LinkedAt(s, 0);
      while t.next != null
        invariant i < |s| && t == s[i] && LinkedAt(s, i)
        decreases |s| - i
      {
        t := t.next;
        i := i + 1;
        assert LinkedAt(s, i);
      }
    }

    /** Thread t is linked behind level p. */
    method Link(t: Thread, p: nat, tail: Thread?)
      requires Apart(levels) && p < |levels| && (forall i :: 0 <= i < |levels| ==> Linked(levels[i]))
      requires Nowhere(levels, t) && tail == Neighbour(levels[p], |levels[p]| - 1)
      modifies levels[p]`next, t`next, t`prev
      ensures Linked(levels[p] + [t])
      ensures forall i :: 0 <= i < |levels| && i != p ==> Linked(levels[i])
    {
      LinkLast(levels[p], tail, t);
      forall i | 0 <= i < |levels| && i != p
        ensures Linked(levels[i])
      {
        assert old(Linked(levels[i]));
        forall j | 0 <= j < |levels[i]|
          ensures LinkedAt(levels[i], j)
        {
          assert levels[i][j] in levels[i] && old(LinkedAt(levels[i], j));
        }
      }
    }

    /** Bit p is set, since level p is about to hold s. */
    method MarkLevel(p: nat, ghost s: seq<Thread>)
      requires p < LEVELS == |levels| && bitmap < WORD && Marked(bitmap, levels) && s != []
      modifies this`bitmap
      ensures bitmap < WORD && Marked(bitmap, levels[p := s])
    {
      forall i | 0 <= i < LEVELS
        ensures Bit(WithBit(bitmap, p), i) <==> i == p || Bit(bitmap, i)
      {
        SetBit(bitmap, p, i);
      }
      StaysInWord(bitmap, p);
      bitmap := WithBit(bitmap, p);
    }

    /** The head and the bit of an empty level are set for its first thread; the tail is found otherwise. */
    method Prepare(t: Thread, p: nat) returns (tail: Thread?)
      requires Shaped() && p < LEVELS
      modifies this`bitmap, queues
      ensures tail == Neighbour(levels[p], |levels[p]| - 1)
      ensures bitmap < WORD && Marked(bitmap, levels[p := levels[p] + [t]])
      ensures HeadsFor(levels[p := levels[p] + [t]])
    {
      tail := null;
      if queues[p] == null {
        queues[p] := t;
        MarkLevel(p, levels[p] + [t]);
      } else {
        tail := FindTail(p);
      }
    }

    /** add_to_priority_queue. */
    method AddTo(t: Thread, p: nat)
      requires Shaped() && p < LEVELS && Nowhere(levels, t)
      modifies this`bitmap, this`levels, this`all, queues, levels[p]`next, t`next, t`prev
      ensures Shaped() && levels == old(levels)[p := old(levels[p]) + [t]] && all == old(all) + {t}
    {
      ghost var r := levels[p := levels[p] + [t]];
      AddedApart(levels, p, t);
      var tail := Prepare(t, p);
      Link(t, p, tail);
      levels := r;
      all := all + {t};
    }

    /** The thread at position i of level p is unlinked. */
    method Unlink(t: Thread, p: nat, ghost i: nat)
      requires Apart(levels) && p < |levels| && (forall q :: 0 <= q < |levels| ==> Linked(levels[q]))
      requires i < |levels[p]| && levels[p][i] == t
      modifies levels[p]`next, levels[p]`prev
      ensures Linked(Without(levels[p], i))
      ensures forall q :: 0 <= q < |levels| && q != p ==> Linked(levels[q])
    {
      UnlinkAt(levels[p], i, t);
      forall q | 0 <= q < |levels| && q != p
        ensures Linked(levels[q])
      {
        assert old(Linked(levels[q]));
        forall j | 0 <= j < |levels[q]|
          ensures LinkedAt(levels[q], j)
        {
          assert levels[q][j] in levels[q] && old(LinkedAt(levels[q], j));
        }
      }
    }

    /** Bit p is cleared, since level p has become empty. */
    method UnmarkLevel(p: nat)
      requires p < LEVELS == |levels| && bitmap < WORD && Marked(bitmap, levels)
      modifies this`bitmap
      ensures bitmap < WORD && Marked(bitmap, levels[p := []])
    {
      forall i | 0 <= i < LEVELS
        ensures Bit(WithoutBit(bitmap, p), i) <==> i != p && Bit(bitmap, i)
      {
        ClearBit(bitmap, p, i);
      }
      StaysInWord(bitmap, p);
      bitmap := WithoutBit(bitmap, p);
    }

    /** The head moves on if the first thread leaves, and an empty level loses its bit. */
    method Withdraw(t: Thread, p: nat, ghost i: nat)
      requires Shaped() && p < LEVELS && i < |levels[p]| && levels[p][i] == t
      modifies this`bitmap, queues
      ensures bitmap < WORD && Marked(bitmap, levels[p := Without(levels[p], i)])
      ensures HeadsFor(levels[p := Without(levels[p], i)])
    {
      WithoutAt(levels[p], i);
      assert LinkedAt(levels[p], i);
      if t.prev == null {
        queues[p] := t.next;
      }
      assert queues[p] == Neighbour(Without(levels[p], i), 0);
      if queues[p] == null {
        UnmarkLevel(p);
      }
    }

    /** remove_from_priority_queue. */
    method RemoveFrom(t: Thread, p: nat, ghost i: nat)
      requires Shaped() && p < LEVELS && i < |levels[p]| && levels[p][i] == t
      modifies this`bitmap, this`levels, queues, levels[p]`next, levels[p]`prev
      ensures Shaped() && TakenOut(old(levels), t, p, i, levels) && Nowhere(levels, t)
    {
      ghost var r := levels[p := Without(levels[p], i)];
      FewerApart(levels, p, i);
      Withdraw(t, p, i);
      Unlink(t, p, i);
      levels := r;
    }

    /** priority_init. */
    constructor ()
      ensures Valid() && fresh(queues) && levels == seq(LEVELS, _ => []) && all == {}
    {
      queues := new Thread?[LEVELS](_ => null);
      bitmap, count, all := 0, 0, {};
      levels := seq(LEVELS, _ => []);
      new;
      TotalEmpty(levels);
      forall i | 0 <= i < LEVELS
        ensures !Bit(bitmap, i)
      {
        NoBits(i);
      }
    }

    /** priority_enqueue. */
    method Enqueue(t: Thread, slice: nat)
      requires Valid() && Nowhere(levels, t)
      modifies this`bitmap, this`levels, this`all, this`count, queues
      modifies levels[Clamp(t.priority)]`next, t`next, t`prev, t`timeslice
      ensures Valid() && t.timeslice == slice && all == old(all) + {t}
      ensures var p := Clamp(t.priority); levels == old(levels)[p := old(levels)[p] + [t]]
      ensures 0 <= t.priority < LEVELS ==> levels[t.priority] == old(levels)[t.priority] + [t]
      ensures t.priority < 0 ==> levels[0] == old(levels)[0] + [t]
      ensures t.priority >= LEVELS ==> levels[LEVELS - 1] == old(levels)[LEVELS - 1] + [t]
      ensures old(Filed(levels)) ==> Filed(levels)
    {
      if Filed(levels) {
        AddedFiled(levels, t);
      }
      Append(t, Clamp(t.priority));
      t.timeslice := slice;
    }

    /** The thread enters at the end of level p. */
    method Append(t: Thread, p: nat)
      requires Valid() && p < LEVELS && Nowhere(levels, t)
      modifies this`bitmap, this`levels, this`all, this`count, queues, levels[p]`next, t`next, t`prev
      ensures Valid() && levels == old(levels)[p := old(levels)[p] + [t]] && all == old(all) + {t}
    {
      TotalUpdate(levels, p, levels[p] + [t]);
      AddTo(t, p);
      count := count + 1;
    }

    /** The thread at position i of level p leaves the queues. */
    method Extract(t: Thread, p: nat, ghost i: nat)
      requires Valid() && p < LEVELS && i < |levels[p]| && levels[p][i] == t
      modifies this`bitmap, this`levels, this`count, queues, all`next, all`prev
      ensures Valid() && TakenOut(old(levels), t, p, i, levels) && Nowhere(levels, t)
    {
      TotalUpdate(levels, p, Without(levels[p], i));
      assert forall x :: x in levels[p] ==> x in all;
      RemoveFrom(t, p, i);
      count := count - 1;
    }

    /** priority_dequeue: the oldest thread of the highest level that is not empty. */
    method Dequeue() returns (t: Thread?)
      requires Valid()
      modifies this`bitmap, this`levels, this`count, queues, all`next, all`prev
      ensures Valid()
      ensures t == null <==> Highest(old(levels), -1)
      ensures t == null ==> levels == old(levels)
      ensures t != null ==> exists p: nat :: Highest(old(levels), p) && TakenOut(old(levels), t, p, 0, levels)
      ensures old(Filed(levels)) ==> Filed(levels)
      ensures t != null && old(Filed(levels)) ==>
        forall x :: !Nowhere(old(levels), x) ==> Clamp(x.priority) <= Clamp(t.priority)
    {
      var p := FindHighest();
      if p < 0 {
        return null;
      }
      t := queues[p];
      if Filed(levels) {
        HighestFiled(levels, p, t);
        FewerFiled(levels, p, 0);
      }
      Extract(t, p, 0);
    }

    /** priority_remove: first the level of the thread's priority, then every level. */
    method Remove(t: Thread)
      requires Valid()
      modifies this`bitmap, this`levels, this`count, queues, all`next, all`prev
      ensures Valid() && Nowhere(levels, t)
      ensures old(Nowhere(levels, t)) ==> levels == old(levels)
      ensures !old(Nowhere(levels, t)) ==> exists p, i: nat :: TakenOut(old(levels), t, p, i, levels)
      ensures old(Filed(levels)) ==> Filed(levels)
    {
      var p: int := Clamp(t.priority);
      var found; ghost var i;
      found, i := Find(t, p);
      if !found {
        p, i := FindLevel(t);
        if p < 0 {
          return;
        }
      }
      if Filed(levels) {
        FewerFiled(levels, p, i);
      }
      Extract(t, p, i);
    }

    /** priority_should_preempt, where the code indexes the levels only in range. A negative priority
        other than -1 always yields: even -1, the answer for empty levels, is above it. */
    method ShouldPreempt(current: Thread) returns (r: bool)
      requires Valid()
      requires current.priority < -1 || Above(levels, current.priority) || current.timeslice != 0
        || 0 <= current.priority < LEVELS
      ensures r <==> (
        || current.priority < -1
        || Above(levels, current.priority)
        || (current.timeslice == 0 && 0 <= current.priority < LEVELS && levels[current.priority] != []))
    {
      var highest := FindHighest();
      if highest > current.priority {
        return true;
      }
      return current.timeslice == 0 && queues[current.priority] != null;
    }

    /** uthread_setpriority under this policy. */
    method SetPriority(t: Thread, priority: int) returns (rc: int)
      requires Valid()
      modifies this`bitmap, this`levels, this`all, queues, all`next, all`prev, t`next, t`prev, t`priority
      ensures Valid()
      ensures rc == EINVAL <==> !(0 <= priority < LEVELS)
      ensures rc == EINVAL ==> t.priority == old(t.priority) && levels == old(levels)
      ensures rc != EINVAL ==> rc == SUCCESS && t.priority == priority
      ensures rc == SUCCESS && Nowhere(old(levels), t) ==> levels == old(levels)
      ensures rc == SUCCESS && !Nowhere(old(levels), t) ==> Relocated(old(levels), t, priority, levels)
      ensures old(Filed(levels)) ==> Filed(levels)
    {
      if priority < 0 || priority > LEVELS - 1 {
        return EINVAL;
      }
      ghost var was := levels;
      assert Apart(was) && forall i :: 0 <= i < |was| ==> Distinct(was[i]);
      t.priority := priority;
      UpdatePriority(t);
      if FiledBut(was, t) {
        RelocatedFiled(was, t, levels);
      }
      return SUCCESS;
    }

    /** priority_update_priority: a queued thread goes to the tail of its new level. The code takes
        the priority of a queued thread to be a level. */
    method UpdatePriority(t: Thread)
      requires Valid() && (Nowhere(levels, t) || 0 <= t.priority < LEVELS)
      modifies this`bitmap, this`levels, this`all, queues, all`next, all`prev, t`next, t`prev
      ensures Valid()
      ensures if Nowhere(old(levels), t) then levels == old(levels) else Relocated(old(levels), t, t.priority, levels)
    {
      var q; ghost var i;
      q, i := FindLevel(t);
      if q >= 0 {
        Relocate(t, q, i, t.priority);
      }
    }

    /** The thread at position i of level p goes to the tail of level q. */
    method Relocate(t: Thread, p: nat, ghost i: nat, q: nat)
      requires Valid() && p < LEVELS && i < |levels[p]| && levels[p][i] == t && q < LEVELS
      modifies this`bitmap, this`levels, this`all, queues, all`next, all`prev, t`next, t`prev
      ensures Valid() && Relocated(old(levels), t, q, levels)
    {
      ghost var was := levels;
      assert forall x :: x in levels[p] ==> x in all;
      RemoveFrom(t, p, i);
      MovedConserves(was, t, p, i, levels, q);
      assert forall x :: x in levels[q] ==> x in all;
      AddTo(t, q);
      assert MovedFrom(was, t, p, i, q, levels);
    }
  }

  /** Some level above the priority is not empty. */
  ghost predicate Above(levels: seq<seq<Thread>>, priority: int) {
    exists p :: 0 <= p < |levels| && priority < p && levels[p] != []
  }

  /** r is levels with the queued thread t moved to the tail of level q. */
  ghost predicate Relocated(levels: seq<seq<Thread>>, t: Thread, q: nat, r: seq<seq<Thread>>) {
    exists p: nat, i: nat :: MovedFrom(levels, t, p, i, q, r)
  }

  ghost predicate MovedFrom(levels: seq<seq<Thread>>, t: Thread, p: nat, i: nat, q: nat, r: seq<seq<Thread>>) {
    && p < |levels| && i < |levels[p]| && levels[p][i] == t && q < |levels|
    && var mid := levels[p := Without(levels[p], i)]; r == mid[q := mid[q] + [t]]
  }

  /** Relocating loses nobody, adds nobody, keeps the total and puts the thread last. */
  lemma RelocatedConserves(levels: seq<seq<Thread>>, t: Thread, q: nat, r: seq<seq<Thread>>)
    requires Relocated(levels, t, q, r)
    ensures Total(r) == Total(levels) && forall x :: Nowhere(levels, x) <==> Nowhere(r, x)
    ensures q < |r| && r[q] != [] && r[q][|r[q]| - 1] == t
  {
    var p: nat, i: nat :| MovedFrom(levels, t, p, i, q, r);
    MovedConserves(levels, t, p, i, levels[p := Without(levels[p], i)], q);
  }

  /** Moving a thread between levels loses nobody, adds nobody and keeps the total. */
  lemma MovedConserves(levels: seq<seq<Thread>>, t: Thread, p: nat, i: nat, mid: seq<seq<Thread>>, q: nat)
    requires TakenOut(levels, t, p, i, mid) && q < |levels|
    ensures var r := mid[q := mid[q] + [t]];
      && Total(r) == Total(levels)
      && forall x :: Nowhere(levels, x) <==> Nowhere(r, x)
  {
    var r := mid[q := mid[q] + [t]];
    TotalUpdate(levels, p, Without(levels[p], i));
    TotalUpdate(mid, q, mid[q] + [t]);
    WithoutMembers(levels[p], i);
    assert forall x :: x in Without(levels[p], i) ==> x in levels[p];
    forall x
      ensures Nowhere(levels, x) <==> Nowhere(r, x)
    {
      if Nowhere(levels, x) {
        assert x != t;
      } else {
        var j :| 0 <= j < |levels| && x in levels[j];
        if x == t {
          assert x in r[q];
        } else {
          assert x in mid[j];
          assert x in r[j];
        }
      }
    }
  }

  /** r is what is left of levels once t has been taken from position i of level p. */
  ghost predicate TakenOut(levels: seq<seq<Thread>>, t: Thread, p: nat, i: nat, r: seq<seq<Thread>>) {
    p < |levels| && i < |levels[p]| && levels[p][i] == t && r == levels[p := Without(levels[p], i)]
  }

  /** A thread that goes into level p is the next to leave, as after a yield, if and only if no
      level from p up holds a thread. */
  lemma NextIsNewcomer(levels: seq<seq<Thread>>, t: Thread, p: nat, h: int)
    requires p < |levels| && Nowhere(levels, t)
    requires Highest(levels[p := levels[p] + [t]], h)
    ensures h >= p
    ensures levels[p := levels[p] + [t]][h][0] == t <==> forall q :: p <= q < |levels| ==> levels[q] == []
  {
    var r := levels[p := levels[p] + [t]];
    assert r[p] != [];
    if h > p {
      assert r[h] == levels[h] && levels[h][0] in levels[h];
    } else if levels[p] != [] {
      assert r[p][0] == levels[p][0] && levels[p][0] in levels[p];
    } else {
      assert forall q :: p < q < |levels| ==> levels[q] == r[q];
    }
  }

  /** Of two threads put into an empty state, the one of higher priority is handed out, whatever the
      order they came in; of equal ones the first. */
  method HigherFirst(a: Thread, b: Thread, slice: nat) returns (t: Thread?)
    requires a != b && 0 <= a.priority < LEVELS && 0 <= b.priority < LEVELS
    modifies a, b
    ensures t == if b.priority > a.priority then b else a
  {
    var q := TwoQueued(a, b, slice);
    ghost var levels := q.levels;
    assert a in levels[a.priority] && b in levels[b.priority];
    t := q.Dequeue();
  }

  method TwoQueued(a: Thread, b: Thread, slice: nat) returns (q: PriorityState)
    requires a != b && 0 <= a.priority < LEVELS && 0 <= b.priority < LEVELS
    modifies a, b
    ensures fresh(q) && fresh(q.queues) && q.Valid() && q.all == {a, b}
    ensures a.priority == old(a.priority) && b.priority == old(b.priority)
    ensures forall i :: 0 <= i < LEVELS ==>
      q.levels[i] == (if i == a.priority then [a] else []) + (if i == b.priority then [b] else [])
  {
    q := new PriorityState();
    q.Enqueue(a, slice);
    q.Enqueue(b, slice);
  }

  /** Setting the priority that a thread was enqueued with leaves it where enqueueing has put it. */
  method SetSamePriority(q: PriorityState, t: Thread, slice: nat) returns (rc: int)
    requires q.Valid() && Nowhere(q.levels, t) && 0 <= t.priority < LEVELS
    modifies q, q.queues, q.all`next, q.all`prev, t
    ensures rc == SUCCESS && t.priority == old(t.priority) && q.Valid()
    ensures q.levels == old(q.levels)[t.priority := old(q.levels)[t.priority] + [t]]
  {
    q.Enqueue(t, slice);
    ghost var levels := q.levels;
    assert t in levels[t.priority];
    rc := q.SetPriority(t, t.priority);
    StaysLast(levels, t, t.priority, q.levels);
  }

  /** A thread that is last in its level stays there when it is relocated to it. */
  lemma StaysLast(levels: seq<seq<Thread>>, t: Thread, p: nat, r: seq<seq<Thread>>)
    requires Apart(levels) && p < |levels| && Distinct(levels[p])
    requires levels[p] != [] && levels[p][|levels[p]| - 1] == t && Relocated(levels, t, p, r)
    ensures r == levels
  {
    var q: nat, i: nat :| MovedFrom(levels, t, q, i, p, r);
    assert t in levels[p] && t in levels[q];
    assert i == |levels[p]| - 1;
    assert Without(levels[p], i) + [t] == levels[p];
  }
}
