/** What the run queue's three policies pick. Seen as a sequence in the order of arrival, each run
    queue hands out the earliest thread of the highest rank: under round robin all ranks are equal,
    under priorities the rank is the level, under CFS it is the vruntime, lowest first. */
module Policies {
  import opened Basics
  import opened Scheduling
  import Spec = CfsSpec
  import opened CfsPreemption
  import RoundRobin

  /** The earliest position of the highest rank. */
  function Best<T>(s: seq<T>, rank: T -> int): (i: nat)
    requires s != []
    ensures i < |s|
    ensures forall j :: 0 <= j < i ==> rank(s[j]) < rank(s[i])
    ensures forall j :: i <= j < |s| ==> rank(s[j]) <= rank(s[i])
  {
    if |s| == 1 then 0
    else
      var j := Best(s[1..], rank);
      assert forall i :: 1 <= i < |s| ==> s[i] == s[1..][i - 1];
      if rank(s[0]) >= rank(s[1..][j]) then 0 else j + 1
  }

  /** Nothing else is both earliest and of the highest rank. */
  lemma BestUnique<T>(s: seq<T>, rank: T -> int, i: nat)
    requires i < |s|
    requires forall j :: 0 <= j < i ==> rank(s[j]) < rank(s[i])
    requires forall j :: i <= j < |s| ==> rank(s[j]) <= rank(s[i])
    ensures Best(s, rank) == i
  {
  }

  // ---------------------------------------------------------------- when a yield hands the processor back

  /** Under a policy by rank, a yield keeps every thread in its place, and passes the processor on,
      if and only if some ready thread has at least the rank of the caller. */
  lemma YieldByRank(k: Sched, rank: Tid -> int)
    requires Live(k)
    ensures var self := k.current.value; var pick := Best<Tid>(k.runq + [self], rank);
      Live(Yield(k, pick)) <==> exists t :: t in k.runq && rank(t) >= rank(self)
  {
    var self := k.current.value;
    var s := k.runq + [self];
    var pick := Best(s, rank);
    YieldLiveIff(k, pick);
    if pick < |k.runq| {
      assert s[pick] in k.runq && s[|k.runq|] == self;
    } else {
      forall t | t in k.runq
        ensures rank(t) < rank(self)
      {
        var j :| 0 <= j < |k.runq| && k.runq[j] == t;
        assert s[j] == t;
      }
    }
  }

  /** Round robin: if and only if some thread is ready at all. */
  lemma YieldRoundRobin(k: Sched)
    requires Live(k)
    ensures Best(k.runq + [k.current.value], t => 0) == 0
    ensures Live(Yield(k, 0)) <==> k.runq != []
  {
    BestUnique(k.runq + [k.current.value], t => 0, 0);
    YieldByRank(k, t => 0);
    if k.runq != [] {
      assert k.runq[0] in k.runq;
    }
  }

  // ---------------------------------------------------------------- priority levels

  /** The threads of rank p in the order of their arrival. */
  function Level<T>(s: seq<T>, rank: T -> int, p: int): (r: seq<T>) {
    if s == [] then [] else (if rank(s[0]) == p then [s[0]] else []) + Level(s[1..], rank, p)
  }

  lemma {:induction false} LevelAppend<T>(a: seq<T>, b: seq<T>, rank: T -> int, p: int)
    ensures Level(a + b, rank, p) == Level(a, rank, p) + Level(b, rank, p)
  {
    if a == [] {
      assert a + b == b;
    } else {
      assert (a + b)[1..] == a[1..] + b;
      LevelAppend(a[1..], b, rank, p);
      var x := if rank(a[0]) == p then [a[0]] else [];
      var u, v := Level(a[1..], rank, p), Level(b, rank, p);
      assert x + (u + v) == (x + u) + v;
    }
  }

  lemma {:induction false} LevelNone<T>(s: seq<T>, rank: T -> int, p: int)
    requires forall j :: 0 <= j < |s| ==> rank(s[j]) != p
    ensures Level(s, rank, p) == []
  {
    if s != [] {
      LevelNone(s[1..], rank, p);
    }
  }

  /** Arriving is going to the end of one's level. */
  lemma LevelArrives<T>(s: seq<T>, t: T, rank: T -> int, p: int)
    ensures Level(s + [t], rank, p) == Level(s, rank, p) + if rank(t) == p then [t] else []
  {
    LevelAppend(s, [t], rank, p);
    assert [t][1..] == [];
  }

  lemma LevelSplit<T>(s: seq<T>, i: nat, rank: T -> int, p: int)
    requires i < |s|
    ensures Level(s, rank, p) ==
      Level(s[..i], rank, p) + (if rank(s[i]) == p then [s[i]] else []) + Level(s[i + 1..], rank, p)
    ensures Level(Without(s, i), rank, p) == Level(s[..i], rank, p) + Level(s[i + 1..], rank, p)
  {
    assert s == (s[..i] + [s[i]]) + s[i + 1..];
    LevelAppend(s[..i] + [s[i]], s[i + 1..], rank, p);
    LevelArrives(s[..i], s[i], rank, p);
    LevelAppend(s[..i], s[i + 1..], rank, p);
  }

  /** Picking by rank is taking the first thread of the highest level that is not empty. */
  lemma LevelPicks<T>(s: seq<T>, rank: T -> int, p: int)
    requires s != []
    ensures var i := Best(s, rank); var h := rank(s[i]);
      && (p > h ==> Level(s, rank, p) == [])
      && (p == h ==> Level(s, rank, p) == [s[i]] + Level(Without(s, i), rank, p))
      && (p != h ==> Level(s, rank, p) == Level(Without(s, i), rank, p))
  {
    var i := Best(s, rank);
    LevelSplit(s, i, rank, p);
    if p == rank(s[i]) {
      LevelNone(s[..i], rank, p);
    } else if p > rank(s[i]) {
      LevelNone(s, rank, p);
    }
  }

  lemma {:induction false} LevelMember<T>(s: seq<T>, rank: T -> int, j: nat)
    requires j < |s|
    ensures Level(s, rank, rank(s[j])) != []
  {
    if j > 0 {
      LevelMember(s[1..], rank, j - 1);
    }
  }

  /** Priorities: a yield passes the processor on if and only if some level from the caller's up
      holds a thread. */
  lemma YieldPriorities(k: Sched, rank: Tid -> int)
    requires Live(k)
    ensures var self := k.current.value; var pick := Best<Tid>(k.runq + [self], rank);
      Live(Yield(k, pick)) <==> exists p :: p >= rank(self) && Level(k.runq, rank, p) != []
  {
    var self := k.current.value;
    YieldByRank(k, rank);
    if t :| t in k.runq && rank(t) >= rank(self) {
      var j :| 0 <= j < |k.runq| && k.runq[j] == t;
      LevelMember(k.runq, rank, j);
    } else {
      forall p | p >= rank(self)
        ensures Level(k.runq, rank, p) == []
      {
        assert forall j :: 0 <= j < |k.runq| ==> k.runq[j] in k.runq;
        LevelNone(k.runq, rank, p);
      }
    }
  }

  // ---------------------------------------------------------------- CFS

  /** The sorted sequence that enqueueing the threads one by one builds. */
  function Ordered<T>(s: seq<T>, key: T -> nat): (r: seq<Spec.Entry<T>>) {
    if s == [] then []
    else Spec.Place(Ordered(s[..|s| - 1], key), Spec.Entry(s[|s| - 1], key(s[|s| - 1])))
  }

  lemma OrderedSnoc<T>(s: seq<T>, t: T, key: T -> nat)
    ensures Ordered(s + [t], key) == Spec.Place(Ordered(s, key), Spec.Entry(t, key(t)))
  {
    assert (s + [t])[..|s|] == s;
  }

  lemma BestSnoc<T>(s: seq<T>, t: T, rank: T -> int)
    requires s != []
    ensures Best(s + [t], rank) == if rank(t) > rank(s[Best(s, rank)]) then |s| else Best(s, rank)
  {
    var r, b := s + [t], Best(s, rank);
    var i := if rank(t) > rank(s[b]) then |s| else b;
    assert r[|s|] == t;
    forall j | 0 <= j < |s|
      ensures r[j] == s[j] && rank(r[j]) <= rank(s[b])
    {
      if j < b {
        assert rank(s[j]) < rank(s[b]);
      }
    }
    BestUnique(r, rank, i);
  }

  /** The lower the vruntime, the higher the rank. */
  function Urgency<T>(key: T -> nat): (rank: T -> int) {
    t => -(key(t) as int)
  }

  ghost predicate PicksFirst<T>(s: seq<T>, key: T -> nat, i: nat) {
    i < |s| && Ordered(s, key) == [Spec.Entry(s[i], key(s[i]))] + Ordered(Without(s, i), key)
  }

  lemma NewcomerFirst<T>(s: seq<T>, t: T, key: T -> nat, i: nat)
    requires PicksFirst(s, key, i) && key(t) < key(s[i])
    ensures PicksFirst(s + [t], key, |s|)
  {
    OrderedSnoc(s, t, key);
    assert Without(s + [t], |s|) == s;
  }

  lemma NewcomerLater<T>(s: seq<T>, t: T, key: T -> nat, i: nat)
    requires PicksFirst(s, key, i) && key(t) >= key(s[i])
    ensures PicksFirst(s + [t], key, i)
  {
    var e, o := Spec.Entry(t, key(t)), Ordered(s, key);
    OrderedSnoc(s, t, key);
    OrderedSnoc(Without(s, i), t, key);
    assert Without(s + [t], i) == Without(s, i) + [t];
    assert o[1..] == Ordered(Without(s, i), key);
    assert Spec.Place(o, e) == [o[0]] + Spec.Place(o[1..], e);
  }

  /** Picking by vruntime is taking the first entry of the sorted sequence. */
  lemma {:induction false} OrderedPicks<T>(s: seq<T>, key: T -> nat)
    requires s != []
    ensures PicksFirst(s, key, Best(s, Urgency(key)))
    decreases |s|
  {
    var n := |s| - 1;
    var a, t := s[..n], s[n];
    assert s == a + [t];
    if a == [] {
      OrderedSnoc(a, t, key);
      assert Without(s, 0) == [];
    } else {
      OrderedPicks(a, key);
      BestSnoc(a, t, Urgency(key));
      var i := Best(a, Urgency(key));
      if key(t) < key(a[i]) {
        NewcomerFirst(a, t, key, i);
      } else {
        NewcomerLater(a, t, key, i);
      }
    }
  }

  lemma FirstKey<T(!new)>(s: seq<T>, key: T -> nat, bound: nat)
    requires s != []
    ensures Ordered(s, key) != []
    ensures Ordered(s, key)[0].key <= bound <==> exists t :: t in s && Urgency(key)(t) >= -(bound as int)
  {
    var rank := Urgency(key);
    var i := Best(s, rank);
    OrderedPicks(s, key);
    assert s[i] in s;
    if t :| t in s && rank(t) >= -(bound as int) {
      var j :| 0 <= j < |s| && s[j] == t;
      assert rank(s[j]) <= rank(s[i]);
    }
  }

  /** CFS: a yield passes the processor on if and only if the first thread of the queue has a
      vruntime of at most the caller's. */
  lemma YieldCfs(k: Sched, key: Tid -> nat)
    requires Live(k)
    ensures var self := k.current.value; var pick := Best<Tid>(k.runq + [self], Urgency<Tid>(key));
      Live(Yield(k, pick)) <==> k.runq != [] && Ordered<Tid>(k.runq, key)[0].key <= key(self)
  {
    YieldByRank(k, Urgency<Tid>(key));
    if k.runq != [] {
      FirstKey<Tid>(k.runq, key, key(k.current.value));
    }
  }

  // ---------------------------------------------------------------- preempting ticks

  /* A tick that preempts puts the caller back into the run queue and schedules, as a yield does. */

  /** priority_should_preempt, for a running thread of level p. */
  ghost predicate Outranked<T>(s: seq<T>, rank: T -> int, p: int, slice: nat) {
    || (exists q :: q > p && Level(s, rank, q) != [])
    || (slice == 0 && Level(s, rank, p) != [])
  }

  /** Under round robin a preempting tick never hands the processor back to its caller. */
  lemma TickRoundRobin(k: Sched, slice: nat)
    requires Live(k) && RoundRobin.TurnIsOver(k.runq, slice)
    ensures Live(Yield(k, 0)) && Yield(k, 0).current != k.current
  {
    YieldRoundRobin(k);
    YieldLiveIff(k, 0);
  }

  /** Nor does it under priorities, when the caller's priority is a level. */
  lemma TickPriorities(k: Sched, rank: Tid -> int, slice: nat)
    requires Live(k) && Outranked<Tid>(k.runq, rank, rank(k.current.value), slice)
    ensures var pick := Best<Tid>(k.runq + [k.current.value], rank);
      Live(Yield(k, pick)) && Yield(k, pick).current != k.current
  {
    var self := k.current.value;
    assert exists p :: p >= rank(self) && Level(k.runq, rank, p) != [] by {
      var p :| p >= rank(self) && Level(k.runq, rank, p) != [];
    }
    YieldPriorities(k, rank);
    YieldLiveIff(k, Best<Tid>(k.runq + [self], rank));
  }

  /** Under CFS it does so, unless the first thread's vruntime is at most min_vruntime, which the tick
      has raised to the caller's vruntime v at least. */
  lemma TickCfsIff(k: Sched, key: Tid -> nat, v: nat, floor: nat, slice: nat)
    requires Live(k) && v <= floor && key(k.current.value) == Spec.Clamp(v, floor)
    requires Preempts(Spec.Queue(Ordered<Tid>(k.runq, key), floor), v, slice)
    ensures var pick := Best<Tid>(k.runq + [k.current.value], Urgency<Tid>(key));
      Live(Yield(k, pick)) <==> Ordered<Tid>(k.runq, key)[0].key <= floor
  {
    YieldCfs(k, key);
  }
}
