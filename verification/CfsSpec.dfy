/** The CFS run queue as a stable sorted sequence, and what runs of its operations guarantee. */
module CfsSpec {
  datatype Entry<T> = Entry(thread: T, key: nat)

  /** The queued threads in the order they will run, and the floor below which no thread enters. */
  datatype Queue<T> = Queue(entries: seq<Entry<T>>, floor: nat)

  /** The operations of one run queue: a thread arriving with some vruntime, the first thread
      leaving, and a tick that brings the running thread to some vruntime. */
  datatype Op<T> = Arrive(thread: T, vruntime: nat) | Leave | Tick(vruntime: nat)

  ghost predicate Sorted<T>(s: seq<Entry<T>>) {
    forall i, j :: 0 <= i < j < |s| ==> s[i].key <= s[j].key
  }

  /** Insertion behind every entry whose key is not larger. */
  function Place<T>(s: seq<Entry<T>>, e: Entry<T>): (r: seq<Entry<T>>)
    ensures |r| == |s| + 1
  {
    if s == [] then [e]
    else if e.key < s[0].key then [e] + s
    else [s[0]] + Place(s[1..], e)
  }

  /** cfs_enqueue raises a vruntime of 0, and any vruntime below the floor, to the floor. */
  function Clamp(vruntime: nat, floor: nat): (v: nat)
    ensures v == if vruntime < floor then floor else vruntime
  {
    var v := if vruntime == 0 then floor else vruntime;
    if v < floor then floor else v
  }

  function Step<T>(q: Queue<T>, op: Op<T>): (r: Queue<T>) {
    match op
    case Arrive(t, v) => q.(entries := Place(q.entries, Entry(t, Clamp(v, q.floor))))
    case Leave => if q.entries == [] then q else q.(entries := q.entries[1..])
    case Tick(v) => if v > q.floor then q.(floor := v) else q
  }

  function Run<T>(q: Queue<T>, ops: seq<Op<T>>): (r: Queue<T>)
    decreases |ops|
  {
    if ops == [] then q else Run(Step(q, ops[0]), ops[1..])
  }

  function Leaves<T>(ops: seq<Op<T>>): (n: nat) {
    if ops == [] then 0 else Leaves(ops[1..]) + if ops[0].Leave? then 1 else 0
  }

  /** Place splits the sequence at the first larger key. */
  lemma {:induction false} PlaceAt<T>(s: seq<Entry<T>>, e: Entry<T>, k: nat)
    requires k <= |s|
    requires forall i :: 0 <= i < k ==> s[i].key <= e.key
    requires k < |s| ==> e.key < s[k].key
    ensures Place(s, e) == s[..k] + [e] + s[k..]
  {
    if k > 0 {
      PlaceAt(s[1..], e, k - 1);
      assert s[..k] == [s[0]] + s[1..][..k - 1];
    }
  }

  /** The split point, found from the left. */
  lemma {:induction false} PlaceSplits<T>(s: seq<Entry<T>>, e: Entry<T>) returns (k: nat)
    requires Sorted(s)
    ensures k <= |s| && Place(s, e) == s[..k] + [e] + s[k..]
    ensures forall i :: 0 <= i < k ==> s[i].key <= e.key
    ensures forall i :: k <= i < |s| ==> e.key < s[i].key
  {
    k := 0;
    while k < |s| && s[k].key <= e.key
      invariant k <= |s|
      invariant forall i :: 0 <= i < k ==> s[i].key <= e.key
    {
      k := k + 1;
    }
    PlaceAt(s, e, k);
  }

  lemma SplicedSorted<T>(s: seq<Entry<T>>, e: Entry<T>, k: nat)
    requires Sorted(s) && k <= |s|
    requires forall i :: 0 <= i < k ==> s[i].key <= e.key
    requires forall i :: k <= i < |s| ==> e.key < s[i].key
    ensures Sorted(s[..k] + [e] + s[k..])
  {
    var r := s[..k] + [e] + s[k..];
    forall i, j | 0 <= i < j < |r|
      ensures r[i].key <= r[j].key
    {
      assert r[i] == if i < k then s[i] else if i == k then e else s[i - 1];
      assert r[j] == if j < k then s[j] else if j == k then e else s[j - 1];
    }
  }

  lemma {:induction false} StepSorted<T>(q: Queue<T>, op: Op<T>)
    requires Sorted(q.entries)
    ensures Sorted(Step(q, op).entries)
    ensures Step(q, op).floor >= q.floor
  {
    if op.Arrive? {
      var e := Entry(op.thread, Clamp(op.vruntime, q.floor));
      var k := PlaceSplits(q.entries, e);
      SplicedSorted(q.entries, e, k);
    }
  }

  /** The queue stays sorted and the floor never falls, over any run. */
  lemma {:induction false} RunSorted<T>(q: Queue<T>, ops: seq<Op<T>>)
    requires Sorted(q.entries)
    ensures Sorted(Run(q, ops).entries)
    ensures Run(q, ops).floor >= q.floor
    decreases |ops|
  {
    if ops != [] {
      StepSorted(q, ops[0]);
      RunSorted(Step(q, ops[0]), ops[1..]);
    }
  }

  /** Some tick of ops brings the running thread to v. */
  ghost predicate Ticked<T>(ops: seq<Op<T>>, v: nat) {
    exists i :: 0 <= i < |ops| && ops[i] == Tick(v)
  }

  lemma TickedCons<T>(ops: seq<Op<T>>, v: nat)
    requires ops != []
    ensures Ticked(ops, v) <==> ops[0] == Tick(v) || Ticked(ops[1..], v)
  {
    assert forall i :: 1 <= i < |ops| ==> ops[i] == ops[1..][i - 1];
    assert forall i :: 0 <= i < |ops| - 1 ==> ops[1..][i] == ops[i + 1];
  }

  /** After any run the floor is the largest of the initial floor and the vruntimes ticked. */
  lemma {:induction false} FloorIsLargest<T>(q: Queue<T>, ops: seq<Op<T>>)
    ensures Run(q, ops).floor >= q.floor
    ensures forall v: nat :: Ticked(ops, v) ==> v <= Run(q, ops).floor
    ensures Run(q, ops).floor == q.floor || Ticked(ops, Run(q, ops).floor)
    decreases |ops|
  {
    if ops != [] {
      FloorIsLargest(Step(q, ops[0]), ops[1..]);
      forall v: nat
        ensures Ticked(ops, v) <==> ops[0] == Tick(v) || Ticked(ops[1..], v)
      {
        TickedCons(ops, v);
      }
    }
  }

  /** Hence whoever arrives after a tick at v enters at v or later: no thread comes in behind the time
      that the others have been charged. */
  lemma ArrivesNoEarlier<T>(q: Queue<T>, ops: seq<Op<T>>, v: nat, t: T, u: nat) returns (k: nat, key: nat)
    requires Sorted(q.entries) && Ticked(ops, v)
    ensures key >= v && PutAt(Run(q, ops).entries, Entry(t, key), k, Run(q, ops + [Arrive(t, u)]).entries)
  {
    FloorIsLargest(q, ops);
    RunSorted(q, ops);
    RunSnoc(q, ops, Arrive(t, u));
    key := Clamp(u, Run(q, ops).floor);
    k := PlaceSplits(Run(q, ops).entries, Entry(t, key));
  }

  /** r is s with e put in at position k. */
  ghost predicate PutAt<T>(s: seq<Entry<T>>, e: Entry<T>, k: nat, r: seq<Entry<T>>) {
    k <= |s| && r == s[..k] + [e] + s[k..]
  }

  lemma {:induction false} RunSnoc<T>(q: Queue<T>, ops: seq<Op<T>>, op: Op<T>)
    ensures Run(q, ops + [op]) == Step(Run(q, ops), op)
    decreases |ops|
  {
    if ops == [] {
      assert [op][1..] == [];
      assert ops + [op] == [op];
    } else {
      assert (ops + [op])[1..] == ops[1..] + [op];
      RunSnoc(Step(q, ops[0]), ops[1..], op);
    }
  }

  /** One operation moves an entry whose key the floor has reached by exactly its dequeues. */
  lemma {:induction false} StepKeepsPlace<T>(q: Queue<T>, op: Op<T>, k: nat)
    requires Sorted(q.entries) && k < |q.entries| && q.entries[k].key <= q.floor
    requires op.Leave? ==> k > 0
    ensures var r := Step(q, op); var k' := if op.Leave? then k - 1 else k;
      k' < |r.entries| && r.entries[k'] == q.entries[k]
  {
    if op.Arrive? {
      var e := Entry(op.thread, Clamp(op.vruntime, q.floor));
      var j := PlaceSplits(q.entries, e);
      assert q.entries[k].key <= e.key;
    }
  }

  /** Bounded bypass: once the floor has reached the key of a queued thread, that thread leaves
      after exactly as many other threads as were ahead of it, whatever arrives meanwhile. */
  lemma {:induction false} BoundedBypass<T>(q: Queue<T>, ops: seq<Op<T>>, k: nat)
    requires Sorted(q.entries) && k < |q.entries| && q.entries[k].key <= q.floor
    requires Leaves(ops) <= k
    ensures var r := Run(q, ops);
      k - Leaves(ops) < |r.entries| && r.entries[k - Leaves(ops)] == q.entries[k]
    decreases |ops|
  {
    if ops != [] {
      var q' := Step(q, ops[0]);
      StepSorted(q, ops[0]);
      StepKeepsPlace(q, ops[0], k);
      BoundedBypass(q', ops[1..], if ops[0].Leave? then k - 1 else k);
    }
  }

  /** After a tick that brings the running thread to v, every thread queued at v or earlier leaves
      after exactly the threads ahead of it, whatever arrives. */
  lemma {:induction false} TickBoundsBypass<T>(q: Queue<T>, v: nat, ops: seq<Op<T>>, k: nat)
    requires Sorted(q.entries) && k < |q.entries| && q.entries[k].key <= v && Leaves(ops) <= k
    ensures var r := Run(q, [Tick(v)] + ops);
      k - Leaves(ops) < |r.entries| && r.entries[k - Leaves(ops)] == q.entries[k]
  {
    var tick: seq<Op<T>> := [Tick(v)];
    assert tick[0] == Tick(v) && tick[1..] == [] && (tick + ops)[1..] == ops;
    assert Run(Step(q, Tick(v)), tick[1..]) == Step(q, Tick(v));
    FloorIsLargest(q, tick);
    BoundedBypass(Step(q, Tick(v)), ops, k);
  }

  /** n threads arriving one by one with vruntime v, each leaving at once. */
  function Overtakers<T>(t: T, v: nat, n: nat): (ops: seq<Op<T>>) {
    if n == 0 then [] else [Arrive(t, v), Leave] + Overtakers(t, v, n - 1)
  }

  lemma {:induction false} OvertakenOnce<T>(q: Queue<T>, t: T, k: nat)
    requires Sorted(q.entries) && k < |q.entries| && q.floor < q.entries[k].key
    ensures var r := Step(Step(q, Arrive(t, q.floor)), Leave);
      Sorted(r.entries) && r.floor == q.floor && k < |r.entries| && r.entries[k] == q.entries[k]
  {
    var e := Entry(t, Clamp(q.floor, q.floor));
    var j := PlaceSplits(q.entries, e);
    assert j <= k;
    StepSorted(q, Arrive(t, q.floor));
    StepSorted(Step(q, Arrive(t, q.floor)), Leave);
  }

  lemma OvertakersCons<T>(t: T, v: nat, n: nat)
    requires n > 0
    ensures var ops := Overtakers(t, v, n);
      |ops| >= 2 && ops[0] == Arrive(t, v) && ops[1..][0] == Leave && ops[1..][1..] == Overtakers(t, v, n - 1)
  {
  }

  /** Without that condition there is no bound: while the floor is below the key of a queued
      thread, any number of later arrivals can run before it. */
  lemma {:induction false} UnboundedBypass<T>(q: Queue<T>, t: T, n: nat, k: nat)
    requires Sorted(q.entries) && k < |q.entries| && q.floor < q.entries[k].key
    ensures Leaves(Overtakers(t, q.floor, n)) == n
    ensures var r := Run(q, Overtakers(t, q.floor, n));
      k < |r.entries| && r.entries[k] == q.entries[k]
    decreases n
  {
    if n > 0 {
      var ops := Overtakers(t, q.floor, n);
      OvertakersCons(t, q.floor, n);
      OvertakenOnce(q, t, k);
      var q1 := Step(q, Arrive(t, q.floor));
      var q2 := Step(q1, Leave);
      UnboundedBypass(q2, t, n - 1, k);
      assert Run(q, ops) == Run(q1, ops[1..]);
      assert Run(q1, ops[1..]) == Run(q2, ops[1..][1..]);
      assert Leaves(ops) == Leaves(ops[1..]);
      assert Leaves(ops[1..]) == 1 + Leaves(ops[1..][1..]);
    }
  }

  /** Threads with equal keys leave in the order they came: the newcomer stands behind them. */
  lemma {:induction false} EqualKeysFifo<T>(q: Queue<T>, t: T, v: nat, i: nat)
    requires Sorted(q.entries) && i < |q.entries| && q.entries[i].key == Clamp(v, q.floor)
    ensures var r := Step(q, Arrive(t, v)).entries;
      exists j :: (
        && i < j < |r| && r[j] == Entry(t, Clamp(v, q.floor)) && r[i] == q.entries[i]
        && r[..j] + r[j + 1..] == q.entries)
  {
    var e := Entry(t, Clamp(v, q.floor));
    var k := PlaceSplits(q.entries, e);
    var r := Place(q.entries, e);
    assert r[k] == e && r[..k] == q.entries[..k] && r[k + 1..] == q.entries[k..];
    assert r[..k] + r[k + 1..] == q.entries;
  }

  /** Where the entry at position k is after the operation; -1 once it has left. */
  function Moved<T>(q: Queue<T>, op: Op<T>, k: int): (r: int) {
    match op
    case Arrive(_, v) => if 0 <= k < |q.entries| && Clamp(v, q.floor) < q.entries[k].key then k + 1 else k
    case Leave => if k < 0 then k else k - 1
    case _ => k
  }

  function Tracked<T>(q: Queue<T>, ops: seq<Op<T>>, k: int): (r: int)
    decreases |ops|
  {
    if ops == [] then k else Tracked(Step(q, ops[0]), ops[1..], Moved(q, ops[0], k))
  }

  lemma {:induction false} MovedThere<T>(q: Queue<T>, op: Op<T>, k: int)
    requires Sorted(q.entries) && 0 <= k < |q.entries|
    ensures var r, k' := Step(q, op).entries, Moved(q, op, k);
      k' == -1 || (0 <= k' < |r| && r[k'] == q.entries[k])
  {
    if op.Arrive? {
      var e := Entry(op.thread, Clamp(op.vruntime, q.floor));
      var j := PlaceSplits(q.entries, e);
    }
  }

  lemma {:induction false} GoneStaysGone<T>(q: Queue<T>, ops: seq<Op<T>>)
    ensures Tracked(q, ops, -1) == -1
    decreases |ops|
  {
    if ops != [] {
      GoneStaysGone(Step(q, ops[0]), ops[1..]);
    }
  }

  /** Over any run nobody overtakes within the queue: of two queued entries the one ahead leaves
      first, and stays ahead while both are queued. */
  lemma {:induction false} StableOrder<T>(q: Queue<T>, ops: seq<Op<T>>, i: int, j: int)
    requires Sorted(q.entries) && 0 <= i < j < |q.entries|
    ensures var r, i', j' := Run(q, ops).entries, Tracked(q, ops, i), Tracked(q, ops, j);
      && (j' == -1 || (0 <= j' < |r| && r[j'] == q.entries[j]))
      && (i' == -1 || (0 <= i' < j' && i' < |r| && r[i'] == q.entries[i]))
    decreases |ops|
  {
    if ops != [] {
      var op, q' := ops[0], Step(q, ops[0]);
      StepSorted(q, op);
      MovedThere(q, op, i);
      MovedThere(q, op, j);
      var i', j' := Moved(q, op, i), Moved(q, op, j);
      if i' == -1 {
        GoneStaysGone(q', ops[1..]);
        TrackedThere(q', ops[1..], j');
      } else {
        StableOrder(q', ops[1..], i', j');
      }
    }
  }

  lemma {:induction false} TrackedThere<T>(q: Queue<T>, ops: seq<Op<T>>, k: int)
    requires Sorted(q.entries) && 0 <= k < |q.entries|
    ensures var r, k' := Run(q, ops).entries, Tracked(q, ops, k);
      k' == -1 || (0 <= k' < |r| && r[k'] == q.entries[k])
    decreases |ops|
  {
    if ops != [] {
      StepSorted(q, ops[0]);
      MovedThere(q, ops[0], k);
      if Moved(q, ops[0], k) == -1 {
        GoneStaysGone(Step(q, ops[0]), ops[1..]);
      } else {
        TrackedThere(Step(q, ops[0]), ops[1..], Moved(q, ops[0], k));
      }
    }
  }

  /** A thread that goes into the queue is the next to leave, as after a yield, if and only if the
      queue is empty or its key is below all others; an equal key does not suffice. */
  lemma NextIsNewcomer<T>(q: Queue<T>, t: T, v: nat)
    requires forall i :: 0 <= i < |q.entries| ==> q.entries[i].thread != t
    ensures Step(q, Arrive(t, v)).entries[0].thread == t <==>
      q.entries == [] || Clamp(v, q.floor) < q.entries[0].key
  {
  }
}
