/** The table of all threads: scheduler_add_thread and scheduler_remove_thread (src/scheduler.c). */
module ThreadTable {
  import opened Threads

  const MAX_THREADS := 1024

  /** How many slots are occupied. */
  ghost function Occupied(s: seq<Thread?>): (n: nat)
    ensures n <= |s|
  {
    if s == [] then 0 else (if s[0] != null then 1 else 0) + Occupied(s[1..])
  }

  lemma {:induction false} OccupiedUpdate(s: seq<Thread?>, i: nat, t: Thread?)
    requires i < |s|
    ensures Occupied(s[i := t]) == Occupied(s) - (if s[i] != null then 1 else 0) + (if t != null then 1 else 0)
  {
    if i == 0 {
      assert s[i := t][1..] == s[1..];
    } else {
      OccupiedUpdate(s[1..], i - 1, t);
      assert s[i := t][1..] == s[1..][i - 1 := t];
    }
  }

  lemma {:induction false} FullTable(s: seq<Thread?>)
    ensures Occupied(s) == |s| <==> null !in s
  {
    if s != [] {
      FullTable(s[1..]);
      assert null in s <==> s[0] == null || null in s[1..];
    }
  }

  class Table {
    const slots: array<Thread?>
    var count: int

    ghost predicate Valid()
      reads this, slots
    {
      && slots.Length == MAX_THREADS
      && count == Occupied(slots[..])
      && forall i, j :: 0 <= i < j < slots.Length && slots[i] != null ==> slots[i] != slots[j]
    }

    constructor ()
      ensures Valid() && fresh(slots) && count == 0 && forall i :: 0 <= i < slots.Length ==> slots[i] == null
    {
      slots := new Thread?[MAX_THREADS](_ => null);
      count := 0;
      new;
      Vacant(slots[..]);
    }

    /** scheduler_add_thread, which the code asserts to find room. */
    method Add(t: Thread) returns (ok: bool)
      requires Valid() && t !in slots[..]
      modifies this, slots
      ensures Valid()
      ensures ok <==> old(count) < MAX_THREADS
      ensures ok ==> count == old(count) + 1
      ensures ok ==> exists i :: 0 <= i < slots.Length && old(slots[i]) == null && slots[..] == old(slots[..])[i := t]
      ensures !ok ==> count == old(count) && slots[..] == old(slots[..])
    {
      FullTable(slots[..]);
      ghost var was := slots[..];
      var i := 0;
      while i < MAX_THREADS
        invariant 0 <= i <= MAX_THREADS && slots[..] == was && Valid() && count == old(count)
        invariant null !in was[..i]
      {
        if slots[i] == null {
          OccupiedUpdate(was, i, t);
          slots[i] := t;
          count := count + 1;
          assert slots[..] == was[i := t];
          return true;
        }
        i := i + 1;
      }
      assert was[..i] == was;
      return false;
    }

    /** scheduler_remove_thread. */
    method Remove(t: Thread)
      requires Valid()
      modifies this, slots
      ensures Valid() && t !in slots[..]
      ensures t in old(slots[..]) ==> count == old(count) - 1
      ensures t in old(slots[..]) ==>
        exists i :: 0 <= i < slots.Length && old(slots[i]) == t && slots[..] == old(slots[..])[i := null]
      ensures t !in old(slots[..]) ==> count == old(count) && slots[..] == old(slots[..])
    {
      ghost var was := slots[..];
      var i := 0;
      while i < MAX_THREADS
        invariant 0 <= i <= MAX_THREADS && slots[..] == was && Valid() && count == old(count)
        invariant t !in was[..i]
      {
        if slots[i] == t {
          OccupiedUpdate(was, i, null);
          slots[i] := null;
          count := count - 1;
          assert slots[..] == was[i := null];
          return;
        }
        i := i + 1;
      }
      assert was[..i] == was;
    }
  }

  lemma {:induction false} Vacant(s: seq<Thread?>)
    requires forall i :: 0 <= i < |s| ==> s[i] == null
    ensures Occupied(s) == 0
  {
    if s != [] {
      Vacant(s[1..]);
    }
  }
}
