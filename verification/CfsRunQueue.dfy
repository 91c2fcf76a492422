/** The pointer tree of src/sched_cfs.c: rotations, both fixups, insertion and removal,
    rewiring thread control blocks in place. */
module CfsRunQueue {
  import opened Basics
  import opened Threads
  import opened RbTrees
  import opened RbBalance
  import opened RbPaths
  import Spec = CfsSpec
  import opened Vruntime
  import opened CfsPreemption

  ghost function LinksOf(n: Thread): (m: Links)
    reads n`rbLeft, n`rbRight, n`rbParent, n`rbColor
  {
    Links(n.rbLeft, n.rbRight, n.rbParent, n.rbColor)
  }

  ghost function First(s: seq<Thread>): (r: Thread?) {
    if s == [] then null else s[0]
  }

  ghost predicate Sorted(s: seq<Thread>)
    reads s`vruntime
  {
    forall i, j :: 0 <= i < j < |s| ==> s[i].vruntime <= s[j].vruntime
  }

  /** In a sorted sequence everything before x is at most x and everything after at least x. */
  lemma SortedAround(a: seq<Thread>, l: seq<Thread>, x: Thread, r: seq<Thread>, b: seq<Thread>)
    requires Sorted(a + (l + [x] + r) + b)
    ensures forall n :: n in l ==> n.vruntime <= x.vruntime
    ensures forall n :: n in r ==> x.vruntime <= n.vruntime
  {
    var s := a + (l + [x] + r) + b;
    var k := |a| + |l|;
    assert s[k] == x;
    assert forall i :: 0 <= i < |l| ==> l[i] == s[|a| + i];
    assert forall i :: 0 <= i < |r| ==> r[i] == s[k + 1 + i];
  }

  /** The first k threads, and only they, have a vruntime of at most v. */
  ghost predicate SplitsAt(s: seq<Thread>, k: int, v: nat)
    reads s`vruntime
  {
    && 0 <= k <= |s|
    && (forall i :: 0 <= i < k ==> s[i].vruntime <= v)
    && (forall i :: k <= i < |s| ==> v < s[i].vruntime)
  }

  /** Key v goes between a and b, after equal keys. */
  ghost predicate Separates(a: seq<Thread>, v: nat, b: seq<Thread>)
    reads a`vruntime, b`vruntime
  {
    (forall n :: n in a ==> n.vruntime <= v) && (forall n :: n in b ==> v < n.vruntime)
  }

  /** Comparing v with x narrows down where it goes. */
  lemma Narrowed(a: seq<Thread>, l: seq<Thread>, x: Thread, r: seq<Thread>, b: seq<Thread>, v: nat)
    requires Separates(a, v, b)
    requires forall n :: n in l ==> n.vruntime <= x.vruntime
    requires forall n :: n in r ==> x.vruntime <= n.vruntime
    ensures v < x.vruntime ==> Separates(a, v, [x] + r + b)
    ensures v >= x.vruntime ==> Separates(a + l + [x], v, b)
  {
  }

  lemma SeparatesSplits(a: seq<Thread>, v: nat, b: seq<Thread>)
    requires Separates(a, v, b)
    ensures SplitsAt(a + b, |a|, v)
  {
    assert forall i :: 0 <= i < |b| ==> b[i] in b;
  }

  ghost function Inserted(s: seq<Thread>, k: int, x: Thread): (r: seq<Thread>)
    requires 0 <= k <= |s|
  {
    s[..k] + [x] + s[k..]
  }

  lemma InsertedSorted(s: seq<Thread>, k: nat, x: Thread)
    requires Sorted(s) && SplitsAt(s, k, x.vruntime)
    ensures Sorted(Inserted(s, k, x))
  {
    var r := Inserted(s, k, x);
    assert forall i :: 0 <= i < k ==> r[i] == s[i];
    assert forall i :: k < i < |r| ==> r[i] == s[i - 1];
  }

  lemma RemovedSorted(s: seq<Thread>, k: nat)
    requires Sorted(s) && k < |s|
    ensures Sorted(Without(s, k))
  {
    var r := Without(s, k);
    assert forall i :: 0 <= i < k ==> r[i] == s[i];
    assert forall i :: k <= i < |r| ==> r[i] == s[i + 1];
  }

  /** Threads paired with their keys. */
  ghost function Entries(s: seq<Thread>): (r: seq<Spec.Entry<Thread>>)
    reads s`vruntime
    ensures |r| == |s| && forall i :: 0 <= i < |s| ==> r[i] == Spec.Entry(s[i], s[i].vruntime)
  {
    if s == [] then [] else [Spec.Entry(s[0], s[0].vruntime)] + Entries(s[1..])
  }

  lemma EntriesInserted(s: seq<Thread>, k: nat, x: Thread)
    requires SplitsAt(s, k, x.vruntime)
    ensures Entries(Inserted(s, k, x)) == Spec.Place(Entries(s), Spec.Entry(x, x.vruntime))
  {
    var e, a := Spec.Entry(x, x.vruntime), Entries(s);
    Spec.PlaceAt(a, e, k);
    EntriesAppend(s[..k] + [x], s[k..]);
    EntriesAppend(s[..k], [x]);
    EntriesAppend(s[..k], s[k..]);
    assert s[..k] + s[k..] == s && Entries([x]) == [e];
    assert a[..k] == Entries(s[..k]) && a[k..] == Entries(s[k..]);
  }

  lemma EntriesAppend(s: seq<Thread>, t: seq<Thread>)
    ensures Entries(s + t) == Entries(s) + Entries(t)
  {
  }

  lemma EntriesRest(s: seq<Thread>)
    requires s != []
    ensures Entries(Without(s, 0)) == Entries(s)[1..]
  {
  }

  /** The key-directed search for z from the root of t meets z. */
  ghost predicate Reaches(t: Tree, z: Thread)
    reads Keys(t)`vruntime, z`vruntime
  {
    t.Node? && (t.key == z || if z.vruntime < t.key.vruntime then Reaches(t.left, z) else Reaches(t.right, z))
  }

  lemma {:induction false} ReachesKeys(t: Tree, z: Thread)
    ensures Reaches(t, z) ==> z in Keys(t)
  {
    if t.Node? {
      ReachesKeys(t.left, z);
      ReachesKeys(t.right, z);
    }
  }

  /** On the way up from the hole, no node with key v is left through its left subtree: the
      search for key v, which turns right on equal keys, comes down this way. */
  ghost predicate ClearAbove(c: Ctx, v: nat)
    reads CtxKeys(c)`vruntime
  {
    match c
    case Top => true
    case InLeft(up, _, k, _) => k.vruntime != v && ClearAbove(up, v)
    case InRight(up, _, _, _) => ClearAbove(up, v)
  }

  lemma {:induction false} ReachesPlug(c: Ctx, t: Tree, z: Thread)
    requires Unshared(Plug(c, t)) && Sorted(Inorder(Plug(c, t))) && z in Keys(t)
    ensures Reaches(Plug(c, t), z) <==> ClearAbove(c, z.vruntime) && Reaches(t, z)
    decreases c
  {
    DistinctPlug(c, t);
    if c != Top {
      var u := Joined(c, t);
      ReachesPlug(c.up, u, z);
      InorderPlug(c.up, u);
      SortedAround(Before(c.up), Inorder(u.left), u.key, Inorder(u.right), After(c.up));
      KeysInorder(t);
      ReachesKeys(Uncle(c), z);
    }
  }

  /** A queued thread is met exactly when no node above it that has it in its left subtree
      carries the same vruntime, which one walk up the parent links decides. */
  lemma {:induction false} ReachesExactly(c: Ctx, t: Tree)
    requires t.Node? && Unshared(Plug(c, t)) && Sorted(Inorder(Plug(c, t)))
    ensures Reaches(Plug(c, t), t.key) <==> ClearAbove(c, t.key.vruntime)
  {
    ReachesPlug(c, t, t.key);
  }

  /** A thread that is not queued is never met. */
  lemma {:induction false} ReachesOnlyQueued(t: Tree, z: Thread)
    requires z !in Keys(t)
    ensures !Reaches(t, z)
  {
    ReachesKeys(t, z);
  }

  /** A subtree without black nodes has at most one node. */
  lemma {:induction false} NoBlackSmall(t: Tree)
    requires RbOk(t) && Bh(t) == 0
    ensures |Inorder(t)| <= 1
  {
    if t.Node? {
      assert t.left == Leaf && t.right == Leaf;
    }
  }

  /** A red-black tree of three threads has the second at its root. */
  lemma {:induction false} ThreeShape(t: Tree, a: Thread, b: Thread, d: Thread)
    requires RedBlack(t) && Inorder(t) == [a, b, d]
    ensures t.Node? && t.key == b && Inorder(t.left) == [a] && Inorder(t.right) == [d]
  {
    var l, r := Inorder(t.left), Inorder(t.right);
    assert |l| + 1 + |r| == 3;
    if t.left == Leaf {
      NoBlackSmall(t.right);
    } else if t.right == Leaf {
      NoBlackSmall(t.left);
    } else {
      NotEmpty(t.left);
      NotEmpty(t.right);
      assert |l| == 1 && |r| == 1;
      assert (l + [t.key] + r)[0] == l[0] && (l + [t.key] + r)[1] == t.key && (l + [t.key] + r)[2] == r[0];
    }
  }

  lemma NotEmpty(t: Tree)
    requires t.Node?
    ensures |Inorder(t)| >= 1
  {
  }

  /** So with three queued threads of equal vruntime the search for the first, which is next to
      run, turns right and misses it. */
  lemma {:induction false} FirstOfThreeMissed(t: Tree, a: Thread, b: Thread, d: Thread)
    requires RedBlack(t) && Inorder(t) == [a, b, d] && a != b && a != d
    requires a.vruntime == b.vruntime
    ensures a in Keys(t) && !Reaches(t, a)
  {
    ThreeShape(t, a, b, d);
    KeysInorder(t);
    KeysInorder(t.right);
    ReachesOnlyQueued(t.right, a);
  }

  class CfsState {
    var root: Thread?
    var leftmost: Thread?
    var count: int
    var minVruntime: nat

    ghost var tree: Tree

    /** The control blocks of t hold exactly the links of t. */
    ghost predicate Holds(t: Tree)
      reads this`root, Keys(t)`rbLeft, Keys(t)`rbRight, Keys(t)`rbParent, Keys(t)`rbColor
    {
      && Unshared(t)
      && root == RootOf(t)
      && (forall n {:trigger LinksOf(n)} :: n in Keys(t) ==> LinksOf(n) == At(t, null, n))
    }

    // -------------------------------------------------------------- single steps

    method RotateLeft(x: Thread, ghost c: Ctx, ghost t: Tree)
      requires t.Node? && t.right.Node? && t.key == x
      requires Holds(Plug(c, t))
      modifies this`root, Keys(Plug(c, t))`rbLeft, Keys(Plug(c, t))`rbRight, Keys(Plug(c, t))`rbParent
      ensures Holds(Plug(c, RotL(t))) && Keys(Plug(c, RotL(t))) == Keys(Plug(c, t))
    {
      ghost var f := Plug(c, t);
      DistinctPlug(c, t);
      RootPlug(c, t, RotL(t));
      RotLPlug(c, t, x);
      assert LinksOf(x) == At(f, null, x);
      ghost var was := map n | n in Keys(f) :: LinksOf(n);
      var y := x.rbRight;
      assert LinksOf(y) == At(f, null, y);
      x.rbRight := y.rbLeft;
      if y.rbLeft != null {
        y.rbLeft.rbParent := x;
      }
      y.rbParent := x.rbParent;
      if x.rbParent == null {
        root := y;
      } else if x == x.rbParent.rbLeft {
        x.rbParent.rbLeft := y;
      } else {
        x.rbParent.rbRight := y;
      }
      y.rbLeft := x;
      x.rbParent := y;
      forall n | n in Keys(Plug(c, RotL(t)))
        ensures LinksOf(n) == At(Plug(c, RotL(t)), null, n)
      {
        RotLPlug(c, t, n);
        assert was[n] == At(f, null, n);
        if n != x && n != y && n != was[y].left && n != was[x].parent {
          assert LinksOf(n) == was[n];
        }
      }
    }

    method RotateRight(x: Thread, ghost c: Ctx, ghost t: Tree)
      requires t.Node? && t.left.Node? && t.key == x
      requires Holds(Plug(c, t))
      modifies this`root, Keys(Plug(c, t))`rbLeft, Keys(Plug(c, t))`rbRight, Keys(Plug(c, t))`rbParent
      ensures Holds(Plug(c, RotR(t))) && Keys(Plug(c, RotR(t))) == Keys(Plug(c, t))
    {
      ghost var f := Plug(c, t);
      DistinctPlug(c, t);
      RootPlug(c, t, RotR(t));
      RotRPlug(c, t, x);
      assert LinksOf(x) == At(f, null, x);
      ghost var was := map n | n in Keys(f) :: LinksOf(n);
      var y := x.rbLeft;
      assert LinksOf(y) == At(f, null, y);
      x.rbLeft := y.rbRight;
      if y.rbRight != null {
        y.rbRight.rbParent := x;
      }
      y.rbParent := x.rbParent;
      if x.rbParent == null {
        root := y;
      } else if x == x.rbParent.rbLeft {
        x.rbParent.rbLeft := y;
      } else {
        x.rbParent.rbRight := y;
      }
      y.rbRight := x;
      x.rbParent := y;
      forall n | n in Keys(Plug(c, RotR(t)))
        ensures LinksOf(n) == At(Plug(c, RotR(t)), null, n)
      {
        RotRPlug(c, t, n);
        assert was[n] == At(f, null, n);
        if n != x && n != y && n != was[y].right && n != was[x].parent {
          assert LinksOf(n) == was[n];
        }
      }
    }

    method SetColor(x: Thread, col: Color, ghost c: Ctx, ghost t: Tree)
      requires t.Node? && t.key == x
      requires Holds(Plug(c, t))
      modifies x`rbColor
      ensures Holds(Plug(c, Paint(t, col))) && Keys(Plug(c, Paint(t, col))) == Keys(Plug(c, t))
    {
      ghost var was := map n | n in Keys(Plug(c, t)) :: LinksOf(n);
      DistinctPlug(c, t);
      RootPlug(c, t, Paint(t, col));
      PaintPlug(c, t, col, x);
      x.rbColor := col;
      forall n | n in Keys(Plug(c, Paint(t, col)))
        ensures LinksOf(n) == At(Plug(c, Paint(t, col)), null, n)
      {
        PaintPlug(c, t, col, n);
        assert was[n] == At(Plug(c, t), null, n);
      }
    }

    /** The links around a focus, read off the heap. */
    lemma Look(c: Ctx, t: Tree)
      requires t.Node? && Holds(Plug(c, t))
      ensures t.key in Keys(Plug(c, t))
      ensures LinksOf(t.key) == Links(RootOf(t.left), RootOf(t.right), Above(c), t.color)
      ensures t.left.Node? ==> t.left.key in Keys(t) && t.left.key in Keys(Plug(c, t)) && t.left.key != t.key
      ensures t.right.Node? ==> t.right.key in Keys(t) && t.right.key in Keys(Plug(c, t)) && t.right.key != t.key
      ensures t.left.Node? && t.right.Node? ==> t.left.key != t.right.key
      ensures c != Top ==> c.key in Keys(Plug(c, t)) && c.key !in Keys(t) && c.key != t.key
    {
      AtFocus(c, t);
    }

    // -------------------------------------------------------------- insertion fixup

    /** The heap holds the tree r with the threads of f. */
    ghost predicate Swapped(f: Tree, r: Tree)
      reads this`root, Keys(r)`rbLeft, Keys(r)`rbRight, Keys(r)`rbParent, Keys(r)`rbColor
    {
      Holds(r) && Keys(r) == Keys(f)
    }

    /** The links around a focus, its parent, its grandparent and its uncle. */
    lemma Around(c: Ctx, t: Tree)
      requires t.Node? && Holds(Plug(c, t)) && c != Top && c.up != Top
      ensures t.key in Keys(Plug(c, t)) && t.key.rbParent == c.key
      ensures c.key in Keys(Plug(c, t)) && c.key.rbParent == c.up.key && c.key.rbColor == c.color
      ensures c.key.rbLeft == RootOf(Joined(c, t).left) && c.key.rbRight == RootOf(Joined(c, t).right)
      ensures c.InLeft? ==> c.key.rbRight != t.key
      ensures c.InRight? ==> c.key.rbLeft != t.key
      ensures c.up.key in Keys(Plug(c, t))
      ensures c.up.InLeft? ==> c.up.key.rbLeft == c.key && c.up.key.rbRight == RootOf(c.up.right)
      ensures c.up.InRight? ==> c.up.key.rbRight == c.key && c.up.key.rbLeft == RootOf(c.up.left)
      ensures c.up.InRight? ==> c.up.key.rbLeft != c.key
      ensures Uncle(c.up).Node? ==> Uncle(c.up).key in Keys(Plug(c, t)) && Uncle(c.up).key.rbColor == Uncle(c.up).color
    {
      var g := c.up;
      Look(c, t);
      Look(g, Joined(c, t));
      Look(g.up, Joined(g, Joined(c, t)));
      if Uncle(g).Node? {
        if g.InLeft? {
          Look(InRight(g.up, Joined(c, t), g.color, g.key), g.right);
        } else {
          Look(InLeft(g.up, g.color, g.key, Joined(c, t)), g.left);
        }
      }
    }

    /** The uncle is red: parent and uncle become black, the grandparent red. */
    method RecolorLeft(z: Thread, y: Thread, ghost c: Ctx, ghost t: Tree)
      requires t.Node? && t.key == z && Holds(Plug(c, t))
      requires c != Top && c.up.InLeft? && c.up.right.Node? && c.up.right.key == y
      modifies Keys(Plug(c, t))`rbColor
      ensures var r := Recolored(Joined(c, t), c.up); Swapped(Plug(c, t), Plug(r.0, r.1))
    {
      ghost var g := c.up;
      Look(c, t);
      Look(g, Joined(c, t));
      Look(InRight(g.up, Joined(c, t), g.color, g.key), g.right);
      Look(g.up, Joined(g, Joined(c, t)));
      ghost var p := Paint(Joined(c, t), Black);
      SetColor(z.rbParent, Black, g, Joined(c, t));
      SetColor(y, Black, InRight(g.up, p, g.color, g.key), g.right);
      SetColor(z.rbParent.rbParent, Red, g.up, Node(p, g.color, g.key, Paint(g.right, Black)));
    }

    /** The inner rotation. */
    method StraightenLeft(z: Thread, ghost c: Ctx, ghost t: Tree)
      requires t.Node? && c.InRight? && c.up.InLeft? && c.key == z && Holds(Plug(c, t))
      modifies this`root, Keys(Plug(c, t))`rbLeft, Keys(Plug(c, t))`rbRight, Keys(Plug(c, t))`rbParent
      ensures var r := Straighten(c, t); Swapped(Plug(c, t), Plug(r.0, r.1))
    {
      RotateLeft(z, c.up, Joined(c, t));
      ghost var r := Straighten(c, t);
      assert Joined(r.0, r.1) == RotL(Joined(c, t));
    }

    /** The outer rotation, with parent black and grandparent red. */
    method LiftLeft(z: Thread, ghost c: Ctx, ghost t: Tree)
      requires t.Node? && t.key == z && c.InLeft? && c.up.InLeft? && Holds(Plug(c, t))
      modifies this`root, Keys(Plug(c, t))`rbLeft, Keys(Plug(c, t))`rbRight
      modifies Keys(Plug(c, t))`rbParent, Keys(Plug(c, t))`rbColor
      ensures Swapped(Plug(c, t), Plug(Lifted(c, t), t))
    {
      ghost var g := c.up;
      Look(c, t);
      Look(g, Joined(c, t));
      SetColor(z.rbParent, Black, g, Joined(c, t));
      ghost var p := Paint(Joined(c, t), Black);
      SetColor(z.rbParent.rbParent, Red, g.up, Joined(g, p));
      RotateRight(z.rbParent.rbParent, g.up, Paint(Joined(g, p), Red));
    }

    method InsertStepLeft(z0: Thread, ghost c: Ctx, ghost t: Tree) returns (z: Thread, ghost c': Ctx, ghost t': Tree)
      requires t.Node? && t.key == z0 && Holds(Plug(c, t))
      requires InsertInv(c, t) && InsertGuard(c) && c.up.InLeft?
      modifies this`root, Keys(Plug(c, t))`rbLeft, Keys(Plug(c, t))`rbRight
      modifies Keys(Plug(c, t))`rbParent, Keys(Plug(c, t))`rbColor
      ensures (c', t') == InsertStep(c, t)
      ensures t'.Node? && t'.key == z
      ensures Holds(Plug(c', t')) && Keys(Plug(c', t')) == Keys(Plug(c, t))
    {
      z := z0;
      c', t' := c, t;
      Around(c, t);
      var y := z.rbParent.rbParent.rbRight;
      if y != null && y.rbColor == Red {
        RecolorLeft(z, y, c, t);
        z := z.rbParent.rbParent;
        c', t' := Recolored(Joined(c, t), c.up).0, Recolored(Joined(c, t), c.up).1;
      } else {
        if z == z.rbParent.rbRight {
          z := z.rbParent;
          StraightenLeft(z, c, t);
          c', t' := Straighten(c, t).0, Straighten(c, t).1;
        }
        LiftLeft(z, c', t');
        c' := Lifted(c', t');
      }
    }

    /** The uncle is red: parent and uncle become black, the grandparent red. */
    method RecolorRight(z: Thread, y: Thread, ghost c: Ctx, ghost t: Tree)
      requires t.Node? && t.key == z && Holds(Plug(c, t))
      requires c != Top && c.up.InRight? && c.up.left.Node? && c.up.left.key == y
      modifies Keys(Plug(c, t))`rbColor
      ensures var r := Recolored(Joined(c, t), c.up); Swapped(Plug(c, t), Plug(r.0, r.1))
    {
      ghost var g := c.up;
      Look(c, t);
      Look(g, Joined(c, t));
      Look(InLeft(g.up, g.color, g.key, Joined(c, t)), g.left);
      Look(g.up, Joined(g, Joined(c, t)));
      ghost var p := Paint(Joined(c, t), Black);
      SetColor(z.rbParent, Black, g, Joined(c, t));
      SetColor(y, Black, InLeft(g.up, g.color, g.key, p), g.left);
      SetColor(z.rbParent.rbParent, Red, g.up, Node(Paint(g.left, Black), g.color, g.key, p));
    }

    /** The inner rotation. */
    method StraightenRight(z: Thread, ghost c: Ctx, ghost t: Tree)
      requires t.Node? && c.InLeft? && c.up.InRight? && c.key == z && Holds(Plug(c, t))
      modifies this`root, Keys(Plug(c, t))`rbLeft, Keys(Plug(c, t))`rbRight, Keys(Plug(c, t))`rbParent
      ensures var r := Straighten(c, t); Swapped(Plug(c, t), Plug(r.0, r.1))
    {
      RotateRight(z, c.up, Joined(c, t));
      ghost var r := Straighten(c, t);
      assert Joined(r.0, r.1) == RotR(Joined(c, t));
    }

    /** The outer rotation, with parent black and grandparent red. */
    method LiftRight(z: Thread, ghost c: Ctx, ghost t: Tree)
      requires t.Node? && t.key == z && c.InRight? && c.up.InRight? && Holds(Plug(c, t))
      modifies this`root, Keys(Plug(c, t))`rbLeft, Keys(Plug(c, t))`rbRight
      modifies Keys(Plug(c, t))`rbParent, Keys(Plug(c, t))`rbColor
      ensures Swapped(Plug(c, t), Plug(Lifted(c, t), t))
    {
      ghost var g := c.up;
      Look(c, t);
      Look(g, Joined(c, t));
      SetColor(z.rbParent, Black, g, Joined(c, t));
      ghost var p := Paint(Joined(c, t), Black);
      SetColor(z.rbParent.rbParent, Red, g.up, Joined(g, p));
      RotateLeft(z.rbParent.rbParent, g.up, Paint(Joined(g, p), Red));
    }

    method InsertStepRight(z0: Thread, ghost c: Ctx, ghost t: Tree) returns (z: Thread, ghost c': Ctx, ghost t': Tree)
      requires t.Node? && t.key == z0 && Holds(Plug(c, t))
      requires InsertInv(c, t) && InsertGuard(c) && c.up.InRight?
      modifies this`root, Keys(Plug(c, t))`rbLeft, Keys(Plug(c, t))`rbRight
      modifies Keys(Plug(c, t))`rbParent, Keys(Plug(c, t))`rbColor
      ensures (c', t') == InsertStep(c, t)
      ensures t'.Node? && t'.key == z
      ensures Holds(Plug(c', t')) && Keys(Plug(c', t')) == Keys(Plug(c, t))
    {
      z := z0;
      c', t' := c, t;
      Around(c, t);
      var y := z.rbParent.rbParent.rbLeft;
      if y != null && y.rbColor == Red {
        RecolorRight(z, y, c, t);
        z := z.rbParent.rbParent;
        c', t' := Recolored(Joined(c, t), c.up).0, Recolored(Joined(c, t), c.up).1;
      } else {
        if z == z.rbParent.rbLeft {
          z := z.rbParent;
          StraightenRight(z, c, t);
          c', t' := Straighten(c, t).0, Straighten(c, t).1;
        }
        LiftRight(z, c', t');
        c' := Lifted(c', t');
      }
    }

    /** What the loop of the insert fixup knows about its focus z. */
    ghost predicate InsertFocus(z: Thread, c: Ctx, t: Tree, f: Tree)
      reads this, Keys(Plug(c, t)), z, z.rbParent
    {
      && t.Node? && t.key == z && Swapped(f, Plug(c, t))
      && InsertInv(c, t) && Inorder(Plug(c, t)) == Inorder(f)
      && z in Keys(f) && (z.rbParent != null ==> z.rbParent in Keys(f))
      && (InsertGuard(c) <==> z.rbParent != null && z.rbParent.rbColor == Red)
    }

    lemma FocusLinks(z: Thread, c: Ctx, t: Tree, f: Tree)
      requires t.Node? && t.key == z && Swapped(f, Plug(c, t))
      requires InsertInv(c, t) && Inorder(Plug(c, t)) == Inorder(f)
      ensures InsertFocus(z, c, t, f)
    {
      Look(c, t);
      if c != Top {
        Look(c.up, Joined(c, t));
      }
    }

    method InsertStepEither(z0: Thread, ghost c: Ctx, ghost t: Tree, ghost f: Tree)
      returns (z: Thread, ghost c': Ctx, ghost t': Tree)
      requires InsertFocus(z0, c, t, f) && InsertGuard(c)
      modifies this`root, Keys(f)`rbLeft, Keys(f)`rbRight, Keys(f)`rbParent, Keys(f)`rbColor
      ensures InsertFocus(z, c', t', f)
      ensures InsertGuard(c') ==> Depth(c') + 2 <= Depth(c)
    {
      InsertStepOk(c, t);
      InsertStepDepth(c, t);
      Around(c, t);
      if z0.rbParent == z0.rbParent.rbParent.rbLeft {
        z, c', t' := InsertStepLeft(z0, c, t);
      } else {
        z, c', t' := InsertStepRight(z0, c, t);
      }
      FocusLinks(z, c', t', f);
    }

    /** rb_insert_fixup. It takes at most one round for every two levels of the tree. */
    method InsertFixup(z0: Thread, ghost c0: Ctx, ghost t0: Tree) returns (ghost t': Tree, ghost steps: nat)
      requires t0.Node? && t0.key == z0 && Holds(Plug(c0, t0))
      requires InsertInv(c0, t0)
      modifies this`root, Keys(Plug(c0, t0))`rbLeft, Keys(Plug(c0, t0))`rbRight
      modifies Keys(Plug(c0, t0))`rbParent, Keys(Plug(c0, t0))`rbColor
      ensures Holds(t') && Keys(t') == Keys(Plug(c0, t0))
      ensures RedBlack(t') && Inorder(t') == Inorder(Plug(c0, t0))
      ensures 2 * steps <= Height(Plug(c0, t0))
    {
      var z := z0;
      ghost var c, t, f := c0, t0, Plug(c0, t0);
      steps := 0;
      FocusLinks(z, c, t, f);
      while z.rbParent != null && z.rbParent.rbColor == Red
        invariant InsertFocus(z, c, t, f)
        invariant 2 * steps + (if InsertGuard(c) then Depth(c) else 0) <= Depth(c0) + 1
        decreases if InsertGuard(c) then 1 + Depth(c) else 0
      {
        z, c, t := InsertStepEither(z, c, t, f);
        steps := steps + 1;
      }
      DepthHeight(c0, t0);
      InsertDone(c, t);
      Look(Top, Plug(c, t));
      SetColor(root, Black, Top, Plug(c, t));
      t' := Blacken(Plug(c, t));
    }

    // -------------------------------------------------------------- removal fixup

    // A node with one black missing has a sibling, so the code's branches for a NULL sibling are
    // dead; the sibling w has the type of threads that are not null throughout.

    method RedSiblingLeft(xParent: Thread, ghost c: Ctx, ghost t: Tree) returns (w: Thread, ghost c': Ctx)
      requires Holds(Plug(c, t)) && RemoveInv(c, t) && RemoveGuard(c, t) && c.InLeft? && c.key == xParent
      modifies this`root, Keys(Plug(c, t))`rbLeft, Keys(Plug(c, t))`rbRight
      modifies Keys(Plug(c, t))`rbParent, Keys(Plug(c, t))`rbColor
      ensures c' == BlackSibling(c) && c'.InLeft? && c'.key == xParent
      ensures c'.right.Node? && w == c'.right.key
      ensures Holds(Plug(c', t)) && Keys(Plug(c', t)) == Keys(Plug(c, t))
    {
      BlackSiblingOk(c, t);
      Look(c.up, Joined(c, t));
      c' := c;
      w := xParent.rbRight;
      Look(InRight(c.up, t, c.color, c.key), c.right);
      if w.rbColor == Red {
        ghost var s := Paint(c.right, Black);
        SetColor(w, Black, InRight(c.up, t, c.color, c.key), c.right);
        SetColor(xParent, Red, c.up, Node(t, c.color, c.key, s));
        RotateLeft(xParent, c.up, Node(t, Red, c.key, s));
        c' := BlackSibling(c);
        assert RotL(Node(t, Red, c.key, s)) == Joined(c'.up, Joined(c', t));
        assert Plug(c', t) == Plug(c'.up, Joined(c', t)) == Plug(c.up, Joined(c'.up, Joined(c', t)));
        Look(c'.up, Joined(c', t));
        w := xParent.rbRight;
      }
    }

    method SettleLeft(w0: Thread, xParent: Thread, ghost c: Ctx, ghost t: Tree)
      requires Holds(Plug(c, t)) && RemoveInv(c, t) && RemoveGuard(c, t) && c.InLeft? && c.key == xParent
      requires c.right.Node? && c.right.key == w0 && !IsRed(c.right) && (IsRed(Far(c)) || IsRed(Near(c)))
      modifies this`root, Keys(Plug(c, t))`rbLeft, Keys(Plug(c, t))`rbRight
      modifies Keys(Plug(c, t))`rbParent, Keys(Plug(c, t))`rbColor
      ensures Holds(Plug(c.up, Settled(FarRed(c), t)))
      ensures Keys(Plug(c.up, Settled(FarRed(c), t))) == Keys(Plug(c, t))
    {
      var w := w0;
      ghost var c1 := c;
      ghost var cw := InRight(c.up, t, c.color, c.key);
      FarRedOk(c, t);
      Look(c.up, Joined(c, t));
      Look(cw, c.right);
      if c.right.left.Node? { Look(InLeft(cw, c.right.color, w, c.right.right), c.right.left); }
      if c.right.right.Node? { Look(InRight(cw, c.right.left, c.right.color, w), c.right.right); }
      if w.rbRight == null || w.rbRight.rbColor == Black {
        if w.rbLeft != null {
          SetColor(w.rbLeft, Black, InLeft(cw, c.right.color, w, c.right.right), c.right.left);
        }
        ghost var s := c.right.(left := Paint(c.right.left, Black));
        SetColor(w, Red, cw, s);
        RotateRight(w, cw, s.(color := Red));
        c1 := FarRed(c);
        assert Plug(cw, c1.right) == Plug(c1.up, Joined(c1, t)) == Plug(c1, t);
        Look(c1.up, Joined(c1, t));
        w := xParent.rbRight;
      }
      SettleLastLeft(w, xParent, c1, t);
    }

    method SettleLastLeft(w: Thread, xParent: Thread, ghost c: Ctx, ghost t: Tree)
      requires Holds(Plug(c, t)) && c.InLeft? && c.key == xParent
      requires c.right.Node? && c.right.key == w && IsRed(Far(c))
      modifies this`root, Keys(Plug(c, t))`rbLeft, Keys(Plug(c, t))`rbRight
      modifies Keys(Plug(c, t))`rbParent, Keys(Plug(c, t))`rbColor
      ensures Holds(Plug(c.up, Settled(c, t)))
      ensures Keys(Plug(c.up, Settled(c, t))) == Keys(Plug(c, t))
    {
      ghost var s := Paint(c.right, c.color);
      Look(c.up, Joined(c, t));
      Look(InRight(c.up, t, c.color, c.key), c.right);
      SetColor(w, xParent.rbColor, InRight(c.up, t, c.color, c.key), c.right);
      SetColor(xParent, Black, c.up, Node(t, c.color, c.key, s));
      ghost var cw := InRight(c.up, t, Black, c.key);
      assert Plug(cw, s) == Plug(c.up, Node(t, Black, c.key, s));
      Look(cw, s);
      if w.rbRight != null {
        SetColor(w.rbRight, Black, InRight(cw, s.left, s.color, s.key), s.right);
      }
      ghost var s' := s.(right := Paint(s.right, Black));
      RotateLeft(xParent, c.up, Node(t, Black, c.key, s'));
      assert RotL(Node(t, Black, c.key, s')) == Settled(c, t);
    }

    method RemoveStepLeft(x0: Thread?, xParent0: Thread, ghost c: Ctx, ghost t: Tree)
      returns (x: Thread?, xParent: Thread?, done: bool, ghost c': Ctx, ghost t': Tree)
      requires Holds(Plug(c, t)) && RemoveInv(c, t) && RemoveGuard(c, t)
      requires c.InLeft? && c.key == xParent0 && x0 == RootOf(t)
      modifies this`root, Keys(Plug(c, t))`rbLeft, Keys(Plug(c, t))`rbRight
      modifies Keys(Plug(c, t))`rbParent, Keys(Plug(c, t))`rbColor
      ensures Uncle(BlackSibling(c)).Node?
      ensures (c', t') == RemoveStep(c, t)
      ensures x == RootOf(t') && xParent == Above(c') && (done ==> c' == Top)
      ensures Holds(Plug(c', t')) && Keys(Plug(c', t')) == Keys(Plug(c, t))
    {
      BlackSiblingOk(c, t);
      ghost var c1;
      var w;
      w, c1 := RedSiblingLeft(xParent0, c, t);
      ghost var cw := InRight(c1.up, t, c1.color, c1.key);
      Look(c1.up, Joined(c1, t));
      Look(cw, c1.right);
      if c1.right.left.Node? { Look(InLeft(cw, c1.right.color, w, c1.right.right), c1.right.left); }
      if c1.right.right.Node? { Look(InRight(cw, c1.right.left, c1.right.color, w), c1.right.right); }
      if (w.rbLeft == null || w.rbLeft.rbColor == Black) && (w.rbRight == null || w.rbRight.rbColor == Black) {
        SetColor(w, Red, cw, c1.right);
        c', t' := c1.up, Raised(c1, t);
        Look(c', t');
        x := xParent0;
        xParent := x.rbParent;
        done := false;
      } else {
        SettleLeft(w, xParent0, c1, t);
        c', t' := Top, Plug(c1.up, Settled(FarRed(c1), t));
        x := root;
        xParent := null;
        done := true;
      }
    }

    method RedSiblingRight(xParent: Thread, ghost c: Ctx, ghost t: Tree) returns (w: Thread, ghost c': Ctx)
      requires Holds(Plug(c, t)) && RemoveInv(c, t) && RemoveGuard(c, t) && c.InRight? && c.key == xParent
      modifies this`root, Keys(Plug(c, t))`rbLeft, Keys(Plug(c, t))`rbRight
      modifies Keys(Plug(c, t))`rbParent, Keys(Plug(c, t))`rbColor
      ensures c' == BlackSibling(c) && c'.InRight? && c'.key == xParent
      ensures c'.left.Node? && w == c'.left.key
      ensures Holds(Plug(c', t)) && Keys(Plug(c', t)) == Keys(Plug(c, t))
    {
      BlackSiblingOk(c, t);
      Look(c.up, Joined(c, t));
      c' := c;
      w := xParent.rbLeft;
      Look(InLeft(c.up, c.color, c.key, t), c.left);
      if w.rbColor == Red {
        ghost var s := Paint(c.left, Black);
        SetColor(w, Black, InLeft(c.up, c.color, c.key, t), c.left);
        SetColor(xParent, Red, c.up, Node(s, c.color, c.key, t));
        RotateRight(xParent, c.up, Node(s, Red, c.key, t));
        c' := BlackSibling(c);
        assert RotR(Node(s, Red, c.key, t)) == Joined(c'.up, Joined(c', t));
        assert Plug(c', t) == Plug(c'.up, Joined(c', t)) == Plug(c.up, Joined(c'.up, Joined(c', t)));
        Look(c'.up, Joined(c', t));
        w := xParent.rbLeft;
      }
    }

    method SettleRight(w0: Thread, xParent: Thread, ghost c: Ctx, ghost t: Tree)
      requires Holds(Plug(c, t)) && RemoveInv(c, t) && RemoveGuard(c, t) && c.InRight? && c.key == xParent
      requires c.left.Node? && c.left.key == w0 && !IsRed(c.left) && (IsRed(Far(c)) || IsRed(Near(c)))
      modifies this`root, Keys(Plug(c, t))`rbLeft, Keys(Plug(c, t))`rbRight
      modifies Keys(Plug(c, t))`rbParent, Keys(Plug(c, t))`rbColor
      ensures Holds(Plug(c.up, Settled(FarRed(c), t)))
      ensures Keys(Plug(c.up, Settled(FarRed(c), t))) == Keys(Plug(c, t))
    {
      var w := w0;
      ghost var c1 := c;
      ghost var cw := InLeft(c.up, c.color, c.key, t);
      FarRedOk(c, t);
      Look(c.up, Joined(c, t));
      Look(cw, c.left);
      if c.left.right.Node? { Look(InRight(cw, c.left.left, c.left.color, w), c.left.right); }
      if c.left.left.Node? { Look(InLeft(cw, c.left.color, w, c.left.right), c.left.left); }
      if w.rbLeft == null || w.rbLeft.rbColor == Black {
        if w.rbRight != null {
          SetColor(w.rbRight, Black, InRight(cw, c.left.left, c.left.color, w), c.left.right);
        }
        ghost var s := c.left.(right := Paint(c.left.right, Black));
        SetColor(w, Red, cw, s);
        RotateLeft(w, cw, s.(color := Red));
        c1 := FarRed(c);
        assert Plug(cw, c1.left) == Plug(c1.up, Joined(c1, t)) == Plug(c1, t);
        Look(c1.up, Joined(c1, t));
        w := xParent.rbLeft;
      }
      SettleLastRight(w, xParent, c1, t);
    }

    method SettleLastRight(w: Thread, xParent: Thread, ghost c: Ctx, ghost t: Tree)
      requires Holds(Plug(c, t)) && c.InRight? && c.key == xParent
      requires c.left.Node? && c.left.key == w && IsRed(Far(c))
      modifies this`root, Keys(Plug(c, t))`rbLeft, Keys(Plug(c, t))`rbRight
      modifies Keys(Plug(c, t))`rbParent, Keys(Plug(c, t))`rbColor
      ensures Holds(Plug(c.up, Settled(c, t)))
      ensures Keys(Plug(c.up, Settled(c, t))) == Keys(Plug(c, t))
    {
      ghost var s := Paint(c.left, c.color);
      Look(c.up, Joined(c, t));
      Look(InLeft(c.up, c.color, c.key, t), c.left);
      SetColor(w, xParent.rbColor, InLeft(c.up, c.color, c.key, t), c.left);
      SetColor(xParent, Black, c.up, Node(s, c.color, c.key, t));
      ghost var cw := InLeft(c.up, Black, c.key, t);
      assert Plug(cw, s) == Plug(c.up, Node(s, Black, c.key, t));
      Look(cw, s);
      if w.rbLeft != null {
        SetColor(w.rbLeft, Black, InLeft(cw, s.color, s.key, s.right), s.left);
      }
      ghost var s' := s.(left := Paint(s.left, Black));
      RotateRight(xParent, c.up, Node(s', Black, c.key, t));
      assert RotR(Node(s', Black, c.key, t)) == Settled(c, t);
    }

    method RemoveStepRight(x0: Thread?, xParent0: Thread, ghost c: Ctx, ghost t: Tree)
      returns (x: Thread?, xParent: Thread?, done: bool, ghost c': Ctx, ghost t': Tree)
      requires Holds(Plug(c, t)) && RemoveInv(c, t) && RemoveGuard(c, t)
      requires c.InRight? && c.key == xParent0 && x0 == RootOf(t)
      modifies this`root, Keys(Plug(c, t))`rbLeft, Keys(Plug(c, t))`rbRight
      modifies Keys(Plug(c, t))`rbParent, Keys(Plug(c, t))`rbColor
      ensures Uncle(BlackSibling(c)).Node?
      ensures (c', t') == RemoveStep(c, t)
      ensures x == RootOf(t') && xParent == Above(c') && (done ==> c' == Top)
      ensures Holds(Plug(c', t')) && Keys(Plug(c', t')) == Keys(Plug(c, t))
    {
      BlackSiblingOk(c, t);
      ghost var c1;
      var w;
      w, c1 := RedSiblingRight(xParent0, c, t);
      ghost var cw := InLeft(c1.up, c1.color, c1.key, t);
      Look(c1.up, Joined(c1, t));
      Look(cw, c1.left);
      if c1.left.right.Node? { Look(InRight(cw, c1.left.left, c1.left.color, w), c1.left.right); }
      if c1.left.left.Node? { Look(InLeft(cw, c1.left.color, w, c1.left.right), c1.left.left); }
      if (w.rbRight == null || w.rbRight.rbColor == Black) && (w.rbLeft == null || w.rbLeft.rbColor == Black) {
        SetColor(w, Red, cw, c1.left);
        c', t' := c1.up, Raised(c1, t);
        Look(c', t');
        x := xParent0;
        xParent := x.rbParent;
        done := false;
      } else {
        SettleRight(w, xParent0, c1, t);
        c', t' := Top, Plug(c1.up, Settled(FarRed(c1), t));
        x := root;
        xParent := null;
        done := true;
      }
    }

    method RemoveStepEither(x0: Thread?, xParent0: Thread, ghost c: Ctx, ghost t: Tree)
      returns (x: Thread?, xParent: Thread?, done: bool, ghost c': Ctx, ghost t': Tree)
      requires Holds(Plug(c, t)) && RemoveInv(c, t) && RemoveGuard(c, t) && c.key == xParent0 && x0 == RootOf(t)
      modifies this`root, Keys(Plug(c, t))`rbLeft, Keys(Plug(c, t))`rbRight
      modifies Keys(Plug(c, t))`rbParent, Keys(Plug(c, t))`rbColor
      ensures Uncle(BlackSibling(c)).Node?
      ensures (c', t') == RemoveStep(c, t)
      ensures x == RootOf(t') && xParent == Above(c') && (done ==> c' == Top)
      ensures Holds(Plug(c', t')) && Keys(Plug(c', t')) == Keys(Plug(c, t))
    {
      RemoveStepOk(c, t);
      Look(c.up, Joined(c, t));
      if x0 == xParent0.rbLeft {
        x, xParent, done, c', t' := RemoveStepLeft(x0, xParent0, c, t);
      } else {
        x, xParent, done, c', t' := RemoveStepRight(x0, xParent0, c, t);
      }
    }

    /** rb_remove_fixup. It takes at most one round for every level of the tree. */
    method RemoveFixup(x0: Thread?, xParent0: Thread?, ghost c0: Ctx, ghost t0: Tree)
      returns (ghost t': Tree, ghost steps: nat)
      requires Holds(Plug(c0, t0)) && Plug(c0, t0) != Leaf && RemoveInv(c0, t0)
      requires x0 == RootOf(t0) && xParent0 == Above(c0)
      modifies this`root, Keys(Plug(c0, t0))`rbLeft, Keys(Plug(c0, t0))`rbRight
      modifies Keys(Plug(c0, t0))`rbParent, Keys(Plug(c0, t0))`rbColor
      ensures Holds(t') && Keys(t') == Keys(Plug(c0, t0))
      ensures RedBlack(t') && Inorder(t') == Inorder(Plug(c0, t0))
      ensures steps <= Height(Plug(c0, t0))
    {
      var x, xParent := x0, xParent0;
      ghost var c, t := c0, t0;
      steps := 0;
      AtRoot(c, t);
      DepthHeight(c0, t0);
      while x != root && (x == null || x.rbColor == Black)
        invariant Holds(Plug(c, t)) && Keys(Plug(c, t)) == Keys(Plug(c0, t0))
        invariant RemoveInv(c, t) && Inorder(Plug(c, t)) == Inorder(Plug(c0, t0))
        invariant x == RootOf(t) && xParent == Above(c) && (x != null ==> x in Keys(Plug(c, t)))
        invariant RemoveGuard(c, t) <==> x != root && (x == null || x.rbColor == Black)
        invariant steps + (if RemoveGuard(c, t) then Depth(c) else 0) <= Depth(c0)
        decreases if RemoveGuard(c, t) then 1 + Depth(c) else 0
      {
        RemoveStepOk(c, t);
        RemoveStepDepth(c, t);
        var done;
        x, xParent, done, c, t := RemoveStepEither(x, xParent, c, t);
        AtRoot(c, t);
        steps := steps + 1;
        if done {
          break;
        }
      }
      RemoveDone(c, t);
      if x != null {
        SetColor(x, Black, c, t);
      }
      t' := Plug(c, Blacken(t));
    }

    /** Only an empty context leaves the focus at the root. */
    lemma AtRoot(c: Ctx, t: Tree)
      requires Holds(Plug(c, t))
      ensures root == RootOf(t) <==> c == Top || Plug(c, t) == Leaf
      ensures t.Node? ==> t.key in Keys(Plug(c, t)) && t.key.rbColor == t.color
    {
      DistinctPlug(c, t);
      RootPlug(c, t, t);
      if t.Node? {
        Look(c, t);
      }
    }

    // -------------------------------------------------------------- removal

    /** rb_minimum. */
    method Minimum(x0: Thread, ghost c0: Ctx, ghost t0: Tree)
      returns (x: Thread, ghost s: Ctx, ghost t: Tree, ghost steps: nat)
      requires t0.Node? && t0.key == x0 && Holds(Plug(c0, t0))
      ensures t.Node? && t.key == x && t.left == Leaf
      ensures Spine(s) && t0 == Plug(s, t) && Plug(Join(s, c0), t) == Plug(c0, t0)
      ensures Holds(Plug(c0, t0))
      ensures x == First(Inorder(t0)) && steps < Height(t0)
    {
      x, s, t, steps := x0, Top, t0, 0;
      ghost var f := Plug(c0, t0);
      Look(c0, t0);
      while x.rbLeft != null
        invariant t.Node? && t.key == x && x in Keys(f) && x.rbLeft == RootOf(t.left)
        invariant Holds(f) && Spine(s) && t0 == Plug(s, t) && steps + Height(t) <= Height(t0)
        decreases t
      {
        steps := steps + 1;
        x := x.rbLeft;
        s, t := InLeft(s, t.color, t.key, t.right), t.left;
        JoinPlug(s, c0, t);
        AtFocus(Join(s, c0), t);
        assert LinksOf(x) == At(f, null, x);
      }
      JoinPlug(s, c0, t);
      SpineOrder(s, t);
    }

    method Transplant(u: Thread, v: Thread?, ghost ks: set<Thread>)
      requires u in ks && (u.rbParent != null ==> u.rbParent in ks) && (v != null ==> v in ks)
      requires u.rbParent == null || u.rbParent != v
      modifies this`root, ks`rbLeft, ks`rbRight, ks`rbParent
      ensures root == if old(u.rbParent) == null then v else old(root)
      ensures forall n {:trigger LinksOf(n)} :: n in ks ==>
        LinksOf(n) == TransplantLinks(u, v, old(u.rbParent), n, old(LinksOf(n)))
    {
      if u.rbParent == null {
        root := v;
      } else if u == u.rbParent.rbLeft {
        u.rbParent.rbLeft := v;
      } else {
        u.rbParent.rbRight := v;
      }
      if v != null {
        v.rbParent := u.rbParent;
      }
    }

    /** A node with at most one child leaves; its child v moves up. */
    method SpliceOut(u: Thread, v: Thread?, ghost c: Ctx, ghost t: Tree, ghost vt: Tree)
      requires t.Node? && t.key == u && Holds(Plug(c, t)) && v == RootOf(vt)
      requires (t.left == Leaf && vt == t.right) || (t.right == Leaf && vt == t.left)
      modifies this`root, Keys(Plug(c, t))`rbLeft, Keys(Plug(c, t))`rbRight, Keys(Plug(c, t))`rbParent
      ensures Holds(Plug(c, vt)) && Keys(Plug(c, vt)) == Keys(Plug(c, t)) - {u}
    {
      ghost var f := Plug(c, t);
      ghost var was := map n | n in Keys(f) :: LinksOf(n);
      Look(c, t);
      RootPlug(c, t, vt);
      DistinctPlug(c, t);
      DistinctPlug(c, vt);
      Transplant(u, v, Keys(f));
      forall n | n in Keys(Plug(c, vt))
        ensures LinksOf(n) == At(Plug(c, vt), null, n)
      {
        SplicePlug(c, t, vt, n);
        assert was[n] == At(f, null, n);
      }
    }

    /** y takes the parent link, the left child and the colour of z. */
    method Occupy(z: Thread, y: Thread, ghost ks: set<Thread>)
      requires z in ks && y in ks && z.rbLeft != null && z.rbLeft in ks && (z.rbParent != null ==> z.rbParent in ks)
      requires z != y && z.rbLeft != y && z.rbLeft != z && z.rbParent != y && z.rbParent != z && z.rbLeft != z.rbParent
      modifies this`root, ks`rbLeft, ks`rbRight, ks`rbParent, ks`rbColor
      ensures root == if old(z.rbParent) == null then y else old(root)
      ensures forall n {:trigger LinksOf(n)} :: n in ks && n != z ==>
        LinksOf(n) == OccupyLinks(z, old(LinksOf(z)), y, n, old(LinksOf(n)))
    {
      ghost var was := map n | n in ks :: LinksOf(n);
      Transplant(z, y, ks);
      ghost var mid := map n | n in ks :: LinksOf(n);
      assert LinksOf(z) == was[z];
      y.rbLeft := z.rbLeft;
      y.rbLeft.rbParent := y;
      y.rbColor := z.rbColor;
      forall n {:trigger LinksOf(n)} | n in ks && n != z
        ensures LinksOf(n) == OccupyLinks(z, was[z], y, n, was[n])
      {
        assert mid[n] == TransplantLinks(z, y, was[z].parent, n, was[n]);
      }
    }

    /** The right child y of z, which has no left child, moves into the place of z. */
    method PullUp(z: Thread, y: Thread, ghost c: Ctx, ghost t: Tree)
      requires t.Node? && t.key == z && Holds(Plug(c, t))
      requires t.left.Node? && t.right.Node? && t.right.left == Leaf && t.right.key == y
      modifies this`root, Keys(Plug(c, t))`rbLeft, Keys(Plug(c, t))`rbRight
      modifies Keys(Plug(c, t))`rbParent, Keys(Plug(c, t))`rbColor
      ensures var u := Plug(c, Node(t.left, t.color, y, t.right.right));
        Holds(u) && Keys(u) == Keys(Plug(c, t)) - {z}
    {
      ghost var f := Plug(c, t);
      ghost var u := Node(t.left, t.color, y, t.right.right);
      ghost var was := map n | n in Keys(f) :: LinksOf(n);
      Look(c, t);
      RootPlug(c, t, u);
      PullUpPlug(c, t, y);
      Occupy(z, y, Keys(f));
      forall n | n in Keys(Plug(c, u))
        ensures LinksOf(n) == At(Plug(c, u), null, n)
      {
        PullUpPlug(c, t, n);
        assert was[n] == At(f, null, n);
      }
    }

    /** A thread y outside the tree takes over the links of z. */
    method TakeOver(z: Thread, y: Thread, ghost c: Ctx, ghost t: Tree)
      requires t.Node? && t.key == z && Holds(Plug(c, t)) && y !in Keys(Plug(c, t))
      requires t.left.Node? && t.right.Node?
      modifies this`root, Keys(Plug(c, t))`rbLeft, Keys(Plug(c, t))`rbRight
      modifies Keys(Plug(c, t))`rbParent, Keys(Plug(c, t))`rbColor
      modifies y`rbLeft, y`rbRight, y`rbParent, y`rbColor
      ensures var u := Plug(c, t.(key := y));
        Holds(u) && Keys(u) == Keys(Plug(c, t)) - {z} + {y}
    {
      ghost var f := Plug(c, t);
      ghost var u := t.(key := y);
      ghost var was := map n | n in Keys(f) :: LinksOf(n);
      Look(c, t);
      RootPlug(c, t, u);
      RekeyPlug(c, t, y, y);
      assert was[z] == At(f, null, z);
      y.rbRight := z.rbRight;
      y.rbRight.rbParent := y;
      ghost var mid := map n | n in Keys(f) + {y} :: LinksOf(n);
      assert mid[z] == was[z];
      Occupy(z, y, Keys(f) + {y});
      forall n | n in Keys(Plug(c, u))
        ensures LinksOf(n) == At(Plug(c, u), null, n)
      {
        RekeyPlug(c, t, y, n);
        if n != y {
          assert was[n] == At(f, null, n);
          assert mid[n] == if n == was[z].right then was[n].(parent := y) else was[n];
        }
      }
    }

    /** Takes z out of the tree, leaving the fixup to do; x and xParent say where. */
    method Unlink(z: Thread, ghost c: Ctx, ghost t: Tree)
      returns (x: Thread?, xParent: Thread?, yOriginalColor: Color, ghost r: Removal)
      requires t.Node? && t.key == z && Holds(Plug(c, t)) && RedBlack(Plug(c, t))
      modifies this`root, Keys(Plug(c, t))`rbLeft, Keys(Plug(c, t))`rbRight
      modifies Keys(Plug(c, t))`rbParent, Keys(Plug(c, t))`rbColor
      ensures Holds(Plug(r.c, r.t)) && Keys(Plug(r.c, r.t)) == Keys(Plug(c, t)) - {z}
      ensures RemovalOk(r) && r.gone == yOriginalColor
      ensures x == RootOf(r.t) && xParent == Above(r.c)
      ensures Inorder(Plug(r.c, r.t)) == Before(c) + Inorder(t.left) + Inorder(t.right) + After(c)
    {
      Look(c, t);
      yOriginalColor := z.rbColor;
      if z.rbLeft == null {
        x, xParent := z.rbRight, z.rbParent;
        SpliceOut(z, z.rbRight, c, t, t.right);
        r := OneChild(c, t);
        OneChildOk(c, t);
      } else if z.rbRight == null {
        x, xParent := z.rbLeft, z.rbParent;
        SpliceOut(z, z.rbLeft, c, t, t.left);
        r := OneChild(c, t);
        OneChildOk(c, t);
      } else {
        x, xParent, yOriginalColor, r := UnlinkTwo(z, c, t);
      }
    }

    method UnlinkTwo(z: Thread, ghost c: Ctx, ghost t: Tree)
      returns (x: Thread?, xParent: Thread?, yOriginalColor: Color, ghost r: Removal)
      requires t.Node? && t.key == z && Holds(Plug(c, t)) && RedBlack(Plug(c, t))
      requires t.left.Node? && t.right.Node?
      modifies this`root, Keys(Plug(c, t))`rbLeft, Keys(Plug(c, t))`rbRight
      modifies Keys(Plug(c, t))`rbParent, Keys(Plug(c, t))`rbColor
      ensures Holds(Plug(r.c, r.t)) && Keys(Plug(r.c, r.t)) == Keys(Plug(c, t)) - {z}
      ensures RemovalOk(r) && r.gone == yOriginalColor
      ensures x == RootOf(r.t) && xParent == Above(r.c)
      ensures Inorder(Plug(r.c, r.t)) == Before(c) + Inorder(t.left) + Inorder(t.right) + After(c)
    {
      ghost var b := InRight(c, t.left, t.color, z);
      Look(c, t);
      ghost var s, ty;
      var y;
      ghost var steps;
      y, s, ty, steps := Minimum(z.rbRight, b, t.right);
      Look(Join(s, b), ty);
      r := Successor(c, t, s, ty);
      SuccessorOk(c, t, s, ty);
      SuccessorOrder(c, t, s, ty);
      yOriginalColor := y.rbColor;
      x := y.rbRight;
      xParent := MoveUp(z, y, c, t, s, ty);
    }

    /** The successor y of z, found below the left turns s, moves into the place of z. */
    method MoveUp(z: Thread, y: Thread, ghost c: Ctx, ghost t: Tree, ghost s: Ctx, ghost ty: Tree)
      returns (xParent: Thread?)
      requires t.Node? && t.key == z && Holds(Plug(c, t)) && t.left.Node? && t.right.Node?
      requires ty.Node? && ty.key == y && ty.left == Leaf && Spine(s) && t.right == Plug(s, ty)
      modifies this`root, Keys(Plug(c, t))`rbLeft, Keys(Plug(c, t))`rbRight
      modifies Keys(Plug(c, t))`rbParent, Keys(Plug(c, t))`rbColor
      ensures var r := Successor(c, t, s, ty);
        && Holds(Plug(r.c, r.t)) && Keys(Plug(r.c, r.t)) == Keys(Plug(c, t)) - {z}
        && xParent == Above(r.c)
    {
      ghost var b := InRight(c, t.left, t.color, z);
      ghost var cy := Join(s, b);
      JoinPlug(s, b, ty);
      Look(cy, ty);
      JoinPlug(s, InRight(c, t.left, t.color, y), ty.right);
      SpineParent(c, t, s, ty);
      if y.rbParent == z {
        xParent := y;
        PullUp(z, y, c, t);
      } else {
        xParent := y.rbParent;
        SpliceOut(y, y.rbRight, cy, ty, ty.right);
        JoinPlug(s, b, ty.right);
        RootPlug(s, ty, ty.right);
        TakeOver(z, y, c, Node(t.left, t.color, z, Plug(s, ty.right)));
      }
    }

    // -------------------------------------------------------------- the queue

    /** The queued threads in the order they will run. */
    ghost function Contents(): (s: seq<Thread>)
      reads this`tree
    {
      Inorder(tree)
    }

    ghost predicate Valid()
      reads this, Keys(tree)`rbLeft, Keys(tree)`rbRight, Keys(tree)`rbParent, Keys(tree)`rbColor, Contents()`vruntime
    {
      && Holds(tree)
      && RedBlack(tree)
      && Sorted(Contents())
      && count == |Contents()|
      && leftmost == First(Contents())
    }

    constructor ()
      ensures Valid() && Contents() == [] && minVruntime == 0
    {
      root, leftmost, count, minVruntime := null, null, 0, 0;
      tree := Leaf;
    }

    /** Going down from the root of t keeps the place of v in sight. */
    lemma Descend(c: Ctx, t: Tree, v: nat)
      requires Valid() && Plug(c, t) == tree && t.Node? && Separates(Before(c), v, After(c))
      ensures t.key in Keys(tree) && t.key.rbLeft == RootOf(t.left) && t.key.rbRight == RootOf(t.right)
      ensures v < t.key.vruntime ==> InSight(InLeft(c, t.color, t.key, t.right), t.left, v)
      ensures v >= t.key.vruntime ==> InSight(InRight(c, t.left, t.color, t.key), t.right, v)
    {
      Look(c, t);
      InorderPlug(c, t);
      SortedAround(Before(c), Inorder(t.left), t.key, Inorder(t.right), After(c));
      Narrowed(Before(c), Inorder(t.left), t.key, Inorder(t.right), After(c), v);
    }

    ghost predicate InSight(c: Ctx, t: Tree, v: nat)
      reads this`tree, Before(c)`vruntime, After(c)`vruntime
    {
      Plug(c, t) == tree && Separates(Before(c), v, After(c))
    }

    /** At the bottom the place of v is found. */
    lemma Arrived(c: Ctx, v: nat)
      requires Valid() && InSight(c, Leaf, v)
      ensures Contents() == Before(c) + After(c) && SplitsAt(Contents(), |Before(c)|, v)
    {
      InorderPlug(c, Leaf);
      SeparatesSplits(Before(c), v, After(c));
    }

    /** The way down to the insertion point. */
    method FindSlot(thread: Thread) returns (y: Thread?, ghost c: Ctx, ghost steps: nat)
      requires Valid()
      ensures Valid() && Plug(c, Leaf) == tree && y == Above(c)
      ensures Contents() == Before(c) + After(c)
      ensures SplitsAt(Contents(), |Before(c)|, thread.vruntime)
      ensures y != null ==> y in Keys(tree) && (c.InLeft? <==> thread.vruntime < y.vruntime)
      ensures y == null <==> root == null
      ensures steps <= Height(tree) && Pow2((steps + 1) / 2) <= count + 1
    {
      steps := 0;
      y, c := null, Top;
      ghost var t := tree;
      var x := root;
      while x != null
        invariant Valid() && InSight(c, t, thread.vruntime) && x == RootOf(t) && y == Above(c)
        invariant y != null ==> y in Keys(tree) && (c.InLeft? <==> thread.vruntime < y.vruntime)
        invariant if y == null then x == root else root != null
        invariant steps + Height(t) <= Height(tree)
        decreases t
      {
        steps := steps + 1;
        Descend(c, t, thread.vruntime);
        y := x;
        if thread.vruntime < x.vruntime {
          x := x.rbLeft;
          c, t := InLeft(c, t.color, t.key, t.right), t.left;
        } else {
          x := x.rbRight;
          c, t := InRight(c, t.left, t.color, t.key), t.right;
        }
      }
      Arrived(c, thread.vruntime);
      ShortWalk(tree, steps);
    }

    /** Hangs the new red leaf below y. */
    method Attach(thread: Thread, y: Thread?, ghost c: Ctx)
      requires Holds(Plug(c, Leaf)) && thread !in Keys(Plug(c, Leaf)) && y == Above(c)
      requires y != null ==> y in Keys(Plug(c, Leaf)) && (c.InLeft? <==> thread.vruntime < y.vruntime)
      modifies this`root, Keys(Plug(c, Leaf))`rbLeft, Keys(Plug(c, Leaf))`rbRight
      modifies thread`rbLeft, thread`rbRight, thread`rbParent, thread`rbColor
      ensures Holds(Plug(c, Node(Leaf, Red, thread, Leaf)))
      ensures Keys(Plug(c, Node(Leaf, Red, thread, Leaf))) == Keys(Plug(c, Leaf)) + {thread}
    {
      ghost var f := Plug(c, Leaf);
      ghost var t := Node(Leaf, Red, thread, Leaf);
      ghost var was := map n | n in Keys(f) :: LinksOf(n);
      RootPlug(c, Leaf, t);
      AttachPlug(c, thread, thread);
      thread.rbParent := y;
      thread.rbLeft := null;
      thread.rbRight := null;
      thread.rbColor := Red;
      if y == null {
        root := thread;
      } else if thread.vruntime < y.vruntime {
        y.rbLeft := thread;
      } else {
        y.rbRight := thread;
      }
      forall n | n in Keys(Plug(c, t))
        ensures LinksOf(n) == At(Plug(c, t), null, n)
      {
        AttachPlug(c, thread, n);
        if n != thread {
          assert was[n] == At(f, null, n);
        }
      }
    }

    /** rb_insert: the thread lands behind every queued thread whose vruntime is not larger. */
    method Insert(thread: Thread) returns (ghost k: nat)
      requires Valid() && thread !in Keys(tree)
      modifies this`root, this`leftmost, this`count, this`tree
      modifies Keys(tree)`rbLeft, Keys(tree)`rbRight, Keys(tree)`rbParent, Keys(tree)`rbColor
      modifies thread`rbLeft, thread`rbRight, thread`rbParent, thread`rbColor
      ensures Valid() && Keys(tree) == old(Keys(tree)) + {thread}
      ensures SplitsAt(old(Contents()), k, thread.vruntime)
      ensures Contents() == Inserted(old(Contents()), k, thread)
    {
      ghost var was := Contents();
      ghost var c, steps;
      var y;
      y, c, steps := FindSlot(thread);
      k := |Before(c)|;
      assert was[..k] == Before(c) && was[k..] == After(c);
      InsertInOrder(thread, y, c, was, k);
    }

    /** InsertAt, which does not touch the keys, carries along the order facts about `was`. */
    method InsertInOrder(thread: Thread, y: Thread?, ghost c: Ctx, ghost was: seq<Thread>, ghost k: nat)
      requires Holds(tree) && RedBlack(tree) && thread !in Keys(tree) && Plug(c, Leaf) == tree && y == Above(c)
      requires y != null ==> y in Keys(tree) && (c.InLeft? <==> thread.vruntime < y.vruntime)
      requires Sorted(was) && SplitsAt(was, k, thread.vruntime) && leftmost == First(was) && count == |was|
      requires was[..k] == Before(c) && was[k..] == After(c)
      modifies this`root, this`tree, this`leftmost, this`count
      modifies Keys(tree)`rbLeft, Keys(tree)`rbRight, Keys(tree)`rbParent, Keys(tree)`rbColor
      modifies thread`rbLeft, thread`rbRight, thread`rbParent, thread`rbColor
      ensures Valid() && Keys(tree) == old(Keys(tree)) + {thread}
      ensures SplitsAt(was, k, thread.vruntime) && Contents() == Inserted(was, k, thread)
    {
      InsertAt(thread, y, c);
      InsertedSorted(was, k, thread);
      count := count + 1;
    }

    method InsertAt(thread: Thread, y: Thread?, ghost c: Ctx)
      requires Holds(tree) && RedBlack(tree) && thread !in Keys(tree) && Plug(c, Leaf) == tree && y == Above(c)
      requires y != null ==> y in Keys(tree) && (c.InLeft? <==> thread.vruntime < y.vruntime)
      modifies this`root, this`tree, this`leftmost
      modifies Keys(tree)`rbLeft, Keys(tree)`rbRight, Keys(tree)`rbParent, Keys(tree)`rbColor
      modifies thread`rbLeft, thread`rbRight, thread`rbParent, thread`rbColor
      ensures Holds(tree) && RedBlack(tree) && Keys(tree) == old(Keys(tree)) + {thread}
      ensures Contents() == Before(c) + [thread] + After(c)
      ensures leftmost ==
        if old(leftmost) == null || thread.vruntime < old(leftmost).vruntime then thread else old(leftmost)
    {
      FreshLeaf(c, thread);
      Attach(thread, y, c);
      if leftmost == null || thread.vruntime < leftmost.vruntime {
        leftmost := thread;
      }
      ghost var steps;
      tree, steps := InsertFixup(thread, c, Node(Leaf, Red, thread, Leaf));
    }

    /** rb_remove: exactly z leaves, the others keep their order. */
    method Remove(z: Thread) returns (ghost k: nat)
      requires Valid() && z in Keys(tree)
      modifies this`root, this`leftmost, this`count, this`tree
      modifies Keys(tree)`rbLeft, Keys(tree)`rbRight, Keys(tree)`rbParent, Keys(tree)`rbColor
      ensures Valid() && Keys(tree) == old(Keys(tree)) - {z}
      ensures k < |old(Contents())| && old(Contents())[k] == z
      ensures Contents() == Without(old(Contents()), k)
      ensures z.rbParent == null && z.rbLeft == null && z.rbRight == null
    {
      ghost var was := Contents();
      ghost var c, t := Locate(tree, z);
      k := |Before(c) + Inorder(t.left)|;
      RemovedOrder(c, t);
      RemoveInOrder(z, c, t, was, k);
      count := count - 1;
    }

    method RemoveInOrder(z: Thread, ghost c: Ctx, ghost t: Tree, ghost was: seq<Thread>, ghost k: nat)
      requires Holds(tree) && RedBlack(tree) && Plug(c, t) == tree && t.Node? && t.key == z
      requires Sorted(was) && k < |was| && was[k] == z && leftmost == First(was)
      requires Without(was, k) == Before(c) + Inorder(t.left) + Inorder(t.right) + After(c)
      modifies this`root, this`tree, this`leftmost
      modifies Keys(tree)`rbLeft, Keys(tree)`rbRight, Keys(tree)`rbParent, Keys(tree)`rbColor
      ensures Holds(tree) && RedBlack(tree) && Keys(tree) == old(Keys(tree)) - {z}
      ensures Contents() == Without(was, k) && Sorted(Without(was, k))
      ensures leftmost == First(Without(was, k))
      ensures z.rbParent == null && z.rbLeft == null && z.rbRight == null
    {
      RemoveAt(z, c, t);
      RemovedSorted(was, k);
    }

    method RemoveAt(z: Thread, ghost c: Ctx, ghost t: Tree)
      requires Holds(tree) && RedBlack(tree) && Plug(c, t) == tree && t.Node? && t.key == z
      modifies this`root, this`tree, this`leftmost
      modifies Keys(tree)`rbLeft, Keys(tree)`rbRight, Keys(tree)`rbParent, Keys(tree)`rbColor
      ensures Holds(tree) && RedBlack(tree) && Keys(tree) == old(Keys(tree)) - {z}
      ensures Contents() == Before(c) + Inorder(t.left) + Inorder(t.right) + After(c)
      ensures leftmost == if z == old(leftmost) then First(Contents()) else old(leftmost)
      ensures z.rbParent == null && z.rbLeft == null && z.rbRight == null
    {
      ghost var r;
      var x, xParent, yOriginalColor;
      DistinctPlug(c, t);
      x, xParent, yOriginalColor, r := Unlink(z, c, t);
      RefreshLeftmost(z, Plug(r.c, r.t));
      tree := Rebalance(x, xParent, yOriginalColor, r);
      ClearLinks(z, tree);
    }

    /** The links of a thread outside the tree are cleared. */
    method ClearLinks(z: Thread, ghost t: Tree)
      requires Holds(t) && z !in Keys(t)
      modifies z`rbLeft, z`rbRight, z`rbParent
      ensures Holds(t) && z.rbParent == null && z.rbLeft == null && z.rbRight == null
    {
      ghost var was := map n | n in Keys(t) :: LinksOf(n);
      z.rbParent := null;
      z.rbLeft := null;
      z.rbRight := null;
      forall n | n in Keys(t)
        ensures LinksOf(n) == At(t, null, n)
      {
        assert was[n] == At(t, null, n);
      }
    }

    /** The fixup runs only when a black node is gone and the tree is not empty. */
    method Rebalance(x: Thread?, xParent: Thread?, yOriginalColor: Color, ghost r: Removal) returns (ghost t: Tree)
      requires Holds(Plug(r.c, r.t)) && RemovalOk(r) && r.gone == yOriginalColor
      requires x == RootOf(r.t) && xParent == Above(r.c)
      modifies this`root
      modifies Keys(Plug(r.c, r.t))`rbLeft, Keys(Plug(r.c, r.t))`rbRight
      modifies Keys(Plug(r.c, r.t))`rbParent, Keys(Plug(r.c, r.t))`rbColor
      ensures Holds(t) && RedBlack(t) && Keys(t) == Keys(Plug(r.c, r.t)) && Inorder(t) == Inorder(Plug(r.c, r.t))
    {
      t := Plug(r.c, r.t);
      if yOriginalColor == Black && root != null {
        ghost var steps;
        t, steps := RemoveFixup(x, xParent, r.c, r.t);
      }
    }

    /** When the cached first thread is the one that left, the cache is recomputed. */
    method RefreshLeftmost(z: Thread, ghost t: Tree)
      requires Holds(t)
      modifies this`leftmost
      ensures Holds(t)
      ensures leftmost == if z == old(leftmost) then First(Inorder(t)) else old(leftmost)
    {
      if z == leftmost {
        if root != null {
          ghost var s, ty;
          ghost var steps;
          leftmost, s, ty, steps := Minimum(root, Top, t);
          SpineOrder(s, ty);
        } else {
          leftmost := null;
        }
      }
    }

    // -------------------------------------------------------------- scheduler operations

    /** The run queue as the sorted sequence it stands for. */
    ghost function View(): (q: Spec.Queue<Thread>)
      reads this, Contents()`vruntime
    {
      Spec.Queue(Entries(Contents()), minVruntime)
    }

    /** cfs_enqueue. Where the products of the slice formula leave the code's int, the slice is
        whatever comes of it. */
    method Enqueue(thread: Thread)
      requires Valid() && thread !in Keys(tree)
      modifies this`root, this`leftmost, this`count, this`tree
      modifies Keys(tree)`rbLeft, Keys(tree)`rbRight, Keys(tree)`rbParent, Keys(tree)`rbColor
      modifies thread`rbLeft, thread`rbRight, thread`rbParent, thread`rbColor, thread`vruntime, thread`timeslice
      ensures Valid() && Keys(tree) == old(Keys(tree)) + {thread}
      ensures View() == Spec.Step(old(View()), Spec.Arrive(thread, old(thread.vruntime)))
      ensures SliceFits(thread.weight, count) ==> thread.timeslice == Slice(thread.weight, count)
      ensures thread.timeslice >= MIN_GRANULARITY
    {
      Admit(thread);
      SetSlice(thread);
    }

    /** The vruntime is raised to the floor, and the thread put into the tree. */
    method Admit(thread: Thread)
      requires Valid() && thread !in Keys(tree)
      modifies this`root, this`leftmost, this`count, this`tree
      modifies Keys(tree)`rbLeft, Keys(tree)`rbRight, Keys(tree)`rbParent, Keys(tree)`rbColor
      modifies thread`rbLeft, thread`rbRight, thread`rbParent, thread`rbColor, thread`vruntime
      ensures Valid() && Keys(tree) == old(Keys(tree)) + {thread}
      ensures View() == Spec.Step(old(View()), Spec.Arrive(thread, old(thread.vruntime)))
    {
      Raise(thread);
      InsertEntry(thread);
    }

    /** rb_insert as an insertion into the sorted sequence. */
    method InsertEntry(thread: Thread)
      requires Valid() && thread !in Keys(tree)
      modifies this`root, this`leftmost, this`count, this`tree
      modifies Keys(tree)`rbLeft, Keys(tree)`rbRight, Keys(tree)`rbParent, Keys(tree)`rbColor
      modifies thread`rbLeft, thread`rbRight, thread`rbParent, thread`rbColor
      ensures Valid() && Keys(tree) == old(Keys(tree)) + {thread}
      ensures Entries(Contents()) == Spec.Place(old(Entries(Contents())), Spec.Entry(thread, thread.vruntime))
    {
      ghost var was, entries := Contents(), Entries(Contents());
      ghost var k := Insert(thread);
      assert Entries(was) == entries;
      EntriesInserted(was, k, thread);
    }

    method Raise(thread: Thread)
      requires Valid() && thread !in Keys(tree)
      modifies thread`vruntime
      ensures Valid() && View() == old(View()) && thread.vruntime == Spec.Clamp(old(thread.vruntime), minVruntime)
    {
      KeysInorder(tree);
      ghost var entries := Entries(Contents());
      if thread.vruntime == 0 {
        thread.vruntime := minVruntime;
      }
      if thread.vruntime < minVruntime {
        thread.vruntime := minVruntime;
      }
      assert Entries(Contents()) == entries;
    }

    method ComputeSlice(weight: int) returns (slice: nat)
      requires Valid()
      ensures Valid() && View() == old(View())
      ensures SliceFits(weight, count) ==> slice == Slice(weight, count)
      ensures slice >= MIN_GRANULARITY
    {
      slice := *;
      if SliceFits(weight, count) {
        slice := LatencyShare(weight, count);
      }
      if slice < MIN_GRANULARITY {
        slice := MIN_GRANULARITY;
      }
    }

    method SetSlice(thread: Thread)
      requires Valid()
      modifies thread`timeslice
      ensures Valid() && View() == old(View())
      ensures SliceFits(thread.weight, count) ==> thread.timeslice == Slice(thread.weight, count)
      ensures thread.timeslice >= MIN_GRANULARITY
    {
      var slice := ComputeSlice(thread.weight);
      Assign(thread, slice);
    }

    /** The slice is not part of the queue. */
    method Assign(thread: Thread, slice: nat)
      requires Valid()
      modifies thread`timeslice
      ensures Valid() && View() == old(View()) && thread.timeslice == slice
    {
      ghost var was := map n | n in Keys(tree) :: LinksOf(n);
      ghost var entries := Entries(Contents());
      thread.timeslice := slice;
      forall n | n in Keys(tree)
        ensures LinksOf(n) == At(tree, null, n)
      {
        assert was[n] == At(tree, null, n);
      }
      forall i | 0 <= i < |entries|
        ensures Entries(Contents())[i] == entries[i]
      {
      }
    }

    /** cfs_dequeue: the first thread, or nothing when the queue is empty. */
    method Dequeue() returns (thread: Thread?)
      requires Valid()
      modifies this`root, this`leftmost, this`count, this`tree
      modifies Keys(tree)`rbLeft, Keys(tree)`rbRight, Keys(tree)`rbParent, Keys(tree)`rbColor
      ensures Valid() && thread == First(old(Contents()))
      ensures View() == Spec.Step(old(View()), Spec.Leave)
      ensures thread != null ==> Keys(tree) == old(Keys(tree)) - {thread}
    {
      KeysInorder(tree);
      ghost var was, entries := Contents(), Entries(Contents());
      thread := leftmost;
      if thread != null {
        ghost var k := Remove(thread);
        if k > 0 {
          DistinctInorder(old(tree), 0, k);
        }
        EntriesRest(was);
        assert Entries(was) == entries;
      }
    }

    /** cfs_on_tick: charges the running thread, raises the floor and uses up the slice. */
    method OnTick(current: Thread, elapsed: nat)
      requires Valid() && current !in Keys(tree) && current.weight > 0
      modifies this`minVruntime, current`vruntime, current`timeslice
      ensures Valid() && Contents() == old(Contents())
      ensures current.vruntime == Charged(old(current.vruntime), elapsed, current.weight)
      ensures current.timeslice == if old(current.timeslice) > elapsed then old(current.timeslice) - elapsed else 0
      ensures minVruntime == if current.vruntime > old(minVruntime) then current.vruntime else old(minVruntime)
      ensures View() == Spec.Step(old(View()), Spec.Tick(current.vruntime))
    {
      Charge(current, elapsed);
      Assign(current, if current.timeslice > elapsed then current.timeslice - elapsed else 0);
    }

    method Charge(current: Thread, elapsed: nat)
      requires Valid() && current !in Keys(tree) && current.weight > 0
      modifies this`minVruntime, current`vruntime
      ensures Valid() && Contents() == old(Contents())
      ensures current.vruntime == Charged(old(current.vruntime), elapsed, current.weight)
      ensures minVruntime == if current.vruntime > old(minVruntime) then current.vruntime else old(minVruntime)
      ensures View() == Spec.Step(old(View()), Spec.Tick(current.vruntime))
    {
      KeysInorder(tree);
      ghost var entries := Entries(Contents());
      current.vruntime := Charged(current.vruntime, elapsed, current.weight);
      if current.vruntime > minVruntime {
        minVruntime := current.vruntime;
      }
      assert Entries(Contents()) == entries;
    }

    /** cfs_on_yield: charges the time since the thread was last switched to. */
    method OnYield(thread: Thread, now: nat)
      requires Valid() && thread !in Keys(tree) && thread.weight > 0
      modifies thread`vruntime
      ensures Valid() && View() == old(View())
      ensures thread.vruntime == if thread.startTime > 0
        then Charged(old(thread.vruntime), Elapsed(thread.startTime, now), thread.weight) else old(thread.vruntime)
    {
      KeysInorder(tree);
      ghost var entries := Entries(Contents());
      if thread.startTime > 0 {
        var delta := Elapsed(thread.startTime, now);
        thread.vruntime := Charged(thread.vruntime, delta, thread.weight);
      }
      assert Entries(Contents()) == entries;
    }

    /** cfs_should_preempt, in 64-bit unsigned arithmetic. */
    method ShouldPreempt(current: Thread) returns (r: bool)
      requires Valid()
      ensures r <==> Preempts(View(), current.vruntime, current.timeslice)
    {
      if current.timeslice == 0 {
        return count > 0;
      }
      if leftmost != null {
        var delta := (current.vruntime - leftmost.vruntime) % TWO_TO_64;
        if delta > MIN_GRANULARITY {
          return true;
        }
      }
      return false;
    }

    /** cfs_remove: searches by key, turning right on equal keys, and removes the thread only if
        that search meets it. ReachesExactly says when it does. */
    method RemoveQueued(thread: Thread) returns (found: bool, ghost k: nat)
      requires Valid()
      modifies this`root, this`leftmost, this`count, this`tree
      modifies Keys(tree)`rbLeft, Keys(tree)`rbRight, Keys(tree)`rbParent, Keys(tree)`rbColor
      ensures Valid() && (found <==> old(Reaches(tree, thread)))
      ensures !found ==> Contents() == old(Contents())
      ensures found ==> k < |old(Contents())| && old(Contents())[k] == thread
      ensures found ==> Contents() == Without(old(Contents()), k)
    {
      k := 0;
      ghost var steps;
      found, steps := Search(thread);
      if found {
        ReachesKeys(tree, thread);
        k := Remove(thread);
      }
    }

    method Search(thread: Thread) returns (found: bool, ghost steps: nat)
      requires Valid()
      ensures steps <= Height(tree) && Pow2((steps + 1) / 2) <= count + 1
      ensures Valid() && (found <==> Reaches(tree, thread)) && (found <==> old(Reaches(tree, thread)))
    {
      ghost var expected := Reaches(tree, thread);
      var node := root;
      ghost var c, t := Top, tree;
      found, steps := false, 0;
      while node != null
        invariant steps + Height(t) <= Height(tree)
        invariant Valid() && Plug(c, t) == tree && node == RootOf(t)
        invariant !found && (Reaches(tree, thread) <==> Reaches(t, thread)) && (expected <==> Reaches(t, thread))
        decreases t
      {
        Look(c, t);
        steps := steps + 1;
        if node == thread {
          found := true;
          break;
        }
        if thread.vruntime < node.vruntime {
          node := node.rbLeft;
          c, t := InLeft(c, t.color, t.key, t.right), t.left;
        } else {
          node := node.rbRight;
          c, t := InRight(c, t.left, t.color, t.key), t.right;
        }
      }
      ShortWalk(tree, steps);
    }
  }

  /** Three threads of equal vruntime enter an empty queue; removing the first does nothing. */
  method ThreeEqualMissed(a: Thread, b: Thread, d: Thread) returns (q: CfsState, found: bool)
    requires a != b && a != d && b != d && a.vruntime == b.vruntime == d.vruntime
    modifies a, b, d
    ensures fresh(q) && q.Valid() && !found && q.Contents() == [a, b, d]
  {
    ghost var v := a.vruntime;
    q := TwoEqualQueued(a, b);
    q.Enqueue(d);
    ThreeEqual(a, b, d, v);
    assert q.View().entries == [Spec.Entry(a, v), Spec.Entry(b, v), Spec.Entry(d, v)];
    SameThreads(q.Contents(), [a, b, d]);
    FirstOfThreeMissed(q.tree, a, b, d);
    ghost var k;
    found, k := q.RemoveQueued(a);
  }

  method TwoEqualQueued(a: Thread, b: Thread) returns (q: CfsState)
    requires a != b && a.vruntime == b.vruntime
    modifies a, b
    ensures fresh(q) && q.Valid() && Keys(q.tree) == {a, b}
    ensures var v := old(a.vruntime); q.View() == Spec.Queue([Spec.Entry(a, v), Spec.Entry(b, v)], 0)
  {
    ghost var v := a.vruntime;
    q := new CfsState();
    q.Enqueue(a);
    assert q.View() == Spec.Queue([Spec.Entry(a, v)], 0);
    q.Enqueue(b);
    TwoEqual(a, b, v);
  }

  lemma TwoEqual(a: Thread, b: Thread, v: nat)
    ensures Spec.Step(Spec.Queue([Spec.Entry(a, v)], 0), Spec.Arrive(b, v))
         == Spec.Queue([Spec.Entry(a, v), Spec.Entry(b, v)], 0)
  {
    Spec.PlaceAt([Spec.Entry(a, v)], Spec.Entry(b, v), 1);
  }

  lemma ThreeEqual(a: Thread, b: Thread, d: Thread, v: nat)
    ensures Spec.Step(Spec.Queue([Spec.Entry(a, v), Spec.Entry(b, v)], 0), Spec.Arrive(d, v))
         == Spec.Queue([Spec.Entry(a, v), Spec.Entry(b, v), Spec.Entry(d, v)], 0)
  {
    Spec.PlaceAt([Spec.Entry(a, v), Spec.Entry(b, v)], Spec.Entry(d, v), 2);
  }

  lemma SameThreads(s: seq<Thread>, r: seq<Thread>)
    requires |Entries(s)| == |r| && forall i :: 0 <= i < |r| ==> Entries(s)[i].thread == r[i]
    ensures s == r
  {
  }
}
