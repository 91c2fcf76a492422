/** What the red-black invariants mean path by path, and the height they guarantee. */
module RbPaths {
  import opened Basics
  import opened Threads
  import opened RbTrees
  import opened RbBalance

  /** The colours met on every way from the root of t to a NULL leaf. */
  ghost function Paths(t: Tree): (ps: set<seq<Color>>) {
    match t
    case Leaf => {[]}
    case Node(l, c, _, r) => set p | p in Paths(l) + Paths(r) :: [c] + p
  }

  ghost function Blacks(p: seq<Color>): (n: nat) {
    if p == [] then 0 else Weight(p[0]) + Blacks(p[1..])
  }

  ghost predicate NoRedRed(p: seq<Color>) {
    forall i :: 0 <= i < |p| - 1 ==> p[i] == Black || p[i + 1] == Black
  }

  ghost predicate PathsOk(t: Tree, h: nat) {
    forall p :: p in Paths(t) ==> Blacks(p) == h && NoRedRed(p)
  }

  /** Some path starts with the colour of the root. */
  lemma {:induction false} SomePath(t: Tree) returns (p: seq<Color>)
    ensures p in Paths(t) && (t.Node? ==> p != [] && p[0] == t.color) && (t.Leaf? ==> p == [])
  {
    p := [];
    if t.Node? {
      var q := SomePath(t.left);
      p := [t.color] + q;
    }
  }

  lemma {:induction false} PathColor(t: Tree, p: seq<Color>)
    requires p in Paths(t)
    ensures t.Node? ==> p != [] && p[0] == t.color
    ensures t.Leaf? ==> p == []
  {
  }

  lemma {:induction false} RbOkPaths(t: Tree)
    requires RbOk(t)
    ensures PathsOk(t, Bh(t))
  {
    if t.Node? {
      RbOkPaths(t.left);
      RbOkPaths(t.right);
      forall p | p in Paths(t)
        ensures Blacks(p) == Bh(t) && NoRedRed(p)
      {
        var q :| q in Paths(t.left) + Paths(t.right) && p == [t.color] + q;
        assert p[1..] == q;
        if q in Paths(t.left) {
          PathColor(t.left, q);
        } else {
          PathColor(t.right, q);
        }
      }
    }
  }

  lemma {:induction false} PathsSubtree(t: Tree, h: nat, s: Tree)
    requires t.Node? && PathsOk(t, h) && (s == t.left || s == t.right)
    ensures h >= Weight(t.color) && PathsOk(s, h - Weight(t.color))
    ensures t.color == Red ==> !IsRed(s)
  {
    var p0 := SomePath(s);
    assert [t.color] + p0 in Paths(t);
    assert ([t.color] + p0)[1..] == p0;
    forall p | p in Paths(s)
      ensures Blacks(p) == h - Weight(t.color) && NoRedRed(p)
    {
      var q := [t.color] + p;
      assert q in Paths(t) && q[1..] == p;
      assert forall i :: 0 <= i < |p| ==> p[i] == q[i + 1];
    }
    if IsRed(s) {
      var q := [t.color] + p0;
      assert q[0] == t.color && q[1] == Red;
    }
  }

  lemma {:induction false} PathsRbOk(t: Tree, h: nat)
    requires PathsOk(t, h)
    ensures RbOk(t) && Bh(t) == h
    decreases t
  {
    if t.Node? {
      PathsSubtree(t, h, t.left);
      PathsSubtree(t, h, t.right);
      PathsRbOk(t.left, h - Weight(t.color));
      PathsRbOk(t.right, h - Weight(t.color));
    } else {
      assert [] in Paths(t);
    }
  }

  /** A tree is red-black exactly when its root is black, every path from the root to a leaf
      meets the same number of black nodes, and no path meets two red nodes in a row. */
  lemma {:induction false} RedBlackByPaths(t: Tree)
    ensures RedBlack(t) <==> !IsRed(t) && exists h :: PathsOk(t, h)
  {
    if RbOk(t) {
      RbOkPaths(t);
    }
    if h :| PathsOk(t, h) {
      PathsRbOk(t, h);
    }
  }

  // ---------------------------------------------------------------- height

  ghost function Height(t: Tree): (n: nat) {
    match t
    case Leaf => 0
    case Node(l, _, _, r) => 1 + if Height(l) > Height(r) then Height(l) else Height(r)
  }

  lemma {:induction false} HeightBh(t: Tree)
    requires RbOk(t)
    ensures Height(t) <= 2 * Bh(t) + (if IsRed(t) then 1 else 0)
    ensures Pow2(Bh(t)) <= |Inorder(t)| + 1
  {
    if t.Node? {
      HeightBh(t.left);
      HeightBh(t.right);
    }
  }

  lemma {:induction false} Pow2Monotone(m: nat, n: nat)
    requires m <= n
    ensures Pow2(m) <= Pow2(n)
    decreases n
  {
    if m < n {
      Pow2Monotone(m, n - 1);
    }
  }

  /** Every walk down a red-black tree of n threads takes at most 2 log2(n + 1) steps. */
  lemma {:induction false} LogarithmicHeight(t: Tree)
    requires RedBlack(t)
    ensures Pow2((Height(t) + 1) / 2) <= |Inorder(t)| + 1
  {
    HeightBh(t);
    Pow2Monotone((Height(t) + 1) / 2, Bh(t));
  }

  // ---------------------------------------------------------------- the length of walks

  /** A walk no longer than the tree is high takes at most 2 log2(n + 1) steps. */
  lemma ShortWalk(t: Tree, steps: nat)
    requires RedBlack(t) && steps <= Height(t)
    ensures Pow2((steps + 1) / 2) <= |Inorder(t)| + 1
  {
    LogarithmicHeight(t);
    Pow2Monotone((steps + 1) / 2, (Height(t) + 1) / 2);
  }

  /** How far below the root the hole of a context is. */
  ghost function Depth(c: Ctx): (n: nat) {
    if c == Top then 0 else 1 + Depth(c.up)
  }

  lemma {:induction false} DepthHeight(c: Ctx, t: Tree)
    ensures Depth(c) + Height(t) <= Height(Plug(c, t))
    decreases c
  {
    if c != Top {
      DepthHeight(c.up, Joined(c, t));
    }
  }

  /** A round of the insert fixup that is not the last moves up two levels. */
  lemma InsertStepDepth(c: Ctx, t: Tree)
    requires InsertInv(c, t) && InsertGuard(c) && c.up != Top && t.Node?
    ensures InsertGuard(InsertStep(c, t).0) ==> Depth(InsertStep(c, t).0) + 2 == Depth(c)
  {
  }

  /** A round of the remove fixup that is not the last moves up one level. */
  lemma RemoveStepDepth(c: Ctx, t: Tree)
    requires RemoveInv(c, t) && RemoveGuard(c, t) && Uncle(c).Node? && Uncle(BlackSibling(c)).Node?
    ensures var r := RemoveStep(c, t); RemoveGuard(r.0, r.1) ==> Depth(r.0) + 1 == Depth(c)
  {
  }
}
