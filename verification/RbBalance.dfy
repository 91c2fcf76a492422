/** The red-black invariants, and one iteration of each fixup loop as a function of the
    focus it works at. */
module RbBalance {
  import opened Threads
  import opened RbTrees

  ghost predicate IsRed(t: Tree) {
    t.Node? && t.color == Red
  }

  ghost function Weight(c: Color): (n: nat) {
    if c == Black then 1 else 0
  }

  /** Black nodes on the leftmost path; under RbOk, on every path. */
  ghost function Bh(t: Tree): (n: nat) {
    match t
    case Leaf => 0
    case Node(l, c, _, _) => Bh(l) + Weight(c)
  }

  /** Equal black counts everywhere and no red node with a red child. */
  ghost predicate RbOk(t: Tree) {
    match t
    case Leaf => true
    case Node(l, c, _, r) =>
      RbOk(l) && RbOk(r) && Bh(l) == Bh(r) && (c == Red ==> !IsRed(l) && !IsRed(r))
  }

  ghost predicate RedBlack(t: Tree) {
    RbOk(t) && !IsRed(t)
  }

  ghost function Blacken(t: Tree): (r: Tree) {
    if t.Leaf? then Leaf else Paint(t, Black)
  }

  /** The context accepts a black-rooted subtree of black height h. */
  ghost predicate CtxOk(c: Ctx, h: int) {
    match c
    case Top => true
    case InLeft(up, col, _, r) =>
      && RbOk(r) && Bh(r) == h
      && (col == Red ==> !IsRed(r) && up != Top && up.color == Black)
      && CtxOk(up, h + Weight(col))
    case InRight(up, l, col, _) =>
      && RbOk(l) && Bh(l) == h
      && (col == Red ==> !IsRed(l) && up != Top && up.color == Black)
      && CtxOk(up, h + Weight(col))
  }

  /** A red root fits only below a black parent. */
  ghost predicate Fits(c: Ctx, t: Tree) {
    IsRed(t) ==> c != Top && c.color == Black
  }

  lemma {:induction false} PlugOk(c: Ctx, t: Tree)
    ensures RedBlack(Plug(c, t)) <==> CtxOk(c, Bh(t)) && RbOk(t) && Fits(c, t)
    decreases c
  {
    match c
    case Top =>
    case InLeft(up, col, k, r) => PlugOk(up, Node(t, col, k, r));
    case InRight(up, l, col, k) => PlugOk(up, Node(l, col, k, t));
  }

  // ---------------------------------------------------------------- insertion

  ghost predicate InsertInv(c: Ctx, t: Tree) {
    IsRed(t) && RbOk(t) && CtxOk(c, Bh(t))
  }

  ghost predicate InsertGuard(c: Ctx) {
    c != Top && c.color == Red
  }

  /** The uncle is red: blacken parent and uncle, redden the grandparent, move up to it. */
  ghost function Recolored(p: Tree, c: Ctx): (r: (Ctx, Tree))
    requires p.Node? && c != Top
  {
    if c.InLeft? then (c.up, Node(Paint(p, Black), Red, c.key, Blacken(c.right)))
    else (c.up, Node(Blacken(c.left), Red, c.key, Paint(p, Black)))
  }

  /** The inner rotation, after which the focus is the old parent. */
  ghost function Straighten(c: Ctx, t: Tree): (r: (Ctx, Tree))
    requires c != Top && c.up != Top && t.Node?
  {
    if c.up.InLeft? && c.InRight? then
      (InLeft(c.up, t.color, t.key, t.right), Node(c.left, c.color, c.key, t.left))
    else if c.up.InRight? && c.InLeft? then
      (InRight(c.up, t.left, t.color, t.key), Node(t.right, c.color, c.key, c.right))
    else (c, t)
  }

  /** The outer rotation about the grandparent, with parent black and grandparent red. */
  ghost function Lifted(c: Ctx, t: Tree): (r: Ctx)
    requires c != Top && c.up != Top && (c.InLeft? <==> c.up.InLeft?)
  {
    var g := c.up;
    if c.InLeft? then InLeft(g.up, Black, c.key, Node(c.right, Red, g.key, g.right))
    else InRight(g.up, Node(g.left, Red, g.key, c.left), Black, c.key)
  }

  ghost function Uncle(c: Ctx): (r: Tree)
    requires c != Top
  {
    if c.InLeft? then c.right else c.left
  }

  /** The tree made of a context's innermost node and what hangs in its hole. */
  ghost function Joined(c: Ctx, t: Tree): (r: Tree)
    requires c != Top
  {
    if c.InLeft? then Node(t, c.color, c.key, c.right) else Node(c.left, c.color, c.key, t)
  }

  ghost function InsertStep(c: Ctx, t: Tree): (r: (Ctx, Tree))
    requires InsertGuard(c) && c.up != Top && t.Node?
  {
    if IsRed(Uncle(c.up)) then Recolored(Joined(c, t), c.up)
    else
      var (c1, t1) := Straighten(c, t);
      (Lifted(c1, t1), t1)
  }

  lemma {:induction false} SameOrder(c: Ctx, t: Tree, u: Tree)
    requires Inorder(t) == Inorder(u)
    ensures Inorder(Plug(c, t)) == Inorder(Plug(c, u))
  {
    InorderPlug(c, t);
    InorderPlug(c, u);
  }

  lemma {:induction false} RotOrder(t: Tree)
    requires t.Node?
    ensures t.right.Node? ==> Inorder(RotL(t)) == Inorder(t)
    ensures t.left.Node? ==> Inorder(RotR(t)) == Inorder(t)
  {
    if t.right.Node? {
      var a, b, d := Inorder(t.left), Inorder(t.right.left), Inorder(t.right.right);
      assert a + [t.key] + (b + [t.right.key] + d) == (a + [t.key] + b) + [t.right.key] + d;
    }
    if t.left.Node? {
      var a, b, d := Inorder(t.left.left), Inorder(t.left.right), Inorder(t.right);
      assert a + [t.left.key] + (b + [t.key] + d) == (a + [t.left.key] + b) + [t.key] + d;
    }
  }

  lemma {:induction false} BlackenOk(t: Tree)
    requires RbOk(t)
    ensures RbOk(Blacken(t)) && Bh(Blacken(t)) == Bh(t) + (if IsRed(t) then 1 else 0)
    ensures Inorder(Blacken(t)) == Inorder(t)
  {
  }

  /** A new red leaf is a legal start for the fixup. */
  lemma {:induction false} FreshLeaf(c: Ctx, k: Thread)
    requires RedBlack(Plug(c, Leaf))
    ensures var t := Node(Leaf, Red, k, Leaf);
      InsertInv(c, t) && Inorder(Plug(c, t)) == Before(c) + [k] + After(c)
  {
    PlugOk(c, Leaf);
    InorderPlug(c, Node(Leaf, Red, k, Leaf));
  }

  lemma {:induction false} RecoloredOk(c: Ctx, t: Tree)
    requires InsertInv(c, t) && InsertGuard(c) && IsRed(Uncle(c.up))
    ensures var (c', t') := Recolored(Joined(c, t), c.up);
      && InsertInv(c', t')
      && Inorder(Plug(c', t')) == Inorder(Plug(c, t))
      && |Inorder(t')| > |Inorder(t)|
  {
    var (c', t') := Recolored(Joined(c, t), c.up);
    var h := Bh(t);
    assert CtxOk(c.up, h) && CtxOk(c.up.up, h + 1);
    BlackenOk(Uncle(c.up));
    assert RbOk(Paint(Joined(c, t), Black));
    SameOrder(c', t', Joined(c.up, Joined(c, t)));
  }

  lemma {:induction false} StraightenOk(c: Ctx, t: Tree)
    requires InsertInv(c, t) && InsertGuard(c) && !IsRed(Uncle(c.up))
    ensures var (c', t') := Straighten(c, t);
      && InsertInv(c', t') && InsertGuard(c') && c'.up == c.up
      && (c'.InLeft? <==> c'.up.InLeft?)
      && Inorder(Plug(c', t')) == Inorder(Plug(c, t))
  {
    var (c', t') := Straighten(c, t);
    if c' != c {
      RotOrder(Joined(c, t));
      SameOrder(c.up, Joined(c', t'), Joined(c, t));
    }
  }

  lemma {:induction false} LiftedOk(c: Ctx, t: Tree)
    requires InsertInv(c, t) && InsertGuard(c) && !IsRed(Uncle(c.up)) && (c.InLeft? <==> c.up.InLeft?)
    ensures InsertInv(Lifted(c, t), t) && !InsertGuard(Lifted(c, t))
    ensures Inorder(Plug(Lifted(c, t), t)) == Inorder(Plug(c, t))
  {
    var c' := Lifted(c, t);
    var h := Bh(t);
    assert CtxOk(c.up, h) && CtxOk(c.up.up, h + 1);
    assert RbOk(Uncle(c'));
    RotOrder(Joined(c.up, Joined(c, t)));
    SameOrder(c'.up, Joined(c', t), Joined(c.up, Joined(c, t)));
  }

  lemma {:induction false} InsertStepOk(c: Ctx, t: Tree)
    requires InsertInv(c, t) && InsertGuard(c)
    ensures c.up != Top
    ensures var (c', t') := InsertStep(c, t);
      && InsertInv(c', t')
      && Inorder(Plug(c', t')) == Inorder(Plug(c, t))
      && (InsertGuard(c') ==> |Inorder(t')| > |Inorder(t)|)
  {
    if IsRed(Uncle(c.up)) {
      RecoloredOk(c, t);
    } else {
      var (c1, t1) := Straighten(c, t);
      StraightenOk(c, t);
      LiftedOk(c1, t1);
    }
  }

  /** Blackening the root when the loop stops leaves a red-black tree. */
  lemma {:induction false} InsertDone(c: Ctx, t: Tree)
    requires InsertInv(c, t) && !InsertGuard(c)
    ensures RedBlack(Blacken(Plug(c, t)))
    ensures Inorder(Blacken(Plug(c, t))) == Inorder(Plug(c, t))
  {
    if c == Top {
    } else {
      PlugOk(c, t);
    }
  }

  // ---------------------------------------------------------------- removal

  /** The focus is one black node short of what its context wants. */
  ghost predicate RemoveInv(c: Ctx, t: Tree) {
    RbOk(Blacken(t)) && CtxOk(c, Bh(t) + 1)
  }

  ghost predicate RemoveGuard(c: Ctx, t: Tree) {
    c != Top && !IsRed(t)
  }

  /** The sibling is red: rotate it above the parent, so that the sibling becomes black. */
  ghost function BlackSibling(c: Ctx): (r: Ctx)
    requires c != Top
  {
    var w := Uncle(c);
    if !IsRed(w) then c
    else if c.InLeft? then InLeft(InLeft(c.up, Black, w.key, w.right), Red, c.key, w.left)
    else InRight(InRight(c.up, w.left, Black, w.key), w.right, Red, c.key)
  }

  /** The nephew on the far side from the focus, and the one on the near side. */
  ghost function Far(c: Ctx): (r: Tree)
    requires c != Top && Uncle(c).Node?
  {
    if c.InLeft? then c.right.right else c.left.left
  }

  ghost function Near(c: Ctx): (r: Tree)
    requires c != Top && Uncle(c).Node?
  {
    if c.InLeft? then c.right.left else c.left.right
  }

  /** Both nephews black: redden the sibling and move up. */
  ghost function Raised(c: Ctx, t: Tree): (r: Tree)
    requires c != Top && Uncle(c).Node?
  {
    if c.InLeft? then Node(t, c.color, c.key, Paint(c.right, Red))
    else Node(Paint(c.left, Red), c.color, c.key, t)
  }

  /** The far nephew is black: turn the red near nephew into the sibling. */
  ghost function FarRed(c: Ctx): (r: Ctx)
    requires c != Top && Uncle(c).Node? && (IsRed(Far(c)) || Near(c).Node?)
  {
    if IsRed(Far(c)) then c
    else if c.InLeft? then c.(right := RotR(c.right.(color := Red, left := Paint(c.right.left, Black))))
    else c.(left := RotL(c.left.(color := Red, right := Paint(c.left.right, Black))))
  }

  /** The far nephew is red: the final rotation about the parent. */
  ghost function Settled(c: Ctx, t: Tree): (r: Tree)
    requires c != Top && Uncle(c).Node?
  {
    if c.InLeft? then Node(Node(t, Black, c.key, c.right.left), c.color, c.right.key, Blacken(c.right.right))
    else Node(Blacken(c.left.left), c.color, c.left.key, Node(c.left.right, Black, c.key, t))
  }

  ghost function RemoveStep(c: Ctx, t: Tree): (r: (Ctx, Tree))
    requires RemoveGuard(c, t) && Uncle(BlackSibling(c)).Node?
  {
    var c1 := BlackSibling(c);
    if !IsRed(Far(c1)) && !IsRed(Near(c1)) then (c1.up, Raised(c1, t))
    else (Top, Plug(c1.up, Settled(FarRed(c1), t)))
  }

  lemma {:induction false} BlackSiblingOk(c: Ctx, t: Tree)
    requires RemoveInv(c, t) && RemoveGuard(c, t)
    ensures Uncle(c).Node?
    ensures var c' := BlackSibling(c);
      && RemoveInv(c', t) && RemoveGuard(c', t)
      && Uncle(c').Node? && !IsRed(Uncle(c'))
      && (IsRed(Uncle(c)) ==> c'.color == Red)
      && (!IsRed(Uncle(c)) ==> c' == c)
      && Inorder(Plug(c', t)) == Inorder(Plug(c, t))
  {
    var c' := BlackSibling(c);
    if c' != c {
      RotOrder(Joined(c, t));
      SameOrder(c.up, Joined(c'.up, Joined(c', t)), Joined(c, t));
    }
  }

  lemma {:induction false} RaisedOk(c: Ctx, t: Tree)
    requires RemoveInv(c, t) && RemoveGuard(c, t) && !IsRed(Uncle(c)) && Uncle(c).Node?
    requires !IsRed(Far(c)) && !IsRed(Near(c))
    ensures RemoveInv(c.up, Raised(c, t))
    ensures Inorder(Plug(c.up, Raised(c, t))) == Inorder(Plug(c, t))
    ensures |Inorder(Raised(c, t))| > |Inorder(t)|
  {
    SameOrder(c.up, Raised(c, t), Joined(c, t));
  }

  lemma {:induction false} FarRedOk(c: Ctx, t: Tree)
    requires RemoveInv(c, t) && RemoveGuard(c, t) && !IsRed(Uncle(c)) && Uncle(c).Node?
    requires IsRed(Far(c)) || IsRed(Near(c))
    ensures var c' := FarRed(c);
      && RemoveInv(c', t) && c'.up == c.up && c'.color == c.color && c'.key == c.key
      && (c'.InLeft? <==> c.InLeft?) && c' != Top
      && Uncle(c').Node? && !IsRed(Uncle(c')) && IsRed(Far(c'))
      && Inorder(Joined(c', t)) == Inorder(Joined(c, t))
  {
    var c' := FarRed(c);
    if c' != c {
      var w := Uncle(c);
      assert RbOk(w) && RbOk(Near(c));
      if c.InLeft? {
        RotOrder(w.(color := Red, left := Paint(w.left, Black)));
        assert Inorder(c'.right) == Inorder(w);
      } else {
        RotOrder(w.(color := Red, right := Paint(w.right, Black)));
        assert Inorder(c'.left) == Inorder(w);
      }
    }
  }

  lemma {:induction false} SettledOk(c: Ctx, t: Tree)
    requires RemoveInv(c, t) && RemoveGuard(c, t) && !IsRed(Uncle(c)) && Uncle(c).Node?
    requires IsRed(Far(c))
    ensures RedBlack(Plug(c.up, Settled(c, t)))
    ensures Inorder(Settled(c, t)) == Inorder(Joined(c, t))
  {
    BlackenOk(Far(c));
    assert t == Blacken(t);
    assert Bh(Far(c)) == Bh(Near(c)) == Bh(t);
    var s := Settled(c, t);
    assert RbOk(if c.InLeft? then s.left else s.right);
    assert RbOk(s) && Bh(s) == Bh(t) + 1 + Weight(c.color);
    PlugOk(c.up, Settled(c, t));
    RotOrder(Joined(c, t));
  }

  lemma {:induction false} RemoveStepOk(c: Ctx, t: Tree)
    requires RemoveInv(c, t) && RemoveGuard(c, t)
    ensures Uncle(c).Node? && Uncle(BlackSibling(c)).Node?
    ensures var (c', t') := RemoveStep(c, t);
      && RemoveInv(c', t')
      && Inorder(Plug(c', t')) == Inorder(Plug(c, t))
      && (RemoveGuard(c', t') ==> |Inorder(t')| > |Inorder(t)|)
  {
    BlackSiblingOk(c, t);
    var c1 := BlackSibling(c);
    if !IsRed(Far(c1)) && !IsRed(Near(c1)) {
      RaisedOk(c1, t);
    } else {
      LastStepOk(c1, t);
    }
  }

  /** The rotations after which no black is missing any more. */
  lemma {:induction false} LastStepOk(c: Ctx, t: Tree)
    requires RemoveInv(c, t) && RemoveGuard(c, t) && !IsRed(Uncle(c)) && Uncle(c).Node?
    requires IsRed(Far(c)) || IsRed(Near(c))
    ensures RemoveInv(Top, Plug(c.up, Settled(FarRed(c), t)))
    ensures Inorder(Plug(c.up, Settled(FarRed(c), t))) == Inorder(Plug(c, t))
  {
    FarRedOk(c, t);
    SettledOk(FarRed(c), t);
    SameOrder(c.up, Settled(FarRed(c), t), Joined(c, t));
  }

  /** Blackening the focus when the loop stops leaves a red-black tree. */
  lemma {:induction false} RemoveDone(c: Ctx, t: Tree)
    requires RemoveInv(c, t) && !RemoveGuard(c, t)
    ensures RedBlack(Plug(c, Blacken(t)))
    ensures Inorder(Plug(c, Blacken(t))) == Inorder(Plug(c, t))
  {
    PlugOk(c, Blacken(t));
    SameOrder(c, Blacken(t), t);
  }

  // ---------------------------------------------------------------- taking a node out

  /** What is left at the focus when the root of t goes and its place is taken as `by` says:
      by its only child, or by the first thread y of its right subtree, found below the
      left turns s. `gone` is the colour that disappears from the tree. */
  datatype Removal = Removal(c: Ctx, t: Tree, gone: Color)

  ghost function OneChild(c: Ctx, t: Tree): (r: Removal)
    requires t.Node?
  {
    Removal(c, if t.left == Leaf then t.right else t.left, t.color)
  }

  ghost function Successor(c: Ctx, t: Tree, s: Ctx, y: Tree): (r: Removal)
    requires t.Node? && y.Node?
  {
    Removal(Join(s, InRight(c, t.left, t.color, y.key)), y.right, y.color)
  }

  /** A red-black tree that has lost a red node, or a focus short of one black node. */
  ghost predicate RemovalOk(r: Removal) {
    if r.gone == Red then RedBlack(Plug(r.c, r.t)) else RemoveInv(r.c, r.t)
  }

  lemma {:induction false} OneChildOk(c: Ctx, t: Tree)
    requires t.Node? && RedBlack(Plug(c, t)) && (t.left == Leaf || t.right == Leaf)
    ensures RemovalOk(OneChild(c, t))
    ensures var r := OneChild(c, t);
      Inorder(Plug(r.c, r.t)) == Before(c) + Inorder(t.left) + Inorder(t.right) + After(c)
  {
    var r := OneChild(c, t);
    PlugOk(c, t);
    PlugOk(r.c, r.t);
    InorderPlug(r.c, r.t);
    BlackenOk(r.t);
  }

  /** Replacing the thread at the base of a context does not affect what it accepts. */
  lemma {:induction false} JoinOk(s: Ctx, c: Ctx, l: Tree, col: Color, z: Thread, y: Thread, h: int)
    requires CtxOk(Join(s, InRight(c, l, col, z)), h)
    ensures CtxOk(Join(s, InRight(c, l, col, y)), h)
    ensures var a, b := Join(s, InRight(c, l, col, z)), Join(s, InRight(c, l, col, y));
      a != Top && b != Top && a.color == b.color
    decreases s
  {
    match s
    case Top =>
    case InLeft(up, sc, k, r) => JoinOk(up, c, l, col, z, y, h + Weight(sc));
    case InRight(up, sl, sc, k) => JoinOk(up, c, l, col, z, y, h + Weight(sc));
  }

  lemma {:induction false} SpineBefore(s: Ctx, b: Ctx)
    requires Spine(s)
    ensures Before(Join(s, b)) == Before(b)
    ensures After(Join(s, b)) == After(s) + After(b)
    decreases s
  {
    match s
    case Top =>
    case InLeft(up, sc, k, r) =>
      SpineBefore(up, b);
      assert [k] + Inorder(r) + (After(up) + After(b)) == [k] + Inorder(r) + After(up) + After(b);
  }

  /** The first thread below left turns comes first in order. */
  lemma {:induction false} SpineOrder(s: Ctx, t: Tree)
    requires Spine(s)
    ensures Inorder(Plug(s, t)) == Inorder(t) + After(s)
    decreases s
  {
    if s != Top {
      var u := Node(t, s.color, s.key, s.right);
      SpineOrder(s.up, u);
      var a, b, d := Inorder(t), Inorder(s.right), After(s.up);
      assert a + [s.key] + b + d == a + ([s.key] + b + d);
    }
  }

  lemma {:induction false} SuccessorOrder(c: Ctx, t: Tree, s: Ctx, y: Tree)
    requires t.Node? && y.Node? && y.left == Leaf && Spine(s) && t.right == Plug(s, y)
    ensures var r := Successor(c, t, s, y);
      Inorder(Plug(r.c, r.t)) == Before(c) + Inorder(t.left) + Inorder(t.right) + After(c)
  {
    var r := Successor(c, t, s, y);
    InorderPlug(r.c, r.t);
    SpineBefore(s, InRight(c, t.left, t.color, y.key));
    SpineOrder(s, y);
    assert Inorder(y) == [y.key] + Inorder(y.right);
    Regroup(Before(c) + Inorder(t.left), y.key, Inorder(y.right), After(s), After(c));
  }

  lemma Regroup(a: seq<Thread>, k: Thread, b: seq<Thread>, d: seq<Thread>, e: seq<Thread>)
    ensures (a + [k]) + b + (d + e) == a + (([k] + b) + d) + e
  {
    assert a + (([k] + b) + d) == a + [k] + b + d;
    assert a + [k] + b + d + e == a + [k] + b + (d + e);
  }

  lemma {:induction false} SuccessorOk(c: Ctx, t: Tree, s: Ctx, y: Tree)
    requires t.Node? && RedBlack(Plug(c, t)) && y.Node? && y.left == Leaf && Spine(s) && t.right == Plug(s, y)
    ensures RemovalOk(Successor(c, t, s, y))
  {
    var r := Successor(c, t, s, y);
    var b := InRight(c, t.left, t.color, t.key);
    var m := Join(s, b);
    JoinPlug(s, b, y);
    PlugOk(m, y);
    JoinOk(s, c, t.left, t.color, t.key, y.key, Bh(y));
    PlugOk(r.c, r.t);
    BlackenOk(r.t);
  }

  lemma {:induction false} RemovedOrder(c: Ctx, t: Tree)
    requires t.Node?
    ensures var s, k := Inorder(Plug(c, t)), |Before(c) + Inorder(t.left)|;
      && k < |s| && s[k] == t.key
      && s[..k] + s[k + 1..] == Before(c) + Inorder(t.left) + Inorder(t.right) + After(c)
  {
    InorderPlug(c, t);
    CutOut(Before(c), Inorder(t.left), t.key, Inorder(t.right), After(c));
  }

  lemma {:induction false} CutOut(a: seq<Thread>, b: seq<Thread>, x: Thread, d: seq<Thread>, e: seq<Thread>)
    ensures var s, k := a + (b + [x] + d) + e, |a + b|;
      k < |s| && s[k] == x && s[..k] + s[k + 1..] == a + b + d + e
  {
    var s, k := a + (b + [x] + d) + e, |a + b|;
    assert s == (a + b) + [x] + (d + e);
    assert s[..k] == a + b;
    assert s[k + 1..] == d + e;
    assert (a + b) + (d + e) == a + b + d + e;
  }
}
