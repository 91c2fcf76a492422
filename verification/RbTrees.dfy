/** Red-black trees of thread control blocks as values, seen at a focus: a tree is a context
    plugged with a subtree. `At` gives the links of each node of such a tree. */
module RbTrees {
  import opened Threads

  datatype Tree = Leaf | Node(left: Tree, color: Color, key: Thread, right: Tree)

  /** A tree with one hole; `up` is the part above the hole's parent. */
  datatype Ctx =
    | Top
    | InLeft(up: Ctx, color: Color, key: Thread, right: Tree)
    | InRight(up: Ctx, left: Tree, color: Color, key: Thread)

  ghost function Plug(c: Ctx, t: Tree): (r: Tree) {
    match c
    case Top => t
    case InLeft(up, col, k, r) => Plug(up, Node(t, col, k, r))
    case InRight(up, l, col, k) => Plug(up, Node(l, col, k, t))
  }

  /** The context s placed in the hole of b. */
  ghost function Join(s: Ctx, b: Ctx): (r: Ctx) {
    match s
    case Top => b
    case InLeft(up, col, k, r) => InLeft(Join(up, b), col, k, r)
    case InRight(up, l, col, k) => InRight(Join(up, b), l, col, k)
  }

  lemma {:induction false} JoinPlug(s: Ctx, b: Ctx, t: Tree)
    ensures Plug(Join(s, b), t) == Plug(b, Plug(s, t))
    decreases s
  {
    match s
    case Top =>
    case InLeft(up, col, k, r) => JoinPlug(up, b, Node(t, col, k, r));
    case InRight(up, l, col, k) => JoinPlug(up, b, Node(l, col, k, t));
  }

  /** Only left turns. */
  ghost predicate Spine(s: Ctx) {
    s == Top || (s.InLeft? && Spine(s.up))
  }

  // ---------------------------------------------------------------- in-order sequence

  ghost function Inorder(t: Tree): (s: seq<Thread>) {
    match t
    case Leaf => []
    case Node(l, _, k, r) => Inorder(l) + [k] + Inorder(r)
  }

  ghost function Before(c: Ctx): (s: seq<Thread>) {
    match c
    case Top => []
    case InLeft(up, _, _, _) => Before(up)
    case InRight(up, l, _, k) => Before(up) + Inorder(l) + [k]
  }

  ghost function After(c: Ctx): (s: seq<Thread>) {
    match c
    case Top => []
    case InLeft(up, _, k, r) => [k] + Inorder(r) + After(up)
    case InRight(up, _, _, _) => After(up)
  }

  lemma {:induction false} InorderPlug(c: Ctx, t: Tree)
    ensures Inorder(Plug(c, t)) == Before(c) + Inorder(t) + After(c)
    decreases c
  {
    match c
    case Top =>
    case InLeft(up, col, k, r) => InorderPlug(up, Node(t, col, k, r));
    case InRight(up, l, col, k) => InorderPlug(up, Node(l, col, k, t));
  }

  ghost function Keys(t: Tree): (r: set<Thread>) {
    match t
    case Leaf => {}
    case Node(l, _, k, r) => Keys(l) + {k} + Keys(r)
  }

  ghost function CtxKeys(c: Ctx): (r: set<Thread>) {
    match c
    case Top => {}
    case InLeft(up, _, k, r) => CtxKeys(up) + {k} + Keys(r)
    case InRight(up, l, _, k) => CtxKeys(up) + {k} + Keys(l)
  }

  /** No thread occurs twice. */
  ghost predicate Unshared(t: Tree) {
    match t
    case Leaf => true
    case Node(l, _, k, r) => k !in Keys(l) && k !in Keys(r) && Keys(l) !! Keys(r) && Unshared(l) && Unshared(r)
  }

  ghost predicate CtxDistinct(c: Ctx) {
    match c
    case Top => true
    case InLeft(up, _, k, r) =>
      k !in CtxKeys(up) && k !in Keys(r) && CtxKeys(up) !! Keys(r) && CtxDistinct(up) && Unshared(r)
    case InRight(up, l, _, k) =>
      k !in CtxKeys(up) && k !in Keys(l) && CtxKeys(up) !! Keys(l) && CtxDistinct(up) && Unshared(l)
  }

  lemma {:induction false} DistinctPlug(c: Ctx, t: Tree)
    ensures Unshared(Plug(c, t)) <==> CtxDistinct(c) && Unshared(t) && CtxKeys(c) !! Keys(t)
    ensures Keys(Plug(c, t)) == CtxKeys(c) + Keys(t)
    decreases c
  {
    match c
    case Top =>
    case InLeft(up, col, k, r) => DistinctPlug(up, Node(t, col, k, r));
    case InRight(up, l, col, k) => DistinctPlug(up, Node(l, col, k, t));
  }

  // ---------------------------------------------------------------- pointer links

  datatype Links = Links(left: Thread?, right: Thread?, parent: Thread?, color: Color)

  ghost function RootOf(t: Tree): (r: Thread?) {
    if t.Leaf? then null else t.key
  }

  ghost function Above(c: Ctx): (r: Thread?) {
    if c.Top? then null else c.key
  }

  /** The links of thread n in a tree whose root hangs below p. */
  ghost function At(t: Tree, p: Thread?, n: Thread): (m: Links)
    requires n in Keys(t)
  {
    if n == t.key then Links(RootOf(t.left), RootOf(t.right), p, t.color)
    else if n in Keys(t.left) then At(t.left, t.key, n)
    else At(t.right, t.key, n)
  }

  /** The links of thread n in a context whose hole holds h. */
  ghost function CtxAt(c: Ctx, h: Thread?, n: Thread): (m: Links)
    requires n in CtxKeys(c)
  {
    match c
    case InLeft(up, col, k, r) =>
      if n == k then Links(h, RootOf(r), Above(up), col)
      else if n in Keys(r) then At(r, k, n)
      else CtxAt(up, k, n)
    case InRight(up, l, col, k) =>
      if n == k then Links(RootOf(l), h, Above(up), col)
      else if n in Keys(l) then At(l, k, n)
      else CtxAt(up, k, n)
  }

  /** In a plugged tree every thread keeps the links it has on its own side. */
  lemma {:induction false} AtPlug(c: Ctx, t: Tree, n: Thread)
    requires Unshared(Plug(c, t)) && n in Keys(Plug(c, t))
    ensures Keys(Plug(c, t)) == CtxKeys(c) + Keys(t) && CtxKeys(c) !! Keys(t) && Unshared(t) && CtxDistinct(c)
    ensures At(Plug(c, t), null, n) == if n in Keys(t) then At(t, Above(c), n) else CtxAt(c, RootOf(t), n)
    decreases c
  {
    DistinctPlug(c, t);
    match c
    case Top =>
    case InLeft(up, col, k, r) => AtPlug(up, Node(t, col, k, r), n);
    case InRight(up, l, col, k) => AtPlug(up, Node(l, col, k, t), n);
  }

  /** Putting v where u was below a thread changes one child link. */
  ghost function Relink(m: Links, u: Thread?, v: Thread?): (r: Links) {
    if m.left == u then m.(left := v) else m.(right := v)
  }

  lemma {:induction false} Rehang(c: Ctx, u: Thread, v: Thread?, n: Thread)
    requires n in CtxKeys(c) && CtxDistinct(c) && u !in CtxKeys(c)
    ensures CtxAt(c, v, n) == if n == Above(c) then Relink(CtxAt(c, u, n), u, v) else CtxAt(c, u, n)
  {
  }

  lemma {:induction false} Reparent(t: Tree, p: Thread?, q: Thread?, n: Thread)
    requires n in Keys(t)
    ensures At(t, q, n) == if n == RootOf(t) then At(t, p, n).(parent := q) else At(t, p, n)
  {
  }

  lemma {:induction false} RootPlug(c: Ctx, t: Tree, u: Tree)
    ensures c != Top ==> RootOf(Plug(c, t)) == RootOf(Plug(c, u)) && RootOf(Plug(c, t)) in CtxKeys(c)
    decreases c
  {
    match c
    case Top =>
    case InLeft(up, col, k, r) => RootPlug(up, Node(t, col, k, r), Node(u, col, k, r));
    case InRight(up, l, col, k) => RootPlug(up, Node(l, col, k, t), Node(l, col, k, u));
  }

  ghost function RotL(t: Tree): (r: Tree)
    requires t.Node? && t.right.Node?
  {
    Node(Node(t.left, t.color, t.key, t.right.left), t.right.color, t.right.key, t.right.right)
  }

  ghost function RotR(t: Tree): (r: Tree)
    requires t.Node? && t.left.Node?
  {
    Node(t.left.left, t.left.color, t.left.key, Node(t.left.right, t.color, t.key, t.right))
  }

  /** The node at the focus, found where the links say it is. */
  lemma {:induction false} AtFocus(c: Ctx, t: Tree)
    requires t.Node? && Unshared(Plug(c, t))
    ensures t.key in Keys(Plug(c, t))
    ensures At(Plug(c, t), null, t.key) == Links(RootOf(t.left), RootOf(t.right), Above(c), t.color)
    ensures t.left.Node? ==> t.left.key in Keys(t) && t.left.key in Keys(Plug(c, t)) && t.left.key != t.key
    ensures t.right.Node? ==> t.right.key in Keys(t) && t.right.key in Keys(Plug(c, t)) && t.right.key != t.key
    ensures t.left.Node? && t.right.Node? ==> t.left.key != t.right.key
    ensures c != Top ==> c.key in Keys(Plug(c, t)) && c.key !in Keys(t) && c.key != t.key
  {
    DistinctPlug(c, t);
    AtPlug(c, t, t.key);
  }

  // ---------------------------------------------------------------- rotations

  /** What rb_rotate_left does to the links of thread n, where y is the right child of x. */
  ghost function RotLLinks(x: Thread, fx: Links, y: Thread, fy: Links, n: Thread, fn: Links): (r: Links)
  {
    if n == x then fx.(right := fy.left, parent := y)
    else if n == y then fy.(left := x, parent := fx.parent)
    else if n == fy.left then fn.(parent := x)
    else if n == fx.parent then Relink(fn, x, y)
    else fn
  }

  /** What rb_rotate_right does to the links of thread n, where y is the left child of x. */
  ghost function RotRLinks(x: Thread, fx: Links, y: Thread, fy: Links, n: Thread, fn: Links): (r: Links)
  {
    if n == x then fx.(left := fy.right, parent := y)
    else if n == y then fy.(right := x, parent := fx.parent)
    else if n == fy.right then fn.(parent := x)
    else if n == fx.parent then Relink(fn, x, y)
    else fn
  }

  lemma {:induction false} RotDistinct(t: Tree)
    requires t.Node? && Unshared(t)
    ensures t.key in Keys(t)
    ensures t.right.Node? ==> Unshared(RotL(t)) && Keys(RotL(t)) == Keys(t) && t.right.key in Keys(t)
    ensures t.left.Node? ==> Unshared(RotR(t)) && Keys(RotR(t)) == Keys(t) && t.left.key in Keys(t)
  {
  }

  lemma {:induction false} RotLAt(t: Tree, p: Thread?, n: Thread)
    requires t.Node? && t.right.Node? && Unshared(t)
    requires n in Keys(t) && p !in Keys(t)
    ensures n in Keys(RotL(t))
    ensures t.key in Keys(t) && t.right.key in Keys(t)
    ensures At(RotL(t), p, n) == RotLLinks(t.key, At(t, p, t.key), t.right.key, At(t, p, t.right.key), n, At(t, p, n))
  {
    RotDistinct(t);
    if n in Keys(t.right.left) {
      Reparent(t.right.left, t.right.key, t.key, n);
    }
  }

  lemma {:induction false} RotRAt(t: Tree, p: Thread?, n: Thread)
    requires t.Node? && t.left.Node? && Unshared(t)
    requires n in Keys(t) && p !in Keys(t)
    ensures n in Keys(RotR(t))
    ensures t.key in Keys(t) && t.left.key in Keys(t)
    ensures At(RotR(t), p, n) == RotRLinks(t.key, At(t, p, t.key), t.left.key, At(t, p, t.left.key), n, At(t, p, n))
  {
    RotDistinct(t);
    if n in Keys(t.left.right) {
      Reparent(t.left.right, t.left.key, t.key, n);
    }
  }

  /** The threads a rotation about t.key touches are all different and all in the tree. */
  ghost predicate RotSite(f: Tree, x: Thread, y: Thread, b: Thread?, p: Thread?) {
    && x in Keys(f) && y in Keys(f) && (b != null ==> b in Keys(f)) && (p != null ==> p in Keys(f))
    && x != y && x != b && y != b && x != p && y != p && (p == null || p != b)
  }

  lemma {:induction false} RotLPlug(c: Ctx, t: Tree, n: Thread)
    requires t.Node? && t.right.Node? && Unshared(Plug(c, t)) && n in Keys(Plug(c, t))
    ensures Unshared(Plug(c, RotL(t))) && Keys(Plug(c, RotL(t))) == Keys(Plug(c, t))
    ensures var f, x, y := Plug(c, t), t.key, t.right.key;
      && x in Keys(f) && y in Keys(f)
      && At(f, null, x).right == y && At(f, null, x).parent == Above(c)
      && RotSite(f, x, y, At(f, null, y).left, Above(c))
      && At(Plug(c, RotL(t)), null, n) == RotLLinks(x, At(f, null, x), y, At(f, null, y), n, At(f, null, n))
  {
    var x, y := t.key, t.right.key;
    DistinctPlug(c, t);
    RotDistinct(t);
    DistinctPlug(c, RotL(t));
    AtPlug(c, t, x);
    AtPlug(c, t, y);
    AtPlug(c, t, n);
    AtPlug(c, RotL(t), n);
    if n in Keys(t) {
      RotLAt(t, Above(c), n);
    } else {
      Rehang(c, x, y, n);
    }
  }

  lemma {:induction false} RotRPlug(c: Ctx, t: Tree, n: Thread)
    requires t.Node? && t.left.Node? && Unshared(Plug(c, t)) && n in Keys(Plug(c, t))
    ensures Unshared(Plug(c, RotR(t))) && Keys(Plug(c, RotR(t))) == Keys(Plug(c, t))
    ensures var f, x, y := Plug(c, t), t.key, t.left.key;
      && x in Keys(f) && y in Keys(f)
      && At(f, null, x).left == y && At(f, null, x).parent == Above(c)
      && RotSite(f, x, y, At(f, null, y).right, Above(c))
      && At(Plug(c, RotR(t)), null, n) == RotRLinks(x, At(f, null, x), y, At(f, null, y), n, At(f, null, n))
  {
    var x, y := t.key, t.left.key;
    DistinctPlug(c, t);
    RotDistinct(t);
    DistinctPlug(c, RotR(t));
    AtPlug(c, t, x);
    AtPlug(c, t, y);
    AtPlug(c, t, n);
    AtPlug(c, RotR(t), n);
    if n in Keys(t) {
      RotRAt(t, Above(c), n);
    } else {
      Rehang(c, x, y, n);
    }
  }

  // ---------------------------------------------------------------- recolouring and splicing

  ghost function Paint(t: Tree, c: Color): (r: Tree)
    requires t.Node?
  {
    t.(color := c)
  }

  lemma {:induction false} PaintPlug(c: Ctx, t: Tree, col: Color, n: Thread)
    requires t.Node? && Unshared(Plug(c, t)) && n in Keys(Plug(c, t))
    ensures Unshared(Plug(c, Paint(t, col))) && Keys(Plug(c, Paint(t, col))) == Keys(Plug(c, t))
    ensures t.key in Keys(Plug(c, t))
    ensures At(Plug(c, Paint(t, col)), null, n) ==
      if n == t.key then At(Plug(c, t), null, n).(color := col) else At(Plug(c, t), null, n)
  {
    DistinctPlug(c, t);
    DistinctPlug(c, Paint(t, col));
    AtPlug(c, t, n);
    AtPlug(c, Paint(t, col), n);
  }

  /** What rb_transplant(u, v) does to the links of thread n, where p is the parent of u. */
  ghost function TransplantLinks(u: Thread, v: Thread?, p: Thread?, n: Thread, fn: Links): (r: Links) {
    if n == v then fn.(parent := p) else if n == p then Relink(fn, u, v) else fn
  }

  /** A node with at most one child replaced by that child. */
  lemma {:induction false} SplicePlug(c: Ctx, t: Tree, v: Tree, n: Thread)
    requires t.Node? && ((t.left == Leaf && v == t.right) || (t.right == Leaf && v == t.left))
    requires Unshared(Plug(c, t)) && n in Keys(Plug(c, t)) && n != t.key
    ensures Unshared(Plug(c, v)) && Keys(Plug(c, v)) == Keys(Plug(c, t)) - {t.key}
    ensures t.key in Keys(Plug(c, t))
    ensures n in Keys(Plug(c, v))
    ensures At(Plug(c, v), null, n) == TransplantLinks(t.key, RootOf(v), Above(c), n, At(Plug(c, t), null, n))
  {
    DistinctPlug(c, t);
    DistinctPlug(c, v);
    AtPlug(c, t, n);
    AtPlug(c, v, n);
    if n in Keys(v) {
      Reparent(v, t.key, Above(c), n);
    } else {
      Rehang(c, t.key, RootOf(v), n);
    }
  }

  /** A leaf replaced by a new red node. */
  lemma {:induction false} AttachPlug(c: Ctx, k: Thread, n: Thread)
    requires Unshared(Plug(c, Leaf)) && k !in Keys(Plug(c, Leaf)) && (n == k || n in Keys(Plug(c, Leaf)))
    ensures var t := Node(Leaf, Red, k, Leaf);
      && Unshared(Plug(c, t)) && Keys(Plug(c, t)) == Keys(Plug(c, Leaf)) + {k}
      && At(Plug(c, t), null, n) ==
        if n == k then Links(null, null, Above(c), Red)
        else if n == Above(c) && c.InLeft? then At(Plug(c, Leaf), null, n).(left := k)
        else if n == Above(c) then At(Plug(c, Leaf), null, n).(right := k)
        else At(Plug(c, Leaf), null, n)
  {
    var t := Node(Leaf, Red, k, Leaf);
    DistinctPlug(c, Leaf);
    DistinctPlug(c, t);
    AtPlug(c, t, n);
    if n != k {
      AtPlug(c, Leaf, n);
    }
  }

  ghost function RekeyLinks(z: Thread, fz: Links, y: Thread, n: Thread, fn: Links): (r: Links) {
    if n == y then fz
    else if n == fz.left || n == fz.right then fn.(parent := y)
    else if n == fz.parent then Relink(fn, z, y)
    else fn
  }

  /** A new thread y put in the place of z, taking over its links. */
  lemma {:induction false} RekeyPlug(c: Ctx, t: Tree, y: Thread, n: Thread)
    requires t.Node? && Unshared(Plug(c, t)) && y !in Keys(Plug(c, t))
    requires n == y || (n in Keys(Plug(c, t)) && n != t.key)
    ensures var u := t.(key := y);
      && t.key in Keys(Plug(c, t))
      && Unshared(Plug(c, u)) && Keys(Plug(c, u)) == Keys(Plug(c, t)) - {t.key} + {y}
      && At(Plug(c, u), null, n) ==
        RekeyLinks(t.key, At(Plug(c, t), null, t.key), y, n,
                   if n == y then At(Plug(c, t), null, t.key) else At(Plug(c, t), null, n))
  {
    var u := t.(key := y);
    DistinctPlug(c, t);
    DistinctPlug(c, u);
    AtPlug(c, t, t.key);
    AtPlug(c, u, n);
    if n != y {
      AtPlug(c, t, n);
      if n in Keys(t.left) {
        Reparent(t.left, t.key, y, n);
      } else if n in Keys(t.right) {
        Reparent(t.right, t.key, y, n);
      } else {
        Rehang(c, t.key, y, n);
      }
    }
  }

  /** What lines 270-273 of rb_remove do to the links of thread n, putting y in the place of z. */
  ghost function OccupyLinks(z: Thread, fz: Links, y: Thread, n: Thread, fn: Links): (r: Links) {
    if n == y then Links(fz.left, fn.right, fz.parent, fz.color)
    else if n == fz.left then fn.(parent := y)
    else if n == fz.parent then Relink(fn, z, y)
    else fn
  }

  /** The right child y, which has no left child, put in the place of its parent z. */
  lemma {:induction false} PullUpPlug(c: Ctx, t: Tree, n: Thread)
    requires t.Node? && t.right.Node? && t.right.left == Leaf
    requires Unshared(Plug(c, t)) && n in Keys(Plug(c, t)) && n != t.key
    ensures var z, y, f := t.key, t.right.key, Plug(c, t);
      var u := Plug(c, Node(t.left, t.color, y, t.right.right));
      && z in Keys(f) && y in Keys(f)
      && Unshared(u) && Keys(u) == Keys(f) - {z}
      && At(u, null, n) == OccupyLinks(z, At(f, null, z), y, n, At(f, null, n))
  {
    var z, y := t.key, t.right.key;
    var u := Node(t.left, t.color, y, t.right.right);
    DistinctPlug(c, t);
    DistinctPlug(c, u);
    AtPlug(c, t, z);
    AtPlug(c, t, y);
    AtPlug(c, t, n);
    AtPlug(c, u, n);
    if n in Keys(t.left) {
      Reparent(t.left, z, y, n);
    } else if n !in Keys(t) {
      Rehang(c, z, y, n);
    }
  }

  /** Every thread of a tree is the root of a subtree in some context. */
  lemma {:induction false} Locate(t: Tree, z: Thread) returns (c: Ctx, u: Tree)
    requires z in Keys(t)
    ensures Plug(c, u) == t && u.Node? && u.key == z
  {
    if t.key == z {
      c, u := Top, t;
    } else if z in Keys(t.left) {
      var c', u' := Locate(t.left, z);
      c, u := Join(c', InLeft(Top, t.color, t.key, t.right)), u';
      JoinPlug(c', InLeft(Top, t.color, t.key, t.right), u');
    } else {
      var c', u' := Locate(t.right, z);
      c, u := Join(c', InRight(Top, t.left, t.color, t.key)), u';
      JoinPlug(c', InRight(Top, t.left, t.color, t.key), u');
    }
  }

  /** The successor hangs directly below z only when no left turn leads to it. */
  lemma {:induction false} SpineParent(c: Ctx, t: Tree, s: Ctx, y: Tree)
    requires t.Node? && Unshared(Plug(c, t)) && Spine(s) && t.right == Plug(s, y) && y.Node?
    ensures Above(Join(s, InRight(c, t.left, t.color, t.key))) == t.key <==> s == Top
    ensures y.key in Keys(Plug(c, t)) && y.key != t.key
  {
    DistinctPlug(c, t);
    DistinctPlug(s, y);
  }

  lemma {:induction false} KeysInorder(t: Tree)
    ensures forall n :: n in Inorder(t) <==> n in Keys(t)
  {
    if t.Node? {
      KeysInorder(t.left);
      KeysInorder(t.right);
    }
  }

  lemma {:induction false} InorderInKeys(t: Tree, i: nat)
    requires i < |Inorder(t)|
    ensures Inorder(t)[i] in Keys(t)
  {
    var l, r := Inorder(t.left), Inorder(t.right);
    if i < |l| {
      assert Inorder(t)[i] == l[i];
      InorderInKeys(t.left, i);
    } else if i > |l| {
      assert Inorder(t)[i] == r[i - |l| - 1];
      InorderInKeys(t.right, i - |l| - 1);
    }
  }

  /** No thread stands twice in the order. */
  lemma {:induction false} DistinctInorder(t: Tree, i: nat, j: nat)
    requires Unshared(t) && i < j < |Inorder(t)|
    ensures Inorder(t)[i] != Inorder(t)[j]
  {
    var l, r := Inorder(t.left), Inorder(t.right);
    assert Inorder(t)[|l|] == t.key;
    if j < |l| {
      DistinctInorder(t.left, i, j);
    } else if i > |l| {
      DistinctInorder(t.right, i - |l| - 1, j - |l| - 1);
    } else {
      if i < |l| { InorderInKeys(t.left, i); }
      if j > |l| { InorderInKeys(t.right, j - |l| - 1); }
    }
  }
}
