/** Taking a node out of the links of the tree: `__rb_erase_augmented`. */
module RbUnlink {
  import opened RbShape
  import opened RbLinks
  import opened RbErase

  /** The leftmost node of `r`, as a subtree and as a path on top of `b`. */
  function MinTree(r: Tree): (m: Tree)
    requires r.Bin?
    ensures m.Bin? && m.l.Nil?
  {
    if r.l.Nil? then r else MinTree(r.l)
  }

  function MinCtx(b: Ctx, r: Tree): Ctx
    requires r.Bin?
    decreases r
  {
    if r.l.Nil? then b else MinCtx(InL(r.n, r.red, r.r, b), r.l)
  }

  /** `r` with its leftmost node replaced by the subtree `x`. */
  function DropMin(r: Tree, x: Tree): Tree
    requires r.Bin?
  {
    if r.l.Nil? then x else Bin(DropMin(r.l, x), r.n, r.red, r.r)
  }

  /** Moving between the hole left by the leftmost node and the top of `r`. */
  lemma {:induction false} DropMinZip(b: Ctx, r: Tree, x: Tree, root: RbRoot)
    requires r.Bin?
    ensures Zip(MinCtx(b, r), x, root) <==> Zip(b, DropMin(r, x), root)
    ensures Plug(MinCtx(b, r), x) == Plug(b, DropMin(r, x))
    decreases r
  {
    if r.l.Bin? {
      var b' := InL(r.n, r.red, r.r, b);
      DropMinZip(b', r.l, x, root);
      if Zip(b', DropMin(r.l, x), root) {
        ZipUp(b', DropMin(r.l, x), root);
      }
      if Zip(b, DropMin(r, x), root) {
        ZipDown(b, DropMin(r, x), root);
      }
    }
  }

  lemma {:induction false} MinRB(b: Ctx, r: Tree, h: nat) returns (k: nat)
    requires r.Bin? && CtxRB(b, h) && IsRB(r, h) && (r.red ==> !b.Top? && !TopRed(b))
    ensures var c, m := MinCtx(b, r), MinTree(r);
      CtxRB(c, k) && IsRB(m, k) && (m.red ==> !c.Top? && !TopRed(c))
    decreases r
  {
    if r.l.Nil? {
      k := h;
    } else {
      k := MinRB(InL(r.n, r.red, r.r, b), r.l, if r.red then h else h - 1);
    }
  }

  lemma {:induction false} DropMinInorder(r: Tree, x: Tree)
    requires r.Bin? && Inorder(x) == Inorder(MinTree(r).r)
    ensures Inorder(r) == [MinTree(r).n] + Inorder(DropMin(r, x))
    decreases r
  {
    if r.l.Nil? {
      assert Inorder(r) == [r.n] + Inorder(r.r);
    } else {
      DropMinInorder(r.l, x);
      var m := [MinTree(r).n];
      assert Inorder(r) == m + Inorder(DropMin(r.l, x)) + [r.n] + Inorder(r.r);
      assert m + (Inorder(DropMin(r.l, x)) + [r.n] + Inorder(r.r)) ==
          m + Inorder(DropMin(r.l, x)) + [r.n] + Inorder(r.r);
    }
  }

  /** A subtree painted `red` at its root. */
  function Painted(x: Tree, red: bool): (p: Tree)
    ensures Self(p) == Self(x) && (p.Bin? <==> x.Bin?) && Inorder(p) == Inorder(x) && Nodes(p) == Nodes(x)
    ensures IsRed(p) <==> x.Bin? && red
  {
    if x.Nil? then Nil else x.(red := red)
  }

  // ----- case 1: at most one child

  /** The only subtree `x` of `node`, if any, takes the place and colour of `node`. */
  method ReplaceByChild(node: RbNode, child: RbNode?, root: RbRoot, ghost c: Ctx, ghost t: Tree, ghost x: Tree)
    requires Zip(c, t, root) && t.Bin? && t.n == node && child == Self(x)
    requires (t.l.Nil? && x == t.r) || (t.r.Nil? && x == t.l)
    modifies root, node.parent, child
    ensures Zip(c, Painted(x, t.red), root)
    ensures node.red == old(node.red) && node.parent == old(node.parent)
  {
    hide Zip, Nodes, Linked, Sep, CtxNodes, CtxLinked, CtxSep, LinkedBelow;
    UnzipNode(c, t, root);
    AllocTree(x); AllocCtx(c); HoleParent(c); RootOf(x, node);
    ChangeChild(node, child, node.parent, root, c);
    PaintChild(child, node.parent, node.red, x);
    ZipAt(c, Painted(x, t.red), root);
  }

  lemma {:induction false} ZipAt(c: Ctx, x: Tree, root: RbRoot)
    requires Sep(x) && CtxSep(c) && Nodes(x) !! CtxNodes(c)
    requires Linked(x, CtxParent(c, null)) && CtxLinked(c, Self(x), null, root.node)
    ensures Zip(c, x, root)
  {
  }

  // ----- cases 2 and 3: a successor takes over

  /** `successor` takes over the left subtree of `node`, its place below the path `c`, and its colour. */
  method Inherit(node: RbNode, successor: RbNode, root: RbRoot, ghost c: Ctx, ghost l: Tree)
    requires Sep(l) && CtxSep(c) && l.Bin? && Nodes(l) !! {successor} !! CtxNodes(c)
    requires node !in Nodes(l) + CtxNodes(c) + {successor}
    requires Linked(l, node) && CtxLinked(c, node, null, root.node) && node.left == Self(l)
    requires node.parent == CtxParent(c, null)
    modifies root, node.parent, successor`left, successor`parent, successor`red, node.left
    ensures Linked(l, successor) && CtxLinked(c, successor, null, root.node)
    ensures successor.left == Self(l) && successor.parent == CtxParent(c, null) && successor.red == old(node.red)
  {
    hide Nodes, Linked, Sep, CtxNodes, CtxLinked, CtxSep, LinkedBelow;
    AllocTree(l); AllocCtx(c); HoleParent(c); RootOf(l, node);
    var tmp := node.left;
    successor.left := tmp;
    Adopt(tmp, successor, l);
    ChangeChild(node, successor, node.parent, root, c);
    successor.parent, successor.red := node.parent, node.red;
  }

  // ----- case 2: the successor is the right child

  method SpliceRightChild(node: RbNode, successor: RbNode, root: RbRoot, ghost c: Ctx, ghost t: Tree)
    requires Zip(c, t, root) && t.Bin? && t.n == node && t.l.Bin?
    requires t.r.Bin? && t.r.n == successor && t.r.l.Nil?
    modifies root, node.parent, successor, node.left, successor.right
    ensures Zip(InR(t.l, successor, t.red, c), Painted(t.r.r, false), root)
  {
    hide Zip, Nodes, Linked, Sep, CtxNodes, CtxLinked, CtxSep, LinkedBelow;
    ghost var l, x := t.l, t.r.r;
    UnzipRight(c, t, root);
    AllocTree(l); AllocTree(x); AllocCtx(c); HoleParent(c);
    RootOf(l, node); RootOf(x, successor); NodesOf(l);
    var child2 := successor.right;
    Inherit(node, successor, root, c, l);
    PaintChild(child2, successor, false, x);
    ZipNode(c, l, successor, Painted(x, false), root);
  }

  /** `if (child) rb_set_parent_color(child, parent, color)`. */
  method PaintChild(child: RbNode?, parent: RbNode?, red: bool, ghost x: Tree)
    requires Sep(x) && child == Self(x) && LinkedBelow(x)
    modifies child
    ensures Linked(Painted(x, red), parent) && Sep(Painted(x, red))
  {
    AllocTree(x);
    if child != null {
      child.parent, child.red := parent, red;
    }
  }

  lemma {:induction false} ZipNode(c: Ctx, l: Tree, n: RbNode, r: Tree, root: RbRoot)
    requires Sep(l) && Sep(r) && CtxSep(c) && Nodes(l) !! Nodes(r) !! {n} !! CtxNodes(c)
    requires Linked(l, n) && Linked(r, n) && CtxLinked(c, n, null, root.node)
    requires n.left == Self(l) && n.right == Self(r) && n.parent == CtxParent(c, null)
    ensures Zip(c, Bin(l, n, n.red, r), root) && Zip(InR(l, n, n.red, c), r, root)
  {
  }

  lemma {:induction false} UnzipNode(c: Ctx, t: Tree, root: RbRoot)
    requires Zip(c, t, root) && t.Bin?
    ensures Sep(t.l) && Sep(t.r) && CtxSep(c) && Nodes(t.l) !! Nodes(t.r) !! {t.n} !! CtxNodes(c)
    ensures Linked(t.l, t.n) && Linked(t.r, t.n) && CtxLinked(c, t.n, null, root.node)
    ensures t.n.left == Self(t.l) && t.n.right == Self(t.r) && t.n.parent == CtxParent(c, null) && t.n.red == t.red
  {
  }

  // ----- case 3: the successor is deeper

  /** Unhooks the leftmost node `m.n`, the left child of `parent`. */
  method DetachMin(parent: RbNode, child2: RbNode?, root: RbRoot, ghost c: Ctx, ghost m: Tree)
    requires Zip(c, m, root) && c.InL? && c.n == parent && m.Bin? && m.l.Nil? && child2 == Self(m.r)
    modifies parent`left, child2
    ensures Zip(c, Painted(m.r, false), root)
    ensures m.n !in CtxNodes(c) + Nodes(m.r)
  {
    AllocTree(m); AllocCtx(c);
    assert Sep(m.r) && Linked(m.r, m.n);
    parent.left := child2;
    PaintChild(child2, parent, false, m.r);
  }

  /** `successor`, outside the tree, takes over the links and colour of `node`. */
  method TakePlace(node: RbNode, successor: RbNode, root: RbRoot, ghost c: Ctx, ghost t: Tree)
    requires Zip(c, t, root) && t.Bin? && t.n == node && t.l.Bin? && t.r.Bin?
    requires successor !in CtxNodes(c) + Nodes(t)
    modifies root, node.parent, successor, node.left, node.right
    ensures Zip(c, t.(n := successor), root)
  {
    hide Zip, Nodes, Linked, Sep, CtxNodes, CtxLinked, CtxSep, LinkedBelow;
    ghost var l, r := t.l, t.r;
    UnzipNode(c, t, root);
    NodesOf(t);
    AllocTree(l); AllocTree(r); AllocCtx(c); HoleParent(c);
    RootOf(l, node); RootOf(r, node);
    var child := node.right;
    successor.right := child;
    Adopt(child, successor, r);
    Inherit(node, successor, root, c, l);
    ZipNode(c, l, successor, r, root);
  }

  lemma {:induction false} MinStep(b: Ctx, u: Tree)
    requires u.Bin?
    ensures u.l.Nil? ==> MinTree(u) == u && MinCtx(b, u) == b
    ensures u.l.Bin? ==> MinTree(u) == MinTree(u.l) && MinCtx(b, u) == MinCtx(InL(u.n, u.red, u.r, b), u.l)
  {
  }

  /** The path to the leftmost node stays inside the subtree. */
  lemma DropMinTop(r: Tree, x: Tree)
    requires r.Bin? && r.l.Bin?
    ensures DropMin(r, x).Bin? && DropMin(r, x).n == r.n
  {
  }

  lemma {:induction false} MinTop(b: Ctx, b': Ctx, r: Tree)
    requires r.Bin? && r.l.Bin?
    ensures CtxParent(MinCtx(b, r), null) == CtxParent(MinCtx(b', r), null)
    decreases r
  {
    if r.l.l.Bin? {
      MinTop(InL(r.n, r.red, r.r, b), InL(r.n, r.red, r.r, b'), r.l);
    }
  }

  lemma DropMinStep(r: Tree, x: Tree)
    requires r.Bin? && r.l.Nil?
    ensures DropMin(r, x) == x
  {
  }

  lemma {:induction false} MinIn(r: Tree)
    requires r.Bin?
    ensures MinTree(r).n in Nodes(r)
    decreases r
  {
    if r.l.Bin? {
      MinIn(r.l);
    }
  }

  // ----- all cases

  /** A subtree with a missing child has black height 0 or 1, and its other child fills the gap. */
  lemma {:induction false} OneChildRB(t: Tree, h: nat, x: Tree)
    requires t.Bin? && IsRB(t, h) && ((t.l.Nil? && x == t.r) || (t.r.Nil? && x == t.l))
    ensures t.red ==> x.Nil? && h == 0
    ensures !t.red ==> h == 1 && (x.Bin? ==> IsRB(Painted(x, false), 1))
  {
    if x.Bin? && x.red {
      assert IsRB(x, 0);
    }
  }

  /** What is left when the node between `l` and `r` goes and the leftmost node of `r` takes its place. */
  lemma {:induction false} SpliceInorder(c: Ctx, l: Tree, r: Tree, red: bool, x: Tree)
    requires r.Bin? && Inorder(x) == Inorder(MinTree(r).r)
    ensures Inorder(Plug(c, Bin(l, MinTree(r).n, red, DropMin(r, x)))) == Before(c) + Inorder(l) + Inorder(r) + After(c)
  {
    var t := Bin(l, MinTree(r).n, red, DropMin(r, x));
    InorderPlug(c, t);
    DropMinInorder(r, x);
    hide *;
    Regroup3(Inorder(l), [MinTree(r).n], Inorder(DropMin(r, x)));
    Regroup4(Before(c), Inorder(l), Inorder(r), After(c));
  }

  lemma {:induction false} OneChildInorder(c: Ctx, t: Tree, x: Tree, red: bool)
    requires t.Bin? && ((t.l.Nil? && x == t.r) || (t.r.Nil? && x == t.l))
    ensures Inorder(Plug(c, Painted(x, red))) == Before(c) + Inorder(t.l) + Inorder(t.r) + After(c)
  {
    InorderPlug(c, Painted(x, red));
    assert Inorder(t.l) + Inorder(t.r) == Inorder(x);
    Regroup4(Before(c), Inorder(t.l), Inorder(t.r), After(c));
  }

  /** What `__rb_erase_augmented` hands to the fix-up: the hole it left and whether a black is missing there. */
  ghost predicate Handover(rebalance: RbNode?, c: Ctx, t: Tree, root: RbRoot)
    reads root, CtxNodes(c), Nodes(t)
  {
    && Zip(c, t, root) && !IsRed(t)
    && (rebalance == null ==> exists k: nat :: CtxRB(c, k) && IsRB(t, k))
    && (rebalance != null ==> t.Nil? && !c.Top? && c.n == rebalance && CtxRB(c, 1))
  }

  lemma {:induction false} HandoverOne(c: Ctx, t: Tree, h: nat, x: Tree, rebalance: RbNode?, root: RbRoot)
    requires t.Bin? && CtxRB(c, h) && IsRB(t, h) && ((t.l.Nil? && x == t.r) || (t.r.Nil? && x == t.l))
    requires Zip(c, Painted(x, false), root)
    requires rebalance == if x.Nil? && !t.red then CtxParent(c, null) else null
    ensures Handover(rebalance, c, Painted(x, false), root)
  {
    OneChildRB(t, h, x);
    if rebalance == null {
      if c.Top? && x.Nil? {
        assert CtxRB(c, 0) && IsRB(Painted(x, false), 0);
      } else {
        assert IsRB(Painted(x, false), h);
      }
    }
  }

  lemma {:induction false} NodeFootprint(c: Ctx, t: Tree, root: RbRoot)
    requires Zip(c, t, root) && t.Bin?
    ensures Nodes(t) == Nodes(t.l) + {t.n} + Nodes(t.r)
    ensures t.n.left == Self(t.l) && t.n.right == Self(t.r) && t.n.parent == CtxParent(c, null) && t.n.red == t.red
    ensures t.n.parent != null ==> t.n.parent in CtxNodes(c)
    ensures t.l.Bin? ==> t.l.n in Nodes(t.l)
    ensures t.r.Bin? ==>
      t.r.n in Nodes(t.r) && t.r.n.left == Self(t.r.l) && t.r.n.right == Self(t.r.r) && t.r.n.red == t.r.red
    ensures t.r.Bin? && t.r.r.Bin? ==> t.r.r.n in Nodes(t.r)
  {
    assert t.r.Bin? ==> Linked(t.r, t.n);
  }

  lemma {:induction false} InnerRB(c: Ctx, t: Tree, h: nat, s: RbNode) returns (k: nat)
    requires CtxRB(c, h) && t.Bin? && IsRB(t, h) && (t.red ==> !c.Top? && !TopRed(c))
    ensures CtxRB(InR(t.l, s, t.red, c), k) && IsRB(t.r, k) && (t.red ==> !IsRed(t.r))
  {
    k := if t.red then h else h - 1;
  }

  /** Case 3: the walk to the successor, and unhooking it. */
  method UnhookSuccessor(node: RbNode, child: RbNode, root: RbRoot, ghost c: Ctx, ghost t: Tree)
    returns (successor: RbNode, parent: RbNode, wasRed: bool, child2: RbNode?)
    requires Zip(c, t, root) && t.Bin? && t.n == node && t.r.Bin? && t.r.n == child && t.r.l.Bin?
    modifies Nodes(t)
    ensures node.left == Self(t.l) && node.right == child
    ensures var m := MinTree(t.r); successor == m.n && wasRed == m.red && child2 == Self(m.r)
    ensures CtxParent(MinCtx(InR(t.l, node, t.red, c), t.r), null) == parent
    ensures Zip(c, Bin(t.l, node, t.red, DropMin(t.r, Painted(MinTree(t.r).r, false))), root)
    ensures successor !in CtxNodes(c) + Nodes(Bin(t.l, node, t.red, DropMin(t.r, Painted(MinTree(t.r).r, false))))
  {
    hide Zip, Nodes, Linked, Sep, CtxNodes, CtxLinked, CtxSep, LinkedBelow, Plug, MinTree, MinCtx, DropMin, Painted;
    ghost var r, base := t.r, InR(t.l, node, t.red, c);
    NodeFootprint(c, t, root);
    ZipDown(c, t, root);
    var tmp := child.left;
    successor, parent := child, node;
    ghost var b, u := base, r;
    while tmp != null
      invariant Zip(b, u, root) && u.Bin? && u.n == successor && tmp == Self(u.l)
      invariant MinCtx(b, u) == MinCtx(base, r) && MinTree(u) == MinTree(r)
      invariant u == r || (b.InL? && b.n == parent && parent in Nodes(r))
      invariant Nodes(u) <= Nodes(r)
      decreases u
    {
      NodeFootprint(b, u, root);
      ZipDown(b, u, root);
      MinStep(b, u);
      b, u := InL(u.n, u.red, u.r, b), u.l;
      parent := successor;
      successor := tmp;
      NodeFootprint(b, u, root);
      tmp := tmp.left;
    }
    MinStep(b, u);
    NodeFootprint(b, u, root);
    child2, wasRed := successor.right, successor.red;
    DetachMin(parent, child2, root, b, u);
    ghost var x := Painted(u.r, false);
    DropMinZip(base, r, x, root);
    ZipUp(base, DropMin(r, x), root);
    ghost var t1 := Up(base, DropMin(r, x));
    ZipRootParent(c, t1, root);
    PlugNodes(b, x); PlugNodes(c, t1);
    DropMinTop(r, x);
  }

  /** With one child missing, `node`'s own colour on the other child is black. */
  lemma {:induction false} OneChildPaint(t: Tree, h: nat, x: Tree)
    requires t.Bin? && IsRB(t, h) && ((t.l.Nil? && x == t.r) || (t.r.Nil? && x == t.l))
    ensures Painted(x, t.red) == Painted(x, false)
  {
    OneChildRB(t, h, x);
  }

  /** The state after the successor took `node`'s place meets the handover. */
  lemma {:induction false} HandoverDeep(c: Ctx, t: Tree, h: nat, rebalance: RbNode?, root: RbRoot)
    requires t.Bin? && t.r.Bin? && IsRB(t, h) && CtxRB(c, h) && (t.red ==> !c.Top? && !TopRed(c))
    requires var m := MinTree(t.r);
      Zip(c, Bin(t.l, m.n, t.red, DropMin(t.r, Painted(m.r, false))), root)
    requires var m := MinTree(t.r); var b := InR(t.l, m.n, t.red, c);
      rebalance == if m.r.Nil? && !m.red then CtxParent(MinCtx(b, t.r), null) else null
    ensures var m := MinTree(t.r); var b := InR(t.l, m.n, t.red, c);
      && Handover(rebalance, MinCtx(b, t.r), Painted(m.r, false), root)
      && Inorder(Plug(MinCtx(b, t.r), Painted(m.r, false))) == Before(c) + Inorder(t.l) + Inorder(t.r) + After(c)
  {
    var m := MinTree(t.r);
    var b, x := InR(t.l, m.n, t.red, c), Painted(m.r, false);
    var k0 := InnerRB(c, t, h, m.n);
    var k := MinRB(b, t.r, k0);
    ZipDown(c, Bin(t.l, m.n, t.red, DropMin(t.r, x)), root);
    DropMinZip(b, t.r, x, root);
    HandoverOne(MinCtx(b, t.r), m, k, m.r, rebalance, root);
    SpliceInorder(c, t.l, t.r, t.red, x);
  }

  /** `__rb_erase_augmented`. */
  method Unlink(node: RbNode, root: RbRoot, ghost c: Ctx, ghost t: Tree, ghost h: nat)
    returns (rebalance: RbNode?, ghost c': Ctx, ghost t': Tree)
    requires Zip(c, t, root) && t.Bin? && t.n == node
    requires IsRB(t, h) && CtxRB(c, h) && (t.red ==> !c.Top? && !TopRed(c))
    modifies root, CtxNodes(c), Nodes(t)
    ensures Handover(rebalance, c', t', root)
    ensures Inorder(Plug(c', t')) == Before(c) + Inorder(t.l) + Inorder(t.r) + After(c)
  {
    hide Zip, Nodes, Linked, Sep, CtxNodes, CtxLinked, CtxSep, LinkedBelow, IsRB, CtxRB, Inorder, Plug, MinTree, MinCtx,
        DropMin, Before, After, Painted, Handover;
    NodeFootprint(c, t, root);
    var child, tmp := node.right, node.left;
    if tmp == null {
      ReplaceByChild(node, child, root, c, t, t.r);
      OneChildPaint(t, h, t.r);
      rebalance := if child == null && !node.red then node.parent else null;
      c', t' := c, Painted(t.r, false);
      HandoverOne(c, t, h, t.r, rebalance, root);
      OneChildInorder(c, t, t.r, false);
    } else if child == null {
      ReplaceByChild(node, tmp, root, c, t, t.l);
      OneChildPaint(t, h, t.l);
      rebalance := null;
      c', t' := c, Painted(t.l, false);
      HandoverOne(c, t, h, t.l, rebalance, root);
      OneChildInorder(c, t, t.l, false);
    } else {
      var successor, parent, wasRed, child2 := child, child, child.red, child.right;
      ghost var m, x := MinTree(t.r), Painted(MinTree(t.r).r, false);
      tmp := child.left;
      if tmp == null {
        MinStep(InR(t.l, child, t.red, c), t.r);
        DropMinStep(t.r, x);
        SpliceRightChild(node, successor, root, c, t);
        ZipUp(InR(t.l, successor, t.red, c), x, root);
      } else {
        successor, parent, wasRed, child2 := UnhookSuccessor(node, child, root, c, t);
        ghost var t1 := Bin(t.l, node, t.red, DropMin(t.r, x));
        NodeFootprint(c, t1, root);
        DropMinTop(t.r, x);
        MinTop(InR(t.l, node, t.red, c), InR(t.l, successor, t.red, c), t.r);
        MinIn(t.r);
        TakePlace(node, successor, root, c, t1);
      }
      rebalance := if child2 == null && !wasRed then parent else null;
      HandoverDeep(c, t, h, rebalance, root);
      c', t' := MinCtx(InR(t.l, m.n, t.red, c), t.r), x;
    }
  }
}
