/** Insertion: the climbing fix-up after a red leaf was linked. */
module RbInsert {
  import opened RbShape
  import opened RbLinks

  /** Case 2, left rotation at `parent`; `node` ends above it, its own parent link still stale. */
  method RotateLeftAtParent(node: RbNode, parent: RbNode, tmp: RbNode?, ghost s: Tree, ghost a: Tree)
    requires Sep(s) && Sep(a) && Nodes(s) !! Nodes(a) !! {node} !! {parent}
    requires parent.left == Self(s) && Linked(s, parent)
    requires tmp == Self(a) && Linked(a, node) && !IsRed(a)
    modifies parent, node`left, tmp
    ensures Linked(Bin(s, parent, true, a), node) && Sep(Bin(s, parent, true, a)) && node.left == parent
  {
    AllocTree(s); AllocTree(a);
    parent.right := tmp;
    node.left := parent;
    AdoptBlack(tmp, parent, a);
    parent.parent, parent.red := node, true;
  }

  /** Case 2 mirrored, right rotation at `parent`. */
  method RotateRightAtParent(node: RbNode, parent: RbNode, tmp: RbNode?, ghost a: Tree, ghost s: Tree)
    requires Sep(s) && Sep(a) && Nodes(s) !! Nodes(a) !! {node} !! {parent}
    requires parent.right == Self(s) && Linked(s, parent)
    requires tmp == Self(a) && Linked(a, node) && !IsRed(a)
    modifies parent, node`right, tmp
    ensures Linked(Bin(a, parent, true, s), node) && Sep(Bin(a, parent, true, s)) && node.right == parent
  {
    AllocTree(s); AllocTree(a);
    parent.left := tmp;
    node.right := parent;
    AdoptBlack(tmp, parent, a);
    parent.parent, parent.red := node, true;
  }

  /** Case 1, the red children `x` and `y` of `g` turn black and `g` red. */
  method FlipColors(x: RbNode, y: RbNode, g: RbNode, root: RbRoot, ghost up: Ctx, ghost t: Tree)
    requires Zip(up, t, root) && t.Bin? && t.l.Bin? && t.r.Bin? && t.n == g && t.l.n == x && t.r.n == y
    modifies x, y, g
    ensures Zip(up, Bin(t.l.(red := false), g, true, t.r.(red := false)), root)
  {
    hide Zip, Nodes, Linked, Sep, CtxNodes, CtxLinked, CtxSep;
    ZipDown(up, t, root);
    Paint(y, g, false, root, InR(t.l, g, t.red, up), t.r);
    ZipUp(InR(t.l, g, t.red, up), t.r.(red := false), root);
    ghost var t1 := t.(r := t.r.(red := false));
    ZipDown(up, t1, root);
    Paint(x, g, false, root, InL(g, t.red, t1.r, up), t.l);
    ZipUp(InL(g, t.red, t1.r, up), t.l.(red := false), root);
    ghost var t2 := t1.(l := t.l.(red := false));
    ZipRootParent(up, t2, root);
    Paint(g, g.parent, true, root, up, t2);
  }

  /** The frames around a red `t` whose parent is red and whose grandparent is black. */
  ghost predicate RedRed(c: Ctx, t: Tree) {
    && t.Bin? && t.red && !IsRed(t.l) && !IsRed(t.r)
    && !c.Top? && c.red && !IsRed(if c.InL? then c.r else c.l)
    && !c.up.Top? && !c.up.red
  }

  /** The subtree that replaces the grandparent when the uncle is black. */
  function Rotated(c: Ctx, t: Tree): Tree
    requires t.Bin? && !c.Top? && !c.up.Top?
  {
    var p, g := c.n, c.up.n;
    if c.up.InL? then
      if c.InL? then Bin(t, p, false, Bin(c.r, g, true, c.up.r))
      else Bin(Bin(c.l, p, true, t.l), t.n, false, Bin(t.r, g, true, c.up.r))
    else
      if c.InR? then Bin(Bin(c.up.l, g, true, c.l), p, false, t)
      else Bin(Bin(c.up.l, g, true, t.l), t.n, false, Bin(t.r, p, true, c.r))
  }

  /** Cases 2 and 3 when `parent` is a left child. */
  method RotateCasesLeft(node: RbNode, parent0: RbNode, gparent: RbNode, root: RbRoot, ghost c: Ctx, ghost t: Tree)
    requires Zip(c, t, root) && RedRed(c, t) && c.up.InL?
    requires t.n == node && c.n == parent0 && c.up.n == gparent
    modifies root, CtxNodes(c), Nodes(t)
    ensures Zip(c.up.up, Rotated(c, t), root)
  {
    hide Zip, Nodes, Linked, Sep, CtxNodes, CtxLinked, CtxSep;
    var parent := parent0;
    ghost var up, u := c.up.up, c.up.r;
    ghost var x, y := t, if c.InL? then c.r else t;
    ZipUp(c, t, root);
    ZipUp(c.up, Up(c, t), root);
    ghost var whole := Up(c.up, Up(c, t));
    var tmp := parent.right;
    if node == tmp {
      UnzipLeftRight(up, whole, root);
      Footprint(c, t); RootOf(t.l, node); RootOf(t.r, node);
      AllocTree(t.r); AllocTree(u); AllocCtx(up);
      tmp := node.left;
      RotateLeftAtParent(node, parent, tmp, c.l, t.l);
      x, y := Bin(c.l, parent0, true, t.l), t.r;
      NodesOf(x);
      parent := node;
      tmp := node.right;
    } else {
      UnzipLeft(up, whole, root);
      Footprint(c, t); RootOf(c.r, parent);
    }
    RotateRight(parent, gparent, tmp, root, x, y, u, up);
  }

  /** Cases 2 and 3 when `parent` is a right child. */
  method RotateCasesRight(node: RbNode, parent0: RbNode, gparent: RbNode, root: RbRoot, ghost c: Ctx, ghost t: Tree)
    requires Zip(c, t, root) && RedRed(c, t) && c.up.InR?
    requires t.n == node && c.n == parent0 && c.up.n == gparent
    modifies root, CtxNodes(c), Nodes(t)
    ensures Zip(c.up.up, Rotated(c, t), root)
  {
    hide Zip, Nodes, Linked, Sep, CtxNodes, CtxLinked, CtxSep;
    var parent := parent0;
    ghost var up, u := c.up.up, c.up.l;
    ghost var x, y := t, if c.InR? then c.l else t;
    ZipUp(c, t, root);
    ZipUp(c.up, Up(c, t), root);
    ghost var whole := Up(c.up, Up(c, t));
    var tmp := parent.left;
    if node == tmp {
      UnzipRightLeft(up, whole, root);
      Footprint(c, t); RootOf(t.r, node); RootOf(t.l, node);
      AllocTree(t.l); AllocTree(u); AllocCtx(up);
      tmp := node.right;
      RotateRightAtParent(node, parent, tmp, t.r, c.r);
      x, y := Bin(t.r, parent0, true, c.r), t.l;
      NodesOf(x);
      parent := node;
      tmp := node.left;
    } else {
      UnzipRight(up, whole, root);
      Footprint(c, t); RootOf(c.l, parent);
    }
    RotateLeft(parent, gparent, tmp, root, u, y, x, up);
  }

  function Uncle(c: Ctx): Tree
    requires !c.Top? && !c.up.Top?
  {
    if c.up.InL? then c.up.r else c.up.l
  }

  /** The grandparent's subtree before the step. */
  function Gparent(c: Ctx, t: Tree): Tree
    requires !c.Top? && !c.up.Top?
  {
    Up(c.up, Up(c, t))
  }

  function Flipped(c: Ctx, t: Tree): Tree
    requires !c.Top? && !c.up.Top? && t.Bin? && Uncle(c).Bin?
  {
    var g := Gparent(c, t);
    Bin(g.l.(red := false), g.n, true, g.r.(red := false))
  }

  /** A red node below a red parent has a black grandparent. */
  lemma {:induction false} RedParent(c: Ctx, t: Tree, h: nat)
    requires IsRB(t, h) && CtxRB(c, h) && IsRed(t) && TopRed(c)
    ensures RedRed(c, t)
  {
  }

  /** Case 1 moves the only possible violation two levels up. */
  lemma {:induction false} FlipKeepsRB(c: Ctx, t: Tree, h: nat)
    requires IsRB(t, h) && CtxRB(c, h) && RedRed(c, t) && IsRed(Uncle(c))
    ensures IsRB(Flipped(c, t), h + 1) && CtxRB(c.up.up, h + 1)
    ensures Inorder(Flipped(c, t)) == Inorder(Gparent(c, t))
  {
    assert CtxRB(c.up, h);
    var g := Gparent(c, t);
    assert IsRB(g.l.(red := false), h + 1) && IsRB(g.r.(red := false), h + 1);
  }

  /** Cases 2 and 3 remove the violation. */
  lemma {:induction false} RotateRestoresRB(c: Ctx, t: Tree, h: nat)
    requires IsRB(t, h) && CtxRB(c, h) && RedRed(c, t) && !IsRed(Uncle(c))
    ensures !IsRed(Rotated(c, t)) && IsRB(Rotated(c, t), h + 1) && CtxRB(c.up.up, h + 1)
  {
    assert CtxRB(c.up, h);
  }

  lemma {:induction false} RotateKeepsInorder(c: Ctx, t: Tree)
    requires RedRed(c, t)
    ensures Inorder(Rotated(c, t)) == Inorder(Gparent(c, t))
  {
    var u, g, p := Uncle(c), c.up.n, c.n;
    if c.up.InL? {
      if c.InL? {
        InorderRotate(t, p, false, c.r, g, true, u, true, false);
      } else {
        var q := Bin(c.l, p, true, t.l);
        InorderRotate(c.l, p, true, t.l, t.n, true, t.r, true, true);
        InorderRotate(q, t.n, false, t.r, g, true, u, true, false);
        assert Inorder(Bin(c.l, p, true, t)) == Inorder(Bin(q, t.n, true, t.r));
      }
    } else {
      if c.InR? {
        InorderRotate(u, g, false, c.l, p, true, t, true, false);
      } else {
        var q := Bin(t.r, p, true, c.r);
        InorderRotate(t.l, t.n, true, t.r, p, true, c.r, true, true);
        InorderRotate(u, g, false, t.l, t.n, true, q, true, false);
        assert Inorder(Bin(t, p, true, c.r)) == Inorder(Bin(t.l, t.n, true, q));
      }
    }
  }

  /** Where a red `t` below a red parent hangs, as the pointers show it. */
  lemma {:induction false} Sides(c: Ctx, t: Tree, root: RbRoot)
    requires Zip(c, t, root) && RedRed(c, t)
    ensures c.n.red && c.n.parent == c.up.n
    ensures c.up.n.right == c.n <==> c.up.InR?
    ensures c.up.InL? ==> c.up.n.right == Self(Uncle(c))
    ensures c.up.InR? ==> c.up.n.left == Self(Uncle(c))
    ensures Uncle(c).Bin? ==> Uncle(c).n.red == Uncle(c).red && Uncle(c).n in CtxNodes(c)
    ensures Zip(c.up.up, Gparent(c, t), root) && Plug(c.up.up, Gparent(c, t)) == Plug(c, t)
    ensures c.n in CtxNodes(c) && c.up.n in CtxNodes(c)
  {
    ZipUp(c, t, root);
    ZipUp(c.up, Up(c, t), root);
    assert Linked(Uncle(c), c.up.n);
  }

  lemma {:induction false} FlipStep(c: Ctx, t: Tree, h: nat)
    requires IsRB(t, h) && CtxRB(c, h) && RedRed(c, t) && IsRed(Uncle(c))
    ensures IsRB(Flipped(c, t), h + 1) && CtxRB(c.up.up, h + 1)
    ensures Inorder(Plug(c.up.up, Flipped(c, t))) == Inorder(Plug(c, t))
  {
    FlipKeepsRB(c, t, h);
    InorderReplace(c.up.up, Flipped(c, t), Gparent(c, t));
  }

  lemma {:induction false} RotateDone(c: Ctx, t: Tree, h: nat, root: RbRoot)
    requires IsRB(t, h) && CtxRB(c, h) && RedRed(c, t) && !IsRed(Uncle(c))
    requires Zip(c.up.up, Rotated(c, t), root)
    ensures var t' := Plug(c.up.up, Rotated(c, t));
      Zip(Top, t', root) && Balanced(t') && Inorder(t') == Inorder(Plug(c, t))
  {
    RotateRestoresRB(c, t, h);
    RotateKeepsInorder(c, t);
    InorderReplace(c.up.up, Rotated(c, t), Gparent(c, t));
    ZipPlug(c.up.up, Rotated(c, t), root);
    PlugBalanced(c.up.up, Rotated(c, t), h + 1);
  }

  lemma {:induction false} BlackRoot(c: Ctx, t: Tree, h: nat)
    requires c.Top? && IsRB(t, h) && t.Bin? && t.red
    ensures Balanced(t.(red := false)) && Inorder(t.(red := false)) == Inorder(Plug(c, t))
  {
    assert IsRB(t.(red := false), h + 1);
  }

  /** `__rb_insert`: rebalances after a red leaf was linked in. */
  method InsertColor(node0: RbNode, root: RbRoot, ghost c0: Ctx, ghost t0: Tree, ghost h0: nat) returns (ghost t': Tree)
    requires Zip(c0, t0, root) && t0.Bin? && t0.n == node0 && t0.red
    requires IsRB(t0, h0) && CtxRB(c0, h0)
    modifies root, CtxNodes(c0), Nodes(t0)
    ensures Zip(Top, t', root) && Balanced(t')
    ensures Inorder(t') == Inorder(Plug(c0, t0))
  {
    hide Zip, Nodes, Linked, Sep, CtxNodes, CtxLinked, CtxSep, IsRB, CtxRB, Inorder, Plug;
    ghost var c, t, h := c0, t0, h0;
    ZipRootParent(c, t, root);
    var node, parent := node0, node0.parent;
    while true
      invariant Zip(c, t, root) && t.Bin? && t.n == node && t.red && IsRB(t, h) && CtxRB(c, h)
      invariant parent == CtxParent(c, null)
      invariant Inorder(Plug(c, t)) == Inorder(Plug(c0, t0))
      decreases c
    {
      SameNodes(c, t, c0, t0);
      ParentColor(c, t, root);
      NodesOf(t);
      if parent == null {
        Paint(node, null, false, root, c, t);
        BlackRoot(c, t, h);
        t' := t.(red := false);
        return;
      }
      if !parent.red {
        ZipPlug(c, t, root);
        PlugBalanced(c, t, h);
        t' := Plug(c, t);
        return;
      }
      var gparent := parent.parent;
      RedParent(c, t, h);
      Sides(c, t, root);
      var tmp := gparent.right;
      if parent != tmp {
        if tmp != null && tmp.red {
          FlipStep(c, t, h);
          FlipColors(parent, tmp, gparent, root, c.up.up, Gparent(c, t));
        } else {
          RotateCasesLeft(node, parent, gparent, root, c, t);
          RotateDone(c, t, h, root);
          t' := Plug(c.up.up, Rotated(c, t));
          return;
        }
      } else {
        tmp := gparent.left;
        if tmp != null && tmp.red {
          FlipStep(c, t, h);
          FlipColors(tmp, parent, gparent, root, c.up.up, Gparent(c, t));
        } else {
          RotateCasesRight(node, parent, gparent, root, c, t);
          RotateDone(c, t, h, root);
          t' := Plug(c.up.up, Rotated(c, t));
          return;
        }
      }
      c, t, h := c.up.up, Flipped(c, t), h + 1;
      ZipRootParent(c, t, root);
      node := gparent;
      parent := node.parent;
    }
  }
}
