/** Removal: the climbing fix-up for a lost black level. */
module RbErase {
  import opened RbShape
  import opened RbLinks

  function Sibling(c: Ctx): Tree
    requires !c.Top?
  {
    if c.InL? then c.r else c.l
  }

  /** The sibling's child on the side of the hole. */
  function Near(c: Ctx): Tree
    requires !c.Top? && Sibling(c).Bin?
  {
    if c.InL? then c.r.l else c.l.r
  }

  function Far(c: Ctx): Tree
    requires !c.Top? && Sibling(c).Bin?
  {
    if c.InL? then c.r.r else c.l.l
  }

  /** What replaces the parent after cases 3 and 4. */
  function Repaired(c: Ctx, t: Tree): Tree
    requires !c.Top? && Sibling(c).Bin? && (Near(c).Bin? || Far(c).Bin?) && (IsRed(Far(c)) || Near(c).Bin?)
  {
    var s, x, y := Sibling(c).n, Near(c), Far(c);
    if c.InL? then
      if IsRed(y) then Bin(Bin(t, c.n, false, x), s, c.red, y.(red := false))
      else Bin(Bin(t, c.n, false, x.l), x.n, c.red, Bin(x.r, s, false, y))
    else
      if IsRed(y) then Bin(y.(red := false), s, c.red, Bin(x, c.n, false, t))
      else Bin(Bin(y, s, false, x.l), x.n, c.red, Bin(x.r, c.n, false, t))
  }

  lemma {:induction false} Repainted(t: Tree)
    requires t.Bin? && Sep(t)
    ensures Sep(t.(red := false)) && Nodes(t.(red := false)) == Nodes(t)
  {
  }

  lemma {:induction false} Joined(l: Tree, n: RbNode, r: Tree)
    requires Sep(l) && Sep(r) && Nodes(l) !! Nodes(r) !! {n}
    requires n.left == Self(l) && n.right == Self(r) && Linked(l, n) && Linked(r, n)
    ensures Sep(Bin(l, n, false, r)) && LinkedBelow(Bin(l, n, false, r))
  {
  }

  lemma {:induction false} CtxFootprint(c: Ctx)
    requires !c.Top?
    ensures CtxNodes(c) == {c.n} + Nodes(Sibling(c)) + CtxNodes(c.up)
    ensures CtxParent(c.up, null) != null ==> CtxParent(c.up, null) in CtxNodes(c)
    ensures Sibling(c).Bin? ==> Nodes(Sibling(c)) == Nodes(Near(c)) + {Sibling(c).n} + Nodes(Far(c))
  {
  }

  /** `rb_set_parent_color(n, parent, RB_BLACK)` for a subtree linked below its root. */
  method PaintBelow(n: RbNode, parent: RbNode, ghost t: Tree)
    requires Sep(t) && t.Bin? && t.n == n && LinkedBelow(t)
    modifies n`parent, n`red
    ensures Linked(t.(red := false), parent)
  {
    AllocTree(t);
    n.parent, n.red := parent, false;
  }

  /** `rb_set_parent(n, parent)`. */
  method Adopt(n: RbNode, parent: RbNode, ghost t: Tree)
    requires Sep(t) && t.Bin? && t.n == n && LinkedBelow(t) && n.red == t.red
    modifies n`parent
    ensures Linked(t, parent)
  {
    AllocTree(t);
    n.parent := parent;
  }

  /** Case 4 with the short side on the left: `sibling` is lifted above `parent` and takes its colour. */
  method LiftSiblingLeft(parent: RbNode, sibling: RbNode, tmp1: RbNode, root: RbRoot,
                        ghost t: Tree, ghost x: Tree, ghost y: Tree, ghost up: Ctx)
    requires Sep(t) && Sep(x) && Sep(y) && CtxSep(up) && y.Bin?
    requires Nodes(t) !! Nodes(x) !! Nodes(y) !! {parent} !! {sibling} !! CtxNodes(up)
    requires parent.left == Self(t) && Linked(t, parent)
    requires sibling.left == Self(x) && Linked(x, sibling)
    requires sibling.right == tmp1 && tmp1 == y.n && LinkedBelow(y)
    requires parent.parent == CtxParent(up, null) && CtxLinked(up, parent, null, root.node)
    modifies root, parent.parent, parent, sibling, tmp1, sibling.left
    ensures Zip(up, Bin(Bin(t, parent, false, x), sibling, old(parent.red), y.(red := false)), root)
  {
    hide Nodes, Linked, Sep, CtxNodes, CtxLinked, CtxSep, LinkedBelow;
    AllocTree(t); AllocTree(x); AllocTree(y); AllocCtx(up);
    NodesOf(y); HoleParent(up); RootOf(x, sibling);
    ghost var y' := y.(red := false);
    Repainted(y);
    var tmp2 := sibling.left;
    parent.right := tmp2;
    sibling.left := parent;
    PaintBelow(tmp1, sibling, y);
    if tmp2 != null {
      Adopt(tmp2, parent, x);
    }
    RotateSetParents(parent, sibling, root, false, up);
    ZipLeft(up, Bin(Bin(t, parent, parent.red, x), sibling, sibling.red, y'), root);
  }

  /** Case 3 with the short side on the left: the red near child is lifted above `sibling`. */
  method LiftNearLeft(parent: RbNode, sibling: RbNode, tmp2: RbNode, ghost a: Tree, ghost b: Tree, ghost y: Tree)
    requires Sep(a) && Sep(b) && Sep(y) && Nodes(a) !! Nodes(b) !! Nodes(y) !! {parent} !! {sibling} !! {tmp2}
    requires tmp2.left == Self(a) && Linked(a, tmp2)
    requires tmp2.right == Self(b) && Linked(b, tmp2) && !IsRed(b)
    requires sibling.right == Self(y) && Linked(y, sibling)
    modifies parent`right, sibling`left, tmp2`right, tmp2.right
    ensures LinkedBelow(Bin(b, sibling, false, y)) && Sep(Bin(b, sibling, false, y))
    ensures parent.right == tmp2 && tmp2.right == sibling && Linked(a, tmp2)
  {
    hide Linked, Sep, Nodes, LinkedBelow;
    AllocTree(a); AllocTree(b); AllocTree(y); RootOf(b, tmp2);
    var tmp1 := tmp2.right;
    sibling.left := tmp1;
    tmp2.right := sibling;
    parent.right := tmp2;
    AdoptBlack(tmp1, sibling, b);
    Joined(b, sibling, y);
  }

  /** Case 3 followed by case 4. */
  method LiftBothLeft(parent: RbNode, sibling: RbNode, tmp2: RbNode, root: RbRoot,
                     ghost t: Tree, ghost a: Tree, ghost b: Tree, ghost y: Tree, ghost up: Ctx)
    requires Sep(t) && Sep(a) && Sep(b) && Sep(y) && CtxSep(up)
    requires Nodes(y) !! Nodes(a) !! Nodes(b) !! Nodes(t) !! {sibling} !! {tmp2} !! {parent} !! CtxNodes(up)
    requires parent.left == Self(t) && Linked(t, parent)
    requires tmp2.left == Self(a) && Linked(a, tmp2)
    requires tmp2.right == Self(b) && Linked(b, tmp2) && !IsRed(b)
    requires sibling.right == Self(y) && Linked(y, sibling)
    requires parent.parent == CtxParent(up, null) && CtxLinked(up, parent, null, root.node)
    modifies root, parent.parent, parent, sibling, tmp2, tmp2.left, tmp2.right
    ensures Zip(up, Bin(Bin(t, parent, false, a), tmp2, old(parent.red), Bin(b, sibling, false, y)), root)
  {
    hide Zip, Nodes, Linked, Sep, CtxNodes, CtxLinked, CtxSep, LinkedBelow;
    RootOf(a, tmp2); RootOf(b, tmp2); HoleParent(up);
    AllocTree(t); AllocTree(a); AllocCtx(up);
    ghost var y' := Bin(b, sibling, false, y);
    LiftNearLeft(parent, sibling, tmp2, a, b, y);
    NodesOf(y');
    LiftSiblingLeft(parent, tmp2, sibling, root, t, a, y', up);
  }

  /** Cases 3 and 4 with the short side on the left. */
  method RepairCasesLeft(parent: RbNode, sibling: RbNode, root: RbRoot, ghost c: Ctx, ghost t: Tree)
    requires Zip(c, t, root) && c.InL? && c.n == parent
    requires Sibling(c).Bin? && Sibling(c).n == sibling && (IsRed(Near(c)) || IsRed(Far(c)))
    requires IsRed(Near(c)) ==> !IsRed(Near(c).r)
    modifies root, CtxNodes(c), Nodes(t)
    ensures Zip(c.up, Repaired(c, t), root)
  {
    hide Zip, Nodes, Linked, Sep, CtxNodes, CtxLinked, CtxSep, LinkedBelow;
    ghost var x, y := Near(c), Far(c);
    ZipUp(c, t, root);
    CtxFootprint(c);
    UnzipRight(c.up, Up(c, t), root);
    RootOf(y, sibling); RootOf(x, sibling);
    var tmp1 := sibling.right;
    if tmp1 == null || !tmp1.red {
      var tmp2 := sibling.left;
      UnzipRightLeft(c.up, Up(c, t), root);
      RootOf(x.l, tmp2); RootOf(x.r, tmp2); NodesOf(x);
      LiftBothLeft(parent, sibling, tmp2, root, t, x.l, x.r, y, c.up);
    } else {
      LiftSiblingLeft(parent, sibling, tmp1, root, t, x, y, c.up);
    }
  }

  /** Case 4 with the short side on the right: `sibling` is lifted above `parent` and takes its colour. */
  method LiftSiblingRight(parent: RbNode, sibling: RbNode, tmp1: RbNode, root: RbRoot,
                        ghost t: Tree, ghost x: Tree, ghost y: Tree, ghost up: Ctx)
    requires Sep(t) && Sep(x) && Sep(y) && CtxSep(up) && y.Bin?
    requires Nodes(t) !! Nodes(x) !! Nodes(y) !! {parent} !! {sibling} !! CtxNodes(up)
    requires parent.right == Self(t) && Linked(t, parent)
    requires sibling.right == Self(x) && Linked(x, sibling)
    requires sibling.left == tmp1 && tmp1 == y.n && LinkedBelow(y)
    requires parent.parent == CtxParent(up, null) && CtxLinked(up, parent, null, root.node)
    modifies root, parent.parent, parent, sibling, tmp1, sibling.right
    ensures Zip(up, Bin(y.(red := false), sibling, old(parent.red), Bin(x, parent, false, t)), root)
  {
    hide Nodes, Linked, Sep, CtxNodes, CtxLinked, CtxSep, LinkedBelow;
    AllocTree(t); AllocTree(x); AllocTree(y); AllocCtx(up);
    NodesOf(y); HoleParent(up); RootOf(x, sibling);
    ghost var y' := y.(red := false);
    Repainted(y);
    var tmp2 := sibling.right;
    parent.left := tmp2;
    sibling.right := parent;
    PaintBelow(tmp1, sibling, y);
    if tmp2 != null {
      Adopt(tmp2, parent, x);
    }
    RotateSetParents(parent, sibling, root, false, up);
    ZipRight(up, Bin(y', sibling, sibling.red, Bin(x, parent, parent.red, t)), root);
  }

  /** Case 3 with the short side on the right: the red near child is lifted above `sibling`. */
  method LiftNearRight(parent: RbNode, sibling: RbNode, tmp2: RbNode, ghost a: Tree, ghost b: Tree, ghost y: Tree)
    requires Sep(a) && Sep(b) && Sep(y) && Nodes(a) !! Nodes(b) !! Nodes(y) !! {parent} !! {sibling} !! {tmp2}
    requires tmp2.right == Self(a) && Linked(a, tmp2)
    requires tmp2.left == Self(b) && Linked(b, tmp2) && !IsRed(b)
    requires sibling.left == Self(y) && Linked(y, sibling)
    modifies parent`left, sibling`right, tmp2`left, tmp2.left
    ensures LinkedBelow(Bin(y, sibling, false, b)) && Sep(Bin(y, sibling, false, b))
    ensures parent.left == tmp2 && tmp2.left == sibling && Linked(a, tmp2)
  {
    hide Linked, Sep, Nodes, LinkedBelow;
    AllocTree(a); AllocTree(b); AllocTree(y); RootOf(b, tmp2);
    var tmp1 := tmp2.left;
    sibling.right := tmp1;
    tmp2.left := sibling;
    parent.left := tmp2;
    AdoptBlack(tmp1, sibling, b);
    Joined(y, sibling, b);
  }

  /** Case 3 followed by case 4. */
  method LiftBothRight(parent: RbNode, sibling: RbNode, tmp2: RbNode, root: RbRoot,
                     ghost t: Tree, ghost a: Tree, ghost b: Tree, ghost y: Tree, ghost up: Ctx)
    requires Sep(t) && Sep(a) && Sep(b) && Sep(y) && CtxSep(up)
    requires Nodes(y) !! Nodes(b) !! Nodes(a) !! Nodes(t) !! {sibling} !! {tmp2} !! {parent} !! CtxNodes(up)
    requires parent.right == Self(t) && Linked(t, parent)
    requires tmp2.right == Self(a) && Linked(a, tmp2)
    requires tmp2.left == Self(b) && Linked(b, tmp2) && !IsRed(b)
    requires sibling.left == Self(y) && Linked(y, sibling)
    requires parent.parent == CtxParent(up, null) && CtxLinked(up, parent, null, root.node)
    modifies root, parent.parent, parent, sibling, tmp2, tmp2.right, tmp2.left
    ensures Zip(up, Bin(Bin(y, sibling, false, b), tmp2, old(parent.red), Bin(a, parent, false, t)), root)
  {
    hide Zip, Nodes, Linked, Sep, CtxNodes, CtxLinked, CtxSep, LinkedBelow;
    RootOf(a, tmp2); RootOf(b, tmp2); HoleParent(up);
    AllocTree(t); AllocTree(a); AllocCtx(up);
    ghost var y' := Bin(y, sibling, false, b);
    LiftNearRight(parent, sibling, tmp2, a, b, y);
    NodesOf(y');
    LiftSiblingRight(parent, tmp2, sibling, root, t, a, y', up);
  }

  /** Cases 3 and 4 with the short side on the right. */
  method RepairCasesRight(parent: RbNode, sibling: RbNode, root: RbRoot, ghost c: Ctx, ghost t: Tree)
    requires Zip(c, t, root) && c.InR? && c.n == parent
    requires Sibling(c).Bin? && Sibling(c).n == sibling && (IsRed(Near(c)) || IsRed(Far(c)))
    requires IsRed(Near(c)) ==> !IsRed(Near(c).l)
    modifies root, CtxNodes(c), Nodes(t)
    ensures Zip(c.up, Repaired(c, t), root)
  {
    hide Zip, Nodes, Linked, Sep, CtxNodes, CtxLinked, CtxSep, LinkedBelow;
    ghost var x, y := Near(c), Far(c);
    ZipUp(c, t, root);
    CtxFootprint(c);
    UnzipLeft(c.up, Up(c, t), root);
    RootOf(y, sibling); RootOf(x, sibling);
    var tmp1 := sibling.left;
    if tmp1 == null || !tmp1.red {
      var tmp2 := sibling.right;
      UnzipLeftRight(c.up, Up(c, t), root);
      RootOf(x.l, tmp2); RootOf(x.r, tmp2); NodesOf(x);
      LiftBothRight(parent, sibling, tmp2, root, t, x.r, x.l, y, c.up);
    } else {
      LiftSiblingRight(parent, sibling, tmp1, root, t, x, y, c.up);
    }
  }

  // ----- case 1

  /** The context after a red sibling was lifted above the parent. */
  function Lifted(c: Ctx): Ctx
    requires !c.Top? && Sibling(c).Bin?
  {
    if c.InL? then InL(c.n, true, Near(c), InL(c.r.n, false, Far(c), c.up))
    else InR(Near(c), c.n, true, InR(Far(c), c.l.n, false, c.up))
  }

  /** The sibling of a short subtree exists, and what its colour implies. */
  lemma {:induction false} SiblingExists(c: Ctx, h: nat)
    requires !c.Top? && CtxRB(c, h + 1)
    ensures Sibling(c).Bin?
    ensures IsRed(Sibling(c)) ==> !c.red && Near(c).Bin? && Far(c).Bin? && !Near(c).red && !Far(c).red
  {
    if IsRed(Sibling(c)) {
      assert IsRB(Near(c), h + 1) && IsRB(Far(c), h + 1);
    }
  }

  lemma {:induction false} LiftedRB(c: Ctx, t: Tree, h: nat)
    requires !c.Top? && CtxRB(c, h + 1) && IsRed(Sibling(c))
    ensures CtxRB(Lifted(c), h + 1) && !IsRed(Sibling(Lifted(c)))
    ensures Inorder(Plug(Lifted(c), t)) == Inorder(Plug(c, t))
  {
    var s := Sibling(c).n;
    if c.InL? {
      var l := Bin(Bin(t, c.n, true, Near(c)), s, false, Far(c));
      InorderRotate(t, c.n, c.red, Near(c), s, true, Far(c), true, false);
      InorderReplace(c.up, l, Up(c, t));
      assert Plug(Lifted(c), t) == Plug(c.up, l);
    } else {
      var l := Bin(Far(c), s, false, Bin(Near(c), c.n, true, t));
      InorderRotate(Far(c), s, false, Near(c), c.n, true, t, true, c.red);
      InorderReplace(c.up, l, Up(c, t));
      assert Plug(Lifted(c), t) == Plug(c.up, l);
    }
  }

  /** Case 1 with the short side on the left: a red sibling is lifted, leaving a black one. */
  method LiftRedSiblingLeft(parent: RbNode, sibling: RbNode, root: RbRoot, ghost c: Ctx,
                            ghost t: Tree) returns (tmp1: RbNode)
    requires Zip(c, t, root) && c.InL? && c.n == parent && !c.red
    requires IsRed(Sibling(c)) && Sibling(c).n == sibling && Near(c).Bin? && !Near(c).red
    modifies root, CtxNodes(c), Nodes(t)
    ensures Zip(Lifted(c), t, root) && tmp1 == Near(c).n
  {
    hide Zip, Nodes, Linked, Sep, CtxNodes, CtxLinked, CtxSep, LinkedBelow;
    ZipUp(c, t, root);
    CtxFootprint(c);
    UnzipRight(c.up, Up(c, t), root);
    RootOf(Near(c), sibling);
    tmp1 := sibling.left;
    RotateLeft(sibling, parent, tmp1, root, t, Near(c), Far(c), c.up);
    ghost var inner := Bin(t, parent, true, Near(c));
    ZipDown(c.up, Bin(inner, sibling, false, Far(c)), root);
    ZipDown(InL(sibling, false, Far(c), c.up), inner, root);
  }

  /** Case 1 with the short side on the right: a red sibling is lifted, leaving a black one. */
  method LiftRedSiblingRight(parent: RbNode, sibling: RbNode, root: RbRoot, ghost c: Ctx,
                             ghost t: Tree) returns (tmp1: RbNode)
    requires Zip(c, t, root) && c.InR? && c.n == parent && !c.red
    requires IsRed(Sibling(c)) && Sibling(c).n == sibling && Near(c).Bin? && !Near(c).red
    modifies root, CtxNodes(c), Nodes(t)
    ensures Zip(Lifted(c), t, root) && tmp1 == Near(c).n
  {
    hide Zip, Nodes, Linked, Sep, CtxNodes, CtxLinked, CtxSep, LinkedBelow;
    ZipUp(c, t, root);
    CtxFootprint(c);
    UnzipLeft(c.up, Up(c, t), root);
    RootOf(Near(c), sibling);
    tmp1 := sibling.right;
    RotateRight(sibling, parent, tmp1, root, Far(c), Near(c), t, c.up);
    ghost var inner := Bin(Near(c), parent, true, t);
    ZipDown(c.up, Bin(Far(c), sibling, false, inner), root);
    ZipDown(InR(Far(c), sibling, false, c.up), inner, root);
  }

  // ----- case 2

  /** The context with its sibling turned red. */
  function Faded(c: Ctx): (f: Ctx)
    requires !c.Top? && Sibling(c).Bin?
    ensures !f.Top? && f.n == c.n && f.red == c.red && f.up == c.up
  {
    if c.InL? then c.(r := c.r.(red := true)) else c.(l := c.l.(red := true))
  }

  method FadeSibling(sibling: RbNode, parent: RbNode, root: RbRoot, ghost c: Ctx, ghost t: Tree)
    requires Zip(c, t, root) && !c.Top? && c.n == parent && Sibling(c).Bin? && Sibling(c).n == sibling
    modifies sibling
    ensures Zip(Faded(c), t, root)
  {
    hide Zip, Nodes, Linked, Sep, CtxNodes, CtxLinked, CtxSep, LinkedBelow;
    ZipUp(c, t, root);
    ghost var u := Up(c, t);
    ZipDown(c.up, u, root);
    ghost var c' := if c.InL? then InR(t, c.n, c.red, c.up) else InL(c.n, c.red, t, c.up);
    Paint(sibling, parent, true, root, c', Sibling(c));
    ZipUp(c', Sibling(c).(red := true), root);
    ZipDown(c.up, Up(c', Sibling(c).(red := true)), root);
  }

  function Blackened(c: Ctx, t: Tree): Tree
    requires !c.Top?
  {
    var u := Up(c, t);
    Bin(u.l, u.n, false, u.r)
  }

  /** After case 2 the parent's whole subtree is one black short, or made good by a red parent. */
  lemma {:induction false} FadedRB(c: Ctx, t: Tree, h: nat)
    requires !c.Top? && CtxRB(c, h + 1) && IsRB(t, h) && !IsRed(t)
    requires Sibling(c).Bin? && !IsRed(Sibling(c)) && !IsRed(Near(c)) && !IsRed(Far(c))
    ensures IsRB(Blackened(Faded(c), t), h + 1)
    ensures CtxRB(c.up, if c.red then h + 1 else h + 2)
    ensures Inorder(Blackened(Faded(c), t)) == Inorder(Up(c, t))
    ensures Inorder(Up(Faded(c), t)) == Inorder(Up(c, t))
  {
    var s := Sibling(c).(red := true);
    assert IsRB(s, h);
    assert Inorder(s) == Inorder(Sibling(c));
  }

  // ----- cases 3 and 4

  lemma {:induction false} RepairedRB(c: Ctx, t: Tree, h: nat)
    requires !c.Top? && CtxRB(c, h + 1) && IsRB(t, h) && !IsRed(t)
    requires Sibling(c).Bin? && !IsRed(Sibling(c)) && (IsRed(Near(c)) || IsRed(Far(c)))
    ensures IsRB(Repaired(c, t), if c.red then h + 1 else h + 2)
    ensures CtxRB(c.up, if c.red then h + 1 else h + 2)
  {
    assert IsRB(Near(c), h) && IsRB(Far(c), h);
  }

  lemma {:induction false} RepairedInorder(c: Ctx, t: Tree)
    requires !c.Top? && Sibling(c).Bin? && (IsRed(Near(c)) || IsRed(Far(c)))
    ensures Inorder(Repaired(c, t)) == Inorder(Up(c, t))
  {
    var s, x, y := Sibling(c).n, Near(c), Far(c);
    var k := Sibling(c).red;
    if c.InL? {
      if IsRed(y) {
        InorderRotate(t, c.n, c.red, x, s, k, y, false, c.red);
        assert Inorder(y.(red := false)) == Inorder(y);
      } else {
        var q := Bin(x.r, s, false, y);
        InorderRotate(x.l, x.n, true, x.r, s, false, y, x.red, k);
        InorderRotate(t, c.n, c.red, x.l, x.n, true, q, false, c.red);
        assert Inorder(Sibling(c)) == Inorder(Bin(x.l, x.n, true, q));
      }
    } else {
      if IsRed(y) {
        InorderRotate(y, s, c.red, x, c.n, false, t, k, c.red);
        assert Inorder(y.(red := false)) == Inorder(y);
      } else {
        var q := Bin(y, s, false, x.l);
        InorderRotate(y, s, k, x.l, x.n, x.red, x.r, false, true);
        InorderRotate(q, x.n, c.red, x.r, c.n, false, t, true, c.red);
        assert Inorder(Sibling(c)) == Inorder(Bin(q, x.n, true, x.r));
      }
    }
  }

  /** What the pointers around a short subtree show. */
  lemma {:induction false} SiblingSide(c: Ctx, t: Tree, root: RbRoot)
    requires Zip(c, t, root) && !c.Top? && Sibling(c).Bin?
    ensures c.n.right == Self(t) <==> c.InR?
    ensures c.InL? ==> c.n.right == Sibling(c).n
    ensures c.InR? ==> c.n.left == Sibling(c).n
    ensures c.n.red == c.red && c.n.parent == CtxParent(c.up, null)
    ensures c.n in CtxNodes(c) && Sibling(c).n in CtxNodes(c)
    ensures Sibling(c).n.red == Sibling(c).red
    ensures Sibling(c).n.left == Self(Sibling(c).l) && Sibling(c).n.right == Self(Sibling(c).r)
    ensures Near(c).Bin? ==> Near(c).n.red == Near(c).red
    ensures Far(c).Bin? ==> Far(c).n.red == Far(c).red
  {
    assert Linked(Sibling(c), c.n);
    assert Linked(Near(c), Sibling(c).n) && Linked(Far(c), Sibling(c).n);
  }

  lemma {:induction false} NearChildren(c: Ctx, h: nat)
    requires !c.Top? && CtxRB(c, h + 1) && Sibling(c).Bin?
    ensures IsRed(Near(c)) ==> !IsRed(Near(c).l) && !IsRed(Near(c).r)
  {
    if IsRed(Near(c)) {
      assert !IsRed(Sibling(c)) && IsRB(Near(c), h);
    }
  }

  /** Case 2 closes the fix-up below a red parent. */
  lemma {:induction false} FadeDone(c: Ctx, t: Tree, h: nat, root: RbRoot)
    requires !c.Top? && c.red && CtxRB(c, h + 1) && IsRB(t, h) && !IsRed(t)
    requires Sibling(c).Bin? && !IsRed(Sibling(c)) && !IsRed(Near(c)) && !IsRed(Far(c))
    requires Zip(c.up, Blackened(Faded(c), t), root)
    ensures var t' := Plug(c.up, Blackened(Faded(c), t));
      Zip(Top, t', root) && Balanced(t') && Inorder(t') == Inorder(Plug(c, t))
  {
    var u := Blackened(Faded(c), t);
    FadedRB(c, t, h);
    InorderReplace(c.up, u, Up(c, t));
    ZipPlug(c.up, u, root);
    PlugBalanced(c.up, u, h + 1);
  }

  /** Cases 3 and 4 close the fix-up. */
  lemma {:induction false} RepairDone(c: Ctx, t: Tree, h: nat, root: RbRoot)
    requires !c.Top? && CtxRB(c, h + 1) && IsRB(t, h) && !IsRed(t)
    requires Sibling(c).Bin? && !IsRed(Sibling(c)) && (IsRed(Near(c)) || IsRed(Far(c)))
    requires Zip(c.up, Repaired(c, t), root)
    ensures var t' := Plug(c.up, Repaired(c, t));
      Zip(Top, t', root) && Balanced(t') && Inorder(t') == Inorder(Plug(c, t))
  {
    var u := Repaired(c, t);
    RepairedRB(c, t, h);
    RepairedInorder(c, t);
    InorderReplace(c.up, u, Up(c, t));
    ZipPlug(c.up, u, root);
    PlugBalanced(c.up, u, if c.red then h + 1 else h + 2);
  }

  /** `____rb_erase_color`: every path through `t0`, below `parent0`, is one black short. */
  method EraseColor(parent0: RbNode, root: RbRoot, ghost c0: Ctx, ghost t0: Tree,
                    ghost h0: nat) returns (ghost t': Tree)
    requires Zip(c0, t0, root) && t0.Nil? && !c0.Top? && c0.n == parent0
    requires IsRB(t0, h0) && CtxRB(c0, h0 + 1)
    modifies root, CtxNodes(c0), Nodes(t0)
    ensures Zip(Top, t', root) && Balanced(t')
    ensures Inorder(t') == Inorder(Plug(c0, t0))
  {
    hide Zip, Nodes, Linked, Sep, CtxNodes, CtxLinked, CtxSep, LinkedBelow, IsRB, CtxRB, Inorder, Plug, Balanced;
    ghost var c, t, h := c0, t0, h0;
    var node: RbNode?, parent := null, parent0;
    while true
      invariant Zip(c, t, root) && node == Self(t) && !c.Top? && parent == c.n
      invariant IsRB(t, h) && !IsRed(t) && CtxRB(c, h + 1)
      invariant Inorder(Plug(c, t)) == Inorder(Plug(c0, t0))
      decreases c
    {
      SameNodes(c, t, c0, t0);
      SiblingExists(c, h);
      SiblingSide(c, t, root);
      var sibling := parent.right;
      if node != sibling {
        if sibling.red {
          LiftedRB(c, t, h);
          sibling := LiftRedSiblingLeft(parent, sibling, root, c, t);
          c := Lifted(c);
          SameNodes(c, t, c0, t0);
          SiblingSide(c, t, root);
        }
        var tmp1, tmp2 := sibling.right, sibling.left;
        if (tmp1 != null && tmp1.red) || (tmp2 != null && tmp2.red) {
          NearChildren(c, h);
          RepairCasesLeft(parent, sibling, root, c, t);
          RepairDone(c, t, h, root);
          t' := Plug(c.up, Repaired(c, t));
          return;
        }
      } else {
        sibling := parent.left;
        if sibling.red {
          LiftedRB(c, t, h);
          sibling := LiftRedSiblingRight(parent, sibling, root, c, t);
          c := Lifted(c);
          SameNodes(c, t, c0, t0);
          SiblingSide(c, t, root);
        }
        var tmp1, tmp2 := sibling.left, sibling.right;
        if (tmp1 != null && tmp1.red) || (tmp2 != null && tmp2.red) {
          NearChildren(c, h);
          RepairCasesRight(parent, sibling, root, c, t);
          RepairDone(c, t, h, root);
          t' := Plug(c.up, Repaired(c, t));
          return;
        }
      }
      FadeSibling(sibling, parent, root, c, t);
      ZipUp(Faded(c), t, root);
      FadedRB(c, t, h);
      ghost var u := Up(Faded(c), t);
      ZipRootParent(c.up, u, root);
      if parent.red {
        Paint(parent, parent.parent, false, root, c.up, u);
        FadeDone(c, t, h, root);
        t' := Plug(c.up, Blackened(Faded(c), t));
        return;
      }
      InorderReplace(c.up, u, Up(c, t));
      PlugUp(c, t);
      node := parent;
      parent := node.parent;
      t, h := u, h + 1;
      ParentColor(c.up, t, root);
      if parent == null {
        ZipPlug(c.up, t, root);
        PlugBalanced(c.up, t, h);
        t' := Plug(c.up, t);
        return;
      }
      c := c.up;
    }
  }
}
