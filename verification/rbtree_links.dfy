/** Stores shared by insertion and removal, each proved against the shape it leaves. */
module RbLinks {
  import opened RbShape

  /** `__rb_change_child`: the slot that held `old` now holds `new`. */
  method ChangeChild(old_: RbNode, new_: RbNode?, parent: RbNode?, root: RbRoot, ghost c: Ctx)
    requires CtxSep(c) && old_ !in CtxNodes(c)
    requires CtxLinked(c, old_, null, root.node) && parent == CtxParent(c, null)
    modifies root, parent
    ensures CtxLinked(c, new_, null, root.node)
  {
    if parent != null {
      if parent.left == old_ {
        parent.left := new_;
      } else {
        parent.right := new_;
      }
    } else {
      root.node := new_;
    }
  }

  /** `__rb_rotate_set_parents`: `new_` takes the place and colour of `old_`, which goes below it. */
  method RotateSetParents(old_: RbNode, new_: RbNode, root: RbRoot, red: bool, ghost c: Ctx)
    requires CtxSep(c) && old_ !in CtxNodes(c) && new_ !in CtxNodes(c) && old_ != new_
    requires CtxLinked(c, old_, null, root.node) && old_.parent == CtxParent(c, null)
    modifies root, old_.parent, old_`parent, old_`red, new_`parent, new_`red
    ensures CtxLinked(c, new_, null, root.node)
    ensures new_.parent == CtxParent(c, null) && new_.red == old(old_.red)
    ensures old_.parent == new_ && old_.red == red
  {
    var parent := old_.parent;
    new_.parent, new_.red := old_.parent, old_.red;
    old_.parent, old_.red := new_, red;
    ChangeChild(old_, new_, parent, root, c);
  }

  /** `if (tmp) rb_set_parent_color(tmp, parent, RB_BLACK)` for the root of a black subtree. */
  method AdoptBlack(tmp: RbNode?, parent: RbNode, ghost t: Tree)
    requires Sep(t) && tmp == Self(t) && LinkedBelow(t) && !IsRed(t)
    modifies tmp
    ensures Linked(t, parent)
  {
    AllocTree(t);
    if tmp != null {
      tmp.parent, tmp.red := parent, false;
    }
  }

  /** `rb_set_parent_color` with an unchanged parent: recolours the root of a subtree. */
  method Paint(n: RbNode, parent: RbNode?, red: bool, root: RbRoot, ghost c: Ctx, ghost t: Tree)
    requires Zip(c, t, root) && t.Bin? && t.n == n && parent == CtxParent(c, null)
    modifies n
    ensures Zip(c, t.(red := red), root)
  {
    AllocTree(t); AllocCtx(c);
    n.parent, n.red := parent, red;
  }

  /**
   * Right rotation that lifts `parent` above `gparent`: the last step of an insertion, and the
   * first of a removal whose sibling is red. `x` and `y` are the subtrees of `parent`.
   */
  method RotateRight(parent: RbNode, gparent: RbNode, tmp: RbNode?, root: RbRoot,
                              ghost x: Tree, ghost y: Tree, ghost u: Tree, ghost up: Ctx)
    requires Sep(x) && Sep(y) && Sep(u) && CtxSep(up)
    requires Nodes(x) !! Nodes(y) !! Nodes(u) !! {parent} !! {gparent} !! CtxNodes(up)
    requires parent.left == Self(x) && Linked(x, parent)
    requires tmp == Self(y) && Linked(y, parent) && !IsRed(y)
    requires gparent.right == Self(u) && Linked(u, gparent)
    requires !gparent.red && gparent.parent == CtxParent(up, null) && CtxLinked(up, gparent, null, root.node)
    modifies root, gparent.parent, parent, gparent, tmp
    ensures Zip(up, Bin(x, parent, false, Bin(y, gparent, true, u)), root)
  {
    hide *;
    AllocTree(x); AllocTree(y); AllocTree(u); AllocCtx(up);
    RootOf(y, parent); HoleParent(up);
    gparent.left := tmp;
    parent.right := gparent;
    AdoptBlack(tmp, gparent, y);
    RotateSetParents(gparent, parent, root, true, up);
    ZipRight(up, Bin(x, parent, parent.red, Bin(y, gparent, gparent.red, u)), root);
  }

  /** The mirror image of RotateRight. */
  method RotateLeft(parent: RbNode, gparent: RbNode, tmp: RbNode?, root: RbRoot,
                             ghost u: Tree, ghost y: Tree, ghost x: Tree, ghost up: Ctx)
    requires Sep(u) && Sep(y) && Sep(x) && CtxSep(up)
    requires Nodes(u) !! Nodes(y) !! Nodes(x) !! {parent} !! {gparent} !! CtxNodes(up)
    requires parent.right == Self(x) && Linked(x, parent)
    requires tmp == Self(y) && Linked(y, parent) && !IsRed(y)
    requires gparent.left == Self(u) && Linked(u, gparent)
    requires !gparent.red && gparent.parent == CtxParent(up, null) && CtxLinked(up, gparent, null, root.node)
    modifies root, gparent.parent, parent, gparent, tmp
    ensures Zip(up, Bin(Bin(u, gparent, true, y), parent, false, x), root)
  {
    hide *;
    AllocTree(x); AllocTree(y); AllocTree(u); AllocCtx(up);
    RootOf(y, parent); HoleParent(up);
    gparent.right := tmp;
    parent.left := gparent;
    AdoptBlack(tmp, gparent, y);
    RotateSetParents(gparent, parent, root, true, up);
    ZipLeft(up, Bin(Bin(u, gparent, gparent.red, y), parent, parent.red, x), root);
  }
}
