/** Traversals: the pointer walks visit the nodes in the order of the ghost tree. */
module RbWalk {
  import opened RbShape

  function Head(s: seq<RbNode>): RbNode? {
    if s == [] then null else s[0]
  }

  function Last(s: seq<RbNode>): RbNode? {
    if s == [] then null else s[|s| - 1]
  }

  /** `RB_EMPTY_NODE`: the parent word holds the node's own address. */
  predicate Cleared(n: RbNode)
    reads n
  {
    n.parent == n && n.red
  }

  lemma {:induction false} NotCleared(c: Ctx, t: Tree, root: RbRoot)
    requires Zip(c, t, root) && t.Bin?
    ensures !Cleared(t.n)
  {
    HoleParent(c);
  }

  lemma {:induction false} LeftStep(t: Tree, rest: seq<RbNode>)
    requires t.Bin?
    ensures Head(Inorder(t) + rest) == if t.l.Bin? then Head(Inorder(t.l)) else t.n
    ensures Inorder(t) != []
  {
    if t.l.Bin? {
      LeftStep(t.l, []);
    }
  }

  lemma {:induction false} RightStep(t: Tree, rest: seq<RbNode>)
    requires t.Bin?
    ensures Last(rest + Inorder(t)) == if t.r.Bin? then Last(Inorder(t.r)) else t.n
    ensures Inorder(t) != []
  {
    if t.r.Bin? {
      RightStep(t.r, []);
    }
  }

  /** Goes left as far as it can: the first node of a subtree. */
  method Leftmost(n0: RbNode, ghost t: Tree, ghost par: RbNode?) returns (n: RbNode)
    requires Linked(t, par) && t.Bin? && t.n == n0
    ensures n == Head(Inorder(t))
  {
    n := n0;
    ghost var u, p := t, par;
    LeftStep(u, []);
    while n.left != null
      invariant Linked(u, p) && u.Bin? && u.n == n && Head(Inorder(u)) == Head(Inorder(t))
      decreases u
    {
      LeftStep(u, []);
      p, u := u.n, u.l;
      n := n.left;
    }
    LeftStep(u, []);
  }

  method Rightmost(n0: RbNode, ghost t: Tree, ghost par: RbNode?) returns (n: RbNode)
    requires Linked(t, par) && t.Bin? && t.n == n0
    ensures n == Last(Inorder(t))
  {
    n := n0;
    ghost var u, p := t, par;
    RightStep(u, []);
    while n.right != null
      invariant Linked(u, p) && u.Bin? && u.n == n && Last(Inorder(u)) == Last(Inorder(t))
      decreases u
    {
      RightStep(u, []);
      p, u := u.n, u.r;
      n := n.right;
    }
    RightStep(u, []);
  }

  /** `rb_next`: the node after `node0` in sort order, or null. */
  method Next(node0: RbNode, ghost c: Ctx, ghost t: Tree, root: RbRoot) returns (r: RbNode?)
    requires !Cleared(node0) ==> Zip(c, t, root) && t.Bin? && t.n == node0
    ensures r == if Cleared(node0) then null else Head(Inorder(t.r) + After(c))
  {
    if Cleared(node0) {
      return null;
    }
    ZipRootParent(c, t, root);
    assert Linked(t.r, node0);
    if node0.right != null {
      LeftStep(t.r, After(c));
      LeftStep(t.r, []);
      r := Leftmost(node0.right, t.r, node0);
      return;
    }
    var node := node0;
    ghost var d, u := c, t;
    r := node.parent;
    while r != null && node == r.right
      invariant Zip(d, u, root) && u.Bin? && u.n == node && r == CtxParent(d, null)
      invariant After(d) == After(c)
      decreases d
    {
      ZipUp(d, u, root);
      d, u := d.up, Up(d, u);
      node := r;
      ZipRootParent(d, u, root);
      r := node.parent;
    }
    if r != null {
      ZipUp(d, u, root);
    }
  }

  /** `rb_prev`: the mirror image of `rb_next`. */
  method Prev(node0: RbNode, ghost c: Ctx, ghost t: Tree, root: RbRoot) returns (r: RbNode?)
    requires !Cleared(node0) ==> Zip(c, t, root) && t.Bin? && t.n == node0
    ensures r == if Cleared(node0) then null else Last(Before(c) + Inorder(t.l))
  {
    if Cleared(node0) {
      return null;
    }
    ZipRootParent(c, t, root);
    assert Linked(t.l, node0);
    if node0.left != null {
      RightStep(t.l, Before(c));
      RightStep(t.l, []);
      r := Rightmost(node0.left, t.l, node0);
      return;
    }
    var node := node0;
    ghost var d, u := c, t;
    r := node.parent;
    while r != null && node == r.left
      invariant Zip(d, u, root) && u.Bin? && u.n == node && r == CtxParent(d, null)
      invariant Before(d) == Before(c)
      decreases d
    {
      ZipUp(d, u, root);
      d, u := d.up, Up(d, u);
      node := r;
      ZipRootParent(d, u, root);
      r := node.parent;
    }
    if r != null {
      ZipUp(d, u, root);
    }
  }

  // ----- postorder

  function Postorder(t: Tree): seq<RbNode> {
    if t.Nil? then [] else Postorder(t.l) + Postorder(t.r) + [t.n]
  }

  function PostBefore(c: Ctx): seq<RbNode> {
    match c
    case Top => []
    case InL(_, _, _, up) => PostBefore(up)
    case InR(l, _, _, up) => PostBefore(up) + Postorder(l)
  }

  function PostAfter(c: Ctx): seq<RbNode> {
    match c
    case Top => []
    case InL(n, _, r, up) => Postorder(r) + [n] + PostAfter(up)
    case InR(_, n, _, up) => [n] + PostAfter(up)
  }

  lemma {:induction false} PostorderPlug(c: Ctx, t: Tree)
    ensures Postorder(Plug(c, t)) == PostBefore(c) + Postorder(t) + PostAfter(c)
    decreases c
  {
    match c
    case Top =>
    case InL(n, red, r, up) =>
      PostorderPlug(up, Bin(t, n, red, r));
      Regroup(PostBefore(up), Postorder(t), Postorder(r), [n], PostAfter(up));
    case InR(l, n, red, up) =>
      PostorderPlug(up, Bin(l, n, red, t));
      Regroup(PostBefore(up), Postorder(l), Postorder(t), [n], PostAfter(up));
  }

  lemma {:induction false} DeepestStep(t: Tree)
    requires t.Bin?
    ensures Postorder(t) != []
    ensures Head(Postorder(t)) ==
      if t.l.Bin? then Head(Postorder(t.l)) else if t.r.Bin? then Head(Postorder(t.r)) else t.n
  {
    if t.l.Bin? {
      DeepestStep(t.l);
    }
    if t.r.Bin? {
      DeepestStep(t.r);
    }
  }

  /** `rb_left_deepest_node`: the first node of a subtree in postorder. */
  method LeftDeepest(n0: RbNode, ghost t: Tree, ghost par: RbNode?) returns (n: RbNode)
    requires Linked(t, par) && t.Bin? && t.n == n0
    ensures n == Head(Postorder(t))
  {
    n := n0;
    ghost var u, p := t, par;
    while true
      invariant Linked(u, p) && u.Bin? && u.n == n && Head(Postorder(u)) == Head(Postorder(t))
      decreases u
    {
      DeepestStep(u);
      if n.left != null {
        p, u := u.n, u.l;
        n := n.left;
      } else if n.right != null {
        p, u := u.n, u.r;
        n := n.right;
      } else {
        return;
      }
    }
  }

  /** `rb_next_postorder`: the node after `node` in postorder, or null. */
  method NextPostorder(node: RbNode?, ghost c: Ctx, ghost t: Tree, root: RbRoot) returns (r: RbNode?)
    requires node != null ==> Zip(c, t, root) && t.Bin? && t.n == node
    ensures r == if node == null then null else Head(PostAfter(c))
  {
    if node == null {
      return null;
    }
    ZipRootParent(c, t, root);
    var parent := node.parent;
    if parent != null {
      ZipUp(c, t, root);
      ZipRootParent(c.up, Up(c, t), root);
    }
    if parent != null && node == parent.left && parent.right != null {
      assert Linked(c.r, parent);
      DeepestStep(c.r);
      r := LeftDeepest(parent.right, c.r, parent);
    } else {
      r := parent;
    }
  }
}
