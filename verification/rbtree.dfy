/** The red-black tree as its users see it: `rb_add`, `rb_erase` and the traversals. */
module RbTree {
  import opened Common
  import opened RbShape
  import RbInsert
  import RbErase
  import RbUnlink
  import opened RbWalk

  // ----- order of insertion

  ghost predicate Sorted(s: seq<RbNode>, less: (RbNode, RbNode) -> bool) {
    forall i, j :: 0 <= i < j < |s| ==> !less(s[j], s[i])
  }

  /** A strict weak order on the nodes of `s`. */
  ghost predicate WeakOrder(s: seq<RbNode>, less: (RbNode, RbNode) -> bool) {
    && (forall a, b :: a in s && b in s && less(a, b) ==> !less(b, a))
    && (forall a, b, d :: a in s && b in s && d in s && less(a, d) ==> less(a, b) || less(b, d))
  }

  /** The comparisons made on the way down to the hole of `c`. */
  ghost predicate Descended(c: Ctx, node: RbNode, less: (RbNode, RbNode) -> bool) {
    match c
    case Top => true
    case InL(n, _, _, up) => less(node, n) && Descended(up, node, less)
    case InR(_, n, _, up) => !less(node, n) && Descended(up, node, less)
  }

  lemma SortedConcat(a: seq<RbNode>, b: seq<RbNode>, less: (RbNode, RbNode) -> bool)
    requires Sorted(a + b, less)
    ensures Sorted(a, less) && Sorted(b, less)
    ensures forall x, y :: x in a && y in b ==> !less(y, x)
  {
    assert forall i :: 0 <= i < |a| ==> (a + b)[i] == a[i];
    assert forall i :: 0 <= i < |b| ==> (a + b)[|a| + i] == b[i];
  }

  /** Everything sorted after `n` is after what is less than `n`. */
  lemma {:induction false} LessAfter(node: RbNode, n: RbNode, b: seq<RbNode>, s: seq<RbNode>,
                                     less: (RbNode, RbNode) -> bool)
    requires WeakOrder(s, less) && node in s && n in s && less(node, n)
    requires Sorted([n] + b, less) && forall q :: q in b ==> q in s
    ensures forall q :: q in b ==> less(node, q)
  {
    SortedConcat([n], b, less);
  }

  lemma {:induction false} NotLessBefore(node: RbNode, n: RbNode, a: seq<RbNode>, s: seq<RbNode>,
                                         less: (RbNode, RbNode) -> bool)
    requires WeakOrder(s, less) && node in s && n in s && !less(node, n)
    requires Sorted(a + [n], less) && forall q :: q in a ==> q in s
    ensures forall q :: q in a ==> !less(node, q)
  {
    SortedConcat(a, [n], less);
  }

  lemma {:induction false} Placed(c: Ctx, t: Tree, node: RbNode, s: seq<RbNode>, less: (RbNode, RbNode) -> bool)
    requires Descended(c, node, less) && Sorted(Before(c) + Inorder(t) + After(c), less)
    requires WeakOrder(s, less) && node in s && forall q :: q in Before(c) + Inorder(t) + After(c) ==> q in s
    ensures forall q :: q in Before(c) ==> !less(node, q)
    ensures forall q :: q in After(c) ==> less(node, q)
    decreases c
  {
    hide WeakOrder, Sorted, Inorder;
    match c
    case Top =>
    case InL(n, red, r, up) =>
      InorderOf(Bin(t, n, red, r));
      Regroup(Before(up), Inorder(t), [n], Inorder(r), After(up));
      Placed(up, Bin(t, n, red, r), node, s, less);
      SortedConcat(Before(c) + Inorder(t), After(c), less);
      Regroup3([n], Inorder(r), After(up));
      LessAfter(node, n, Inorder(r) + After(up), s, less);
    case InR(l, n, red, up) =>
      InorderOf(Bin(l, n, red, t));
      Regroup(Before(up), Inorder(l), [n], Inorder(t), After(up));
      Placed(up, Bin(l, n, red, t), node, s, less);
      Regroup3(Before(c), Inorder(t), After(c));
      SortedConcat(Before(c), Inorder(t) + After(c), less);
      NotLessBefore(node, n, Before(up) + Inorder(l), s, less);
  }

  lemma InorderOf(t: Tree)
    requires t.Bin?
    ensures Inorder(t) == Inorder(t.l) + [t.n] + Inorder(t.r)
  {
  }

  lemma {:induction false} InsertedSorted(a: seq<RbNode>, node: RbNode, b: seq<RbNode>, s: seq<RbNode>,
                                          less: (RbNode, RbNode) -> bool)
    requires Sorted(a + b, less) && WeakOrder(s, less) && node in s && forall q :: q in a + b ==> q in s
    requires (forall q :: q in a ==> !less(node, q)) && (forall q :: q in b ==> less(node, q))
    ensures Sorted(a + [node] + b, less)
  {
    var z := a + [node] + b;
    SortedConcat(a, b, less);
    forall i, j | 0 <= i < j < |z|
      ensures !less(z[j], z[i])
    {
      if j == |a| {
        assert z[i] == a[i];
      } else if i == |a| {
        assert z[j] == b[j - |a| - 1];
      } else if i < |a| && |a| < j {
        assert z[i] == a[i] && z[j] == b[j - |a| - 1];
      }
    }
  }

  /** `rb_link_node`: hangs a red leaf into the hole of `c`. */
  method LinkNode(node: RbNode, parent: RbNode?, left: bool, root: RbRoot, ghost c: Ctx)
    requires Zip(c, Nil, root) && node !in CtxNodes(c)
    requires parent == CtxParent(c, null) && (parent != null ==> (left <==> c.InL?))
    modifies root, parent, node
    ensures Zip(c, Bin(Nil, node, true, Nil), root)
  {
    AllocCtx(c);
    node.parent, node.red := parent, true;
    node.left, node.right := null, null;
    if parent == null {
      root.node := node;
    } else if left {
      parent.left := node;
    } else {
      parent.right := node;
    }
  }

  class Root {
    const root: RbRoot
    ghost var tree: Tree

    ghost predicate Valid()
      reads this, root, Nodes(tree)
    {
      Zip(Top, tree, root) && Balanced(tree)
    }

    /** The nodes in sort order. */
    ghost function Contents(): seq<RbNode>
      reads this
    {
      Inorder(tree)
    }

    constructor ()
      ensures Valid() && Contents() == [] && fresh(root)
    {
      root := new RbRoot();
      tree := Nil;
      new;
      assert IsRB(tree, 0);
    }

    /** Records the tree that the links now represent. */
    ghost method Install(t: Tree)
      requires Zip(Top, t, root) && Balanced(t)
      modifies this`tree
      ensures Valid() && tree == t
    {
      tree := t;
    }

    /** `rb_add`: descends by `less`, links the node and rebalances. */
    method Add(node: RbNode, less: (RbNode, RbNode) -> bool) returns (ghost at: nat)
      requires Valid() && node !in Nodes(tree)
      modifies this, root, Nodes(tree), node
      ensures Valid()
      ensures at <= |old(Contents())| && Contents() == old(Contents())[..at] + [node] + old(Contents())[at..]
      ensures Sorted(old(Contents()), less) && WeakOrder([node] + old(Contents()), less) ==>
                && Sorted(Contents(), less)
                && (forall q :: q in old(Contents())[..at] ==> !less(node, q))
                && (forall q :: q in old(Contents())[at..] ==> less(node, q))
    {
      hide Zip, IsRB, CtxRB, Inorder, Plug, Before, After, Balanced, Nodes, CtxNodes, Sorted, WeakOrder;
      ghost var s := Inorder(tree);
      ghost var c, u, h := Top, tree, BlackHeight(tree);
      TopFacts(tree, h);
      var parent: RbNode?, left := null, false;
      var link := root.node;
      ZipSelf(c, u, root);
      while link != null
        modifies {}
        invariant Zip(c, u, root) && link == Self(u) && parent == CtxParent(c, null)
        invariant parent != null ==> (left <==> c.InL?)
        invariant CtxRB(c, h) && IsRB(u, h) && (IsRed(u) ==> !c.Top? && !TopRed(c))
        invariant Plug(c, u) == tree && Descended(c, node, less)
        decreases u
      {
        ZipRootParent(c, u, root);
        Descend(c, u, h, root);
        parent := link;
        h := if u.red then h else h - 1;
        if less(node, parent) {
          left := true;
          link := parent.left;
          c, u := InL(u.n, u.red, u.r, c), u.l;
        } else {
          left := false;
          link := parent.right;
          c, u := InR(u.l, u.n, u.red, c), u.r;
        }
      }
      PlugNodes(c, u);
      InorderPlug(c, u);
      HoleParent(c);
      LeafRB(c, u, h, node);
      assert CtxNodes(c) == Nodes(tree);
      LinkNode(node, parent, left, root, c);
      ghost var leaf := Bin(Nil, node, true, Nil);
      ghost var t' := RbInsert.InsertColor(node, root, c, leaf, 0);
      InorderPlug(c, leaf);
      at := |Before(c)|;
      assert s == Before(c) + After(c);
      assert Inorder(t') == Before(c) + [node] + After(c);
      if Sorted(s, less) && WeakOrder([node] + s, less) {
        Placed(c, u, node, [node] + s, less);
        InsertedSorted(Before(c), node, After(c), [node] + s, less);
      }
      Install(t');
    }

    /** `rb_erase`: takes the node out and rebalances. */
    method Erase(node: RbNode) returns (ghost at: nat)
      requires Valid() && node in Nodes(tree)
      modifies this, root, Nodes(tree)
      ensures Valid() && node !in Nodes(tree)
      ensures at < |old(Contents())| && old(Contents())[at] == node
      ensures Contents() == old(Contents())[..at] + old(Contents())[at + 1..]
    {
      hide Zip, IsRB, CtxRB, Inorder, Plug, Before, After, Balanced, Nodes, CtxNodes, Sep, PathTo, SubAt;
      ghost var h := BlackHeight(tree);
      TopFacts(tree, h);
      Unzip(Top, tree, node, root);
      h := UnzipRB(Top, tree, node, h);
      ghost var c, t := PathTo(Top, tree, node), SubAt(tree, node);
      ZipSep(Top, tree, root);
      SplitAt(tree, c, t);
      PlugNodes(c, t);
      var rebalance, c', t' := RbUnlink.Unlink(node, root, c, t, h);
      RemovedNodes(tree, c, t, c', t');
      ghost var t2;
      if rebalance != null {
        HandoverShort(rebalance, c', t', root);
        t2 := RbErase.EraseColor(rebalance, root, c', t', 0);
      } else {
        HandoverDone(rebalance, c', t', root);
        t2 := Plug(c', t');
      }
      at := |Before(c)| + |Inorder(t.l)|;
      PlugTop(t2);
      SameNodes(Top, t2, c', t');
      Install(t2);
    }

    /** `rb_first`. */
    method First() returns (n: RbNode?)
      requires Valid()
      ensures n == Head(Contents())
    {
      n := root.node;
      if n != null {
        n := Leftmost(n, tree, null);
      }
    }

    /** `rb_last`. */
    method Last() returns (n: RbNode?)
      requires Valid()
      ensures n == RbWalk.Last(Contents())
    {
      n := root.node;
      if n != null {
        n := Rightmost(n, tree, null);
      }
    }

    /** `rb_next`. */
    method Next(node: RbNode) returns (n: RbNode?)
      requires Valid() && (Cleared(node) || node in Nodes(tree))
      ensures Cleared(node) ==> n == null
      ensures !Cleared(node) ==> forall i :: 0 <= i < |Contents()| && Contents()[i] == node ==>
                                   n == Head(Contents()[i + 1..])
    {
      ghost var c, t := Top, tree;
      if !Cleared(node) {
        Unzip(Top, tree, node, root);
        c, t := PathTo(Top, tree, node), SubAt(tree, node);
        SplitAt(tree, c, t);
      }
      n := RbWalk.Next(node, c, t, root);
    }

    /** `rb_prev`. */
    method Prev(node: RbNode) returns (n: RbNode?)
      requires Valid() && (Cleared(node) || node in Nodes(tree))
      ensures Cleared(node) ==> n == null
      ensures !Cleared(node) ==> forall i :: 0 <= i < |Contents()| && Contents()[i] == node ==>
                                   n == RbWalk.Last(Contents()[..i])
    {
      ghost var c, t := Top, tree;
      if !Cleared(node) {
        Unzip(Top, tree, node, root);
        c, t := PathTo(Top, tree, node), SubAt(tree, node);
        SplitAt(tree, c, t);
      }
      n := RbWalk.Prev(node, c, t, root);
    }

    /** The loop `for (n = rb_first(root); n; n = rb_next(n))`. */
    method Walk() returns (s: seq<RbNode>)
      requires Valid()
      ensures s == Contents()
    {
      hide Zip, Nodes, Inorder, Balanced;
      s := [];
      AllocTree(tree);
      var n := First();
      while n != null
        invariant Valid()
        invariant |s| <= |Contents()| && s == Contents()[..|s|] && n == Head(Contents()[|s|..])
        decreases |Contents()| - |s|
      {
        AllocTree(tree);
        Visited(tree, Contents(), |s|);
        InTree(tree, n, root);
        s := s + [n];
        n := Next(n);
      }
    }

    /** `rb_first_postorder`. */
    method FirstPostorder() returns (n: RbNode?)
      requires Valid()
      ensures n == Head(Postorder(tree))
    {
      n := root.node;
      if n != null {
        n := LeftDeepest(n, tree, null);
      }
    }

    /** `rb_next_postorder`. */
    method NextPostorder(node: RbNode?) returns (n: RbNode?)
      requires Valid() && (node != null ==> node in Nodes(tree))
      ensures node == null ==> n == null
      ensures forall i :: 0 <= i < |Postorder(tree)| && Postorder(tree)[i] == node ==>
        n == Head(Postorder(tree)[i + 1..])
    {
      ghost var c, t := Top, tree;
      if node != null {
        Unzip(Top, tree, node, root);
        c, t := PathTo(Top, tree, node), SubAt(tree, node);
        PostSplitAt(tree, c, t);
      }
      n := RbWalk.NextPostorder(node, c, t, root);
    }

    /** The loop of `rbtree_postorder_for_each_entry_safe`. */
    method PostorderWalk() returns (s: seq<RbNode>)
      requires Valid()
      ensures s == Postorder(tree)
    {
      hide Zip, Nodes, Postorder, Balanced;
      s := [];
      AllocTree(tree);
      var n := FirstPostorder();
      while n != null
        invariant Valid()
        invariant |s| <= |Postorder(tree)| && s == Postorder(tree)[..|s|] && n == Head(Postorder(tree)[|s|..])
        decreases |Postorder(tree)| - |s|
      {
        AllocTree(tree);
        PostorderNodes(tree);
        InElems(Postorder(tree), |s|);
        s := s + [n];
        n := NextPostorder(n);
      }
    }
  }

  function BlackHeight(t: Tree): nat {
    if t.Nil? then 0 else BlackHeight(t.l) + if t.red then 0 else 1
  }

  lemma {:induction false} BlackHeightIs(t: Tree, h: nat)
    requires IsRB(t, h)
    ensures BlackHeight(t) == h
    decreases t
  {
    if t.Bin? {
      BlackHeightIs(t.l, if t.red then h else h - 1);
    }
  }

  lemma {:induction false} TopFacts(t: Tree, h: nat)
    requires Balanced(t) && h == BlackHeight(t)
    ensures CtxRB(Top, h) && IsRB(t, h) && !IsRed(t)
    ensures Plug(Top, t) == t && Before(Top) == [] && After(Top) == []
  {
    var k: nat :| IsRB(t, k);
    BlackHeightIs(t, k);
  }

  lemma {:induction false} ZipSelf(c: Ctx, t: Tree, root: RbRoot)
    requires Zip(c, t, root)
    ensures c.Top? ==> root.node == Self(t)
  {
  }

  /** One step down keeps the split and the black heights. */
  lemma {:induction false} Descend(c: Ctx, u: Tree, h: nat, root: RbRoot)
    requires Zip(c, u, root) && u.Bin? && CtxRB(c, h) && IsRB(u, h) && (u.red ==> !c.Top? && !TopRed(c))
    ensures Zip(InL(u.n, u.red, u.r, c), u.l, root) && Plug(InL(u.n, u.red, u.r, c), u.l) == Plug(c, u)
    ensures Zip(InR(u.l, u.n, u.red, c), u.r, root) && Plug(InR(u.l, u.n, u.red, c), u.r) == Plug(c, u)
    ensures !u.red ==> h > 0
    ensures var k := if u.red then h else h - 1;
      && CtxRB(InL(u.n, u.red, u.r, c), k) && CtxRB(InR(u.l, u.n, u.red, c), k) && IsRB(u.l, k) && IsRB(u.r, k)
    ensures u.red ==> !IsRed(u.l) && !IsRed(u.r)
  {
    ZipDown(c, u, root);
  }

  lemma {:induction false} LeafRB(c: Ctx, u: Tree, h: nat, node: RbNode)
    requires u.Nil? && IsRB(u, h) && CtxRB(c, h)
    ensures IsRB(Bin(Nil, node, true, Nil), 0) && CtxRB(c, 0)
    ensures Inorder(u) == [] && Inorder(Bin(Nil, node, true, Nil)) == [node]
    ensures Nodes(u) == {} && Nodes(Bin(Nil, node, true, Nil)) == {node}
  {
  }

  lemma {:induction false} InElems(s: seq<RbNode>, i: nat)
    requires i < |s|
    ensures s[i] in Elems(s)
    decreases |s|
  {
    if i > 0 {
      InElems(s[1..], i - 1);
    }
  }

  lemma {:induction false} DistinctConcat(a: seq<RbNode>, b: seq<RbNode>)
    requires Distinct(a) && Distinct(b) && Elems(a) !! Elems(b)
    ensures Distinct(a + b)
  {
    forall i, j | 0 <= i < |a| && 0 <= j < |b|
      ensures a[i] != b[j]
    {
      InElems(a, i);
      InElems(b, j);
    }
  }

  /** Every node of a well-formed tree occurs once. */
  lemma {:induction false} InorderDistinct(t: Tree)
    requires Sep(t)
    ensures Distinct(Inorder(t))
    decreases t
  {
    if t.Bin? {
      InorderDistinct(t.l); InorderDistinct(t.r);
      InorderNodes(t.l); InorderNodes(t.r);
      DistinctConcat(Inorder(t.l), [t.n]);
      ElemsConcat(Inorder(t.l), [t.n]);
      DistinctConcat(Inorder(t.l) + [t.n], Inorder(t.r));
    }
  }

  /** Where a node stands in the contents. */
  lemma {:induction false} SplitAt(w: Tree, c: Ctx, t: Tree)
    requires Sep(w) && t.Bin? && Plug(c, t) == w
    ensures var a, b := Before(c) + Inorder(t.l), Inorder(t.r) + After(c);
      && Inorder(w) == a + [t.n] + b
      && forall i :: 0 <= i < |Inorder(w)| && Inorder(w)[i] == t.n ==> Inorder(w)[..i] == a && Inorder(w)[i + 1..] == b
  {
    var a, b := Before(c) + Inorder(t.l), Inorder(t.r) + After(c);
    InorderPlug(c, t);
    InorderDistinct(w);
    InorderOf(t);
    hide *;
    Regroup5(Before(c), Inorder(t.l), [t.n], Inorder(t.r), After(c));
    UniqueSplit(a, t.n, b);
  }

  lemma {:induction false} Regroup5(a: seq<RbNode>, b: seq<RbNode>, x: seq<RbNode>, d: seq<RbNode>, e: seq<RbNode>)
    ensures a + (b + x + d) + e == (a + b) + x + (d + e)
  {
  }

  lemma {:induction false} UniqueSplit(a: seq<RbNode>, n: RbNode, b: seq<RbNode>)
    requires Distinct(a + [n] + b)
    ensures var z := a + [n] + b; forall i :: 0 <= i < |z| && z[i] == n ==> z[..i] == a && z[i + 1..] == b
  {
    assert (a + [n] + b)[|a|] == n;
  }

  lemma {:induction false} ElemsIn(s: seq<RbNode>, x: RbNode)
    requires x in Elems(s)
    ensures x in s
    decreases |s|
  {
    if x != s[0] {
      ElemsIn(s[1..], x);
    }
  }

  lemma {:induction false} ElemsWithout(a: seq<RbNode>, n: RbNode, b: seq<RbNode>)
    requires Distinct(a + [n] + b)
    ensures Elems(a + b) == Elems(a + [n] + b) - {n}
  {
    ElemsConcat(a, b);
    ElemsConcat(a + [n], b);
    ElemsConcat(a, [n]);
    NotElsewhere(a, n, b);
    if n in Elems(a + b) {
      ElemsIn(a + b, n);
    }
  }

  lemma {:induction false} NotElsewhere(a: seq<RbNode>, n: RbNode, b: seq<RbNode>)
    requires Distinct(a + [n] + b)
    ensures n !in a + b
  {
    var z := a + [n] + b;
    forall i | 0 <= i < |a + b|
      ensures (a + b)[i] != n
    {
      assert z[|a|] == n;
      assert (a + b)[i] == z[if i < |a| then i else i + 1];
    }
  }

  /** Removal leaves exactly the other nodes. */
  lemma {:induction false} RemovedNodes(w: Tree, c: Ctx, t: Tree, c': Ctx, t': Tree)
    requires Sep(w) && t.Bin? && Plug(c, t) == w
    requires Inorder(Plug(c', t')) == Before(c) + Inorder(t.l) + Inorder(t.r) + After(c)
    ensures CtxNodes(c') + Nodes(t') == Nodes(w) - {t.n}
  {
    var a, b := Before(c) + Inorder(t.l), Inorder(t.r) + After(c);
    SplitAt(w, c, t);
    InorderDistinct(w);
    ElemsWithout(a, t.n, b);
    Regroup3(a, Inorder(t.r), After(c));
    InorderNodes(w);
    InorderNodes(Plug(c', t'));
    PlugNodes(c', t');
  }

  lemma {:induction false} HandoverShort(rebalance: RbNode?, c: Ctx, t: Tree, root: RbRoot)
    requires rebalance != null && RbUnlink.Handover(rebalance, c, t, root)
    ensures Zip(c, t, root) && t.Nil? && !c.Top? && c.n == rebalance && IsRB(t, 0) && CtxRB(c, 1)
  {
  }

  lemma {:induction false} HandoverDone(rebalance: RbNode?, c: Ctx, t: Tree, root: RbRoot)
    requires rebalance == null && RbUnlink.Handover(rebalance, c, t, root)
    ensures Zip(Top, Plug(c, t), root) && Balanced(Plug(c, t))
  {
    var k: nat :| CtxRB(c, k) && IsRB(t, k);
    ZipPlug(c, t, root);
    PlugBalanced(c, t, k);
  }

  lemma ZipSep(c: Ctx, t: Tree, root: RbRoot)
    requires Zip(c, t, root)
    ensures Sep(t)
  {
  }

  lemma PlugTop(t: Tree)
    ensures Plug(Top, t) == t && CtxNodes(Top) == {}
  {
  }

  lemma {:induction false} Visited(t: Tree, s: seq<RbNode>, i: nat)
    requires s == Inorder(t) && i < |s|
    ensures s[i] in Nodes(t)
  {
    InorderNodes(t);
    InElems(s, i);
  }

  lemma {:induction false} InTree(t: Tree, n: RbNode, root: RbRoot)
    requires Zip(Top, t, root) && n in Nodes(t)
    ensures !Cleared(n)
  {
    Unzip(Top, t, n, root);
    NotCleared(PathTo(Top, t, n), SubAt(t, n), root);
  }

  lemma {:induction false} PostorderNodes(t: Tree)
    ensures Elems(Postorder(t)) == Nodes(t)
    decreases t
  {
    if t.Bin? {
      PostorderNodes(t.l);
      PostorderNodes(t.r);
      ElemsConcat(Postorder(t.l), Postorder(t.r));
      ElemsConcat(Postorder(t.l) + Postorder(t.r), [t.n]);
    }
  }

  /** Postorder visits every node once. */
  lemma {:induction false} PostorderDistinct(t: Tree)
    requires Sep(t)
    ensures Distinct(Postorder(t))
    decreases t
  {
    if t.Bin? {
      PostorderDistinct(t.l); PostorderDistinct(t.r);
      PostorderNodes(t.l); PostorderNodes(t.r);
      DistinctConcat(Postorder(t.l), Postorder(t.r));
      ElemsConcat(Postorder(t.l), Postorder(t.r));
      DistinctConcat(Postorder(t.l) + Postorder(t.r), [t.n]);
    }
  }

  /** In postorder a node comes right after all the nodes below it. */
  lemma {:induction false} PostSplitAt(w: Tree, c: Ctx, t: Tree)
    requires Sep(w) && t.Bin? && Plug(c, t) == w
    ensures var a, b := PostBefore(c) + Postorder(t.l) + Postorder(t.r), PostAfter(c);
      && Postorder(w) == a + [t.n] + b
      && forall i :: 0 <= i < |Postorder(w)| && Postorder(w)[i] == t.n ==>
           Postorder(w)[..i] == a && Postorder(w)[i + 1..] == b
  {
    PostorderPlug(c, t);
    PostorderDistinct(w);
    assert Postorder(t) == Postorder(t.l) + Postorder(t.r) + [t.n];
    hide *;
    Regroup(PostBefore(c), Postorder(t.l), Postorder(t.r), [t.n], PostAfter(c));
    UniqueSplit(PostBefore(c) + Postorder(t.l) + Postorder(t.r), t.n, PostAfter(c));
  }

  // ----- the height bound that the colour rules give

  function Height(t: Tree): nat {
    if t.Nil? then 0 else 1 + if Height(t.l) > Height(t.r) then Height(t.l) else Height(t.r)
  }

  lemma {:induction false} HeightByBlacks(t: Tree, h: nat)
    requires IsRB(t, h)
    ensures Height(t) <= 2 * h + if IsRed(t) then 1 else 0
    ensures Pow2(h) <= |Inorder(t)| + 1
    decreases t
  {
    if t.Bin? {
      var k := if t.red then h else h - 1;
      HeightByBlacks(t.l, k);
      HeightByBlacks(t.r, k);
    }
  }

  /** A tree of n nodes is at most 2 log2(n + 1) deep. */
  lemma {:induction false} HeightBound(t: Tree)
    requires Balanced(t)
    ensures exists h: nat :: Height(t) <= 2 * h && Pow2(h) <= |Inorder(t)| + 1
  {
    var h: nat :| IsRB(t, h);
    HeightByBlacks(t, h);
  }
}
