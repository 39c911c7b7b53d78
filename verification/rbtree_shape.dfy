/**
 * Shapes of the intrusive red-black tree: the linked nodes as the C code sees
 * them, the ghost tree they represent, and a zipper that splits that tree at
 * the node a loop is working on.
 */
module RbShape {

  /** `struct rb_node`; the packed parent/colour word is the two fields `parent` and `red`. */
  class RbNode {
    var left: RbNode?
    var right: RbNode?
    var parent: RbNode?
    var red: bool

    constructor () {
      left, right, parent, red := null, null, null, true;
    }
  }

  /** `struct rb_root`. */
  class RbRoot {
    var node: RbNode?

    constructor ()
      ensures node == null
    {
      node := null;
    }
  }

  datatype Tree = Nil | Bin(l: Tree, n: RbNode, red: bool, r: Tree)

  /** A tree with one subtree missing: frames from the hole up to the top. */
  datatype Ctx =
    | Top
    | InL(n: RbNode, red: bool, r: Tree, up: Ctx)   // the hole is the left child of n
    | InR(l: Tree, n: RbNode, red: bool, up: Ctx)   // the hole is the right child of n

  function Self(t: Tree): RbNode? {
    if t.Nil? then null else t.n
  }

  function IsRed(t: Tree): bool {
    t.Bin? && t.red
  }

  function Nodes(t: Tree): set<RbNode> {
    if t.Nil? then {} else Nodes(t.l) + {t.n} + Nodes(t.r)
  }

  function CtxNodes(c: Ctx): set<RbNode> {
    match c
    case Top => {}
    case InL(n, _, r, up) => {n} + Nodes(r) + CtxNodes(up)
    case InR(l, n, _, up) => Nodes(l) + {n} + CtxNodes(up)
  }

  function CtxParent(c: Ctx, base: RbNode?): RbNode? {
    if c.Top? then base else c.n
  }

  function Plug(c: Ctx, t: Tree): Tree {
    match c
    case Top => t
    case InL(n, red, r, up) => Plug(up, Bin(t, n, red, r))
    case InR(l, n, red, up) => Plug(up, Bin(l, n, red, t))
  }

  // ----- separation: no node occurs twice

  ghost predicate Sep(t: Tree) {
    t.Bin? ==>
      && t.n !in Nodes(t.l) && t.n !in Nodes(t.r) && Nodes(t.l) !! Nodes(t.r)
      && Sep(t.l) && Sep(t.r)
  }

  ghost predicate CtxSep(c: Ctx) {
    match c
    case Top => true
    case InL(n, _, r, up) =>
      && n !in Nodes(r) && n !in CtxNodes(up) && Nodes(r) !! CtxNodes(up)
      && Sep(r) && CtxSep(up)
    case InR(l, n, _, up) =>
      && n !in Nodes(l) && n !in CtxNodes(up) && Nodes(l) !! CtxNodes(up)
      && Sep(l) && CtxSep(up)
  }

  // ----- the links

  /** The nodes of `t` carry its shape and colours, and its root hangs below `par`. */
  ghost predicate Linked(t: Tree, par: RbNode?)
    reads Nodes(t)
  {
    t.Bin? ==>
      && t.n.parent == par
      && t.n.red == t.red
      && t.n.left == Self(t.l) && t.n.right == Self(t.r)
      && Linked(t.l, t.n) && Linked(t.r, t.n)
  }

  /** `Linked` but for the parent and colour of the root itself. */
  ghost predicate LinkedBelow(t: Tree)
    reads Nodes(t)
  {
    t.Bin? ==>
      && t.n.left == Self(t.l) && t.n.right == Self(t.r)
      && Linked(t.l, t.n) && Linked(t.r, t.n)
  }

  /** The frames of `c` are linked, with `hole` stored at the hole and `slot` at the top. */
  ghost predicate CtxLinked(c: Ctx, hole: RbNode?, base: RbNode?, slot: RbNode?)
    reads CtxNodes(c)
  {
    match c
    case Top => hole == slot
    case InL(n, red, r, up) =>
      && n.left == hole && n.right == Self(r) && n.red == red && n.parent == CtxParent(up, base)
      && Linked(r, n) && CtxLinked(up, n, base, slot)
    case InR(l, n, red, up) =>
      && n.left == Self(l) && n.right == hole && n.red == red && n.parent == CtxParent(up, base)
      && Linked(l, n) && CtxLinked(up, n, base, slot)
  }

  lemma RootOf(t: Tree, par: RbNode?)
    requires Linked(t, par)
    ensures LinkedBelow(t)
    ensures t.Bin? <==> Self(t) != null
    ensures Self(t) != null ==> Self(t) in Nodes(t) && Self(t).parent == par && Self(t).red == IsRed(t)
  {
  }

  lemma NodesOf(t: Tree)
    requires t.Bin?
    ensures Nodes(t) == Nodes(t.l) + {t.n} + Nodes(t.r)
  {
  }

  /** The objects within two frames of a subtree belong to the whole structure. */
  lemma Footprint(c: Ctx, t: Tree)
    requires t.Bin? && !c.Top? && !c.up.Top?
    ensures Nodes(t) == Nodes(t.l) + {t.n} + Nodes(t.r)
    ensures c.n in CtxNodes(c) && c.up.n in CtxNodes(c)
    ensures Nodes(if c.InL? then c.r else c.l) <= CtxNodes(c)
    ensures CtxParent(c.up.up, null) != null ==> CtxParent(c.up.up, null) in CtxNodes(c)
  {
    assert CtxNodes(c.up) <= CtxNodes(c);
  }

  lemma HoleParent(c: Ctx)
    ensures CtxParent(c, null) != null ==> CtxParent(c, null) in CtxNodes(c)
  {
  }

  lemma {:induction false} AllocTree(t: Tree)
    ensures allocated(Nodes(t))
    decreases t
  {
    if t.Bin? {
      AllocTree(t.l);
      AllocTree(t.r);
    }
  }

  lemma {:induction false} AllocCtx(c: Ctx)
    ensures allocated(CtxNodes(c))
    decreases c
  {
    match c
    case Top =>
    case InL(_, _, r, up) => AllocTree(r); AllocCtx(up);
    case InR(l, _, _, up) => AllocTree(l); AllocCtx(up);
  }

  /** The whole linked structure, split at the subtree `t`. */
  ghost predicate Zip(c: Ctx, t: Tree, root: RbRoot)
    reads root, CtxNodes(c), Nodes(t)
  {
    && CtxSep(c) && Sep(t) && CtxNodes(c) !! Nodes(t)
    && CtxLinked(c, Self(t), null, root.node)
    && Linked(t, CtxParent(c, null))
  }

  /** Assembles a rotated node pair, the second on the right of the first. */
  lemma {:induction false} ZipRight(up: Ctx, t: Tree, root: RbRoot)
    requires t.Bin? && t.r.Bin? && t.red == t.n.red && t.r.red == t.r.n.red
    requires Sep(t.l) && Sep(t.r.l) && Sep(t.r.r) && CtxSep(up)
    requires Nodes(t.l) !! Nodes(t.r.l) !! Nodes(t.r.r) !! {t.n} !! {t.r.n} !! CtxNodes(up)
    requires Linked(t.l, t.n) && Linked(t.r.l, t.r.n) && Linked(t.r.r, t.r.n) && CtxLinked(up, t.n, null, root.node)
    requires t.n.parent == CtxParent(up, null) && t.n.left == Self(t.l) && t.n.right == t.r.n
    requires t.r.n.parent == t.n && t.r.n.left == Self(t.r.l) && t.r.n.right == Self(t.r.r)
    ensures Zip(up, t, root)
  {
    assert Nodes(t.r) == Nodes(t.r.l) + {t.r.n} + Nodes(t.r.r);
  }

  /** Assembles a rotated node pair, the second on the left of the first. */
  lemma {:induction false} ZipLeft(up: Ctx, t: Tree, root: RbRoot)
    requires t.Bin? && t.l.Bin? && t.red == t.n.red && t.l.red == t.l.n.red
    requires Sep(t.l.l) && Sep(t.l.r) && Sep(t.r) && CtxSep(up)
    requires Nodes(t.l.l) !! Nodes(t.l.r) !! Nodes(t.r) !! {t.n} !! {t.l.n} !! CtxNodes(up)
    requires Linked(t.l.l, t.l.n) && Linked(t.l.r, t.l.n) && Linked(t.r, t.n) && CtxLinked(up, t.n, null, root.node)
    requires t.n.parent == CtxParent(up, null) && t.n.left == t.l.n && t.n.right == Self(t.r)
    requires t.l.n.parent == t.n && t.l.n.left == Self(t.l.l) && t.l.n.right == Self(t.l.r)
    ensures Zip(up, t, root)
  {
    assert Nodes(t.l) == Nodes(t.l.l) + {t.l.n} + Nodes(t.l.r);
  }

  /** The inverse of ZipRight. */
  lemma {:induction false} UnzipRight(up: Ctx, t: Tree, root: RbRoot)
    requires Zip(up, t, root) && t.Bin? && t.r.Bin?
    ensures var x, p, y, q, z := t.l, t.n, t.r.l, t.r.n, t.r.r;
      && Sep(x) && Sep(y) && Sep(z) && CtxSep(up)
      && Nodes(x) !! Nodes(y) !! Nodes(z) !! {p} !! {q} !! CtxNodes(up)
      && Linked(x, p) && Linked(y, q) && Linked(z, q) && CtxLinked(up, p, null, root.node)
      && p.parent == CtxParent(up, null) && p.left == Self(x) && p.right == q && p.red == t.red
      && q.parent == p && q.left == Self(y) && q.right == Self(z) && q.red == t.r.red
  {
    assert Sep(t.r) && Linked(t.r, t.n);
  }

  /** The inverse of ZipLeft. */
  lemma {:induction false} UnzipLeft(up: Ctx, t: Tree, root: RbRoot)
    requires Zip(up, t, root) && t.Bin? && t.l.Bin?
    ensures var x, q, y, p, z := t.l.l, t.l.n, t.l.r, t.n, t.r;
      && Sep(x) && Sep(y) && Sep(z) && CtxSep(up)
      && Nodes(x) !! Nodes(y) !! Nodes(z) !! {p} !! {q} !! CtxNodes(up)
      && Linked(x, q) && Linked(y, q) && Linked(z, p) && CtxLinked(up, p, null, root.node)
      && p.parent == CtxParent(up, null) && p.left == q && p.right == Self(z) && p.red == t.red
      && q.parent == p && q.left == Self(x) && q.right == Self(y) && q.red == t.l.red
  {
    assert Sep(t.l) && Linked(t.l, t.n);
  }

  /** Opens a left-right zigzag. */
  lemma {:induction false} UnzipLeftRight(up: Ctx, t: Tree, root: RbRoot)
    requires Zip(up, t, root) && t.Bin? && t.l.Bin? && t.l.r.Bin?
    ensures var s, p, a, n, b, g, u := t.l.l, t.l.n, t.l.r.l, t.l.r.n, t.l.r.r, t.n, t.r;
      && Sep(s) && Sep(a) && Sep(b) && Sep(u) && CtxSep(up)
      && Nodes(s) !! Nodes(a) !! Nodes(b) !! Nodes(u) !! {p} !! {n} !! {g} !! CtxNodes(up)
      && Linked(s, p) && Linked(a, n) && Linked(b, n) && Linked(u, g) && CtxLinked(up, g, null, root.node)
      && g.parent == CtxParent(up, null) && g.right == Self(u) && g.red == t.red
      && p.left == Self(s) && p.right == n && n.left == Self(a) && n.right == Self(b)
  {
    UnzipLeft(up, t, root);
    assert Sep(t.l.r) && Linked(t.l.r, t.l.n);
    assert Nodes(t.l.r) == Nodes(t.l.r.l) + {t.l.r.n} + Nodes(t.l.r.r);
  }

  /** Opens a right-left zigzag. */
  lemma {:induction false} UnzipRightLeft(up: Ctx, t: Tree, root: RbRoot)
    requires Zip(up, t, root) && t.Bin? && t.r.Bin? && t.r.l.Bin?
    ensures var u, g, a, n, b, p, s := t.l, t.n, t.r.l.l, t.r.l.n, t.r.l.r, t.r.n, t.r.r;
      && Sep(s) && Sep(a) && Sep(b) && Sep(u) && CtxSep(up)
      && Nodes(s) !! Nodes(a) !! Nodes(b) !! Nodes(u) !! {p} !! {n} !! {g} !! CtxNodes(up)
      && Linked(s, p) && Linked(a, n) && Linked(b, n) && Linked(u, g) && CtxLinked(up, g, null, root.node)
      && g.parent == CtxParent(up, null) && g.left == Self(u) && g.red == t.red
      && p.right == Self(s) && p.left == n && n.left == Self(a) && n.right == Self(b)
  {
    UnzipRight(up, t, root);
    assert Sep(t.r.l) && Linked(t.r.l, t.r.n);
    assert Nodes(t.r.l) == Nodes(t.r.l.l) + {t.r.l.n} + Nodes(t.r.l.r);
  }

  /** The subtree one frame above `t`. */
  function Up(c: Ctx, t: Tree): (u: Tree)
    requires !c.Top?
    ensures u.Bin?
  {
    if c.InL? then Bin(t, c.n, c.red, c.r) else Bin(c.l, c.n, c.red, t)
  }

  lemma PlugUp(c: Ctx, t: Tree)
    requires !c.Top?
    ensures Plug(c.up, Up(c, t)) == Plug(c, t)
  {
  }

  lemma {:induction false} ZipUp(c: Ctx, t: Tree, root: RbRoot)
    requires !c.Top? && Zip(c, t, root)
    ensures Zip(c.up, Up(c, t), root) && Plug(c.up, Up(c, t)) == Plug(c, t)
    ensures t.Bin? ==> (c.n.right == t.n <==> c.InR?) && (c.n.left == t.n <==> c.InL?)
  {
  }

  lemma {:induction false} ZipDown(c: Ctx, t: Tree, root: RbRoot)
    requires t.Bin? && Zip(c, t, root)
    ensures Zip(InL(t.n, t.red, t.r, c), t.l, root)
    ensures Zip(InR(t.l, t.n, t.red, c), t.r, root)
  {
  }

  lemma {:induction false} ZipRootParent(c: Ctx, t: Tree, root: RbRoot)
    requires t.Bin? && Zip(c, t, root)
    ensures t.n.parent == CtxParent(c, null) && t.n.red == t.red
    ensures t.n.left == Self(t.l) && t.n.right == Self(t.r)
  {
  }

  // ----- in-order contents

  function Inorder(t: Tree): seq<RbNode> {
    if t.Nil? then [] else Inorder(t.l) + [t.n] + Inorder(t.r)
  }

  function Before(c: Ctx): seq<RbNode> {
    match c
    case Top => []
    case InL(_, _, _, up) => Before(up)
    case InR(l, n, _, up) => Before(up) + Inorder(l) + [n]
  }

  function After(c: Ctx): seq<RbNode> {
    match c
    case Top => []
    case InL(n, _, r, up) => [n] + Inorder(r) + After(up)
    case InR(_, _, _, up) => After(up)
  }

  lemma {:induction false} Regroup(a: seq<RbNode>, b: seq<RbNode>, x: seq<RbNode>, d: seq<RbNode>, e: seq<RbNode>)
    ensures a + (b + x + d) + e == a + b + (x + d + e)
    ensures a + (b + x + d) + e == (a + b + x) + d + e
  {
  }

  lemma {:induction false} Regroup3(a: seq<RbNode>, b: seq<RbNode>, d: seq<RbNode>)
    ensures a + b + d == a + (b + d)
  {
  }

  lemma {:induction false} Regroup4(a: seq<RbNode>, b: seq<RbNode>, d: seq<RbNode>, e: seq<RbNode>)
    ensures a + (b + d) + e == a + b + d + e
  {
  }

  lemma {:induction false} InorderPlug(c: Ctx, t: Tree)
    ensures Inorder(Plug(c, t)) == Before(c) + Inorder(t) + After(c)
    decreases c
  {
    match c
    case Top =>
    case InL(n, red, r, up) =>
      InorderPlug(up, Bin(t, n, red, r));
      Regroup(Before(up), Inorder(t), [n], Inorder(r), After(up));
    case InR(l, n, red, up) =>
      InorderPlug(up, Bin(l, n, red, t));
      Regroup(Before(up), Inorder(l), [n], Inorder(t), After(up));
  }

  /** A rotation keeps the in-order sequence, whatever the colours. */
  lemma {:induction false} InorderRotate(x: Tree, p: RbNode, c1: bool, y: Tree, q: RbNode, c2: bool, z: Tree, c3: bool,
                                         c4: bool)
    ensures Inorder(Bin(x, p, c1, Bin(y, q, c2, z))) == Inorder(Bin(Bin(x, p, c3, y), q, c4, z))
  {
    Regroup(Inorder(x) + [p], Inorder(y), [q], Inorder(z), []);
  }

  /** Replacing a subtree by one with the same contents keeps the contents of the whole. */
  lemma {:induction false} InorderReplace(c: Ctx, t: Tree, t': Tree)
    requires Inorder(t) == Inorder(t')
    ensures Inorder(Plug(c, t)) == Inorder(Plug(c, t'))
  {
    InorderPlug(c, t);
    InorderPlug(c, t');
  }

  function Elems(s: seq<RbNode>): set<RbNode> {
    if s == [] then {} else {s[0]} + Elems(s[1..])
  }

  lemma {:induction false} ElemsConcat(s: seq<RbNode>, s': seq<RbNode>)
    ensures Elems(s + s') == Elems(s) + Elems(s')
    decreases |s|
  {
    if s == [] {
      assert s + s' == s';
    } else {
      assert (s + s')[1..] == s[1..] + s';
      ElemsConcat(s[1..], s');
    }
  }

  lemma {:induction false} InorderNodes(t: Tree)
    ensures Elems(Inorder(t)) == Nodes(t)
    decreases t
  {
    if t.Bin? {
      InorderNodes(t.l);
      InorderNodes(t.r);
      ElemsConcat(Inorder(t.l), [t.n]);
      ElemsConcat(Inorder(t.l) + [t.n], Inorder(t.r));
    }
  }

  lemma {:induction false} SameNodes(c: Ctx, t: Tree, c': Ctx, t': Tree)
    requires Inorder(Plug(c, t)) == Inorder(Plug(c', t'))
    ensures CtxNodes(c) + Nodes(t) == CtxNodes(c') + Nodes(t')
  {
    PlugNodes(c, t); PlugNodes(c', t');
    InorderNodes(Plug(c, t)); InorderNodes(Plug(c', t'));
  }

  lemma {:induction false} ParentColor(c: Ctx, t: Tree, root: RbRoot)
    requires Zip(c, t, root)
    ensures c.Top? <==> CtxParent(c, null) == null
    ensures !c.Top? ==> c.n == CtxParent(c, null) && c.n.red == TopRed(c)
  {
  }

  // ----- red-black invariants

  /** Equal black heights `h` and no red node with a red child. */
  ghost predicate IsRB(t: Tree, h: nat) {
    match t
    case Nil => h == 0
    case Bin(l, _, red, r) =>
      if red then !IsRed(l) && !IsRed(r) && IsRB(l, h) && IsRB(r, h)
      else h > 0 && IsRB(l, h - 1) && IsRB(r, h - 1)
  }

  ghost predicate TopRed(c: Ctx) {
    !c.Top? && c.red
  }

  /** Plugging a black subtree of black height `h` into `c` gives a valid tree with a black root. */
  ghost predicate CtxRB(c: Ctx, h: nat) {
    match c
    case Top => true
    case InL(_, red, r, up) =>
      && IsRB(r, h)
      && (if red then !IsRed(r) && !up.Top? && !TopRed(up) && CtxRB(up, h) else CtxRB(up, h + 1))
    case InR(l, _, red, up) =>
      && IsRB(l, h)
      && (if red then !IsRed(l) && !up.Top? && !TopRed(up) && CtxRB(up, h) else CtxRB(up, h + 1))
  }

  ghost predicate Balanced(t: Tree) {
    !IsRed(t) && exists h: nat :: IsRB(t, h)
  }

  lemma {:induction false} PlugBalanced(c: Ctx, t: Tree, h: nat)
    requires CtxRB(c, h) && IsRB(t, h)
    requires IsRed(t) ==> !c.Top? && !TopRed(c)
    ensures Balanced(Plug(c, t))
    decreases c
  {
    match c
    case Top =>
    case InL(n, red, r, up) =>
      PlugBalanced(up, Bin(t, n, red, r), if red then h else h + 1);
    case InR(l, n, red, up) =>
      PlugBalanced(up, Bin(l, n, red, t), if red then h else h + 1);
  }

  // ----- the zipper and the whole tree denote the same links

  lemma {:induction false} PlugNodes(c: Ctx, t: Tree)
    ensures Nodes(Plug(c, t)) == CtxNodes(c) + Nodes(t)
    decreases c
  {
    match c
    case Top =>
    case InL(n, red, r, up) => PlugNodes(up, Bin(t, n, red, r));
    case InR(l, n, red, up) => PlugNodes(up, Bin(l, n, red, t));
  }

  lemma {:induction false} ZipPlug(c: Ctx, t: Tree, root: RbRoot)
    requires Zip(c, t, root)
    ensures Zip(Top, Plug(c, t), root)
    decreases c
  {
    match c
    case Top =>
    case InL(n, red, r, up) => ZipPlug(up, Bin(t, n, red, r), root);
    case InR(l, n, red, up) => ZipPlug(up, Bin(l, n, red, t), root);
  }

  /** The path to a node of `t`, on top of the context `c` of `t`. */
  function PathTo(c: Ctx, t: Tree, x: RbNode): Ctx
    requires x in Nodes(t)
    decreases t
  {
    if x == t.n then c
    else if x in Nodes(t.l) then PathTo(InL(t.n, t.red, t.r, c), t.l, x)
    else PathTo(InR(t.l, t.n, t.red, c), t.r, x)
  }

  function SubAt(t: Tree, x: RbNode): Tree
    requires x in Nodes(t)
  {
    if x == t.n then t
    else if x in Nodes(t.l) then SubAt(t.l, x)
    else SubAt(t.r, x)
  }

  lemma {:induction false} Unzip(c: Ctx, t: Tree, x: RbNode, root: RbRoot)
    requires x in Nodes(t) && Zip(c, t, root)
    ensures Zip(PathTo(c, t, x), SubAt(t, x), root)
    ensures SubAt(t, x).Bin? && SubAt(t, x).n == x
    ensures Plug(PathTo(c, t, x), SubAt(t, x)) == Plug(c, t)
    decreases t
  {
    if x == t.n {
    } else if x in Nodes(t.l) {
      Unzip(InL(t.n, t.red, t.r, c), t.l, x, root);
    } else {
      Unzip(InR(t.l, t.n, t.red, c), t.r, x, root);
    }
  }

  lemma {:induction false} UnzipRB(c: Ctx, t: Tree, x: RbNode, h: nat) returns (h': nat)
    requires x in Nodes(t) && CtxRB(c, h) && IsRB(t, h)
    requires IsRed(t) ==> !c.Top? && !TopRed(c)
    ensures var c', t' := PathTo(c, t, x), SubAt(t, x);
      CtxRB(c', h') && IsRB(t', h') && (IsRed(t') ==> !c'.Top? && !TopRed(c'))
    decreases t
  {
    var hc := if t.red then h else h - 1;
    if x == t.n {
      h' := h;
    } else if x in Nodes(t.l) {
      h' := UnzipRB(InL(t.n, t.red, t.r, c), t.l, x, hc);
    } else {
      h' := UnzipRB(InR(t.l, t.n, t.red, c), t.r, x, hc);
    }
  }
}
