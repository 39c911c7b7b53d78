/** Merging of intrusive lists: `merge` and `merge_final`, and merging as a function on sequences. */
module ListMerge {
  import opened Common

  /** `struct list_head`. */
  class ListHead {
    var next: ListHead?
    var prev: ListHead?

    constructor ()
      ensures next == this && prev == this
    {
      next, prev := this, this;
    }
  }

  /** The client's comparison; it looks at fields that sorting does not touch. */
  type Cmp = (ListHead, ListHead) -> int

  predicate Le(cmp: Cmp, x: ListHead, y: ListHead) {
    cmp(x, y) <= 0
  }

  // ----- merging as a function on sequences

  /** Merges `a` and `b`, taking from `a` on ties. */
  function Merged(a: seq<ListHead>, b: seq<ListHead>, cmp: Cmp): seq<ListHead>
    decreases |a| + |b|
  {
    if a == [] then b
    else if b == [] then a
    else if Le(cmp, a[0], b[0]) then [a[0]] + Merged(a[1..], b, cmp)
    else [b[0]] + Merged(a, b[1..], cmp)
  }

  lemma {:induction false} HeadMultiset(s: seq<ListHead>)
    requires s != []
    ensures multiset(s) == multiset{s[0]} + multiset(s[1..])
  {
    assert s == [s[0]] + s[1..];
  }

  lemma {:induction false} MergedPerm(a: seq<ListHead>, b: seq<ListHead>, cmp: Cmp)
    ensures multiset(Merged(a, b, cmp)) == multiset(a) + multiset(b)
    ensures |Merged(a, b, cmp)| == |a| + |b|
    decreases |a| + |b|
  {
    if a == [] {
    } else if b == [] {
    } else {
      var m := Merged(a, b, cmp);
      HeadMultiset(m);
      if Le(cmp, a[0], b[0]) {
        MergedPerm(a[1..], b, cmp);
        HeadMultiset(a);
        assert m[1..] == Merged(a[1..], b, cmp);
      } else {
        MergedPerm(a, b[1..], cmp);
        HeadMultiset(b);
        assert m[1..] == Merged(a, b[1..], cmp);
      }
    }
  }

  /** Positions of the elements in the input list. */
  type Position = map<ListHead, nat>

  /** `x` may stand before `y` in a stable sort. */
  predicate InOrder(x: ListHead, y: ListHead, pos: Position, cmp: Cmp)
    requires x in pos && y in pos
  {
    cmp(x, y) <= 0 && (cmp(y, x) <= 0 ==> pos[x] < pos[y])
  }

  ghost predicate Known(s: seq<ListHead>, pos: Position) {
    forall i :: 0 <= i < |s| ==> s[i] in pos
  }

  /** Sorted, with equivalent elements in input order. */
  ghost predicate StableSorted(s: seq<ListHead>, pos: Position, cmp: Cmp) {
    && Known(s, pos)
    && forall i, j :: 0 <= i < j < |s| ==> InOrder(s[i], s[j], pos, cmp)
  }

  ghost predicate TotalPreorder(pos: Position, cmp: Cmp) {
    && (forall x, y :: x in pos && y in pos ==> cmp(x, y) <= 0 || cmp(y, x) <= 0)
    && (forall x, y, z :: x in pos && y in pos && z in pos && cmp(x, y) <= 0 && cmp(y, z) <= 0 ==> cmp(x, z) <= 0)
  }

  ghost predicate Earlier(a: seq<ListHead>, b: seq<ListHead>, pos: Position)
    requires Known(a, pos) && Known(b, pos)
  {
    forall i, j :: 0 <= i < |a| && 0 <= j < |b| ==> pos[a[i]] < pos[b[j]]
  }

  lemma {:induction false} MergedIn(a: seq<ListHead>, b: seq<ListHead>, cmp: Cmp, i: nat)
    requires i < |Merged(a, b, cmp)|
    ensures Merged(a, b, cmp)[i] in a || Merged(a, b, cmp)[i] in b
  {
    MergedPerm(a, b, cmp);
    assert Merged(a, b, cmp)[i] in multiset(Merged(a, b, cmp));
  }

  lemma {:induction false} TakeFirst(x: ListHead, s: seq<ListHead>, pos: Position, cmp: Cmp)
    requires StableSorted(s, pos, cmp) && x in pos && forall i :: 0 <= i < |s| ==> InOrder(x, s[i], pos, cmp)
    ensures StableSorted([x] + s, pos, cmp)
  {
  }

  lemma {:induction false} StableTail(s: seq<ListHead>, pos: Position, cmp: Cmp)
    requires StableSorted(s, pos, cmp) && s != []
    ensures StableSorted(s[1..], pos, cmp)
  {
  }

  lemma {:induction false} HeadFirst(a: seq<ListHead>, b: seq<ListHead>, pos: Position, cmp: Cmp, z: ListHead)
    requires TotalPreorder(pos, cmp) && StableSorted(a, pos, cmp) && StableSorted(b, pos, cmp) && Earlier(a, b, pos)
    requires a != [] && b != [] && (z in a || z in b)
    ensures Le(cmp, a[0], b[0]) && z != a[0] ==> InOrder(a[0], z, pos, cmp)
    ensures !Le(cmp, a[0], b[0]) && z != b[0] ==> InOrder(b[0], z, pos, cmp)
  {
    if z in a {
      var i :| 0 <= i < |a| && a[i] == z;
    } else {
      var i :| 0 <= i < |b| && b[i] == z;
    }
  }

  /** Merging keeps order and stability when `a` holds the earlier elements. */
  lemma {:induction false} MergedStable(a: seq<ListHead>, b: seq<ListHead>, pos: Position, cmp: Cmp)
    requires TotalPreorder(pos, cmp) && StableSorted(a, pos, cmp) && StableSorted(b, pos, cmp) && Earlier(a, b, pos)
    ensures StableSorted(Merged(a, b, cmp), pos, cmp)
    decreases |a| + |b|
  {
    if a != [] && b != [] {
      var first := Le(cmp, a[0], b[0]);
      var x := if first then a[0] else b[0];
      var a', b' := if first then a[1..] else a, if first then b else b[1..];
      StableTail(a, pos, cmp);
      StableTail(b, pos, cmp);
      MergedStable(a', b', pos, cmp);
      var m := Merged(a', b', cmp);
      forall i | 0 <= i < |m|
        ensures InOrder(x, m[i], pos, cmp)
      {
        MergedIn(a', b', cmp, i);
        NotInTail(a, pos, cmp);
        NotInTail(b, pos, cmp);
        HeadFirst(a, b, pos, cmp, m[i]);
        if m[i] in a {
        }
      }
      TakeFirst(x, m, pos, cmp);
    }
  }

  lemma {:induction false} NotInTail(s: seq<ListHead>, pos: Position, cmp: Cmp)
    requires StableSorted(s, pos, cmp) && s != []
    ensures s[0] !in s[1..]
  {
    forall i | 0 <= i < |s[1..]|
      ensures s[1..][i] != s[0]
    {
      assert InOrder(s[0], s[i + 1], pos, cmp);
    }
  }

  // ----- merging in place

  ghost predicate Disjoint(a: seq<ListHead>, b: seq<ListHead>) {
    forall i, j :: 0 <= i < |a| && 0 <= j < |b| ==> a[i] != b[j]
  }

  /** A null-terminated singly linked list with the elements of `s`. */
  ghost predicate Chain(s: seq<ListHead>)
    reads s`next
  {
    forall i {:trigger s[i].next} :: 0 <= i < |s| ==> s[i].next == if i + 1 < |s| then s[i + 1] else null
  }

  lemma {:induction false} ChainHead(s: seq<ListHead>)
    requires s != [] && Chain(s)
    ensures s[0].next == (if |s| > 1 then s[1] else null) && Chain(s[1..])
  {
    forall i | 0 <= i < |s[1..]|
      ensures s[1..][i].next == if i + 1 < |s[1..]| then s[1..][i + 1] else null
    {
      assert s[1..][i] == s[i + 1];
    }
  }

  /** `done` is linked up to its last element, whose own `next` is not looked at. */
  ghost predicate Trail(done: seq<ListHead>)
    reads (if done == [] then [] else done[..|done| - 1])`next
  {
    forall i {:trigger done[i].next} :: 0 <= i < |done| - 1 ==> done[..|done| - 1][i].next == done[i + 1]
  }

  lemma {:induction false} TrailGrows(done: seq<ListHead>, x: ListHead)
    requires Trail(done) && (done != [] ==> done[|done| - 1].next == x)
    ensures Trail(done + [x])
  {
  }

  lemma {:induction false} TrailEnds(done: seq<ListHead>, s: seq<ListHead>)
    requires Trail(done) && done != [] && s != [] && Chain(s) && done[|done| - 1].next == s[0]
    ensures Chain(done + s)
  {
    var m := done + s;
    forall i | 0 <= i < |m|
      ensures m[i].next == if i + 1 < |m| then m[i + 1] else null
    {
      if i < |done| {
        assert m[i] == done[i];
      } else {
        assert m[i] == s[i - |done|];
      }
    }
  }

  /** What is merged so far, and the rests of both inputs, share no element. */
  ghost predicate Apart(done: seq<ListHead>, a: seq<ListHead>, b: seq<ListHead>) {
    && Distinct(done) && Distinct(a) && Distinct(b)
    && Disjoint(a, b) && Disjoint(done, a) && Disjoint(done, b)
  }

  lemma {:induction false} ApartStep(done: seq<ListHead>, a: seq<ListHead>, b: seq<ListHead>)
    requires Apart(done, a, b) && a != []
    ensures Apart(done + [a[0]], a[1..], b)
    ensures a[0] !in a[1..] && a[0] !in b && a[0] !in done
    ensures done != [] ==> done[|done| - 1] !in a && done[|done| - 1] !in b && done[|done| - 1] !in done[..|done| - 1]
  {
  }

  lemma ApartFlip(done: seq<ListHead>, a: seq<ListHead>, b: seq<ListHead>)
    requires Apart(done, a, b)
    ensures Apart(done, b, a)
  {
  }

  lemma {:induction false} MergedDistinct(a: seq<ListHead>, b: seq<ListHead>, cmp: Cmp)
    requires Distinct(a) && Distinct(b) && Disjoint(a, b)
    ensures Distinct(Merged(a, b, cmp))
    decreases |a| + |b|
  {
    if a != [] && b != [] {
      var first := Le(cmp, a[0], b[0]);
      var a', b' := if first then a[1..] else a, if first then b else b[1..];
      MergedDistinct(a', b', cmp);
      var m := Merged(a', b', cmp);
      forall i | 0 <= i < |m|
        ensures m[i] != if first then a[0] else b[0]
      {
        MergedIn(a', b', cmp, i);
      }
    }
  }

  /** One comparison of the merge loop. */
  lemma {:induction false} MergeStep(done: seq<ListHead>, a: seq<ListHead>, b: seq<ListHead>, cmp: Cmp)
    requires a != [] && b != []
    ensures var m := done + Merged(a, b, cmp);
      if Le(cmp, a[0], b[0]) then
        && m == done + [a[0]] + Merged(a[1..], b, cmp)
        && (|a| == 1 ==> m == done + [a[0]] + b)
      else
        && m == done + [b[0]] + Merged(a, b[1..], cmp)
        && (|b| == 1 ==> m == done + [b[0]] + a)
  {
    if Le(cmp, a[0], b[0]) {
      assert done + ([a[0]] + Merged(a[1..], b, cmp)) == done + [a[0]] + Merged(a[1..], b, cmp);
    } else {
      assert done + ([b[0]] + Merged(a, b[1..], cmp)) == done + [b[0]] + Merged(a, b[1..], cmp);
    }
  }

  /** `*tail = x` where a null `tail` stands for the address of `head`. */
  method StoreTail(tail: ListHead?, head0: ListHead, x: ListHead, ghost done: seq<ListHead>) returns (head: ListHead)
    requires Trail(done) && tail == (if done == [] then null else done[|done| - 1])
    requires tail != null ==> tail !in done[..|done| - 1]
    requires done != [] ==> head0 == done[0]
    modifies if tail == null then {} else {tail}`next
    ensures Trail(done + [x]) && head == (done + [x])[0]
    ensures tail != null ==> tail.next == x
  {
    hide Trail;
    head := head0;
    if tail == null {
      head := x;
    } else {
      tail.next := x;
    }
    TrailGrows(done, x);
  }

  /** Takes the first element of `xs` behind what is merged so far; `next` is the element after it. */
  method Take(tail: ListHead?, head0: ListHead, x: ListHead, ghost done: seq<ListHead>, ghost xs: seq<ListHead>,
              ghost ys: seq<ListHead>) returns (head: ListHead, next: ListHead?)
    requires Chain(xs) && Chain(ys) && Apart(done, xs, ys) && Trail(done) && xs != [] && x == xs[0]
    requires tail == (if done == [] then null else done[|done| - 1]) && (done != [] ==> head0 == done[0])
    modifies if tail == null then {} else {tail}`next
    ensures Chain(xs[1..]) && Chain(ys) && Apart(done + [x], xs[1..], ys) && Trail(done + [x])
    ensures head == (done + [x])[0] && next == (if |xs| == 1 then null else xs[1]) && x !in done && x !in ys
  {
    hide Chain, Trail, Apart;
    ApartStep(done, xs, ys);
    ChainHead(xs);
    head := StoreTail(tail, head0, x, done);
    next := x.next;
  }

  /** Links what is left of the other list behind the last element that was merged. */
  method LinkRest(tail: ListHead, rest: ListHead, ghost done: seq<ListHead>, ghost s: seq<ListHead>)
    requires Trail(done) && Chain(s) && done != [] && tail == done[|done| - 1] && s != [] && rest == s[0]
    requires tail !in done[..|done| - 1] && tail !in s
    modifies tail`next
    ensures Chain(done + s)
  {
    hide Chain, Trail;
    tail.next := rest;
    TrailEnds(done, s);
  }

  /** `merge`: merges two non-empty chains by relinking them through a tail pointer. */
  method Merge(a0: ListHead, b0: ListHead, cmp: Cmp, ghost A: seq<ListHead>,
               ghost B: seq<ListHead>) returns (head: ListHead)
    requires Chain(A) && Chain(B) && Apart([], A, B)
    requires A != [] && B != [] && a0 == A[0] && b0 == B[0]
    modifies A`next, B`next
    ensures var m := Merged(A, B, cmp); m != [] && head == m[0] && Chain(m)
  {
    hide Merged, Chain, Trail, Apart, Le;
    var a, b := a0, b0;
    head := a0;
    var tail: ListHead?, next: ListHead? := null, null;
    ghost var ra, rb, done: seq<ListHead> := A, B, [];
    TrailEmpty();
    while true
      invariant ra != [] && rb != [] && a == ra[0] && b == rb[0]
      invariant (forall i :: 0 <= i < |ra| ==> ra[i] in A) && (forall i :: 0 <= i < |rb| ==> rb[i] in B)
      invariant Chain(ra) && Chain(rb) && Apart(done, ra, rb) && Trail(done)
      invariant done + Merged(ra, rb, cmp) == Merged(A, B, cmp)
      invariant tail == if done == [] then null else done[|done| - 1]
      invariant tail == null || tail in A || tail in B
      invariant done != [] ==> head == done[0]
      decreases |ra| + |rb|
    {
      MergeStep(done, ra, rb, cmp);
      if Le(cmp, a, b) {
        head, next := Take(tail, head, a, done, ra, rb);
        tail := a;
        done, ra := done + [a], ra[1..];
        if next == null {
          LinkRest(a, b, done, rb);
          return;
        }
        a := next;
      } else {
        ApartFlip(done, ra, rb);
        head, next := Take(tail, head, b, done, rb, ra);
        tail := b;
        done, rb := done + [b], rb[1..];
        ApartFlip(done, rb, ra);
        if next == null {
          LinkRest(b, a, done, ra);
          return;
        }
        b := next;
      }
    }
  }

  lemma TrailEmpty()
    ensures Trail([])
  {
  }

  /** `head` and the elements of `s` form a circular doubly linked list. */
  ghost predicate Ring(head: ListHead, s: seq<ListHead>)
    reads head, s
  {
    var r := [head] + s + [head];
    forall i {:trigger r[i].next} {:trigger r[i + 1].prev} :: 0 <= i <= |s| ==>
        r[i].next == r[i + 1] && r[i + 1].prev == r[i]
  }

  /** The `prev` links of all but the first element of `r` lead back to the one before. */
  ghost predicate BackTrail(r: seq<ListHead>)
    reads (if r == [] then [] else r[1..])`prev
  {
    forall i {:trigger r[i]} :: 0 < i < |r| ==> r[1..][i - 1].prev == r[i - 1]
  }

  lemma {:induction false} BackTrailGrows(r: seq<ListHead>, x: ListHead)
    requires BackTrail(r) && r != [] && x.prev == r[|r| - 1]
    ensures BackTrail(r + [x])
  {
  }

  lemma {:induction false} RingCloses(head: ListHead, r: seq<ListHead>)
    requires Trail(r) && BackTrail(r) && |r| > 1 && r[0] == head
    requires r[|r| - 1].next == head && head.prev == r[|r| - 1]
    ensures Ring(head, r[1..])
  {
    var s := r[1..];
    var z := [head] + s + [head];
    assert forall i :: 0 <= i < |r| ==> z[i] == r[i];
  }

  lemma TrailOne(head: ListHead)
    ensures Trail([head]) && BackTrail([head])
  {
  }

  /** Hooks `x` behind `tail`, both ways. */
  method Append(tail: ListHead, x: ListHead, ghost r: seq<ListHead>)
    requires Trail(r) && BackTrail(r) && r != [] && tail == r[|r| - 1]
    requires x !in r && tail !in r[..|r| - 1]
    modifies tail`next, x`prev
    ensures Trail(r + [x]) && BackTrail(r + [x])
  {
    hide Trail, BackTrail;
    tail.next := x;
    x.prev := tail;
    TrailGrows(r, x);
    BackTrailGrows(r, x);
  }

  /** The first half of `merge_final`: merges until one list runs out; `rest` is what remains of the other. */
  method MergeBothWays(head: ListHead, a0: ListHead, b0: ListHead, cmp: Cmp, ghost A: seq<ListHead>,
                       ghost B: seq<ListHead>)
    returns (tail: ListHead, b: ListHead, ghost r: seq<ListHead>, ghost rest: seq<ListHead>)
    requires Chain(A) && Chain(B) && Apart([head], A, B)
    requires A != [] && B != [] && a0 == A[0] && b0 == B[0]
    modifies head, A, B
    ensures r + rest == [head] + Merged(A, B, cmp) && |r| > 1 && r[0] == head && rest != []
    ensures tail == r[|r| - 1] && b == rest[0] && (tail in A || tail in B)
    ensures Trail(r) && BackTrail(r) && Chain(rest) && Apart(r, rest, [])
    ensures (forall i :: 0 <= i < |rest| ==> rest[i] in A) || (forall i :: 0 <= i < |rest| ==> rest[i] in B)
  {
    hide Merged, Chain, Trail, BackTrail, Apart, Le;
    var a: ListHead := a0;
    b, tail := b0, head;
    ghost var ra, rb: seq<ListHead> := A, B;
    r := [head];
    TrailOne(head);
    while true
      invariant ra != [] && rb != [] && a == ra[0] && b == rb[0]
      invariant (forall i :: 0 <= i < |ra| ==> ra[i] in A) && (forall i :: 0 <= i < |rb| ==> rb[i] in B)
      invariant Chain(ra) && Chain(rb) && Apart(r, ra, rb) && Trail(r) && BackTrail(r)
      invariant r + Merged(ra, rb, cmp) == [head] + Merged(A, B, cmp)
      invariant r != [] && r[0] == head && tail == r[|r| - 1]
      invariant tail == head || tail in A || tail in B
      decreases |ra| + |rb|
    {
      MergeStep(r, ra, rb, cmp);
      ChainHead(ra);
      ChainHead(rb);
      if Le(cmp, a, b) {
        ApartStep(r, ra, rb);
        Append(tail, a, r);
        tail := a;
        r, ra := r + [a], ra[1..];
        if a.next == null {
          rest := rb;
          ApartRest(r, ra, rb);
          return;
        }
        a := a.next;
      } else {
        ApartFlip(r, ra, rb);
        ApartStep(r, rb, ra);
        Append(tail, b, r);
        tail := b;
        r, rb := r + [b], rb[1..];
        ApartFlip(r, rb, ra);
        if b.next == null {
          b := a;
          rest := ra;
          ApartRest(r, ra, rb);
          return;
        }
        b := b.next;
      }
    }
  }

  /** `merge_final`: the last merge, restoring `prev` links and closing the circle at `head`. */
  method MergeFinal(head: ListHead, a0: ListHead, b0: ListHead, cmp: Cmp, ghost A: seq<ListHead>,
                    ghost B: seq<ListHead>)
    requires Chain(A) && Chain(B) && Apart([head], A, B)
    requires A != [] && B != [] && a0 == A[0] && b0 == B[0]
    modifies head, A, B
    ensures Ring(head, Merged(A, B, cmp))
  {
    hide Merged, Chain, Trail, BackTrail, Apart, Ring;
    var tail, b, r, rest := MergeBothWays(head, a0, b0, cmp, A, B);
    LinkBack(head, tail, b, r, rest);
    assert (r + rest)[1..] == Merged(A, B, cmp);
  }

  /** The second half of `merge_final`: links the remainder `rest` back and closes the circle. */
  method LinkBack(head: ListHead, tail0: ListHead, b0: ListHead, ghost r0: seq<ListHead>, ghost rest0: seq<ListHead>)
    requires |r0| > 1 && r0[0] == head && tail0 == r0[|r0| - 1] && Trail(r0) && BackTrail(r0)
    requires rest0 != [] && b0 == rest0[0] && Chain(rest0) && Apart(r0, rest0, [])
    modifies head, tail0, rest0
    ensures Ring(head, (r0 + rest0)[1..])
  {
    hide Chain, Trail, BackTrail, Apart, Ring;
    var tail: ListHead, b: ListHead? := tail0, b0;
    ghost var r: seq<ListHead>, rest: seq<ListHead> := r0, rest0;
    ApartStep(r, rest, []);
    tail.next := b;
    while b != null
      invariant r + rest == r0 + rest0 && |r| > 1 && r[0] == head && tail == r[|r| - 1]
      invariant b == if rest == [] then null else rest[0]
      invariant rest != [] ==> tail.next == b
      invariant forall i :: 0 <= i < |rest| ==> rest[i] in rest0
      invariant tail == tail0 || tail in rest0
      invariant Chain(rest) && Apart(r, rest, []) && Trail(r) && BackTrail(r)
      decreases |rest|
    {
      ChainHead(rest);
      ApartStep(r, rest, []);
      b.prev := tail;
      TrailGrows(r, b);
      BackTrailGrows(r, b);
      MoveHead(r, rest);
      r, rest := r + [b], rest[1..];
      tail := b;
      b := b.next;
    }
    LastApart(r);
    assert r == r0 + rest0;
    tail.next := head;
    head.prev := tail;
    RingCloses(head, r);
  }

  lemma {:induction false} MoveHead(r: seq<ListHead>, rest: seq<ListHead>)
    requires rest != []
    ensures r + rest == r + [rest[0]] + rest[1..]
  {
  }

  lemma ApartRest(r: seq<ListHead>, a: seq<ListHead>, b: seq<ListHead>)
    requires Apart(r, a, b)
    ensures Apart(r, a, []) && Apart(r, b, [])
  {
  }

  lemma {:induction false} LastApart(r: seq<ListHead>)
    requires Apart(r, [], []) && |r| > 1
    ensures r[|r| - 1] !in r[..|r| - 1] && r[0] !in r[1..]
  {
  }
}
