/** `list_sort`: the bottom-up merge sort driven by a binary counter. */
module ListSort {
  import opened Common
  import opened ListSortSizes
  import opened ListMerge

  // ----- sorted runs of the input

  ghost predicate Positions(S: seq<ListHead>, pos: Position) {
    forall i :: 0 <= i < |S| ==> S[i] in pos && pos[S[i]] == i
  }

  /** `x` holds the elements lo to hi of the input, in stable order if `cmp` is a total preorder. */
  ghost predicate Run(x: seq<ListHead>, lo: nat, hi: nat, S: seq<ListHead>, pos: Position, cmp: Cmp) {
    && lo <= hi <= |S| && |x| == hi - lo
    && multiset(x) == multiset(S[lo..hi])
    && Distinct(x)
    && (forall k :: 0 <= k < |x| ==> x[k] in pos && lo <= pos[x[k]] < hi)
    && (TotalPreorder(pos, cmp) ==> StableSorted(x, pos, cmp))
  }

  lemma {:induction false} RunsDisjoint(x: seq<ListHead>, lo: nat, mid: nat, y: seq<ListHead>, mid': nat, hi: nat,
                                        S: seq<ListHead>, pos: Position, cmp: Cmp)
    requires Run(x, lo, mid, S, pos, cmp) && Run(y, mid', hi, S, pos, cmp) && mid <= mid'
    ensures Disjoint(x, y)
  {
  }

  lemma {:induction false} MergeRuns(x: seq<ListHead>, lo: nat, mid: nat, y: seq<ListHead>, hi: nat,
                                     S: seq<ListHead>, pos: Position, cmp: Cmp)
    requires Run(x, lo, mid, S, pos, cmp) && Run(y, mid, hi, S, pos, cmp)
    ensures Run(Merged(x, y, cmp), lo, hi, S, pos, cmp)
  {
    var m := Merged(x, y, cmp);
    MergedPerm(x, y, cmp);
    RunsDisjoint(x, lo, mid, y, mid, hi, S, pos, cmp);
    MergedDistinct(x, y, cmp);
    assert S[lo..hi] == S[lo..mid] + S[mid..hi];
    forall k | 0 <= k < |m|
      ensures m[k] in pos && lo <= pos[m[k]] < hi
    {
      MergedIn(x, y, cmp, k);
    }
    if TotalPreorder(pos, cmp) {
      assert Earlier(x, y, pos);
      MergedStable(x, y, pos, cmp);
    }
  }

  lemma {:induction false} SingletonRun(S: seq<ListHead>, i: nat, pos: Position, cmp: Cmp)
    requires i < |S| && Positions(S, pos)
    ensures Run([S[i]], i, i + 1, S, pos, cmp)
  {
    assert S[i..i + 1] == [S[i]];
  }

  // ----- the pending sublists

  /** The pending runs, newest first; run p holds the input from bounds[p + 1] to bounds[p]. */
  ghost predicate Runs(P: seq<seq<ListHead>>, bounds: seq<nat>, S: seq<ListHead>, pos: Position, cmp: Cmp) {
    && |bounds| == |P| + 1 && bounds[|P|] == 0
    && forall p {:trigger P[p]} :: 0 <= p < |P| ==> P[p] != [] && Run(P[p], bounds[p + 1], bounds[p], S, pos, cmp)
  }

  lemma {:induction false} BoundsDescend(P: seq<seq<ListHead>>, bounds: seq<nat>, S: seq<ListHead>, pos: Position,
                                         cmp: Cmp, p: nat, q: nat)
    requires Runs(P, bounds, S, pos, cmp) && p <= q <= |P|
    ensures bounds[q] <= bounds[p]
    decreases q - p
  {
    if p < q {
      BoundsDescend(P, bounds, S, pos, cmp, p + 1, q);
      assert P[p] != [];
    }
  }

  lemma {:induction false} PendingApart(P: seq<seq<ListHead>>, bounds: seq<nat>, S: seq<ListHead>, pos: Position,
                                        cmp: Cmp, p: nat, q: nat)
    requires Runs(P, bounds, S, pos, cmp) && p < q < |P|
    ensures Disjoint(P[p], P[q]) && Disjoint(P[q], P[p]) && Apart([], P[q], P[p])
  {
    BoundsDescend(P, bounds, S, pos, cmp, p + 1, q);
    RunsDisjoint(P[q], bounds[q + 1], bounds[q], P[p], bounds[p + 1], bounds[p], S, pos, cmp);
  }

  /** The runs after the sublists at j and j + 1 were merged. */
  function MergedAt(P: seq<seq<ListHead>>, j: nat, cmp: Cmp): seq<seq<ListHead>>
    requires j + 1 < |P|
  {
    P[..j] + [Merged(P[j + 1], P[j], cmp)] + P[j + 2..]
  }

  function WithoutBound(bounds: seq<nat>, j: nat): seq<nat>
    requires j + 1 < |bounds|
  {
    bounds[..j + 1] + bounds[j + 2..]
  }

  lemma {:induction false} MergeKeepsRuns(P: seq<seq<ListHead>>, bounds: seq<nat>, S: seq<ListHead>, pos: Position,
                                          cmp: Cmp, j: nat)
    requires Runs(P, bounds, S, pos, cmp) && j + 1 < |P|
    ensures Runs(MergedAt(P, j, cmp), WithoutBound(bounds, j), S, pos, cmp)
  {
    hide Run, Merged;
    var P', bounds' := MergedAt(P, j, cmp), WithoutBound(bounds, j);
    MergeRuns(P[j + 1], bounds[j + 2], bounds[j + 1], P[j], bounds[j], S, pos, cmp);
    MergedPerm(P[j + 1], P[j], cmp);
    forall p | 0 <= p < |P'|
      ensures P'[p] != [] && Run(P'[p], bounds'[p + 1], bounds'[p], S, pos, cmp)
    {
      if p < j {
        assert P'[p] == P[p] && bounds'[p] == bounds[p] && bounds'[p + 1] == bounds[p + 1];
      } else if p > j {
        assert P'[p] == P[p + 1] && bounds'[p] == bounds[p + 1] && bounds'[p + 1] == bounds[p + 2];
      }
    }
  }

  /** The sizes of the runs. */
  function Lengths(P: seq<seq<ListHead>>): seq<nat> {
    seq(|P|, p requires 0 <= p < |P| => |P[p]|)
  }

  lemma {:induction false} MergeLengths(P: seq<seq<ListHead>>, j: nat, cmp: Cmp)
    requires j + 1 < |P|
    ensures Lengths(MergedAt(P, j, cmp)) == MergeAt(Lengths(P), j)
  {
    MergedPerm(P[j + 1], P[j], cmp);
  }

  // ----- their links

  function HeadAt(P: seq<seq<ListHead>>, p: nat): ListHead? {
    if p < |P| && P[p] != [] then P[p][0] else null
  }

  ghost function HeadSet(P: seq<seq<ListHead>>): set<ListHead> {
    set p: nat | p < |P| && P[p] != [] :: P[p][0]
  }

  ghost function AllNodes(P: seq<seq<ListHead>>): set<ListHead> {
    set p: nat, k: nat | p < |P| && k < |P[p]| :: P[p][k]
  }

  /** The first elements of the runs are linked through `prev`, starting at `front`. */
  ghost predicate Heads(P: seq<seq<ListHead>>, front: ListHead?)
    reads HeadSet(P)`prev
  {
    && front == HeadAt(P, 0)
    && forall p {:trigger P[p]} :: 0 <= p < |P| ==> P[p] != [] && P[p][0].prev == HeadAt(P, p + 1)
  }

  ghost predicate Chains(P: seq<seq<ListHead>>)
    reads AllNodes(P)`next
  {
    forall p {:trigger P[p]} :: 0 <= p < |P| ==> Chain(P[p])
  }

  ghost predicate AllApart(P: seq<seq<ListHead>>) {
    forall p: nat, q: nat, i: nat, k: nat {:trigger P[p][i], P[q][k]} ::
      p < |P| && q < |P| && p != q && i < |P[p]| && k < |P[q]| ==> P[p][i] != P[q][k]
  }

  lemma {:induction false} RunsApart(P: seq<seq<ListHead>>, bounds: seq<nat>, S: seq<ListHead>, pos: Position, cmp: Cmp)
    requires Runs(P, bounds, S, pos, cmp)
    ensures AllApart(P)
  {
    forall p: nat, q: nat, i: nat, k: nat | p < |P| && q < |P| && p != q && i < |P[p]| && k < |P[q]|
      ensures P[p][i] != P[q][k]
    {
      if p < q {
        PendingApart(P, bounds, S, pos, cmp, p, q);
      } else {
        PendingApart(P, bounds, S, pos, cmp, q, p);
      }
    }
  }

  lemma {:induction false} HeadsMerged(P: seq<seq<ListHead>>, j: nat, m: seq<ListHead>, front: ListHead?)
    requires j + 1 < |P| && m != [] && forall p :: 0 <= p < |P| ==> P[p] != []
    requires front == if j == 0 then m[0] else HeadAt(P, 0)
    requires m[0].prev == HeadAt(P, j + 2)
    requires j > 0 ==> P[j - 1][0].prev == m[0]
    requires forall p {:trigger P[p]} :: 0 <= p < |P| && p != j - 1 && p != j && p != j + 1 ==>
      P[p][0].prev == HeadAt(P, p + 1)
    ensures Heads(P[..j] + [m] + P[j + 2..], front)
  {
    var P': seq<seq<ListHead>> := P[..j] + [m] + P[j + 2..];
    forall p | 0 <= p < |P'|
      ensures P'[p] != [] && P'[p][0].prev == HeadAt(P', p + 1)
    {
      if p < j {
        assert P'[p] == P[p];
      } else if p > j {
        assert P'[p] == P[p + 1];
      }
    }
  }

  lemma {:induction false} OpenChains(P: seq<seq<ListHead>>)
    requires Chains(P)
    ensures forall p {:trigger P[p]} :: 0 <= p < |P| ==> Chain(P[p])
  {
  }

  lemma {:induction false} ChainsMerged(P: seq<seq<ListHead>>, j: nat, m: seq<ListHead>)
    requires j + 1 < |P| && Chain(m)
    requires forall p {:trigger P[p]} :: 0 <= p < |P| && p != j && p != j + 1 ==> Chain(P[p])
    ensures Chains(P[..j] + [m] + P[j + 2..])
  {
    hide Chain;
    var P': seq<seq<ListHead>> := P[..j] + [m] + P[j + 2..];
    forall p | 0 <= p < |P'|
      ensures Chain(P'[p])
    {
      if p < j {
        assert P'[p] == P[p];
      } else if p > j {
        assert P'[p] == P[p + 1];
      }
    }
  }

  /** Merges the two sublists that `count` selects, of equal size, and installs the result in their place. */
  method MergePending(at: ListHead?, pending0: ListHead, cmp: Cmp, ghost j: nat, ghost P: seq<seq<ListHead>>,
                      ghost bounds: seq<nat>, ghost S: seq<ListHead>, ghost pos: Position)
    returns (pending: ListHead)
    requires Runs(P, bounds, S, pos, cmp) && Chains(P) && Heads(P, pending0)
    requires j + 1 < |P| && |P[j]| == |P[j + 1]|
    requires at == if j == 0 then null else P[j - 1][0]
    modifies AllNodes(P)
    ensures Chains(MergedAt(P, j, cmp)) && Heads(MergedAt(P, j, cmp), pending)
  {
    hide Run, Runs, Chain, Chains, Merged;
    RunsApart(P, bounds, S, pos, cmp);
    PendingApart(P, bounds, S, pos, cmp, j, j + 1);
    OpenChains(P);
    ghost var m := Merged(P[j + 1], P[j], cmp);
    assert P[j] != [] && P[j + 1] != [] && Chain(P[j]) && Chain(P[j + 1]);
    var a := if at == null then pending0 else at.prev;
    var b := a.prev;
    a := Merge(b, a, cmp, P[j + 1], P[j]);
    forall p | 0 <= p < |P| && p != j && p != j + 1
      ensures Chain(P[p])
    {
      assert forall i: nat | i < |P[p]| :: P[p][i] !in P[j] && P[p][i] !in P[j + 1];
    }
    ChainsMerged(P, j, m);
    MergedIn(P[j + 1], P[j], cmp, 0);
    a.prev := b.prev;
    pending := pending0;
    if at == null {
      pending := a;
    } else {
      at.prev := a;
    }
    HeadsMerged(P, j, m, pending);
  }

  /** Follows `prev` links past the trailing one bits of `count`. */
  method WalkTail(count: nat, pending: ListHead?, ghost P: seq<seq<ListHead>>) returns (at: ListHead?, bits: nat)
    requires Heads(P, pending) && Ones(count) <= |P|
    ensures bits == Rest(count)
    ensures at == if Ones(count) == 0 then null else P[Ones(count) - 1][0]
  {
    at, bits := null, count;
    ghost var j := 0;
    while bits % 2 == 1
      invariant j + Ones(bits) == Ones(count) && Rest(bits) == Rest(count)
      invariant at == if j == 0 then null else P[j - 1][0]
      decreases bits
    {
      assert P[j] != [];
      at := if at == null then pending else at.prev;
      bits := bits / 2;
      j := j + 1;
    }
  }

  /** Moves the first element of the input to the pending list, as a sublist of size one. */
  method Push(list: ListHead, pending: ListHead?, ghost P: seq<seq<ListHead>>,
              ghost rest: seq<ListHead>) returns (next: ListHead?)
    requires Chains(P) && Heads(P, pending) && Chain(rest) && Distinct(rest) && rest != [] && rest[0] == list
    requires list !in AllNodes(P)
    modifies list
    ensures Chains([[list]] + P) && Heads([[list]] + P, list) && Chain(rest[1..])
    ensures next == if |rest| == 1 then null else rest[1]
  {
    hide Chain, Chains;
    ChainHead(rest);
    OpenChains(P);
    NotInRest(rest);
    list.prev := pending;
    next := list.next;
    list.next := null;
    forall p | 0 <= p < |P|
      ensures Chain(P[p])
    {
      assert forall i: nat | i < |P[p]| :: P[p][i] in AllNodes(P);
    }
    ChainsPushed(P, list);
    HeadsPushed(P, list, pending);
  }

  lemma NotInRest(rest: seq<ListHead>)
    requires Distinct(rest) && rest != []
    ensures rest[0] !in rest[1..]
  {
  }

  lemma {:induction false} ChainsPushed(P: seq<seq<ListHead>>, x: ListHead)
    requires x.next == null && forall p {:trigger P[p]} :: 0 <= p < |P| ==> Chain(P[p])
    ensures Chains([[x]] + P)
  {
    var P': seq<seq<ListHead>> := [[x]] + P;
    assert Chain([x]);
    forall p | 0 <= p < |P'|
      ensures Chain(P'[p])
    {
      if p > 0 {
        assert P'[p] == P[p - 1];
      }
    }
  }

  lemma {:induction false} HeadsPushed(P: seq<seq<ListHead>>, x: ListHead, front: ListHead?)
    requires Heads(P, front) && x.prev == front
    ensures Heads([[x]] + P, x)
  {
    var P': seq<seq<ListHead>> := [[x]] + P;
    forall p | 0 <= p < |P'|
      ensures P'[p] != [] && P'[p][0].prev == HeadAt(P', p + 1)
    {
      if p > 0 {
        assert P'[p] == P[p - 1];
      }
    }
  }

  // ----- the main loop

  /** The pending runs hold elements of the input before `count`, and nothing after. */
  lemma {:induction false} RunsInside(P: seq<seq<ListHead>>, bounds: seq<nat>, S: seq<ListHead>, pos: Position,
                                      cmp: Cmp)
    requires Runs(P, bounds, S, pos, cmp) && Positions(S, pos)
    ensures forall p, k :: 0 <= p < |P| && 0 <= k < |P[p]| ==> P[p][k] in S
    ensures forall i :: bounds[0] <= i < |S| ==> S[i] !in AllNodes(P)
  {
    forall p, k | 0 <= p < |P| && 0 <= k < |P[p]|
      ensures P[p][k] in S && P[p][k] in pos && pos[P[p][k]] < bounds[0]
    {
      BoundsDescend(P, bounds, S, pos, cmp, 0, p);
      var x := P[p];
      assert Run(x, bounds[p + 1], bounds[p], S, pos, cmp);
      assert x[k] in multiset(x);
      assert x[k] in S[bounds[p + 1]..bounds[p]];
    }
  }

  lemma {:induction false} PushKeepsRuns(P: seq<seq<ListHead>>, bounds: seq<nat>, S: seq<ListHead>, pos: Position,
                                         cmp: Cmp)
    requires Runs(P, bounds, S, pos, cmp) && Positions(S, pos) && bounds[0] < |S|
    ensures Runs([[S[bounds[0]]]] + P, [bounds[0] + 1] + bounds, S, pos, cmp)
    ensures Lengths([[S[bounds[0]]]] + P) == [1] + Lengths(P)
  {
    hide Run;
    var P': seq<seq<ListHead>>, bounds' := [[S[bounds[0]]]] + P, [bounds[0] + 1] + bounds;
    SingletonRun(S, bounds[0], pos, cmp);
    forall p | 0 <= p < |P'|
      ensures P'[p] != [] && Run(P'[p], bounds'[p + 1], bounds'[p], S, pos, cmp)
    {
      if p > 0 {
        assert P'[p] == P[p - 1] && bounds'[p] == bounds[p - 1] && bounds'[p + 1] == bounds[p];
      }
    }
  }

  lemma {:induction false} AllocNodes(P: seq<seq<ListHead>>)
    ensures allocated(AllNodes(P)) && allocated(HeadSet(P))
  {
  }

  lemma {:induction false} NoRuns(S: seq<ListHead>, pos: Position, cmp: Cmp)
    ensures Runs([], [0], S, pos, cmp) && Lengths([]) == Pending(0) && Chains([]) && Heads([], null)
  {
  }

  lemma {:induction false} LengthsAre(P: seq<seq<ListHead>>)
    ensures |Lengths(P)| == |P| && forall p :: 0 <= p < |P| ==> Lengths(P)[p] == |P[p]|
  {
  }

  lemma {:induction false} RunsShape(P: seq<seq<ListHead>>, bounds: seq<nat>, S: seq<ListHead>, pos: Position, cmp: Cmp)
    requires Runs(P, bounds, S, pos, cmp)
    ensures |bounds| == |P| + 1 && bounds[|P|] == 0 && forall p :: 0 <= p < |P| ==> P[p] != []
  {
  }

  lemma {:induction false} HeadsShape(P: seq<seq<ListHead>>, front: ListHead?)
    requires Heads(P, front)
    ensures P != [] ==> P[0] != [] && front == P[0][0]
  {
  }

  lemma {:induction false} DistinctRest(S: seq<ListHead>, count: nat)
    requires Distinct(S) && count <= |S|
    ensures Distinct(S[count..])
  {
  }

  /** The do-while loop of `list_sort`: moves the whole input into pending runs. */
  method BuildRuns(list0: ListHead, cmp: Cmp, ghost S: seq<ListHead>, ghost pos: Position)
    returns (pending: ListHead, ghost P: seq<seq<ListHead>>, ghost bounds: seq<nat>)
    requires Chain(S) && Distinct(S) && Positions(S, pos) && S != [] && list0 == S[0]
    modifies S
    ensures Runs(P, bounds, S, pos, cmp) && bounds[0] == |S| && Lengths(P) == Pending(|S|)
    ensures Chains(P) && Heads(P, pending)
  {
    hide Chain, Chains, Heads, Runs, Run, Merged, Pending, Distinct, Positions, Lengths;
    var list: ListHead?, front: ListHead? := list0, null;
    var count := 0;
    P, bounds := [], [0];
    NoRuns(S, pos, cmp);
    assert S[0..] == S;
    while list != null
      invariant count <= |S| && list == (if count < |S| then S[count] else null)
      invariant Runs(P, bounds, S, pos, cmp) && bounds != [] && bounds[0] == count
      invariant Lengths(P) == Pending(count)
      invariant Chains(P) && Heads(P, front) && Chain(S[count..])
      decreases |S| - count
    {
      NextPending(count);
      LengthsAre(P);
      RunsShape(P, bounds, S, pos, cmp);
      RunsInside(P, bounds, S, pos, cmp);
      AllocNodes(P);
      ghost var j := Ones(count);
      var at, bits := WalkTail(count, front, P);
      if bits != 0 {
        HeadsShape(P, front);
        MergeKeepsRuns(P, bounds, S, pos, cmp, j);
        MergeLengths(P, j, cmp);
        front := MergePending(at, front, cmp, j, P, bounds, S, pos);
        P, bounds := MergedAt(P, j, cmp), WithoutBound(bounds, j);
        RunsShape(P, bounds, S, pos, cmp);
        RunsInside(P, bounds, S, pos, cmp);
      }
      DistinctRest(S, count);
      PushKeepsRuns(P, bounds, S, pos, cmp);
      ghost var x := list;
      var next := Push(list, front, P, S[count..]);
      front := list;
      P, bounds := [[x]] + P, [count + 1] + bounds;
      list := next;
      assert S[count..][1..] == S[count + 1..];
      count := count + 1;
    }
    FinalMergesBalanced(count);
    LengthsAre(P);
    HeadsShape(P, front);
    pending := front;
  }

  // ----- the end of the input

  lemma {:induction false} RunAt(P: seq<seq<ListHead>>, bounds: seq<nat>, S: seq<ListHead>, pos: Position, cmp: Cmp,
                                 i: nat)
    requires Runs(P, bounds, S, pos, cmp) && i < |P|
    ensures |bounds| == |P| + 1 && bounds[|P|] == 0 && P[i] != [] && Run(P[i], bounds[i + 1], bounds[i], S, pos, cmp)
  {
  }

  lemma {:induction false} RunsAreApart(x: seq<ListHead>, lo: nat, mid: nat, y: seq<ListHead>, hi: nat, head: ListHead,
                                        S: seq<ListHead>, pos: Position, cmp: Cmp)
    requires Run(x, lo, mid, S, pos, cmp) && Run(y, mid, hi, S, pos, cmp) && head !in x && head !in y
    ensures Apart([], x, y) && Apart([head], x, y)
  {
    RunsDisjoint(x, lo, mid, y, mid, hi, S, pos, cmp);
  }

  lemma TwoToOneStep(s: seq<nat>, i: nat, acc: nat)
    requires i < |s| && TwoToOne(s[i..], acc)
    ensures s[i] <= 2 * acc && acc < 2 * s[i] && TwoToOne(s[i + 1..], acc + s[i])
  {
    assert s[i..][1..] == s[i + 1..];
  }

  lemma {:induction false} HeadsNext(P: seq<seq<ListHead>>, front: ListHead?, i: nat)
    requires Heads(P, front) && i < |P|
    ensures P[i] != [] && P[i][0].prev == HeadAt(P, i + 1)
    ensures (P[i][0].prev == null <==> i + 1 == |P|) && (i + 1 < |P| ==> P[i + 1] != [] && P[i][0].prev == P[i + 1][0])
  {
    assert i + 1 < |P| ==> P[i + 1] != [];
  }

  /** A merge at the end of the input, at worst 2:1. */
  method MergeUneven(older: ListHead, newer: ListHead, cmp: Cmp, ghost A: seq<ListHead>,
                     ghost B: seq<ListHead>) returns (list: ListHead)
    requires Chain(A) && Chain(B) && Apart([], A, B)
    requires A != [] && B != [] && older == A[0] && newer == B[0]
    requires |A| <= 2 * |B| && |B| < 2 * |A|
    modifies A`next, B`next
    ensures Merged(A, B, cmp) != [] && list == Merged(A, B, cmp)[0] && Chain(Merged(A, B, cmp))
  {
    list := Merge(older, newer, cmp, A, B);
  }

  /** Merges all pending runs, smallest first, and closes the ring. */
  method MergeAll(head: ListHead, pending0: ListHead, cmp: Cmp, ghost P: seq<seq<ListHead>>, ghost bounds: seq<nat>,
                  ghost S: seq<ListHead>, ghost pos: Position) returns (ghost T: seq<ListHead>)
    requires Runs(P, bounds, S, pos, cmp) && Positions(S, pos) && Chains(P) && Heads(P, pending0) && head !in S
    requires |S| >= 2 && bounds[0] == |S| && Lengths(P) == Pending(|S|)
    modifies head, S
    ensures Ring(head, T) && Run(T, 0, |S|, S, pos, cmp)
  {
    hide Chain, Chains, Heads, Runs, Run, Merged, Pending, Positions, Lengths, TwoToOne, Apart, Ring, HeadAt, Distinct;
    FinalMergesBalanced(|S|); PendingAtLeastTwo(|S|); LengthsAre(P);
    RunsInside(P, bounds, S, pos, cmp); RunsApart(P, bounds, S, pos, cmp);
    OpenChains(P); HeadsShape(P, pending0); RunAt(P, bounds, S, pos, cmp, 0); HeadsNext(P, pending0, 0);
    var list, pending := pending0, pending0.prev;
    ghost var acc: seq<ListHead>, i := P[0], 1;
    while true
      invariant 1 <= i < |P| && pending == HeadOf(P, i) && acc != [] && list == acc[0]
      invariant Heads(P, pending0) && Chain(acc) && forall p {:trigger P[p]} :: i <= p < |P| ==> Chain(P[p])
      invariant |bounds| == |P| + 1 && Run(acc, bounds[i], |S|, S, pos, cmp)
      invariant TwoToOne(Lengths(P)[i..], |acc|)
      invariant forall k :: 0 <= k < |acc| ==> acc[k] in S
      invariant forall p: nat, k: nat, l: nat :: i <= p < |P| && k < |P[p]| && l < |acc| ==> P[p][k] != acc[l]
      decreases |P| - i
    {
      RunAt(P, bounds, S, pos, cmp, i);
      HeadsNext(P, pending0, i);
      TwoToOneStep(Lengths(P), i, |acc|);
      RunsAreApart(P[i], bounds[i + 1], bounds[i], acc, |S|, head, S, pos, cmp);
      MergeRuns(P[i], bounds[i + 1], bounds[i], acc, |S|, S, pos, cmp);
      MergedPerm(P[i], acc, cmp);
      var next := pending.prev;
      if next == null {
        break;
      }
      AllocNodes(P);
      list := MergeUneven(pending, list, cmp, P[i], acc);
      MergedFrom(P[i], acc, cmp);
      acc, i := Merged(P[i], acc, cmp), i + 1;
      pending := next;
    }
    T := Merged(P[i], acc, cmp);
    MergeFinal(head, pending, list, cmp, P[i], acc);
  }

  function HeadOf(P: seq<seq<ListHead>>, i: nat): ListHead?
    requires i < |P|
  {
    if P[i] == [] then null else P[i][0]
  }

  lemma {:induction false} MergedFrom(a: seq<ListHead>, b: seq<ListHead>, cmp: Cmp)
    ensures forall k :: 0 <= k < |Merged(a, b, cmp)| ==> Merged(a, b, cmp)[k] in a || Merged(a, b, cmp)[k] in b
  {
    forall k | 0 <= k < |Merged(a, b, cmp)|
      ensures Merged(a, b, cmp)[k] in a || Merged(a, b, cmp)[k] in b
    {
      MergedIn(a, b, cmp, k);
    }
  }

  /** The position of every element in the input. */
  function PositionsOf(S: seq<ListHead>): (pos: Position)
    requires Distinct(S)
    ensures Positions(S, pos) && forall x :: x in pos ==> x in S
  {
    map i | 0 <= i < |S| :: S[i] := i
  }

  lemma {:induction false} CutRing(head: ListHead, S: seq<ListHead>)
    requires Ring(head, S)
    ensures S == [] ==> head.next == head && head.prev == head
    ensures S != [] ==> head.next == S[0] && head.prev == S[|S| - 1]
    ensures forall i :: 0 <= i < |S| - 1 ==> S[i].next == S[i + 1]
  {
    var r := [head] + S + [head];
    assert r[0].next == r[1] && r[|S| + 1].prev == r[|S|];
    forall i | 0 <= i < |S| - 1
      ensures S[i].next == S[i + 1]
    {
      assert r[i + 1] == S[i] && r[i + 2] == S[i + 1];
    }
  }

  lemma {:induction false} WholeRun(S: seq<ListHead>, pos: Position, cmp: Cmp)
    requires |S| <= 1 && Distinct(S) && Positions(S, pos)
    ensures Run(S, 0, |S|, S, pos, cmp)
  {
    assert S[0..|S|] == S;
  }

  /**
   * `list_sort`: the ring at `head` ends up holding the same elements; sorted
   * and stable for every total preorder.
   */
  method Sort(head: ListHead, cmp: Cmp, ghost S: seq<ListHead>) returns (ghost T: seq<ListHead>)
    requires Ring(head, S) && Distinct(S) && head !in S
    modifies head, S
    ensures Ring(head, T) && multiset(T) == multiset(S)
    ensures TotalPreorder(PositionsOf(S), cmp) ==> StableSorted(T, PositionsOf(S), cmp)
  {
    ghost var pos := PositionsOf(S);
    CutRing(head, S);
    var list := head.next;
    assert S[0..|S|] == S;
    if list == head.prev {
      WholeRun(S, pos, cmp);
      return S;
    }
    head.prev.next := null;
    assert Chain(S);
    var pending, P, bounds := BuildRuns(list, cmp, S, pos);
    T := MergeAll(head, pending, cmp, P, bounds, S, pos);
  }
}
