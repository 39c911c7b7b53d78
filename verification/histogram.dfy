/** `Distribution`: the power-of-two histogram of latencies. */
module Histogram {
  import opened Common

  /** The slot of a value: 0 for 0 and 1, otherwise the position of its highest bit. */
  function SlotOf(val: nat): nat {
    if val <= 1 then 0 else 1 + SlotOf(val / 2)
  }

  function Low(slot: nat): nat {
    if slot == 0 then 0 else Pow2(slot)
  }

  function High(slot: nat): nat {
    Pow2(slot + 1) - 1
  }

  /** A value lies between the printed bounds of its slot. */
  lemma {:induction false} SlotBounds(val: nat)
    ensures Low(SlotOf(val)) <= val <= High(SlotOf(val))
    decreases val
  {
    if val > 1 {
      SlotBounds(val / 2);
    }
  }

  lemma {:induction false} Pow2Monotone(i: nat, k: nat)
    requires i <= k
    ensures Pow2(i) <= Pow2(k)
    decreases k
  {
    if i < k {
      Pow2Monotone(i, k - 1);
    }
  }

  /** No other slot has the value between its bounds. */
  lemma {:induction false} SlotUnique(val: nat, slot: nat)
    requires Low(slot) <= val <= High(slot)
    ensures slot == SlotOf(val)
  {
    SlotBounds(val);
    var s := SlotOf(val);
    if slot < s {
      Pow2Monotone(slot + 1, s);
    } else if s < slot {
      Pow2Monotone(s + 1, slot);
    }
  }

  // ----- the distribution as a value

  datatype Dist = Dist(slots: seq<nat>, total: nat, count: nat)

  const EmptyDist := Dist([], 0, 0)

  function Padded(s: seq<nat>, n: nat): (p: seq<nat>)
    ensures |p| == if |s| < n then n else |s|
    ensures forall i :: 0 <= i < |p| ==> p[i] == if i < |s| then s[i] else 0
  {
    if |s| < n then s + seq(n - |s|, _ => 0) else s
  }

  function Assign(d: Dist, val: nat): Dist {
    var p := Padded(d.slots, SlotOf(val) + 1);
    Dist(p[SlotOf(val) := p[SlotOf(val)] + 1], d.total + val, d.count + 1)
  }

  function Merge(d: Dist, e: Dist): Dist {
    var p := Padded(d.slots, |e.slots|);
    Dist(seq(|p|, i requires 0 <= i < |p| => p[i] + if i < |e.slots| then e.slots[i] else 0), d.total + e.total,
        d.count + e.count)
  }

  // ----- what a distribution stands for

  function Sum(s: seq<nat>): nat {
    if s == [] then 0 else s[0] + Sum(s[1..])
  }

  /** How many of `vals` fall into `slot`. */
  function Hits(vals: seq<nat>, slot: nat): nat {
    if vals == [] then 0 else (if SlotOf(vals[0]) == slot then 1 else 0) + Hits(vals[1..], slot)
  }

  function At(s: seq<nat>, i: nat): nat {
    if i < |s| then s[i] else 0
  }

  /** The distribution after adding `vals` one by one. */
  function Of(vals: seq<nat>): Dist {
    if vals == [] then EmptyDist else Assign(Of(vals[..|vals| - 1]), vals[|vals| - 1])
  }

  lemma {:induction false} AssignOf(vals: seq<nat>, x: nat)
    ensures Assign(Of(vals), x) == Of(vals + [x])
  {
    assert (vals + [x])[..|vals|] == vals;
  }

  /** One more than the highest slot in use. */
  function Width(vals: seq<nat>): nat {
    if vals == [] then 0
    else
      var w := Width(vals[..|vals| - 1]);
      var s := SlotOf(vals[|vals| - 1]) + 1;
      if w < s then s else w
  }

  lemma {:induction false} HitsConcat(a: seq<nat>, b: seq<nat>, slot: nat)
    ensures Hits(a + b, slot) == Hits(a, slot) + Hits(b, slot)
    decreases |a|
  {
    if a == [] {
      assert a + b == b;
    } else {
      assert (a + b)[1..] == a[1..] + b;
      HitsConcat(a[1..], b, slot);
    }
  }

  lemma {:induction false} SumConcat(a: seq<nat>, b: seq<nat>)
    ensures Sum(a + b) == Sum(a) + Sum(b)
    decreases |a|
  {
    if a == [] {
      assert a + b == b;
    } else {
      assert (a + b)[1..] == a[1..] + b;
      SumConcat(a[1..], b);
    }
  }

  /** What the fields hold after any number of additions. */
  lemma {:induction false} OfIs(vals: seq<nat>)
    ensures Of(vals).count == |vals| && Of(vals).total == Sum(vals)
    ensures |Of(vals).slots| == Width(vals)
    ensures forall i: nat {:trigger Hits(vals, i)} :: At(Of(vals).slots, i) == Hits(vals, i)
    decreases |vals|
  {
    if vals != [] {
      var a, x := vals[..|vals| - 1], vals[|vals| - 1];
      OfIs(a);
      assert vals == a + [x];
      SumConcat(a, [x]);
      forall i: nat
        ensures At(Of(vals).slots, i) == Hits(vals, i)
      {
        HitsConcat(a, [x], i);
        assert Hits(a, i) == At(Of(a).slots, i);
      }
    }
  }

  lemma {:induction false} WidthConcat(a: seq<nat>, b: seq<nat>)
    ensures Width(a + b) == if Width(a) < Width(b) then Width(b) else Width(a)
    decreases |b|
  {
    if b == [] {
      assert a + b == a;
    } else {
      var b', x := b[..|b| - 1], b[|b| - 1];
      assert (a + b)[..|a + b| - 1] == a + b';
      WidthConcat(a, b');
    }
  }

  /** Merging two threads' distributions is adding all their values to one. */
  lemma {:induction false} MergeOf(a: seq<nat>, b: seq<nat>)
    ensures Merge(Of(a), Of(b)) == Of(a + b)
  {
    OfIs(a); OfIs(b); OfIs(a + b);
    SumConcat(a, b); WidthConcat(a, b);
    var m, d := Merge(Of(a), Of(b)), Of(a + b);
    forall i | 0 <= i < |m.slots|
      ensures m.slots[i] == d.slots[i]
    {
      HitsConcat(a, b, i);
      assert Hits(a, i) == At(Of(a).slots, i) && Hits(b, i) == At(Of(b).slots, i);
      assert Hits(a + b, i) == At(d.slots, i);
    }
  }

  // ----- independence of the order

  lemma {:induction false} Extract(x: nat, b: seq<nat>) returns (k: nat)
    requires x in b
    ensures k < |b| && b[k] == x
    ensures multiset(b[..k] + b[k + 1..]) == multiset(b) - multiset{x}
    ensures Sum(b) == x + Sum(b[..k] + b[k + 1..])
    ensures forall i: nat :: Hits(b, i) == Hits([x] + (b[..k] + b[k + 1..]), i)
    ensures Width(b) == Width([x] + (b[..k] + b[k + 1..]))
  {
    k :| 0 <= k < |b| && b[k] == x;
    var l, r := b[..k], b[k + 1..];
    assert b == l + [x] + r;
    SumConcat(l + [x], r); SumConcat(l, [x]); SumConcat(l, r);
    WidthConcat(l + [x], r); WidthConcat(l, [x]); WidthConcat([x], l + r); WidthConcat(l, r);
    forall i: nat
      ensures Hits(b, i) == Hits([x] + (l + r), i)
    {
      HitsConcat(l + [x], r, i); HitsConcat(l, [x], i); HitsConcat([x], l + r, i); HitsConcat(l, r, i);
    }
  }

  lemma {:induction false} PermutedHits(a: seq<nat>, b: seq<nat>)
    requires multiset(a) == multiset(b)
    ensures Sum(a) == Sum(b) && Width(a) == Width(b) && |a| == |b|
    ensures forall i: nat :: Hits(a, i) == Hits(b, i)
    decreases |a|
  {
    if a == [] {
      assert |multiset(b)| == 0;
    } else {
      var x, a' := a[0], a[1..];
      assert a == [x] + a';
      assert x in multiset(b);
      var k := Extract(x, b);
      var b' := b[..k] + b[k + 1..];
      PermutedHits(a', b');
      SumConcat([x], a'); WidthConcat([x], a'); WidthConcat([x], b');
      forall i: nat
        ensures Hits(a, i) == Hits(b, i)
      {
        HitsConcat([x], a', i); HitsConcat([x], b', i);
      }
    }
  }

  /** The whole state depends only on the multiset of values. */
  lemma {:induction false} OrderIrrelevant(a: seq<nat>, b: seq<nat>)
    requires multiset(a) == multiset(b)
    ensures Of(a) == Of(b)
  {
    PermutedHits(a, b);
    OfIs(a); OfIs(b);
    forall i | 0 <= i < |Of(a).slots|
      ensures Of(a).slots[i] == Of(b).slots[i]
    {
      assert Hits(a, i) == At(Of(a).slots, i) && Hits(b, i) == At(Of(b).slots, i);
    }
  }

  /** Any way of adding values to distributions and merging them. */
  datatype Plan = Fresh | Add(p: Plan, val: nat) | Join(l: Plan, r: Plan)

  function Eval(p: Plan): Dist {
    match p
    case Fresh => EmptyDist
    case Add(q, v) => Assign(Eval(q), v)
    case Join(l, r) => Merge(Eval(l), Eval(r))
  }

  function Values(p: Plan): seq<nat> {
    match p
    case Fresh => []
    case Add(q, v) => Values(q) + [v]
    case Join(l, r) => Values(l) + Values(r)
  }

  lemma {:induction false} EvalIs(p: Plan)
    ensures Eval(p) == Of(Values(p))
    decreases p
  {
    match p
    case Fresh =>
    case Add(q, v) =>
      EvalIs(q);
      assert Values(p)[..|Values(p)| - 1] == Values(q);
    case Join(l, r) =>
      EvalIs(l); EvalIs(r);
      MergeOf(Values(l), Values(r));
  }

  /** Two plans over the same values end in the same distribution. */
  lemma {:induction false} PlansAgree(p: Plan, q: Plan)
    requires multiset(Values(p)) == multiset(Values(q))
    ensures Eval(p) == Eval(q)
  {
    EvalIs(p); EvalIs(q);
    OrderIrrelevant(Values(p), Values(q));
  }

  // ----- count and total against the slots

  /** The sum over all slots of count times `bound`. */
  function Weighted(slots: seq<nat>, i: nat, bound: nat -> nat): nat
    requires i <= |slots|
    decreases |slots| - i
  {
    if i == |slots| then 0 else slots[i] * bound(i) + Weighted(slots, i + 1, bound)
  }

  lemma {:induction false} WeightedZeros(slots: seq<nat>, i: nat, bound: nat -> nat)
    requires i <= |slots| && forall k :: i <= k < |slots| ==> slots[k] == 0
    ensures Weighted(slots, i, bound) == 0
    decreases |slots| - i
  {
    if i < |slots| {
      WeightedZeros(slots, i + 1, bound);
    }
  }

  lemma {:induction false} WeightedPadded(slots: seq<nat>, n: nat, i: nat, bound: nat -> nat)
    requires i <= |slots|
    ensures Weighted(Padded(slots, n), i, bound) == Weighted(slots, i, bound)
    decreases |slots| - i
  {
    if i == |slots| {
      WeightedZeros(Padded(slots, n), i, bound);
    } else {
      WeightedPadded(slots, n, i + 1, bound);
    }
  }

  lemma {:induction false} WeightedBump(slots: seq<nat>, j: nat, i: nat, bound: nat -> nat)
    requires i <= |slots| && j < |slots|
    ensures Weighted(slots[j := slots[j] + 1], i, bound) == Weighted(slots, i, bound) + if i <= j then bound(j) else 0
    decreases |slots| - i
  {
    if i < |slots| {
      WeightedBump(slots, j, i + 1, bound);
      if i == j {
        assert (slots[j] + 1) * bound(j) == slots[j] * bound(j) + bound(j);
      }
    }
  }

  lemma {:induction false} AssignWeighted(d: Dist, val: nat, bound: nat -> nat)
    ensures Weighted(Assign(d, val).slots, 0, bound) == Weighted(d.slots, 0, bound) + bound(SlotOf(val))
  {
    var p := Padded(d.slots, SlotOf(val) + 1);
    WeightedPadded(d.slots, SlotOf(val) + 1, 0, bound);
    WeightedBump(p, SlotOf(val), 0, bound);
  }

  const One: nat -> nat := (_: nat) => 1
  const LowOf: nat -> nat := (i: nat) => Low(i)
  const HighOf: nat -> nat := (i: nat) => High(i)

  /** `count` is the sum of the slots and `total` lies between the sums of their bounds. */
  lemma {:induction false} SlotsBracketTotal(vals: seq<nat>)
    ensures var d := Of(vals);
      && Weighted(d.slots, 0, One) == d.count
      && Weighted(d.slots, 0, LowOf) <= d.total <= Weighted(d.slots, 0, HighOf)
    decreases |vals|
  {
    if vals != [] {
      var a, x := vals[..|vals| - 1], vals[|vals| - 1];
      SlotsBracketTotal(a);
      AssignWeighted(Of(a), x, One); AssignWeighted(Of(a), x, LowOf); AssignWeighted(Of(a), x, HighOf);
      SlotBounds(x);
    }
  }

  // ----- machine widths

  /** A distribution cut to 32-bit slots and count and a 64-bit total. */
  function Cut(d: Dist): Dist {
    Dist(seq(|d.slots|, i requires 0 <= i < |d.slots| => d.slots[i] % U32), d.total % U64, d.count % U32)
  }

  /** Nothing would be cut. */
  predicate Narrow(d: Dist) {
    d.total < U64 && d.count < U32 && forall i :: 0 <= i < |d.slots| ==> d.slots[i] < U32
  }

  lemma {:induction false} CutNarrow(d: Dist)
    ensures Cut(d) == d <==> Narrow(d)
  {
    if Narrow(d) {
      assert Cut(d).slots == d.slots;
    } else if exists i :: 0 <= i < |d.slots| && d.slots[i] >= U32 {
      var i :| 0 <= i < |d.slots| && d.slots[i] >= U32;
      assert Cut(d).slots[i] != d.slots[i];
    }
  }

  lemma {:induction false} CutAt(d: Dist, i: nat)
    ensures |Cut(d).slots| == |d.slots| && At(Cut(d).slots, i) == At(d.slots, i) % U32
    ensures Cut(d).total == d.total % U64 && Cut(d).count == d.count % U32
  {
  }

  lemma {:induction false} MergeAt(d: Dist, e: Dist, i: nat)
    ensures |Merge(d, e).slots| == if |d.slots| < |e.slots| then |e.slots| else |d.slots|
    ensures At(Merge(d, e).slots, i) == At(d.slots, i) + At(e.slots, i)
    ensures Merge(d, e).total == d.total + e.total && Merge(d, e).count == d.count + e.count
  {
  }

  lemma {:induction false} AssignAt(d: Dist, val: nat, i: nat)
    ensures |Assign(d, val).slots| == if |d.slots| < SlotOf(val) + 1 then SlotOf(val) + 1 else |d.slots|
    ensures At(Assign(d, val).slots, i) == At(d.slots, i) + if i == SlotOf(val) then 1 else 0
    ensures Assign(d, val).total == d.total + val && Assign(d, val).count == d.count + 1
  {
  }

  lemma {:induction false} SameDist(d: Dist, e: Dist)
    requires |d.slots| == |e.slots| && d.total == e.total && d.count == e.count
    requires forall i: nat :: At(d.slots, i) == At(e.slots, i)
    ensures d == e
  {
    forall i | 0 <= i < |d.slots|
      ensures d.slots[i] == e.slots[i]
    {
      assert At(d.slots, i) == At(e.slots, i);
    }
  }

  /** Cutting early does not matter. */
  lemma {:induction false} CutAssign(d: Dist, val: nat)
    ensures Cut(Assign(Cut(d), val)) == Cut(Assign(d, val))
  {
    hide Cut, Assign, At;
    var l, r := Assign(Cut(d), val), Assign(d, val);
    forall i: nat
      ensures At(Cut(l).slots, i) == At(Cut(r).slots, i)
    {
      CutAt(l, i); CutAt(r, i); CutAt(d, i);
      AssignAt(Cut(d), val, i); AssignAt(d, val, i);
      Wrap(At(d.slots, i), 1); Wrap(At(d.slots, i), 0);
    }
    CutAt(l, 0); CutAt(r, 0); CutAt(d, 0);
    AssignAt(Cut(d), val, 0); AssignAt(d, val, 0);
    Wrap(d.count, 1); WrapTotal(d.total, val);
    SameDist(Cut(l), Cut(r));
  }

  lemma {:induction false} CutMerge(d: Dist, e: Dist)
    ensures Cut(Merge(Cut(d), Cut(e))) == Cut(Merge(d, e))
  {
    hide Cut, Merge, At;
    var l, r := Merge(Cut(d), Cut(e)), Merge(d, e);
    forall i: nat
      ensures At(Cut(l).slots, i) == At(Cut(r).slots, i)
    {
      CutAt(l, i); CutAt(r, i); CutAt(d, i); CutAt(e, i);
      MergeAt(Cut(d), Cut(e), i); MergeAt(d, e, i);
      Wrap(At(d.slots, i), At(e.slots, i));
    }
    CutAt(l, 0); CutAt(r, 0); CutAt(d, 0); CutAt(e, 0);
    MergeAt(Cut(d), Cut(e), 0); MergeAt(d, e, 0);
    Wrap(d.count, e.count); WrapTotal(d.total, e.total);
    SameDist(Cut(l), Cut(r));
  }

  lemma {:induction false} Wrap(x: nat, y: nat)
    ensures (x % U32 + y) % U32 == (x + y) % U32 == (x % U32 + y % U32) % U32
  {
  }

  lemma {:induction false} WrapTotal(x: nat, y: nat)
    ensures (x % U64 + y) % U64 == (x + y) % U64 == (x % U64 + y % U64) % U64
  {
  }

  /** Values from 2^63 on make the loop of `assign_slot` shift by 64, which C++ does not define. */
  const MAX_VALUE := 0x8000_0000_0000_0000

  /** What a machine does with a plan: every result is cut. */
  function Stored(p: Plan): Dist {
    match p
    case Fresh => EmptyDist
    case Add(q, v) => Cut(Assign(Stored(q), v))
    case Join(l, r) => Cut(Merge(Stored(l), Stored(r)))
  }

  lemma {:induction false} StoredIsCut(p: Plan)
    ensures Stored(p) == Cut(Eval(p))
    decreases p
  {
    hide Cut, Assign, Merge;
    match p
    case Fresh =>
      CutEmpty();
    case Add(q, v) =>
      StoredIsCut(q);
      CutAssign(Eval(q), v);
    case Join(l, r) =>
      StoredIsCut(l); StoredIsCut(r);
      CutMerge(Eval(l), Eval(r));
  }

  lemma {:induction false} CutEmpty()
    ensures Cut(EmptyDist) == EmptyDist
  {
  }

  lemma {:induction false} HitsBounded(vals: seq<nat>, slot: nat)
    ensures Hits(vals, slot) <= |vals|
    decreases |vals|
  {
    if vals != [] {
      HitsBounded(vals[1..], slot);
    }
  }

  lemma {:induction false} NarrowIff(vals: seq<nat>)
    ensures Narrow(Of(vals)) <==> |vals| < U32 && Sum(vals) < U64
  {
    hide Of, Sum;
    OfIs(vals);
    forall i | 0 <= i < |Of(vals).slots|
      ensures Of(vals).slots[i] <= |vals|
    {
      assert At(Of(vals).slots, i) == Hits(vals, i);
      HitsBounded(vals, i);
    }
  }

  /** The stored distribution is the exact one if and only if there are fewer than 2^32 values with a sum below 2^64. */
  lemma {:induction false} StoredExactIff(p: Plan)
    ensures Stored(p) == Of(Values(p)) <==> |Values(p)| < U32 && Sum(Values(p)) < U64
  {
    hide Of, Sum, Values, Cut, Narrow;
    EvalIs(p);
    StoredIsCut(p);
    CutNarrow(Of(Values(p)));
    NarrowIff(Values(p));
  }

  /** Four values of 2^62 are stored with a total of 0. */
  lemma {:induction false} FourWrap()
    ensures var v := MAX_VALUE / 2; Stored(Add(Add(Add(Add(Fresh, v), v), v), v)).total == 0
  {
    var v := MAX_VALUE / 2;
    var p := Add(Fresh, v);
    assert Stored(p).total == v;
    assert Stored(Add(p, v)).total == 2 * v;
    assert Stored(Add(Add(p, v), v)).total == 3 * v;
  }

  // ----- the object

  class Distribution {
    var total: nat
    var count: nat
    var slots: seq<nat>

    function View(): Dist
      reads this
    {
      Dist(slots, total, count)
    }

    /** The fields are in the range of their types. */
    predicate Valid()
      reads this
    {
      Narrow(View())
    }

    constructor ()
      ensures Valid() && View() == EmptyDist
    {
      total, count, slots := 0, 0, [];
    }

    /** `assign_slot`: tries the slots in turn until the value fits. */
    method AssignSlot(val: nat)
      requires Valid() && val < MAX_VALUE
      modifies this
      ensures Valid() && View() == Cut(Assign(old(View()), val))
    {
      var i, low, high := 0, 0, 1;
      while !(low <= val <= high)
        invariant low == Low(i) && high == High(i) && low <= val
        decreases val - low
      {
        i := i + 1;
        low, high := high + 1, 2 * high + 1;
      }
      SlotUnique(val, i);
      if |slots| < i + 1 {
        slots := slots + seq(i + 1 - |slots|, _ => 0);
      }
      slots := slots[i := (slots[i] + 1) % U32];
      total := (total + val) % U64;
      count := (count + 1) % U32;
    }

    /** `merge_slots`. */
    method MergeSlots(dist: Distribution)
      requires Valid() && dist.Valid()
      modifies this
      ensures Valid() && View() == Cut(Merge(old(View()), old(dist.View())))
    {
      var added := dist.slots;
      var size := |added|;
      if |slots| < size {
        slots := slots + seq(size - |slots|, _ => 0);
      }
      ghost var padded := slots;
      for i := 0 to size
        invariant |slots| == |padded|
        invariant forall k :: 0 <= k < |slots| ==> slots[k] == (padded[k] + if k < i then added[k] else 0) % U32
        invariant total == old(total) && count == old(count)
        invariant dist != this ==> dist.total == old(dist.total) && dist.count == old(dist.count)
      {
        slots := slots[i := (slots[i] + added[i]) % U32];
      }
      var t, c := dist.total, dist.count;
      total := (total + t) % U64;
      count := (count + c) % U32;
    }
  }
}
