/** The k-way merge of `ThreadJob::extract_actions`, on the streams it reads. */
module KwayMerge {
  import opened Common
  import opened Analyzer

  /** `UINT64_MAX`, the bound an action's time must stay below to be picked. */
  const MAX_TS := 0xFFFF_FFFF_FFFF_FFFF

  function Concat(streams: seq<seq<Action>>): seq<Action> {
    if streams == [] then [] else streams[0] + Concat(streams[1..])
  }

  predicate Ready(s: seq<Action>) {
    s != [] && s[0].ts < MAX_TS
  }

  /** The stream picked among the first `n`: least head, the lowest index on a tie. */
  function Best(streams: seq<seq<Action>>, n: nat): (b: Maybe<nat>)
    requires n <= |streams|
    ensures b.Some? ==> b.value < n && Ready(streams[b.value])
    ensures b.Some? ==> forall j :: 0 <= j < n && Ready(streams[j]) ==> streams[b.value][0].ts <= streams[j][0].ts
    ensures b.Some? ==> forall j :: 0 <= j < b.value && Ready(streams[j]) ==> streams[b.value][0].ts < streams[j][0].ts
    ensures b.None? ==> forall j :: 0 <= j < n ==> !Ready(streams[j])
  {
    if n == 0 then None
    else
      var b := Best(streams, n - 1);
      if Ready(streams[n - 1]) && (b.None? || streams[n - 1][0].ts < streams[b.value][0].ts) then Some(n - 1) else b
  }

  function Drop(streams: seq<seq<Action>>, b: nat): seq<seq<Action>>
    requires b < |streams| && streams[b] != []
  {
    streams[b := streams[b][1..]]
  }

  function Merged(streams: seq<seq<Action>>): seq<Action>
    decreases |Concat(streams)|
  {
    var b := Best(streams, |streams|);
    if b.None? then []
    else
      DropHead(streams, b.value);
      [streams[b.value][0]] + Merged(Drop(streams, b.value))
  }

  lemma {:induction false} ConcatSplit(streams: seq<seq<Action>>, b: nat)
    requires b < |streams|
    ensures Concat(streams) == Concat(streams[..b]) + (streams[b] + Concat(streams[b + 1..]))
    decreases b
  {
    if b > 0 {
      var rest := streams[1..];
      ConcatSplit(rest, b - 1);
      assert streams[..b][1..] == rest[..b - 1] && rest[b..] == streams[b + 1..];
    }
  }

  /** Taking the head of one stream takes one element out of the concatenation. */
  lemma {:induction false} DropHead(streams: seq<seq<Action>>, b: nat)
    requires b < |streams| && streams[b] != []
    ensures var l, r := Concat(streams[..b]), streams[b][1..] + Concat(streams[b + 1..]);
      Concat(streams) == l + ([streams[b][0]] + r) && Concat(Drop(streams, b)) == l + r
  {
    var d := Drop(streams, b);
    ConcatSplit(streams, b);
    ConcatSplit(d, b);
    assert d[..b] == streams[..b] && d[b + 1..] == streams[b + 1..];
    assert streams[b] + Concat(streams[b + 1..]) == [streams[b][0]] + (streams[b][1..] + Concat(streams[b + 1..]));
  }

  lemma {:induction false} InConcat(streams: seq<seq<Action>>, i: nat, a: Action)
    requires i < |streams| && a in streams[i]
    ensures a in Concat(streams)
  {
    ConcatSplit(streams, i);
  }

  lemma {:induction false} FromConcat(streams: seq<seq<Action>>, a: Action) returns (i: nat)
    requires a in Concat(streams)
    ensures i < |streams| && a in streams[i]
    decreases |streams|
  {
    if a in streams[0] {
      i := 0;
    } else {
      i := FromConcat(streams[1..], a);
      i := i + 1;
    }
  }

  // ----- every action comes out once

  lemma {:induction false} PulledOut(l: seq<Action>, x: Action, r: seq<Action>)
    ensures multiset(l + ([x] + r)) == multiset{x} + multiset(l + r)
  {
  }

  lemma {:induction false} MergedPart(streams: seq<seq<Action>>)
    ensures multiset(Merged(streams)) <= multiset(Concat(streams))
    ensures forall a :: a in Merged(streams) ==> a.ts < MAX_TS
    decreases |Concat(streams)|
  {
    hide Concat, Best;
    var b := Best(streams, |streams|);
    if b.Some? {
      DropHead(streams, b.value);
      MergedPart(Drop(streams, b.value));
      PulledOut(Concat(streams[..b.value]), streams[b.value][0],
          streams[b.value][1..] + Concat(streams[b.value + 1..]));
    }
  }

  /** Nothing is left behind when every time is below the maximum. */
  lemma {:induction false} MergedAll(streams: seq<seq<Action>>)
    requires forall a :: a in Concat(streams) ==> a.ts < MAX_TS
    ensures multiset(Merged(streams)) == multiset(Concat(streams))
    decreases |Concat(streams)|
  {
    hide Concat;
    var b := Best(streams, |streams|);
    if b.Some? {
      DropHead(streams, b.value);
      MergedAll(Drop(streams, b.value));
      PulledOut(Concat(streams[..b.value]), streams[b.value][0],
          streams[b.value][1..] + Concat(streams[b.value + 1..]));
    } else if Concat(streams) != [] {
      var i := FromConcat(streams, Concat(streams)[0]);
      InConcat(streams, i, streams[i][0]);
      assert false;
    }
  }

  lemma {:induction false} SamePart(a: multiset<Action>, b: multiset<Action>)
    requires a <= b && |a| == |b|
    ensures a == b
  {
    assert b == a + (b - a);
  }

  /** The size check after the loop passes exactly when every time is below the maximum. */
  lemma {:induction false} CompleteIff(streams: seq<seq<Action>>)
    ensures |Merged(streams)| == |Concat(streams)| <==> forall a :: a in Concat(streams) ==> a.ts < MAX_TS
  {
    hide Concat, Merged;
    MergedPart(streams);
    if forall a :: a in Concat(streams) ==> a.ts < MAX_TS {
      MergedAll(streams);
      assert |multiset(Merged(streams))| == |multiset(Concat(streams))|;
    }
    if |Merged(streams)| == |Concat(streams)| {
      SamePart(multiset(Merged(streams)), multiset(Concat(streams)));
      forall a | a in Concat(streams)
        ensures a.ts < MAX_TS
      {
        assert a in multiset(Concat(streams));
      }
    }
  }

  // ----- in time order, and stable

  ghost predicate Sorted(s: seq<Action>) {
    forall i, j :: 0 <= i < j < |s| ==> s[i].ts <= s[j].ts
  }

  ghost predicate AllSorted(streams: seq<seq<Action>>) {
    forall i :: 0 <= i < |streams| ==> Sorted(streams[i])
  }

  /** The actions of one instant, in the order they stand. */
  function AtTime(s: seq<Action>, t: nat): seq<Action> {
    if s == [] then [] else (if s[0].ts == t then [s[0]] else []) + AtTime(s[1..], t)
  }

  lemma {:induction false} AtTimeConcat(a: seq<Action>, b: seq<Action>, t: nat)
    ensures AtTime(a + b, t) == AtTime(a, t) + AtTime(b, t)
    decreases |a|
  {
    if a == [] {
      assert a + b == b;
    } else {
      var h := if a[0].ts == t then [a[0]] else [];
      assert (a + b)[1..] == a[1..] + b && (a + b)[0] == a[0];
      AtTimeConcat(a[1..], b, t);
      assert h + (AtTime(a[1..], t) + AtTime(b, t)) == h + AtTime(a[1..], t) + AtTime(b, t);
    }
  }

  lemma {:induction false} AtTimeNone(s: seq<Action>, t: nat)
    requires forall a :: a in s ==> a.ts != t
    ensures AtTime(s, t) == []
    decreases |s|
  {
    if s != [] {
      AtTimeNone(s[1..], t);
    }
  }

  lemma {:induction false} MergedAtLeast(streams: seq<seq<Action>>, m: nat)
    requires forall a :: a in Concat(streams) ==> m <= a.ts
    ensures forall a :: a in Merged(streams) ==> m <= a.ts
  {
    hide Concat, Merged;
    MergedPart(streams);
    forall a | a in Merged(streams)
      ensures m <= a.ts
    {
      assert a in multiset(Merged(streams));
      assert a in multiset(Concat(streams));
    }
  }

  lemma {:induction false} HeadIsLeast(streams: seq<seq<Action>>, b: nat)
    requires AllSorted(streams) && Best(streams, |streams|) == Some(b)
    ensures forall a :: a in Concat(streams) ==> streams[b][0].ts <= a.ts
    ensures forall a :: a in Concat(streams[..b]) ==> streams[b][0].ts < a.ts
  {
    hide Concat, Best;
    forall a | a in Concat(streams)
      ensures streams[b][0].ts <= a.ts
    {
      var i := FromConcat(streams, a);
      assert streams[i][0].ts <= a.ts;
    }
    forall a | a in Concat(streams[..b])
      ensures streams[b][0].ts < a.ts
    {
      var i := FromConcat(streams[..b], a);
      assert streams[i][0].ts <= a.ts;
    }
  }

  lemma {:induction false} DropSorted(streams: seq<seq<Action>>, b: nat)
    requires AllSorted(streams) && b < |streams| && streams[b] != []
    ensures AllSorted(Drop(streams, b))
  {
  }

  lemma {:induction false} MergedSorted(streams: seq<seq<Action>>)
    requires AllSorted(streams)
    ensures Sorted(Merged(streams))
    decreases |Concat(streams)|
  {
    hide Concat, Best, AllSorted;
    var b := Best(streams, |streams|);
    if b.Some? {
      var x, d := streams[b.value][0], Drop(streams, b.value);
      DropHead(streams, b.value);
      DropSorted(streams, b.value);
      HeadIsLeast(streams, b.value);
      MergedSorted(d);
      MergedAtLeast(d, x.ts);
      assert Merged(streams) == [x] + Merged(d);
    }
  }

  /** Actions of one instant keep the order of the streams and their order in a stream. */
  lemma {:induction false} MergedStable(streams: seq<seq<Action>>, t: nat)
    requires AllSorted(streams) && t < MAX_TS
    ensures AtTime(Merged(streams), t) == AtTime(Concat(streams), t)
    decreases |Concat(streams)|
  {
    hide Concat, AllSorted, AtTime;
    var b := Best(streams, |streams|);
    if b.Some? {
      var x, d := streams[b.value][0], Drop(streams, b.value);
      var l, r := Concat(streams[..b.value]), streams[b.value][1..] + Concat(streams[b.value + 1..]);
      DropHead(streams, b.value);
      DropSorted(streams, b.value);
      HeadIsLeast(streams, b.value);
      MergedStable(d, t);
      AtTimeConcat([x], Merged(d), t); AtTimeConcat(l, [x] + r, t); AtTimeConcat([x], r, t); AtTimeConcat(l, r, t);
      if x.ts == t {
        AtTimeNone(l, t);
      } else {
        AtTimeNone([x], t);
      }
    } else {
      NothingReady(streams, t);
    }
  }

  lemma {:induction false} NothingReady(streams: seq<seq<Action>>, t: nat)
    requires AllSorted(streams) && Best(streams, |streams|).None? && t < MAX_TS
    ensures AtTime(Concat(streams), t) == AtTime([], t)
  {
    hide Concat;
    forall a | a in Concat(streams)
      ensures a.ts != t
    {
      var i := FromConcat(streams, a);
      assert streams[i][0].ts <= a.ts;
    }
    AtTimeNone(Concat(streams), t);
  }

  // ----- a sorted sequence is determined by its instants

  lemma {:induction false} AtTimeHead(s: seq<Action>, t: nat)
    requires Sorted(s)
    ensures s != [] && t == s[0].ts ==> AtTime(s, t) != [] && AtTime(s, t)[0] == s[0]
    ensures s != [] && t < s[0].ts ==> AtTime(s, t) == []
    ensures s == [] ==> AtTime(s, t) == []
  {
    if s != [] && t < s[0].ts {
      AtTimeNone(s, t);
    }
  }

  lemma {:induction false} AtTimeTail(s: seq<Action>, t: nat)
    requires s != []
    ensures AtTime(s, t) == (if s[0].ts == t then [s[0]] else []) + AtTime(s[1..], t)
  {
  }

  lemma {:induction false} SortedUnique(a: seq<Action>, b: seq<Action>)
    requires Sorted(a) && Sorted(b) && forall t: nat :: AtTime(a, t) == AtTime(b, t)
    ensures a == b
    decreases |a|
  {
    hide AtTime;
    if a == [] {
      if b != [] {
        AtTimeHead(a, b[0].ts); AtTimeHead(b, b[0].ts);
      }
    } else {
      AtTimeHead(a, a[0].ts); AtTimeHead(b, a[0].ts);
      AtTimeHead(a, b[0].ts); AtTimeHead(b, b[0].ts);
      assert AtTime(a, a[0].ts) == AtTime(b, a[0].ts) && AtTime(a, b[0].ts) == AtTime(b, b[0].ts);
      assert a[0] == b[0];
      forall t: nat
        ensures AtTime(a[1..], t) == AtTime(b[1..], t)
      {
        AtTimeTail(a, t); AtTimeTail(b, t);
        var k := if a[0].ts == t then 1 else 0;
        assert AtTime(a[1..], t) == AtTime(a, t)[k..];
        assert AtTime(b[1..], t) == AtTime(b, t)[k..];
      }
      SortedUnique(a[1..], b[1..]);
      assert a == [a[0]] + a[1..] && b == [b[0]] + b[1..];
    }
  }

  lemma {:induction false} MergedInstant(streams: seq<seq<Action>>, t: nat)
    requires AllSorted(streams) && forall a :: a in Concat(streams) ==> a.ts < MAX_TS
    ensures AtTime(Merged(streams), t) == AtTime(Concat(streams), t)
  {
    hide *;
    if t < MAX_TS {
      MergedStable(streams, t);
    } else {
      LateInstant(streams, t);
    }
  }

  ghost predicate SameInstants(a: seq<Action>, b: seq<Action>) {
    forall t: nat :: AtTime(a, t) == AtTime(b, t)
  }

  /** Two merges agree exactly when the streams hold the same at each instant. */
  lemma {:induction false} MergedDetermined(xs: seq<seq<Action>>, ys: seq<seq<Action>>)
    requires AllSorted(xs) && AllSorted(ys)
    requires forall a :: a in Concat(xs) || a in Concat(ys) ==> a.ts < MAX_TS
    ensures Merged(xs) == Merged(ys) <==> SameInstants(Concat(xs), Concat(ys))
  {
    hide Merged, Concat, AtTime;
    MergedSorted(xs); MergedSorted(ys);
    forall t: nat
      ensures AtTime(Merged(xs), t) == AtTime(Concat(xs), t) && AtTime(Merged(ys), t) == AtTime(Concat(ys), t)
    {
      MergedInstant(xs, t); MergedInstant(ys, t);
    }
    if SameInstants(Concat(xs), Concat(ys)) {
      forall t: nat
        ensures AtTime(Merged(xs), t) == AtTime(Merged(ys), t)
      {
        assert AtTime(Concat(xs), t) == AtTime(Concat(ys), t);
      }
      SortedUnique(Merged(xs), Merged(ys));
    }
  }

  lemma {:induction false} LateInstant(streams: seq<seq<Action>>, t: nat)
    requires t >= MAX_TS && forall a :: a in Concat(streams) ==> a.ts < MAX_TS
    ensures AtTime(Merged(streams), t) == AtTime(Concat(streams), t)
  {
    hide Merged, Concat;
    MergedPart(streams);
    AtTimeNone(Merged(streams), t);
    AtTimeNone(Concat(streams), t);
  }

  /** Streams that are in order when concatenated come out unchanged. */
  lemma {:induction false} AlreadyInOrder(streams: seq<seq<Action>>)
    requires Sorted(Concat(streams)) && forall a :: a in Concat(streams) ==> a.ts < MAX_TS
    ensures Merged(streams) == Concat(streams)
  {
    hide Concat, Merged, AtTime;
    forall i | 0 <= i < |streams|
      ensures Sorted(streams[i])
    {
      ConcatSplit(streams, i);
      var l, s := Concat(streams[..i]), streams[i];
      forall j, k | 0 <= j < k < |s|
        ensures s[j].ts <= s[k].ts
      {
        assert s[j] == Concat(streams)[|l| + j] && s[k] == Concat(streams)[|l| + k];
      }
    }
    MergedSorted(streams);
    forall t: nat
      ensures AtTime(Merged(streams), t) == AtTime(Concat(streams), t)
    {
      MergedInstant(streams, t);
    }
    SortedUnique(Merged(streams), Concat(streams));
  }
}
