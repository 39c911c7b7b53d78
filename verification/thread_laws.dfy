/** The statistics as a whole do not depend on which thread had which call, nor on the order of the merges. */
module ThreadLaws {
  import opened Common
  import H = Histogram
  import opened FuncStats
  import opened FuncStatLaws
  import B = Buckets

  /** What can happen to a statistics object, apart from merging. */
  datatype Happening =
    | Call(opt: Option, start: nat, end: nat, caller: string, off: nat, child: Children)
    | Lost(child: Children, caller: string)
    | Switch

  function Apply(s: Stat, h: Happening): Stat {
    match h
    case Call(opt, start, end, caller, off, child) => AddCall(opt, s, start, end, caller, off, child)
    case Lost(child, caller) => AddUnknown(s, child, caller)
    case Switch => s.(schedCount := s.schedCount + 1)
  }

  function Happened(p: Plan): seq<Happening> {
    match p
    case Fresh => []
    case Finished(q, opt, start, end, caller, off, child) => Happened(q) + [Call(opt, start, end, caller, off, child)]
    case Unfinished(q, child, caller) => Happened(q) + [Lost(child, caller)]
    case Scheduled(q) => Happened(q) + [Switch]
    case Joined(l, r) => Happened(l) + Happened(r)
  }

  // ----- statistics that arise: bucket totals fit, and the running totals are never used

  ghost predicate CleanBucket(b: Bucket) {
    forall k :: k in b ==> b[k].total < U64
  }

  ghost predicate CleanChildren(c: Children) {
    CleanBucket(c.target) && CleanBucket(c.sched) && c.targetTotal == 0 && c.schedTotal == 0
  }

  ghost predicate Clean(s: Stat) {
    CleanChildren(s.children) && forall c :: c in s.callers ==> CleanChildren(s.callers[c].children)
  }

  // ----- merging is commutative and associative

  lemma {:induction false} DistLaws(a: H.Dist, b: H.Dist, c: H.Dist)
    ensures H.Merge(a, b) == H.Merge(b, a)
    ensures H.Merge(H.Merge(a, b), c) == H.Merge(a, H.Merge(b, c))
    ensures H.Merge(H.EmptyDist, a) == a == H.Merge(a, H.EmptyDist)
  {
    assert H.Merge(a, b).slots == H.Merge(b, a).slots;
    assert H.Merge(H.Merge(a, b), c).slots == H.Merge(a, H.Merge(b, c)).slots;
    assert H.Merge(H.EmptyDist, a).slots == a.slots == H.Merge(a, H.EmptyDist).slots;
  }

  lemma {:induction false} AddLaws(x: nat, y: nat, z: nat)
    ensures Add64(x, y) == Add64(y, x)
    ensures Add64(Add64(x, y), z) == Add64(x, Add64(y, z))
  {
    Wrapped(x + y, z);
    Wrapped(y + z, x);
  }

  lemma {:induction false} Wrapped(a: nat, b: nat)
    ensures (a % U64 + b) % U64 == (a + b) % U64
  {
  }

  lemma {:induction false} BucketComm(a: Bucket, b: Bucket)
    ensures AddBucket(a, b) == AddBucket(b, a)
  {
  }

  lemma {:induction false} BucketAssoc(a: Bucket, b: Bucket, c: Bucket)
    ensures AddBucket(AddBucket(a, b), c) == AddBucket(a, AddBucket(b, c))
  {
    hide Add64;
    var l, r := AddBucket(AddBucket(a, b), c), AddBucket(a, AddBucket(b, c));
    assert l.Keys == r.Keys;
    forall k | k in l
      ensures l[k] == r[k]
    {
      AddLaws(Get(a, k).total, Get(b, k).total, Get(c, k).total);
      GetAdd(a, b, k); GetAdd(b, c, k);
    }
  }

  lemma {:induction false} GetAdd(a: Bucket, b: Bucket, k: string)
    ensures Get(AddBucket(a, b), k) ==
      Element(Get(a, k).count + Get(b, k).count, Add64(Get(a, k).total, Get(b, k).total))
  {
  }

  lemma {:induction false} BucketClean(a: Bucket, b: Bucket)
    ensures CleanBucket(AddBucket(a, b))
    ensures CleanBucket(a) ==> AddBucket(map[], a) == a == AddBucket(a, map[])
  {
  }

  lemma {:induction false} LatencyLaws(a: Latency, b: Latency, c: Latency)
    ensures MergeLatency(a, b) == MergeLatency(b, a)
    ensures MergeLatency(MergeLatency(a, b), c) == MergeLatency(a, MergeLatency(b, c))
    ensures MergeLatency(NoLatency, a) == a == MergeLatency(a, NoLatency)
  {
    hide H.Merge;
    DistLaws(a.target, b.target, c.target);
    DistLaws(a.sched, b.sched, c.sched);
  }

  lemma {:induction false} ChildrenLaws(a: Children, b: Children, c: Children)
    requires CleanChildren(a) && CleanChildren(b) && CleanChildren(c)
    ensures AddChildren(a, b) == AddChildren(b, a) && CleanChildren(AddChildren(a, b))
    ensures AddChildren(AddChildren(a, b), c) == AddChildren(a, AddChildren(b, c))
    ensures AddChildren(NoChildren, a) == a == AddChildren(a, NoChildren)
  {
    hide AddBucket, CleanBucket;
    BucketComm(a.target, b.target); BucketComm(a.sched, b.sched);
    BucketAssoc(a.target, b.target, c.target); BucketAssoc(a.sched, b.sched, c.sched);
    BucketClean(a.target, b.target); BucketClean(a.sched, b.sched);
  }

  /** The merge of two callers' statistics. */
  function Both(c: Caller, d: Caller): Caller {
    Caller(MergeLatency(c.latency, d.latency), AddChildren(c.children, d.children))
  }

  const NoCaller := Caller(NoLatency, NoChildren)

  lemma {:induction false} BothLaws(a: Caller, b: Caller, c: Caller)
    requires CleanChildren(a.children) && CleanChildren(b.children) && CleanChildren(c.children)
    ensures Both(a, b) == Both(b, a) && CleanChildren(Both(a, b).children)
    ensures Both(Both(a, b), c) == Both(a, Both(b, c))
    ensures Both(NoCaller, a) == a == Both(a, NoCaller)
  {
    hide MergeLatency, AddChildren, CleanChildren;
    LatencyLaws(a.latency, b.latency, c.latency);
    ChildrenLaws(a.children, b.children, c.children);
  }

  lemma {:induction false} NothingClean()
    ensures Clean(NoStat) && CleanChildren(NoChildren)
  {
  }

  /** Merging statistics merges the figures of every caller. */
  lemma {:induction false} CallerMerged(s: Stat, t: Stat, name: string)
    requires Clean(s) && Clean(t)
    ensures CallerOf(MergeStat(s, t), name) == Both(CallerOf(s, name), CallerOf(t, name))
    ensures CleanChildren(CallerOf(s, name).children)
  {
    hide MergeLatency, AddChildren, CleanChildren;
    NothingClean();
    BothLaws(CallerOf(s, name), CallerOf(t, name), NoCaller);
    BothLaws(NoCaller, CallerOf(t, name), NoCaller);
  }

  /** Statistics are known by their parts. */
  lemma {:induction false} SameStat(s: Stat, t: Stat)
    requires s.latency == t.latency && s.children == t.children && s.schedCount == t.schedCount
    requires s.callers.Keys == t.callers.Keys
    requires forall name :: CallerOf(s, name) == CallerOf(t, name)
    ensures s == t
  {
    forall name | name in s.callers
      ensures s.callers[name] == t.callers[name]
    {
      assert CallerOf(s, name) == CallerOf(t, name);
    }
    assert s.callers == t.callers;
  }

  lemma {:induction false} MergeClean(s: Stat, t: Stat)
    requires Clean(s) && Clean(t)
    ensures Clean(MergeStat(s, t))
  {
    hide MergeLatency, AddChildren, CleanChildren;
    ChildrenLaws(s.children, t.children, s.children);
    var m := MergeStat(s, t);
    forall name | name in m.callers
      ensures CleanChildren(m.callers[name].children)
    {
      CallerMerged(s, t, name);
      CallerMerged(t, s, name);
      BothLaws(CallerOf(s, name), CallerOf(t, name), CallerOf(s, name));
      assert CallerOf(m, name) == m.callers[name];
    }
  }

  lemma {:induction false} MergeComm(s: Stat, t: Stat)
    requires Clean(s) && Clean(t)
    ensures MergeStat(s, t) == MergeStat(t, s)
  {
    var l, r := MergeStat(s, t), MergeStat(t, s);
    assert l.callers.Keys == r.callers.Keys && l.schedCount == r.schedCount;
    hide MergeLatency, AddChildren, CleanChildren, CallerOf, Clean, MergeCallers;
    LatencyLaws(s.latency, t.latency, s.latency);
    CleanParts(s); CleanParts(t);
    ChildrenLaws(s.children, t.children, s.children);
    forall name
      ensures CallerOf(l, name) == CallerOf(r, name)
    {
      CallerMerged(s, t, name);
      CallerMerged(t, s, name);
      BothLaws(CallerOf(s, name), CallerOf(t, name), CallerOf(s, name));
    }
    SameStat(l, r);
  }

  lemma {:induction false} CleanParts(s: Stat)
    requires Clean(s)
    ensures CleanChildren(s.children)
  {
  }

  lemma {:induction false} CallerAssoc(s: Stat, t: Stat, u: Stat, name: string)
    requires Clean(s) && Clean(t) && Clean(u)
    ensures CallerOf(MergeStat(MergeStat(s, t), u), name) == CallerOf(MergeStat(s, MergeStat(t, u)), name)
  {
    hide MergeStat, CleanChildren, CallerOf, Clean, Both;
    MergeClean(s, t); MergeClean(t, u);
    CallerMerged(s, t, name); CallerMerged(MergeStat(s, t), u, name);
    CallerMerged(t, u, name); CallerMerged(s, MergeStat(t, u), name);
    CallerMerged(u, s, name);
    BothLaws(CallerOf(s, name), CallerOf(t, name), CallerOf(u, name));
  }

  lemma {:induction false} MergeAssoc(s: Stat, t: Stat, u: Stat)
    requires Clean(s) && Clean(t) && Clean(u)
    ensures MergeStat(MergeStat(s, t), u) == MergeStat(s, MergeStat(t, u))
  {
    hide MergeLatency, AddChildren, CleanChildren, CallerOf, Clean, MergeCaller;
    var l, r := MergeStat(MergeStat(s, t), u), MergeStat(s, MergeStat(t, u));
    assert l.callers.Keys == r.callers.Keys;
    LatencyLaws(s.latency, t.latency, u.latency);
    CleanParts(s); CleanParts(t); CleanParts(u);
    ChildrenLaws(s.children, t.children, u.children);
    forall name
      ensures CallerOf(l, name) == CallerOf(r, name)
    {
      CallerAssoc(s, t, u, name);
    }
    SameStat(l, r);
  }

  lemma {:induction false} MergeNothing(s: Stat)
    requires Clean(s)
    ensures MergeStat(s, NoStat) == s
  {
    NothingClean();
    assert MergeStat(s, NoStat).callers.Keys == s.callers.Keys;
    hide MergeLatency, AddChildren, CleanChildren, CallerOf, MergeCallers;
    LatencyLaws(s.latency, s.latency, s.latency);
    ChildrenLaws(s.children, s.children, s.children);
    forall name
      ensures CallerOf(MergeStat(s, NoStat), name) == CallerOf(s, name)
    {
      CallerMerged(s, NoStat, name);
      NoCallers(name);
      BothLaws(CallerOf(s, name), NoCaller, NoCaller);
    }
    SameStat(MergeStat(s, NoStat), s);
  }

  lemma {:induction false} NoCallers(name: string)
    ensures CallerOf(NoStat, name) == NoCaller
  {
  }

  // ----- what happens to an object is a merge with what happened

  lemma {:induction false} AssignIsMerge(d: H.Dist, val: nat)
    ensures H.Assign(d, val) == H.Merge(d, H.Assign(H.EmptyDist, val))
  {
    assert H.Assign(d, val).slots == H.Merge(d, H.Assign(H.EmptyDist, val)).slots;
  }

  lemma {:induction false} RecordIsMerge(l: Latency, lat: nat, off: nat)
    ensures Record(l, lat, off) == MergeLatency(l, Record(NoLatency, lat, off))
  {
    hide H.Assign, H.Merge;
    AssignIsMerge(l.target, lat);
    AssignIsMerge(l.sched, off);
    DistLaws(l.sched, l.sched, l.sched);
  }

  lemma {:induction false} ChildIsMerge(b: Children, c: Children)
    requires CleanChildren(b)
    ensures CleanChildren(AddChildren(NoChildren, c)) && CleanChildren(AddChildren(b, c))
    ensures AddChildren(b, c) == AddChildren(b, AddChildren(NoChildren, c))
  {
    hide AddBucket;
    NormalEnough(b.target, c.target);
    NormalEnough(b.sched, c.sched);
    BucketClean(map[], c.target); BucketClean(map[], c.sched);
    BucketClean(b.target, c.target); BucketClean(b.sched, c.sched);
  }

  lemma {:induction false} NormalEnough(b: Bucket, c: Bucket)
    ensures AddBucket(b, c) == AddBucket(b, AddBucket(map[], c))
  {
  }

  function Single(h: Happening): Stat {
    Apply(NoStat, h)
  }

  lemma {:induction false} LatencyParts(s: Stat, lat: nat, off: nat, caller: string, name: string)
    requires Clean(s)
    ensures var t := AddLatency(NoStat, lat, off, caller);
      CallerOf(AddLatency(s, lat, off, caller), name) == Both(CallerOf(s, name), CallerOf(t, name)) && Clean(t)
  {
    hide Record, MergeLatency, AddChildren, CleanChildren;
    NothingClean();
    RecordIsMerge(CallerOf(s, name).latency, lat, off);
    BothLaws(CallerOf(s, name), NoCaller, NoCaller);
    ChildrenLaws(CallerOf(s, name).children, NoChildren, NoChildren);
  }

  lemma {:induction false} LatencyIsMerge(s: Stat, lat: nat, off: nat, caller: string)
    requires Clean(s)
    ensures Clean(AddLatency(NoStat, lat, off, caller))
    ensures AddLatency(s, lat, off, caller) == MergeStat(s, AddLatency(NoStat, lat, off, caller))
  {
    hide Record, MergeLatency, AddChildren, Clean, Both, CallerOf, MergeCaller, CleanChildren;
    var t := AddLatency(NoStat, lat, off, caller);
    LatencyParts(s, lat, off, caller, caller);
    RecordIsMerge(s.latency, lat, off);
    CleanParts(s);
    ChildrenLaws(s.children, s.children, s.children);
    forall name
      ensures CallerOf(AddLatency(s, lat, off, caller), name) == CallerOf(MergeStat(s, t), name)
    {
      CallerMerged(s, t, name);
      LatencyParts(s, lat, off, caller, name);
    }
    SameStat(AddLatency(s, lat, off, caller), MergeStat(s, t));
  }

  lemma {:induction false} ChildParts(s: Stat, child: Children, caller: string, gather: bool, name: string)
    requires Clean(s)
    ensures var t := AddChildLatency(NoStat, child, caller, gather);
      CallerOf(AddChildLatency(s, child, caller, gather), name) == Both(CallerOf(s, name), CallerOf(t, name))
          && Clean(t)
  {
    hide MergeLatency, AddChildren, CleanChildren;
    NothingClean();
    ChildIsMerge(NoChildren, child);
    ChildIsMerge(CallerOf(s, name).children, child);
    BothLaws(CallerOf(s, name), NoCaller, NoCaller);
    LatencyLaws(CallerOf(s, name).latency, NoLatency, NoLatency);
  }

  lemma {:induction false} ChildLatencyIsMerge(s: Stat, child: Children, caller: string, gather: bool)
    requires Clean(s)
    ensures Clean(AddChildLatency(NoStat, child, caller, gather))
    ensures AddChildLatency(s, child, caller, gather) == MergeStat(s, AddChildLatency(NoStat, child, caller, gather))
  {
    hide MergeLatency, AddChildren, Clean, Both, CallerOf, MergeCaller, CleanChildren;
    var t := AddChildLatency(NoStat, child, caller, gather);
    ChildParts(s, child, caller, gather, caller);
    LatencyLaws(s.latency, s.latency, s.latency);
    CleanParts(s);
    ChildIsMerge(s.children, child);
    ChildrenLaws(s.children, s.children, s.children);
    forall name
      ensures CallerOf(AddChildLatency(s, child, caller, gather), name) == CallerOf(MergeStat(s, t), name)
    {
      CallerMerged(s, t, name);
      ChildParts(s, child, caller, gather, name);
    }
    SameStat(AddChildLatency(s, child, caller, gather), MergeStat(s, t));
  }

  lemma {:induction false} CountUnknown(s: Stat, t: Stat)
    ensures var u := MergeStat(s, t);
      u.(latency := u.latency.(unknown := u.latency.unknown + 1)) ==
          MergeStat(s, t.(latency := t.latency.(unknown := t.latency.unknown + 1)))
  {
  }

  lemma {:induction false} CleanUnknown(s: Stat, n: nat)
    requires Clean(s)
    ensures Clean(s.(latency := s.latency.(unknown := n))) && Clean(s.(schedCount := n))
  {
  }

  lemma {:induction false} ApplyIsMerge(s: Stat, h: Happening)
    requires Clean(s)
    ensures Clean(Single(h)) && Apply(s, h) == MergeStat(s, Single(h))
  {
    hide AddLatency, AddChildLatency, Clean, Wanted, AddChild;
    NothingClean();
    match h
    case Call(opt, start, end, caller, off, child) =>
      var lat := Sub64(end, start);
      if Wanted(opt, start, lat) {
        var c := if opt.codeBlock then child
            else AddChild(child, TARGET_SELF, Excess(lat, child.targetTotal), Excess(off, child.schedTotal));
        CallIsMerge(s, lat, off, caller, c);
      } else {
        MergeNothing(s);
      }
    case Lost(child, caller) =>
      hide MergeStat;
      var t := AddChildLatency(NoStat, child, caller, caller != UNKNOWN_CALLER);
      ChildLatencyIsMerge(s, child, caller, caller != UNKNOWN_CALLER);
      CountUnknown(s, t);
      CleanUnknown(t, t.latency.unknown + 1);
    case Switch =>
      CleanUnknown(NoStat, 1);
      MergeNothing(s);
  }

  lemma {:induction false} CallIsMerge(s: Stat, lat: nat, off: nat, caller: string, c: Children)
    requires Clean(s)
    ensures var t := AddChildLatency(AddLatency(NoStat, lat, off, caller), c, caller, true);
      Clean(t) && AddChildLatency(AddLatency(s, lat, off, caller), c, caller, true) == MergeStat(s, t)
  {
    hide AddLatency, AddChildLatency, MergeStat, Clean;
    NothingClean();
    var u, v := AddLatency(NoStat, lat, off, caller), AddChildLatency(NoStat, c, caller, true);
    LatencyIsMerge(s, lat, off, caller);
    MergeClean(s, u);
    ChildLatencyIsMerge(MergeStat(s, u), c, caller, true);
    ChildLatencyIsMerge(u, c, caller, true);
    MergeClean(u, v);
    MergeAssoc(s, u, v);
  }

  // ----- any plan adds up what happened

  function Total(hs: seq<Happening>): Stat {
    if hs == [] then NoStat else MergeStat(Single(hs[0]), Total(hs[1..]))
  }

  lemma {:induction false} TotalClean(hs: seq<Happening>)
    ensures Clean(Total(hs))
    decreases |hs|
  {
    hide Clean, MergeStat, Single;
    NothingClean();
    if hs != [] {
      TotalClean(hs[1..]);
      ApplyIsMerge(NoStat, hs[0]);
      MergeClean(Single(hs[0]), Total(hs[1..]));
    }
  }

  lemma {:induction false} TotalConcat(a: seq<Happening>, b: seq<Happening>)
    ensures Total(a + b) == MergeStat(Total(a), Total(b))
    decreases |a|
  {
    hide Clean, MergeStat, Single;
    NothingClean();
    TotalClean(b);
    if a == [] {
      assert a + b == b;
      MergeNothing(Total(b));
      MergeComm(Total(b), NoStat);
    } else {
      assert (a + b)[1..] == a[1..] + b;
      TotalConcat(a[1..], b);
      TotalClean(a[1..]);
      ApplyIsMerge(NoStat, a[0]);
      MergeAssoc(Single(a[0]), Total(a[1..]), Total(b));
    }
  }

  lemma {:induction false} TotalOne(h: Happening)
    ensures Total([h]) == Single(h)
  {
    hide Clean, MergeStat, Single;
    assert [h][1..] == [];
    NothingClean();
    ApplyIsMerge(NoStat, h);
    MergeNothing(Single(h));
  }

  lemma {:induction false} OneMore(hs: seq<Happening>, h: Happening)
    ensures Apply(Total(hs), h) == Total(hs + [h])
  {
    hide *;
    TotalClean(hs);
    TotalConcat(hs, [h]);
    TotalOne(h);
    ApplyIsMerge(Total(hs), h);
  }

  lemma {:induction false} EvalIsTotal(p: Plan)
    ensures Eval(p) == Total(Happened(p))
    decreases p
  {
    hide Total, AddCall, AddUnknown, MergeStat;
    match p
    case Fresh =>
      NothingHappened();
    case Finished(q, opt, start, end, caller, off, child) =>
      EvalIsTotal(q);
      OneMore(Happened(q), Call(opt, start, end, caller, off, child));
    case Unfinished(q, child, caller) =>
      EvalIsTotal(q);
      OneMore(Happened(q), Lost(child, caller));
    case Scheduled(q) =>
      EvalIsTotal(q);
      OneMore(Happened(q), Switch);
    case Joined(l, r) =>
      EvalIsTotal(l); EvalIsTotal(r);
      TotalConcat(Happened(l), Happened(r));
  }

  lemma {:induction false} NothingHappened()
    ensures Total([]) == NoStat
  {
  }

  lemma {:induction false} TotalPerm(a: seq<Happening>, b: seq<Happening>)
    requires multiset(a) == multiset(b)
    ensures Total(a) == Total(b)
    decreases |a|
  {
    hide Total, MergeStat, Clean;
    if a == [] {
      assert |b| == |multiset(b)| == 0;
    } else {
      var l, r := FindFirst(a, b);
      TotalPerm(a[1..], l + r);
      assert a == [a[0]] + a[1..];
      TotalConcat([a[0]], a[1..]); TotalConcat(l, [a[0]] + r); TotalConcat([a[0]], r); TotalConcat(l, r);
      TotalClean(l); TotalClean(r); TotalClean([a[0]]);
      Swap(Total([a[0]]), Total(l), Total(r));
    }
  }

  lemma {:induction false} Swap(s: Stat, t: Stat, u: Stat)
    requires Clean(s) && Clean(t) && Clean(u)
    ensures MergeStat(s, MergeStat(t, u)) == MergeStat(t, MergeStat(s, u))
  {
    hide MergeStat, Clean;
    MergeAssoc(s, t, u); MergeAssoc(t, s, u); MergeComm(s, t);
  }

  /**
   * Spreading the same calls, lost calls and switches over threads in another
   * way, in another order, and merging the threads in another way gives the
   * same statistics: histograms, child buckets, callers and counts.
   */
  lemma {:induction false} ThreadsDoNotMatter(p: Plan, q: Plan)
    requires multiset(Happened(p)) == multiset(Happened(q))
    ensures Eval(p) == Eval(q)
  {
    hide *;
    EvalIsTotal(p); EvalIsTotal(q);
    TotalPerm(Happened(p), Happened(q));
  }

  // ----- the objects

  lemma {:induction false} PerformNext(s: Stat, hs: seq<Happening>, h: Happening)
    requires Clean(s)
    ensures Apply(MergeStat(s, Total(hs)), h) == MergeStat(s, Total(hs + [h]))
  {
    hide *;
    TotalClean(hs);
    MergeClean(s, Total(hs));
    ApplyIsMerge(MergeStat(s, Total(hs)), h);
    MergeAssoc(s, Total(hs), Single(h));
    TotalConcat(hs, [h]);
    TotalOne(h);
  }

  lemma {:induction false} PerformNothing(s: Stat)
    requires Clean(s)
    ensures MergeStat(s, Total([])) == s
  {
    hide MergeStat, Clean;
    MergeNothing(s);
  }

  /** Whatever happens to an object in turn is merged into what it held. */
  method Perform(stat: FuncStat, hs: seq<Happening>)
    requires Clean(stat.View())
    modifies stat
    ensures stat.View() == MergeStat(old(stat.View()), Total(hs))
  {
    hide Total, MergeStat, Clean, AddCall, AddUnknown;
    PerformNothing(stat.View());
    assert hs[..0] == [];
    for i := 0 to |hs|
      invariant stat.View() == MergeStat(old(stat.View()), Total(hs[..i]))
    {
      PerformNext(old(stat.View()), hs[..i], hs[i]);
      assert hs[..i] + [hs[i]] == hs[..i + 1];
      match hs[i] {
        case Call(opt, start, end, caller, off, child) => stat.Add(opt, start, end, caller, off, child);
        case Lost(child, caller) => stat.AddUnknownLatency(child, caller);
        case Switch => stat.schedCount := stat.schedCount + 1;
      }
    }
    assert hs[..|hs|] == hs;
  }

  function Flat(hss: seq<seq<Happening>>): seq<Happening> {
    if hss == [] then [] else Flat(hss[..|hss| - 1]) + hss[|hss| - 1]
  }

  /** Merging the objects of all threads gives the statistics of everything that happened to them. */
  method MergeThreads(result: FuncStat, threads: seq<FuncStat>, ghost happened: seq<seq<Happening>>)
    requires result.View() == NoStat && result !in threads && |happened| == |threads|
    requires forall i :: 0 <= i < |threads| ==> threads[i].View() == Total(happened[i])
    modifies result
    ensures result.View() == Total(Flat(happened))
  {
    hide Total, MergeStat;
    NothingHappened();
    for i := 0 to |threads|
      invariant result.View() == Total(Flat(happened[..i]))
      invariant forall k :: 0 <= k < |threads| ==> threads[k].View() == Total(happened[k])
    {
      assert threads[i] in threads;
      TotalConcat(Flat(happened[..i]), happened[i]);
      assert happened[..i + 1][..i] == happened[..i];
      result.Merge(threads[i]);
    }
    assert happened[..|threads|] == happened;
  }

  // ----- what the buckets of the result hold

  /** What children hold under a name. */
  function CellOf(c: Children, n: string): B.Cell {
    var t := if n in c.target then c.target[n] else Element(0, 0);
    var s := if n in c.sched then c.sched[n] else Element(0, 0);
    B.Cell(t.count, t.total, s.count, s.total)
  }

  /** The latency of a call and its start are within the intervals asked for. */
  predicate Within(opt: Option, start: nat, end: nat) {
    var lat := (end - start) % 0x1_0000_0000_0000_0000;
    opt.minLatency <= lat && lat <= opt.maxLatency && opt.minTime <= start && start <= opt.maxTime
  }

  function Rest(x: nat, y: nat): nat {
    if y <= x then x - y else 0
  }

  /** Without code blocks, what the children leave of a call counts once as the target's own. */
  function OwnShare(opt: Option, start: nat, end: nat, off: nat, child: Children, n: string): B.Cell {
    if opt.codeBlock || n != "*self" then B.Nothing
    else B.Once(Rest((end - start) % 0x1_0000_0000_0000_0000, child.targetTotal), Rest(off, child.schedTotal))
  }

  /** What one happening files under a name, for one caller or for all. */
  function Files(h: Happening, who: Maybe<string>, n: string): B.Cell {
    match h
    case Call(opt, start, end, caller, off, child) =>
      if Within(opt, start, end) && (who.None? || who.value == caller)
      then B.Both(CellOf(child, n), OwnShare(opt, start, end, off, child, n)) else B.Nothing
    case Lost(child, caller) =>
      if (who.None? && caller != "unknown") || who == Some(caller) then CellOf(child, n) else B.Nothing
    case Switch => B.Nothing
  }

  function FilesAll(hs: seq<Happening>, who: Maybe<string>, n: string): B.Cell {
    if hs == [] then B.Nothing else B.Both(Files(hs[0], who, n), FilesAll(hs[1..], who, n))
  }

  /** The totals of the children are in the range of their type. */
  ghost predicate InRange(c: Children) {
    CleanBucket(c.target) && CleanBucket(c.sched)
  }

  lemma {:induction false} CellShows(c: Children, n: string)
    requires InRange(c)
    ensures B.Shows(c, n, CellOf(c, n))
  {
  }

  lemma {:induction false} CallFiles(opt: Option, start: nat, end: nat, caller: string, off: nat, child: Children,
                                     who: Maybe<string>, n: string)
    requires InRange(child)
    ensures var h := Call(opt, start, end, caller, off, child); B.Shows(B.Part(Single(h), who).children, n,
      Files(h, who, n))
  {
    hide B.Shows, InRange, AddLatency, AddChildLatency, AddChild, AddChildren, B.Part, CellOf;
    var lat := Sub64(end, start);
    B.NoneShown(n);
    NonePart(who);
    if Wanted(opt, start, lat) {
      var own, ownOff := Excess(lat, child.targetTotal), Excess(off, child.schedTotal);
      var c := if opt.codeBlock then child else AddChild(child, TARGET_SELF, own, ownOff);
      CellShows(child, n);
      B.AddChildShows(child, TARGET_SELF, own, ownOff, n, CellOf(child, n));
      var x := B.Both(CellOf(child, n), OwnShare(opt, start, end, off, child, n));
      B.LatencyPart(NoStat, lat, off, caller, who);
      B.ChildPart(AddLatency(NoStat, lat, off, caller), c, caller, true, who);
      assert B.Shows(c, n, x);
      B.AddChildrenShows(NoChildren, c, n, B.Nothing, x);
      B.BothNothing(x);
    }
  }

  lemma {:induction false} NonePart(who: Maybe<string>)
    ensures B.Part(NoStat, who).children == NoChildren
  {
  }

  lemma {:induction false} LostFiles(child: Children, caller: string, who: Maybe<string>, n: string)
    requires InRange(child)
    ensures B.Shows(B.Part(Single(Lost(child, caller)), who).children, n, Files(Lost(child, caller), who, n))
  {
    hide B.Shows, InRange, AddChildren, CellOf;
    B.NoneShown(n);
    CellShows(child, n);
    B.AddChildrenShows(NoChildren, child, n, B.Nothing, CellOf(child, n));
    B.BothNothing(CellOf(child, n));
  }

  ghost predicate ChildInRange(h: Happening) {
    h.Switch? || InRange(h.child)
  }

  lemma {:induction false} SingleFiles(h: Happening, who: Maybe<string>, n: string)
    requires ChildInRange(h)
    ensures B.Shows(B.Part(Single(h), who).children, n, Files(h, who, n))
  {
    hide B.Shows, InRange, AddCall, AddUnknown, CellOf, OwnShare, Within;
    match h
    case Call(opt, start, end, caller, off, child) => CallFiles(opt, start, end, caller, off, child, who, n);
    case Lost(child, caller) => LostFiles(child, caller, who, n);
    case Switch => B.NoneShown(n);
  }

  lemma {:induction false} MergePart(s: Stat, t: Stat, who: Maybe<string>)
    requires Clean(s) && Clean(t)
    ensures B.Part(MergeStat(s, t), who).children == AddChildren(B.Part(s, who).children, B.Part(t, who).children)
  {
    hide AddChildren, Clean;
    if who.Some? {
      CallerMerged(s, t, who.value);
    }
  }

  /**
   * After any happenings every bucket, of one caller or of all, counts and adds
   * up what they file under its name: the children handed in and, for each call
   * that was asked for, one own share.
   */
  lemma {:induction false} TotalFiles(hs: seq<Happening>, who: Maybe<string>, n: string)
    requires forall i :: 0 <= i < |hs| ==> ChildInRange(hs[i])
    ensures B.Shows(B.Part(Total(hs), who).children, n, FilesAll(hs, who, n))
    decreases |hs|
  {
    hide B.Shows, ChildInRange, Single, MergeStat, Clean, Files, B.Part, AddChildren, B.Both;
    if hs == [] {
      B.NoneShown(n);
      NonePart(who);
    } else {
      TotalFiles(hs[1..], who, n);
      NothingClean();
      TotalClean(hs[1..]);
      ApplyIsMerge(NoStat, hs[0]);
      SingleFiles(hs[0], who, n);
      MergePart(Single(hs[0]), Total(hs[1..]), who);
      B.AddChildrenShows(B.Part(Single(hs[0]), who).children, B.Part(Total(hs[1..]), who).children, n,
          Files(hs[0], who, n), FilesAll(hs[1..], who, n));
    }
  }
}
