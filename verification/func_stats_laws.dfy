/** The results of all threads, however they are added and merged. */
module FuncStatLaws {
  import opened Common
  import H = Histogram
  import opened FuncStats

  /** Everything a program can do with statistics objects. */
  datatype Plan =
    | Fresh
    | Finished(p: Plan, opt: Option, start: nat, end: nat, caller: string, off: nat, child: Children)
    | Unfinished(p: Plan, child: Children, caller: string)
    | Scheduled(p: Plan)
    | Joined(l: Plan, r: Plan)

  function Eval(p: Plan): Stat {
    match p
    case Fresh => NoStat
    case Finished(q, opt, start, end, caller, off, child) => AddCall(opt, Eval(q), start, end, caller, off, child)
    case Unfinished(q, child, caller) => AddUnknown(Eval(q), child, caller)
    case Scheduled(q) => Eval(q).(schedCount := Eval(q).schedCount + 1)
    case Joined(l, r) => MergeStat(Eval(l), Eval(r))
  }

  /** A value recorded for a caller. */
  datatype Entry = Entry(caller: string, val: nat)

  function Values(log: seq<Entry>): seq<nat> {
    if log == [] then [] else [log[0].val] + Values(log[1..])
  }

  function ValuesOf(log: seq<Entry>, caller: string): seq<nat> {
    if log == [] then []
    else (if log[0].caller == caller then [log[0].val] else []) + ValuesOf(log[1..], caller)
  }

  /** The latencies a plan records, in order. */
  function Latencies(p: Plan): seq<Entry> {
    match p
    case Fresh => []
    case Finished(q, opt, start, end, caller, off, child) =>
      Latencies(q) + if Wanted(opt, start, Sub64(end, start)) then [Entry(caller, Sub64(end, start))] else []
    case Unfinished(q, _, _) => Latencies(q)
    case Scheduled(q) => Latencies(q)
    case Joined(l, r) => Latencies(l) + Latencies(r)
  }

  /** The non-zero off-CPU times a plan records, in order. */
  function OffTimes(p: Plan): seq<Entry> {
    match p
    case Fresh => []
    case Finished(q, opt, start, end, caller, off, child) =>
      OffTimes(q) + if Wanted(opt, start, Sub64(end, start)) && off != 0 then [Entry(caller, off)] else []
    case Unfinished(q, _, _) => OffTimes(q)
    case Scheduled(q) => OffTimes(q)
    case Joined(l, r) => OffTimes(l) + OffTimes(r)
  }

  lemma {:induction false} ValuesConcat(a: seq<Entry>, b: seq<Entry>)
    ensures Values(a + b) == Values(a) + Values(b)
    decreases |a|
  {
    if a == [] {
      assert a + b == b;
    } else {
      assert (a + b)[1..] == a[1..] + b;
      ValuesConcat(a[1..], b);
    }
  }

  lemma {:induction false} ValuesOfConcat(a: seq<Entry>, b: seq<Entry>, c: string)
    ensures ValuesOf(a + b, c) == ValuesOf(a, c) + ValuesOf(b, c)
    decreases |a|
  {
    if a == [] {
      assert a + b == b;
    } else {
      assert (a + b)[1..] == a[1..] + b;
      ValuesOfConcat(a[1..], b, c);
    }
  }

  /** The global histogram and each caller's hold exactly the logged values. */
  ghost predicate Holds(s: Stat, lats: seq<Entry>, offs: seq<Entry>) {
    && (forall e :: e in lats || e in offs ==> e.caller in s.callers)
    && s.latency.target == H.Of(Values(lats)) && s.latency.sched == H.Of(Values(offs))
    && forall c :: CallerOf(s, c).latency.target == H.Of(ValuesOf(lats, c))
         && CallerOf(s, c).latency.sched == H.Of(ValuesOf(offs, c))
  }

  lemma {:induction false} LogOne(log: seq<Entry>, e: Entry, c: string)
    ensures Values(log + [e]) == Values(log) + [e.val]
    ensures ValuesOf(log + [e], c) == ValuesOf(log, c) + if e.caller == c then [e.val] else []
  {
    ValuesConcat(log, [e]);
    ValuesOfConcat(log, [e], c);
    assert [e][1..] == [];
  }

  lemma {:induction false} AddLatencyHolds(s: Stat, lats: seq<Entry>, offs: seq<Entry>, lat: nat, off: nat,
                                           caller: string)
    requires Holds(s, lats, offs)
    ensures Holds(AddLatency(s, lat, off, caller), lats + [Entry(caller, lat)],
      offs + if off != 0 then [Entry(caller, off)] else [])
  {
    hide H.Assign, H.Of, Values, ValuesOf;
    var s1, e, f := AddLatency(s, lat, off, caller), Entry(caller, lat), Entry(caller, off);
    LogOne(lats, e, caller); LogOne(offs, f, caller);
    H.AssignOf(Values(lats), lat); H.AssignOf(Values(offs), off);
    assert offs + [] == offs;
    forall c
      ensures CallerOf(s1, c).latency.target == H.Of(ValuesOf(lats + [e], c))
      ensures CallerOf(s1, c).latency.sched == H.Of(ValuesOf(offs + if off != 0 then [f] else [], c))
    {
      LogOne(lats, e, c); LogOne(offs, f, c);
      H.AssignOf(ValuesOf(lats, c), lat); H.AssignOf(ValuesOf(offs, c), off);
      assert ValuesOf(lats, c) + [] == ValuesOf(lats, c) && ValuesOf(offs, c) + [] == ValuesOf(offs, c);
    }
  }

  lemma {:induction false} ChildrenIrrelevant(s: Stat, t: Stat, lats: seq<Entry>, offs: seq<Entry>)
    requires Holds(s, lats, offs)
    requires t.latency.target == s.latency.target && t.latency.sched == s.latency.sched
    requires s.callers.Keys <= t.callers.Keys && forall c :: CallerOf(t, c).latency == CallerOf(s, c).latency
    ensures Holds(t, lats, offs)
  {
  }

  lemma {:induction false} MergeHolds(s: Stat, t: Stat, lats: seq<Entry>, offs: seq<Entry>, lats': seq<Entry>,
                                      offs': seq<Entry>)
    requires Holds(s, lats, offs) && Holds(t, lats', offs')
    ensures Holds(MergeStat(s, t), lats + lats', offs + offs')
  {
    hide H.Merge, H.Of;
    var m := MergeStat(s, t);
    H.MergeOf(Values(lats), Values(lats')); H.MergeOf(Values(offs), Values(offs'));
    ValuesConcat(lats, lats'); ValuesConcat(offs, offs');
    forall c
      ensures CallerOf(m, c).latency.target == H.Of(ValuesOf(lats + lats', c))
      ensures CallerOf(m, c).latency.sched == H.Of(ValuesOf(offs + offs', c))
    {
      CallerLatencyMerged(s, t, c);
      H.MergeOf(ValuesOf(lats, c), ValuesOf(lats', c)); H.MergeOf(ValuesOf(offs, c), ValuesOf(offs', c));
      ValuesOfConcat(lats, lats', c); ValuesOfConcat(offs, offs', c);
      assert CallerOf(s, c).latency.target == H.Of(ValuesOf(lats, c))
          && CallerOf(t, c).latency.target == H.Of(ValuesOf(lats', c));
    }
  }

  lemma {:induction false} MergeEmpty(d: H.Dist)
    ensures H.Merge(d, H.EmptyDist) == d
  {
    assert H.Merge(d, H.EmptyDist).slots == d.slots;
  }

  lemma {:induction false} CallerLatencyMerged(s: Stat, t: Stat, c: string)
    ensures CallerOf(MergeStat(s, t), c).latency.target ==
      H.Merge(CallerOf(s, c).latency.target, CallerOf(t, c).latency.target)
    ensures CallerOf(MergeStat(s, t), c).latency.sched ==
      H.Merge(CallerOf(s, c).latency.sched, CallerOf(t, c).latency.sched)
  {
    hide H.Merge, AddChildren;
    if c !in t.callers {
      MergeEmpty(CallerOf(s, c).latency.target);
      MergeEmpty(CallerOf(s, c).latency.sched);
    }
  }

  lemma {:induction false} NothingHeld()
    ensures Holds(NoStat, [], [])
  {
  }

  /** Any plan's statistics hold exactly what it recorded. */
  lemma {:induction false} EvalHolds(p: Plan)
    ensures Holds(Eval(p), Latencies(p), OffTimes(p))
    decreases p
  {
    hide AddLatency, MergeStat, Sub64, Wanted, AddChildren, AddChild, Values, ValuesOf, H.Of;
    match p
    case Fresh =>
      NothingHeld();
    case Finished(q, opt, start, end, caller, off, child) =>
      EvalHolds(q);
      var lat := Sub64(end, start);
      assert Latencies(q) + [] == Latencies(q) && OffTimes(q) + [] == OffTimes(q);
      if Wanted(opt, start, lat) {
        AddLatencyHolds(Eval(q), Latencies(q), OffTimes(q), lat, off, caller);
        ChildrenIrrelevant(AddLatency(Eval(q), lat, off, caller), Eval(p), Latencies(p), OffTimes(p));
      }
    case Unfinished(q, child, caller) =>
      EvalHolds(q);
      ChildrenIrrelevant(Eval(q), Eval(p), Latencies(p), OffTimes(p));
    case Scheduled(q) =>
      EvalHolds(q);
      ChildrenIrrelevant(Eval(q), Eval(p), Latencies(p), OffTimes(p));
    case Joined(l, r) =>
      EvalHolds(l); EvalHolds(r);
      MergeHolds(Eval(l), Eval(r), Latencies(l), OffTimes(l), Latencies(r), OffTimes(r));
  }

  // ----- the global histogram is the sum of the per-caller ones

  function Pick(l: Latency, sched: bool): H.Dist {
    if sched then l.sched else l.target
  }

  /** The histograms of the listed callers, merged. */
  function MergeCallersOf(s: Stat, keys: seq<string>, sched: bool): H.Dist {
    if keys == [] then H.EmptyDist
    else H.Merge(Pick(CallerOf(s, keys[0]).latency, sched), MergeCallersOf(s, keys[1..], sched))
  }

  function Split(log: seq<Entry>, keys: seq<string>): seq<nat> {
    if keys == [] then [] else ValuesOf(log, keys[0]) + Split(log, keys[1..])
  }

  lemma {:induction false} SplitNothing(keys: seq<string>)
    ensures Split([], keys) == []
    decreases |keys|
  {
    if keys != [] {
      SplitNothing(keys[1..]);
    }
  }

  lemma {:induction false} SplitOne(log: seq<Entry>, keys: seq<string>)
    requires log != [] && Distinct(keys)
    ensures multiset(Split(log, keys)) ==
      multiset(Split(log[1..], keys)) + if log[0].caller in keys then multiset{log[0].val} else multiset{}
    decreases |keys|
  {
    if keys != [] {
      SplitOne(log, keys[1..]);
    }
  }

  /** Splitting a log by caller and concatenating permutes its values. */
  lemma {:induction false} SplitPerm(log: seq<Entry>, keys: seq<string>)
    requires Distinct(keys) && forall e :: e in log ==> e.caller in keys
    ensures multiset(Split(log, keys)) == multiset(Values(log))
    decreases |log|
  {
    if log == [] {
      SplitNothing(keys);
    } else {
      assert forall e :: e in log[1..] ==> e in log;
      SplitOne(log, keys);
      SplitPerm(log[1..], keys);
      assert log[0] in log;
    }
  }

  lemma {:induction false} MergedIs(s: Stat, lats: seq<Entry>, offs: seq<Entry>, keys: seq<string>, sched: bool)
    requires Holds(s, lats, offs)
    ensures MergeCallersOf(s, keys, sched) == H.Of(Split(if sched then offs else lats, keys))
    decreases |keys|
  {
    hide H.Merge, ValuesOf, Values, H.Of;
    if keys == [] {
      H.OfIs([]);
      OfNothing();
    } else {
      MergedIs(s, lats, offs, keys[1..], sched);
      var log := if sched then offs else lats;
      H.MergeOf(ValuesOf(log, keys[0]), Split(log, keys[1..]));
    }
  }

  lemma {:induction false} OfNothing()
    ensures H.Of([]) == H.EmptyDist
  {
  }

  /**
   * After any additions and merges, the global latency (and off-CPU)
   * histogram is the merge of the callers' histograms, in whatever order the
   * hash table lists them.
   */
  lemma {:induction false} GlobalIsSumOfCallers(p: Plan, keys: seq<string>, sched: bool)
    requires Distinct(keys) && forall c :: c in keys <==> c in Eval(p).callers
    ensures MergeCallersOf(Eval(p), keys, sched) == Pick(Eval(p).latency, sched)
  {
    hide Eval, Values, H.Of, MergeCallersOf, Split;
    EvalHolds(p);
    var log := if sched then OffTimes(p) else Latencies(p);
    MergedIs(Eval(p), Latencies(p), OffTimes(p), keys, sched);
    SplitPerm(log, keys);
    H.OrderIrrelevant(Split(log, keys), Values(log));
  }

  // ----- the order of additions and merges cannot be observed

  lemma {:induction false} PullOut(l: seq<Entry>, x: Entry, r: seq<Entry>, c: string)
    ensures multiset(Values(l + ([x] + r))) == multiset(Values([x] + (l + r)))
    ensures multiset(ValuesOf(l + ([x] + r), c)) == multiset(ValuesOf([x] + (l + r), c))
  {
    ValuesConcat(l, r); ValuesConcat(l, [x] + r); ValuesConcat([x], r); ValuesConcat([x], l + r);
    ValuesOfConcat(l, r, c); ValuesOfConcat(l, [x] + r, c); ValuesOfConcat([x], r, c); ValuesOfConcat([x], l + r, c);
  }

  lemma {:induction false} FindFirst<T>(a: seq<T>, b: seq<T>) returns (l: seq<T>, r: seq<T>)
    requires multiset(a) == multiset(b) && a != []
    ensures b == l + ([a[0]] + r) && multiset(a[1..]) == multiset(l + r)
  {
    var x, s := a[0], a[1..];
    assert x in multiset(a);
    var i :| 0 <= i < |b| && b[i] == x;
    l, r := b[..i], b[i + 1..];
    assert a == [x] + s;
    assert b == l + ([x] + r);
    assert multiset(b) == multiset(l) + (multiset{x} + multiset(r));
    assert multiset(a) == multiset{x} + multiset(s);
    assert multiset(l + r) == multiset(l) + multiset(r);
    assert multiset(s) == multiset(a) - multiset{x};
    assert multiset(l) + multiset(r) == multiset(b) - multiset{x};
  }

  lemma {:induction false} ValuesPerm(a: seq<Entry>, b: seq<Entry>, c: string)
    requires multiset(a) == multiset(b)
    ensures multiset(Values(a)) == multiset(Values(b)) && multiset(ValuesOf(a, c)) == multiset(ValuesOf(b, c))
    decreases |a|
  {
    if a == [] {
      assert |b| == |multiset(b)| == 0;
    } else {
      var l, r := FindFirst(a, b);
      ValuesPerm(a[1..], l + r, c);
      PullOut(l, a[0], r, c);
    }
  }

  /** Recording the same values in any order and with any merges gives the same histograms, globally and per caller. */
  lemma {:induction false} SameValuesSameHistograms(p: Plan, q: Plan, c: string)
    requires multiset(Latencies(p)) == multiset(Latencies(q)) && multiset(OffTimes(p)) == multiset(OffTimes(q))
    ensures Eval(p).latency.target == Eval(q).latency.target && Eval(p).latency.sched == Eval(q).latency.sched
    ensures CallerOf(Eval(p), c).latency.target == CallerOf(Eval(q), c).latency.target
    ensures CallerOf(Eval(p), c).latency.sched == CallerOf(Eval(q), c).latency.sched
  {
    hide Eval, Values, ValuesOf, H.Of, CallerOf, Latencies, OffTimes;
    EvalHolds(p); EvalHolds(q);
    ValuesPerm(Latencies(p), Latencies(q), c);
    ValuesPerm(OffTimes(p), OffTimes(q), c);
    H.OrderIrrelevant(Values(Latencies(p)), Values(Latencies(q)));
    H.OrderIrrelevant(Values(OffTimes(p)), Values(OffTimes(q)));
    H.OrderIrrelevant(ValuesOf(Latencies(p), c), ValuesOf(Latencies(q), c));
    H.OrderIrrelevant(ValuesOf(OffTimes(p), c), ValuesOf(OffTimes(q), c));
  }
}
