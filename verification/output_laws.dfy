/** Conservation of time over everything the analyser puts out for a thread. */
module OutputLaws {
  import opened Common
  import opened FuncStats
  import opened Analyzer
  import opened CallTree
  import opened CallTreeLaws
  import opened Buckets
  import OutputSpec

  /** `sum` is `total` less what was cut off at 64 bits. */
  predicate Covers(total: nat, sum: nat) {
    sum <= total && (total - sum) % U64 == 0
  }

  lemma {:induction false} CoversAdd(a: nat, b: nat, c: nat, d: nat)
    requires Covers(a, b) && Covers(c, d)
    ensures Covers(a + c, b + d)
  {
    Multiples(a - b, c - d);
  }

  lemma {:induction false} Multiples(x: nat, y: nat)
    requires x % U64 == 0 && y % U64 == 0
    ensures (x + y) % U64 == 0
  {
  }

  lemma {:induction false} CoversCut(x: nat, y: nat)
    ensures Covers(x + y, Add64(x, y))
  {
  }

  lemma {:induction false} CoversTwice(a: nat, b: nat, c: nat)
    requires Covers(a, b) && Covers(b, c)
    ensures Covers(a, c)
  {
    Multiples(a - b, b - c);
  }

  lemma {:induction false} GetSum(b: Bucket, d: Bucket, key: string)
    ensures Get(AddBucket(b, d), key).total == Add64(Get(b, key).total, Get(d, key).total)
  {
  }

  lemma {:induction false} SumKeysBoth(b: Bucket, d: Bucket, keys: seq<string>)
    ensures Covers(SumKeys(b, keys) + SumKeys(d, keys), SumKeys(AddBucket(b, d), keys))
    decreases |keys|
  {
    hide Covers, Add64, AddBucket, Get;
    if keys == [] {
      CoversCut(0, 0);
      NothingCut();
    } else {
      var x, y := Get(b, keys[0]).total, Get(d, keys[0]).total;
      SumKeysBoth(b, d, keys[1..]);
      GetSum(b, d, keys[0]);
      CoversCut(x, y);
      CoversAdd(x + y, Add64(x, y), SumKeys(b, keys[1..]) + SumKeys(d, keys[1..]), SumKeys(AddBucket(b, d), keys[1..]));
    }
  }

  lemma {:induction false} NothingCut()
    ensures Covers(0, 0)
  {
  }

  // ----- the figures of one caller, or of all

  /** The times of the children and `*self` add up to the latencies, and likewise off the CPU. */
  ghost predicate Adds(c: Caller, keys: seq<string>) {
    && Covers(c.latency.target.total, SumKeys(c.children.target, keys))
    && Covers(c.latency.sched.total, SumKeys(c.children.sched, keys))
  }

  lemma {:induction false} RecordTotals(l: Latency, lat: nat, off: nat)
    ensures Record(l, lat, off).target.total == l.target.total + lat
    ensures Record(l, lat, off).sched.total == l.sched.total + off
  {
  }

  lemma {:induction false} RecordAdds(c: Caller, lat: nat, off: nat, child: Children, keys: seq<string>)
    requires Adds(c, keys) && SumKeys(child.target, keys) == lat && SumKeys(child.sched, keys) == off
    ensures Adds(Caller(Record(c.latency, lat, off), AddChildren(c.children, child)), keys)
  {
    hide Covers, SumKeys, AddBucket, Record;
    RecordTotals(c.latency, lat, off);
    var t, s := c.children.target, c.children.sched;
    SumKeysBoth(t, child.target, keys); SumKeysBoth(s, child.sched, keys);
    NothingMore(lat); NothingMore(off);
    CoversAdd(c.latency.target.total, SumKeys(t, keys), lat, lat);
    CoversAdd(c.latency.sched.total, SumKeys(s, keys), off, off);
    CoversTwice(c.latency.target.total + lat, SumKeys(t, keys) + lat, SumKeys(AddBucket(t, child.target), keys));
    CoversTwice(c.latency.sched.total + off, SumKeys(s, keys) + off, SumKeys(AddBucket(s, child.sched), keys));
  }

  lemma {:induction false} NothingMore(x: nat)
    ensures Covers(x, x)
  {
  }

  // ----- names are only added

  ghost predicate Named(c: Caller, keys: seq<string>) {
    forall n :: n in c.children.target ==> n in keys
  }

  lemma {:induction false} TallyNames(charges: seq<Charge>, i: nat)
    requires i < |charges|
    ensures charges[i].name in Tally(charges).target
    decreases |charges|
  {
    var a := charges[..|charges| - 1];
    if i < |a| {
      TallyNames(a, i);
      assert a[i] == charges[i];
    }
  }

  lemma {:induction false} AccountPart(cfg: Config, stat: Stat, call: Call, who: Maybe<string>)
    requires !cfg.opt.codeBlock
    ensures var lat := Excess(call.ret.ts, call.entry.ts); var caller := CallerName(cfg, call.entry, call.ret);
      var c := Part(stat, who);
      Part(Account(cfg, stat, call), who) ==
        if Wanted(cfg.opt, call.entry.ts, lat) && (who.None? || who.value == caller)
        then Caller(Record(c.latency, lat, ItemsOff(call.items)), AddChildren(c.children, Tally(Shares(cfg, call))))
        else c
  {
    AccountUsesShares(cfg, stat, call);
    hide Account, Record, AddChildren, Tally, Shares, Wanted, CallerName, ItemsOff;
  }

  lemma {:induction false} NamedBefore(cfg: Config, stat: Stat, segment: Segment, who: Maybe<string>, keys: seq<string>)
    requires !cfg.opt.codeBlock && Named(Part(AccountSegment(cfg, stat, segment), who), keys)
    ensures Named(Part(stat, who), keys)
  {
    hide Account, Record, Tally, Shares, Wanted, CallerName, ItemsOff, Counted, OffCount, Part;
    if segment.Outside? {
      OutputSpec.CountedPart(stat, 1, who);
    } else {
      OutputSpec.CountedPart(stat, OffCount(segment.call.items), who);
      AccountPart(cfg, Counted(stat, OffCount(segment.call.items)), segment.call, who);
    }
  }

  lemma {:induction false} NamedShares(c: Caller, charges: seq<Charge>, keys: seq<string>, latency: Latency)
    requires Named(Caller(latency, AddChildren(c.children, Tally(charges))), keys)
    ensures forall i :: 0 <= i < |charges| ==> charges[i].name in keys
  {
    hide Tally;
    forall i | 0 <= i < |charges|
      ensures charges[i].name in keys
    {
      TallyNames(charges, i);
      assert charges[i].name in AddChildren(c.children, Tally(charges)).target;
    }
  }

  lemma {:induction false} SegmentAdds(cfg: Config, stat: Stat, segment: Segment, who: Maybe<string>, keys: seq<string>)
    requires !cfg.opt.codeBlock && Distinct(keys) && (segment.Inside? ==> TimeOrdered(CallActions(segment.call)))
    requires Named(Part(AccountSegment(cfg, stat, segment), who), keys) && Adds(Part(stat, who), keys)
    ensures Adds(Part(AccountSegment(cfg, stat, segment), who), keys)
  {
    hide Account, Record, Tally, Shares, Wanted, CallerName, ItemsOff, Counted, OffCount, Part, Adds, Named,
        AddChildren, Distinct, TimeOrdered, CallActions, SumKeys;
    if segment.Outside? {
      OutputSpec.CountedPart(stat, 1, who);
    } else {
      var call := segment.call;
      var s := Counted(stat, OffCount(call.items));
      OutputSpec.CountedPart(stat, OffCount(call.items), who);
      AccountPart(cfg, s, call, who);
      var lat, c := Excess(call.ret.ts, call.entry.ts), Part(s, who);
      if Wanted(cfg.opt, call.entry.ts, lat) && (who.None? || who.value == CallerName(cfg, call.entry, call.ret)) {
        NamedShares(c, Shares(cfg, call), keys, Record(c.latency, lat, ItemsOff(call.items)));
        Conservation(cfg, call, keys);
        RecordAdds(c, lat, ItemsOff(call.items), Tally(Shares(cfg, call)), keys);
      }
    }
  }

  lemma {:induction false} NamedAll(cfg: Config, stat: Stat, trace: seq<Segment>, who: Maybe<string>, keys: seq<string>)
    requires !cfg.opt.codeBlock && Named(Part(AccountAll(cfg, stat, trace), who), keys)
    ensures Named(Part(stat, who), keys)
    decreases |trace|
  {
    hide Account, Counted, OffCount, Part, Named;
    if trace != [] {
      NamedAll(cfg, AccountSegment(cfg, stat, trace[0]), trace[1..], who, keys);
      NamedBefore(cfg, stat, trace[0], who, keys);
    }
  }

  lemma {:induction false} TraceAdds(cfg: Config, stat: Stat, trace: seq<Segment>, who: Maybe<string>,
                                     keys: seq<string>)
    requires !cfg.opt.codeBlock && Distinct(keys) && TimeOrdered(TraceActions(trace))
    requires Named(Part(AccountAll(cfg, stat, trace), who), keys) && Adds(Part(stat, who), keys)
    ensures Adds(Part(AccountAll(cfg, stat, trace), who), keys)
    decreases |trace|
  {
    hide Account, Counted, OffCount, Part, Named, Adds, Distinct, CallActions, TimeOrdered;
    if trace != [] {
      var first := if trace[0].Outside? then [trace[0].off.b, trace[0].off.e] else CallActions(trace[0].call);
      OrderedParts(first, TraceActions(trace[1..]));
      NamedAll(cfg, AccountSegment(cfg, stat, trace[0]), trace[1..], who, keys);
      SegmentAdds(cfg, stat, trace[0], who, keys);
      TraceAdds(cfg, AccountSegment(cfg, stat, trace[0]), trace[1..], who, keys);
    }
  }

  lemma {:induction false} OrderedParts(a: seq<Action>, b: seq<Action>)
    requires TimeOrdered(a + b)
    ensures TimeOrdered(a) && TimeOrdered(b)
  {
    assert forall i :: 0 <= i < |a| ==> (a + b)[i] == a[i];
    assert forall i :: 0 <= i < |b| ==> (a + b)[|a| + i] == b[i];
  }

  lemma {:induction false} NothingAdds(who: Maybe<string>, keys: seq<string>)
    ensures Adds(Part(NoStat, who), keys)
  {
    SumKeysEmpty(keys);
  }

  /**
   * After any number of calls, the times in the child buckets of the output
   * add up to all latencies recorded, and the off-CPU times to all off-CPU
   * times, globally and for every caller; exactly below 2^64, and modulo 2^64
   * otherwise.
   */
  lemma {:induction false} OutputConservation(cfg: Config, trace: seq<Segment>, who: Maybe<string>, keys: seq<string>)
    requires !cfg.opt.codeBlock && ValidTrace(cfg, trace) && TimeOrdered(TraceActions(trace))
    requires Distinct(keys)
    requires var c := Part(Finish(Run(cfg, Init, TraceActions(trace))), who); forall n :: n in c.children.target ==>
      n in keys
    ensures var c := Part(Finish(Run(cfg, Init, TraceActions(trace))), who);
      && Covers(c.latency.target.total, SumKeys(c.children.target, keys))
           && Covers(c.latency.sched.total, SumKeys(c.children.sched, keys))
      && (c.latency.target.total < U64 ==> SumKeys(c.children.target, keys) == c.latency.target.total)
      && (c.latency.sched.total < U64 ==> SumKeys(c.children.sched, keys) == c.latency.sched.total)
  {
    hide Run, Finish, ValidTrace, TimeOrdered, TraceActions, AccountAll, SumKeys, Part, Distinct;
    AnalyzerMeetsSpec(cfg, trace);
    NothingAdds(who, keys);
    TraceAdds(cfg, NoStat, trace, who, keys);
  }
}
