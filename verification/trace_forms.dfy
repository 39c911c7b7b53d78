/** One call tree, recorded as a full trace or through the ip filter, gives the same results. */
module TraceForms {
  import opened Common
  import opened FuncStats
  import opened Analyzer
  import opened CallTree

  /** Off-CPU time between two instants. */
  datatype Nap = Nap(b: nat, e: nat, from: Symbol, to: Symbol)

  datatype Part =
    | Idle(nap: Nap)
    | Sub(interrupt: bool, at: nat, site: Symbol, callee: Symbol, naps: seq<Nap>, until: nat, last: Symbol,
        resume: Symbol)
    | Branch(at: nat, conditional: bool, from: Symbol, to: Symbol)

  /** A call of the target as it happened. */
  datatype Visit = Visit(enter: nat, caller: Symbol, head: Symbol, parts: seq<Part>, leave: nat, exit: Symbol,
      back: Symbol)

  /** What a thread does: off-CPU time between calls, and calls. */
  datatype Period = Elsewhere(nap: Nap) | During(visit: Visit)

  const Unknown := Symbol("[unknown]", 0, 0)
  const Sched := Symbol("__schedule", 1, 0)

  function Plain(kind: Kind, from: Symbol, to: Symbol, ts: nat, fromTarget: bool, toTarget: bool): Action {
    Action(kind, from, to, ts, fromTarget, toTarget, false, false, false)
  }

  // ----- the two recordings

  function RecordNap(n: Nap, filtered: bool): Off {
    var k1, k2 := if filtered then TR_START else CALL, if filtered then TR_END_RETURN else RETURN;
    Off(Plain(k1, if filtered then Unknown else n.from, Sched, n.b, false, false).(schedBegin := true),
        Plain(k2, Sched, n.to, n.e, false, false).(schedEnd := true))
  }

  function RecordNaps(ns: seq<Nap>, filtered: bool): seq<Off> {
    if ns == [] then [] else [RecordNap(ns[0], filtered)] + RecordNaps(ns[1..], filtered)
  }

  function LeaveKind(interrupt: bool, filtered: bool): Kind {
    if filtered then (if interrupt then TR_END_HW_INT else TR_END_CALL) else if interrupt then HW_INT else CALL
  }

  function ResumeKind(interrupt: bool, filtered: bool): Kind {
    if filtered then TR_START else if interrupt then IRET else RETURN
  }

  function RecordPart(p: Part, filtered: bool): Item {
    match p
    case Idle(n) => Sleep(RecordNap(n, filtered))
    case Sub(interrupt, at, site, callee, naps, until, last, resume) =>
      Child(Plain(LeaveKind(interrupt, filtered), site, callee, at, true, false), RecordNaps(naps, filtered),
            Plain(ResumeKind(interrupt, filtered), if filtered then Unknown else last, resume, until, false, true))
    case Branch(at, conditional, from, to) => Jump(Plain(if conditional then JCC else JMP, from, to, at, true, true))
  }

  function RecordParts(ps: seq<Part>, filtered: bool): seq<Item> {
    if ps == [] then [] else [RecordPart(ps[0], filtered)] + RecordParts(ps[1..], filtered)
  }

  function Recorded(v: Visit, filtered: bool): Call {
    if filtered then
      Call(Plain(TR_START, Unknown, v.head, v.enter, false, true), RecordParts(v.parts, true),
           Plain(TR_END_RETURN, v.exit, v.back, v.leave, true, false))
    else
      Call(Plain(CALL, v.caller, v.head, v.enter, false, true), RecordParts(v.parts, false),
           Plain(RETURN, v.exit, v.back, v.leave, true, false))
  }

  function RecordPeriod(p: Period, filtered: bool): Segment {
    if p.Elsewhere? then Outside(RecordNap(p.nap, filtered)) else Inside(Recorded(p.visit, filtered))
  }

  function RecordAll(ps: seq<Period>, filtered: bool): seq<Segment> {
    if ps == [] then [] else [RecordPeriod(ps[0], filtered)] + RecordAll(ps[1..], filtered)
  }

  /** The part comes back to the target at its first instruction. */
  predicate HeadPart(p: Part) {
    p.Sub? && p.resume.offset == 0
  }

  /**
   * Only an interrupt taken there comes back to the first instruction; branches
   * are recorded for code blocks and never lead there.
   */
  predicate ProperPart(codeBlock: bool, p: Part) {
    (HeadPart(p) ==> p.interrupt && p.site.offset == 0) && (p.Branch? ==> codeBlock && p.to.offset != 0)
  }

  predicate Proper(codeBlock: bool, v: Visit) {
    v.head.offset == 0 && forall i :: 0 <= i < |v.parts| ==> ProperPart(codeBlock, v.parts[i])
  }

  predicate ProperAll(codeBlock: bool, ps: seq<Period>) {
    forall i :: 0 <= i < |ps| && ps[i].During? ==> Proper(codeBlock, ps[i].visit)
  }

  predicate NoHeads(ps: seq<Part>) {
    forall i :: 0 <= i < |ps| ==> !HeadPart(ps[i])
  }

  predicate NoHeadsAtAll(ps: seq<Period>) {
    forall i :: 0 <= i < |ps| && ps[i].During? ==> NoHeads(ps[i].visit.parts)
  }

  // ----- both recordings are well-bracketed

  lemma {:induction false} NapsValid(ns: seq<Nap>, filtered: bool)
    ensures ValidOffs(RecordNaps(ns, filtered))
    decreases |ns|
  {
    if ns != [] {
      NapsValid(ns[1..], filtered);
    }
  }

  lemma {:induction false} PartValid(cfg: Config, p: Part, filtered: bool)
    requires ProperPart(cfg.opt.codeBlock, p) && (filtered ==> !HeadPart(p))
    ensures ValidItem(cfg, RecordPart(p, filtered))
  {
    if p.Sub? {
      NapsValid(p.naps, filtered);
    }
  }

  lemma {:induction false} PartsValid(cfg: Config, ps: seq<Part>, filtered: bool)
    requires (forall i :: 0 <= i < |ps| ==> ProperPart(cfg.opt.codeBlock, ps[i])) && (filtered ==> NoHeads(ps))
    ensures forall i :: 0 <= i < |RecordParts(ps, filtered)| ==> ValidItem(cfg, RecordParts(ps, filtered)[i])
    decreases |ps|
  {
    hide ValidItem, RecordPart, ProperPart, HeadPart;
    if ps != [] {
      PartsValid(cfg, ps[1..], filtered);
      PartValid(cfg, ps[0], filtered);
    }
  }

  lemma {:induction false} NapValid(n: Nap, filtered: bool)
    ensures ValidOff(RecordNap(n, filtered))
  {
  }

  lemma {:induction false} AllValid(cfg: Config, ps: seq<Period>, filtered: bool)
    requires ProperAll(cfg.opt.codeBlock, ps) && (filtered ==> NoHeadsAtAll(ps))
    ensures ValidTrace(cfg, RecordAll(ps, filtered))
    decreases |ps|
  {
    hide ValidItem, ValidOff, ProperPart, NoHeads, RecordParts, RecordNap;
    if ps != [] {
      AllValid(cfg, ps[1..], filtered);
      if ps[0].During? {
        PartsValid(cfg, ps[0].visit.parts, filtered);
      } else {
        NapValid(ps[0].nap, filtered);
      }
    }
  }

  // ----- with the same timestamps

  function Times(actions: seq<Action>): seq<nat> {
    if actions == [] then [] else [actions[0].ts] + Times(actions[1..])
  }

  lemma {:induction false} TimesConcat(a: seq<Action>, b: seq<Action>)
    ensures Times(a + b) == Times(a) + Times(b)
    decreases |a|
  {
    if a == [] {
      assert a + b == b;
    } else {
      assert (a + b)[1..] == a[1..] + b;
      TimesConcat(a[1..], b);
    }
  }

  lemma {:induction false} TimesAt(a: seq<Action>)
    ensures |Times(a)| == |a| && forall i :: 0 <= i < |a| ==> Times(a)[i] == a[i].ts
    decreases |a|
  {
    if a != [] {
      TimesAt(a[1..]);
    }
  }

  lemma {:induction false} TimesOf(a: Action)
    ensures Times([a]) == [a.ts]
  {
    assert [a][1..] == [];
  }

  lemma {:induction false} NapStep(ns: seq<Nap>, f: bool)
    requires ns != []
    ensures Times(OffActions(RecordNaps(ns, f))) == [ns[0].b, ns[0].e] + Times(OffActions(RecordNaps(ns[1..], f)))
    ensures MeasuredAll(RecordNaps(ns, f)) == Sub64(ns[0].e, ns[0].b) % U32 + MeasuredAll(RecordNaps(ns[1..], f))
    ensures |RecordNaps(ns, f)| == 1 + |RecordNaps(ns[1..], f)|
  {
    hide Times, Sub64;
    var o, rest := RecordNap(ns[0], f), RecordNaps(ns[1..], f);
    assert ([o] + rest)[1..] == rest;
    TimesConcat([o.b, o.e], OffActions(rest));
    TimesConcat([o.b], [o.e]); TimesOf(o.b); TimesOf(o.e);
    assert [o.b] + [o.e] == [o.b, o.e];
  }

  lemma {:induction false} NapTimes(ns: seq<Nap>)
    ensures Times(OffActions(RecordNaps(ns, true))) == Times(OffActions(RecordNaps(ns, false)))
    ensures MeasuredAll(RecordNaps(ns, true)) == MeasuredAll(RecordNaps(ns, false))
    ensures |RecordNaps(ns, true)| == |RecordNaps(ns, false)|
    decreases |ns|
  {
    if ns != [] {
      hide *;
      NapTimes(ns[1..]);
      NapStep(ns, true); NapStep(ns, false);
    }
  }

  lemma {:induction false} NapPair(n: Nap, f: bool)
    ensures Times([RecordNap(n, f).b, RecordNap(n, f).e]) == [n.b, n.e]
  {
    hide Times;
    var o := RecordNap(n, f);
    TimesConcat([o.b], [o.e]); TimesOf(o.b); TimesOf(o.e);
    assert [o.b] + [o.e] == [o.b, o.e];
  }

  lemma {:induction false} SubTimes(p: Part, f: bool)
    requires p.Sub?
    ensures Times(ItemActions(RecordPart(p, f))) == [p.at] + Times(OffActions(RecordNaps(p.naps, f))) + [p.until]
  {
    hide Times, OffActions, RecordNaps;
    var i := RecordPart(p, f);
    TimesConcat([i.call] + OffActions(i.offs), [i.ret]);
    TimesConcat([i.call], OffActions(i.offs));
    TimesOf(i.call); TimesOf(i.ret);
  }

  lemma {:induction false} PartTimes(p: Part)
    ensures Times(ItemActions(RecordPart(p, true))) == Times(ItemActions(RecordPart(p, false)))
  {
    hide Times, OffActions, RecordNaps;
    match p
    case Idle(n) => NapPair(n, true); NapPair(n, false);
    case Sub(_, _, _, _, naps, _, _, _) => NapTimes(naps); SubTimes(p, true); SubTimes(p, false);
    case Branch(_, _, _, _) =>
  }

  lemma {:induction false} PartsTimes(ps: seq<Part>)
    ensures Times(ItemsActions(RecordParts(ps, true))) == Times(ItemsActions(RecordParts(ps, false)))
    decreases |ps|
  {
    if ps != [] {
      PartsTimes(ps[1..]);
      PartTimes(ps[0]);
      forall f: bool
        ensures Times(ItemsActions(RecordParts(ps, f))) ==
          Times(ItemActions(RecordPart(ps[0], f))) + Times(ItemsActions(RecordParts(ps[1..], f)))
      {
        assert RecordParts(ps, f)[1..] == RecordParts(ps[1..], f);
        TimesConcat(ItemActions(RecordPart(ps[0], f)), ItemsActions(RecordParts(ps[1..], f)));
      }
    }
  }

  lemma {:induction false} VisitTimes(v: Visit)
    ensures Times(CallActions(Recorded(v, true))) == Times(CallActions(Recorded(v, false)))
  {
    PartsTimes(v.parts);
    forall f: bool
      ensures Times(CallActions(Recorded(v, f))) == [v.enter] + Times(ItemsActions(RecordParts(v.parts, f))) + [v.leave]
    {
      var c := Recorded(v, f);
      TimesConcat([c.entry] + ItemsActions(c.items), [c.ret]);
      TimesConcat([c.entry], ItemsActions(c.items));
      TimesOf(c.entry); TimesOf(c.ret);
    }
  }

  function SegmentActions(g: Segment): seq<Action> {
    if g.Outside? then [g.off.b, g.off.e] else CallActions(g.call)
  }

  lemma {:induction false} TraceStep(ps: seq<Period>, f: bool)
    requires ps != []
    ensures TraceActions(RecordAll(ps, f)) ==
      SegmentActions(RecordPeriod(ps[0], f)) + TraceActions(RecordAll(ps[1..], f))
  {
    hide CallActions;
    assert RecordAll(ps, f)[1..] == RecordAll(ps[1..], f);
  }

  lemma {:induction false} PeriodTimes(p: Period)
    ensures Times(SegmentActions(RecordPeriod(p, true))) == Times(SegmentActions(RecordPeriod(p, false)))
  {
    hide Times, CallActions, Recorded, RecordNap;
    if p.Elsewhere? {
      NapPair(p.nap, true); NapPair(p.nap, false);
    } else {
      VisitTimes(p.visit);
    }
  }

  lemma {:induction false} TraceTimes(ps: seq<Period>)
    ensures Times(TraceActions(RecordAll(ps, true))) == Times(TraceActions(RecordAll(ps, false)))
    decreases |ps|
  {
    if ps != [] {
      hide Times, SegmentActions, RecordPeriod, TraceActions, RecordAll;
      TraceTimes(ps[1..]);
      PeriodTimes(ps[0]);
      TraceStep(ps, true); TraceStep(ps, false);
      TimesConcat(SegmentActions(RecordPeriod(ps[0], true)), TraceActions(RecordAll(ps[1..], true)));
      TimesConcat(SegmentActions(RecordPeriod(ps[0], false)), TraceActions(RecordAll(ps[1..], false)));
    }
  }

  lemma {:induction false} SameOrder(a: seq<Action>, b: seq<Action>)
    requires Times(a) == Times(b) && TimeOrdered(a)
    ensures TimeOrdered(b)
  {
    TimesAt(a); TimesAt(b);
    forall i, j | 0 <= i < j < |b|
      ensures b[i].ts <= b[j].ts
    {
      assert Times(a)[i] == b[i].ts && Times(a)[j] == b[j].ts;
    }
    forall i | 0 <= i < |b|
      ensures b[i].ts < U64
    {
      assert Times(a)[i] == b[i].ts;
    }
  }

  // ----- and give the same charges, names of interrupts aside

  /** The same options, but for the ip filter. */
  predicate SameBut(full: Config, filt: Config) {
    && full == filt.(opt := full.opt)
    && full.opt == filt.opt.(ipFiltering := false) && filt.opt.ipFiltering
  }

  /**
   * With call lines on and gathered lines folded, a full trace files an
   * interrupt under one line for all its sites, and a filtered trace, which
   * cannot tell it from a call, under the line of its site.
   */
  function Renamed(cfg: Config, p: Part): set<string> {
    if p.Sub? && p.interrupt && cfg.opt.callLine && !cfg.unfoldGathered then
      {ChildName(cfg, RecordPart(p, false).call, true), ChildName(cfg, RecordPart(p, false).call, false)}
    else {}
  }

  predicate Covers(bad: set<string>, cfg: Config, ps: seq<Part>) {
    forall i :: 0 <= i < |ps| ==> Renamed(cfg, ps[i]) <= bad
  }

  predicate CoversAll(bad: set<string>, cfg: Config, ps: seq<Period>) {
    forall i :: 0 <= i < |ps| && ps[i].During? ==> Covers(bad, cfg, ps[i].visit.parts)
  }

  /** The same intervals and off-CPU times, under the same names or under renamed ones. */
  ghost predicate AlikeOne(c: Charge, d: Charge, bad: set<string>) {
    && c.begin == d.begin && c.end == d.end && c.off == d.off
    && (c.name == d.name || (c.name in bad && d.name in bad))
  }

  ghost predicate Alike(cs: seq<Charge>, ds: seq<Charge>, bad: set<string>) {
    |cs| == |ds| && forall i :: 0 <= i < |cs| ==> AlikeOne(cs[i], ds[i], bad)
  }

  lemma {:induction false} AlikeConcat(a: seq<Charge>, b: seq<Charge>, c: seq<Charge>, d: seq<Charge>, bad: set<string>)
    requires Alike(a, c, bad) && Alike(b, d, bad)
    ensures Alike(a + b, c + d, bad)
  {
    hide AlikeOne;
  }

  lemma {:induction false} SameAlike(a: seq<Charge>, bad: set<string>)
    ensures Alike(a, a, bad)
  {
  }

  lemma {:induction false} ChildAlike(full: Config, filt: Config, p: Part, bad: set<string>)
    requires SameBut(full, filt) && p.Sub? && Renamed(full, p) <= bad
    ensures AlikeOne(ChildCharge(full, RecordPart(p, false)), ChildCharge(filt, RecordPart(p, true)), bad)
  {
    hide MeasuredAll, RecordNaps, WithAddr;
    NapTimes(p.naps);
    var x, y := RecordPart(p, false), RecordPart(p, true);
    assert ChildName(full, x.call, false) == ChildName(filt, y.call, false);
    if p.interrupt && full.opt.callLine && !full.unfoldGathered {
      assert ChildName(full, x.call, true) in Renamed(full, p) && ChildName(full, x.call, false) in Renamed(full, p);
    }
  }

  lemma {:induction false} BlockSame(full: Config, filt: Config, c: Action, d: Action, off: nat, a: Action, b: Action)
    requires SameBut(full, filt) && c.ts == d.ts && c.to == d.to && a.ts == b.ts && a.from == b.from
    ensures Block(full, c, off, a) == Block(filt, d, off, b)
  {
    hide Decimal;
    assert BlockName(c, a) == BlockName(d, b);
  }

  lemma {:induction false} PartCharges(full: Config, filt: Config, p: Part, c: Action, d: Action, off: nat,
                                       bad: set<string>)
    requires SameBut(full, filt) && c.ts == d.ts && c.to == d.to && Renamed(full, p) <= bad
    ensures Alike(ItemCharges(full, c, off, RecordPart(p, false)), ItemCharges(filt, d, off, RecordPart(p, true)), bad)
    ensures NextOff(full, c, off, RecordPart(p, false)) == NextOff(filt, d, off, RecordPart(p, true))
    ensures ItemOff(RecordPart(p, false)) == ItemOff(RecordPart(p, true))
    ensures ItemOffCount(RecordPart(p, false)) == ItemOffCount(RecordPart(p, true))
    ensures var c', d' := NextCursor(full, c, off, RecordPart(p, false)), NextCursor(filt, d, off, RecordPart(p, true));
      c'.ts == d'.ts && c'.to == d'.to
  {
    hide MeasuredAll, RecordNaps, Block, ChildCharge, AlikeOne, Renamed;
    var x, y := RecordPart(p, false), RecordPart(p, true);
    match p
    case Idle(n) =>
    case Sub(_, _, _, _, naps, _, _, _) =>
      NapTimes(naps);
      BlockSame(full, filt, c, d, off, x.call, y.call);
      ChildAlike(full, filt, p, bad);
      SameAlike(Block(full, c, off, x.call), bad);
      AlikeConcat(Block(full, c, off, x.call), [ChildCharge(full, x)], Block(filt, d, off, y.call),
          [ChildCharge(filt, y)], bad);
    case Branch(_, _, _, _) =>
      BlockSame(full, filt, c, d, off, x.a, y.a);
      SameAlike(Block(full, c, off, x.a), bad);
  }

  lemma {:induction false} PartsCharges(full: Config, filt: Config, ps: seq<Part>, c: Action, d: Action, off: nat,
                                        bad: set<string>)
    requires SameBut(full, filt) && c.ts == d.ts && c.to == d.to && Covers(bad, full, ps)
    ensures Alike(Charges(full, c, off, RecordParts(ps, false)), Charges(filt, d, off, RecordParts(ps, true)), bad)
    ensures ItemsOff(RecordParts(ps, false)) == ItemsOff(RecordParts(ps, true))
    ensures OffCount(RecordParts(ps, false)) == OffCount(RecordParts(ps, true))
    decreases |ps|
  {
    if ps != [] {
      hide ItemCharges, NextOff, NextCursor, ItemOff, ItemOffCount, RecordPart, Renamed, Alike;
      var p := ps[0];
      PartCharges(full, filt, p, c, d, off, bad);
      var x, y := RecordPart(p, false), RecordPart(p, true);
      assert RecordParts(ps, false)[1..] == RecordParts(ps[1..], false)
          && RecordParts(ps, true)[1..] == RecordParts(ps[1..], true);
      var c', d', off' := NextCursor(full, c, off, x), NextCursor(filt, d, off, y), NextOff(full, c, off, x);
      PartsCharges(full, filt, ps[1..], c', d', off', bad);
      AlikeConcat(ItemCharges(full, c, off, x), Charges(full, c', off', RecordParts(ps[1..], false)),
                  ItemCharges(filt, d, off, y), Charges(filt, d', off', RecordParts(ps[1..], true)), bad);
    } else {
      SameAlike([], bad);
    }
  }

  // ----- and so the same statistics

  /** Equal under every name that was not renamed. */
  ghost predicate SameBucket(b: Bucket, d: Bucket, bad: set<string>) {
    forall name :: name !in bad ==> (name in b <==> name in d) && Get(b, name) == Get(d, name)
  }

  ghost predicate SameChildren(c: Children, d: Children, bad: set<string>) {
    c.targetTotal == d.targetTotal && c.schedTotal == d.schedTotal && SameBucket(c.target, d.target, bad)
        && SameBucket(c.sched, d.sched, bad)
  }

  lemma {:induction false} AddValSame(b: Bucket, d: Bucket, m: string, n: string, val: nat, bad: set<string>)
    requires SameBucket(b, d, bad) && (m == n || (m in bad && n in bad))
    ensures SameBucket(AddVal(b, m, val), AddVal(d, n, val), bad)
  {
    hide Add64;
  }

  lemma {:induction false} AddBucketSame(b: Bucket, d: Bucket, e: Bucket, f: Bucket, bad: set<string>)
    requires SameBucket(b, d, bad) && SameBucket(e, f, bad)
    ensures SameBucket(AddBucket(b, e), AddBucket(d, f), bad)
  {
    hide Add64;
  }

  lemma {:induction false} AddChildSame(c: Children, d: Children, m: string, n: string, lat: nat, off: nat,
                                        bad: set<string>)
    requires SameChildren(c, d, bad) && (m == n || (m in bad && n in bad))
    ensures SameChildren(AddChild(c, m, lat, off), AddChild(d, n, lat, off), bad)
  {
    hide Add64, AddVal, SameBucket;
    AddValSame(c.target, d.target, m, n, lat, bad);
    AddValSame(c.sched, d.sched, m, n, off, bad);
  }

  lemma {:induction false} AddChildrenSame(c: Children, d: Children, e: Children, f: Children, bad: set<string>)
    requires SameChildren(c, d, bad) && SameChildren(e, f, bad)
    ensures SameChildren(AddChildren(c, e), AddChildren(d, f), bad)
  {
    hide AddBucket, SameBucket;
    AddBucketSame(c.target, d.target, e.target, f.target, bad);
    AddBucketSame(c.sched, d.sched, e.sched, f.sched, bad);
  }

  lemma {:induction false} TallySame(cs: seq<Charge>, ds: seq<Charge>, bad: set<string>)
    requires Alike(cs, ds, bad)
    ensures SameChildren(Tally(cs), Tally(ds), bad) && TotalTime(cs) == TotalTime(ds) && TotalOff(cs) == TotalOff(ds)
    decreases |cs|
  {
    hide SameChildren, AddChild;
    if cs == [] {
      NothingSame(bad);
    } else {
      var n := |cs| - 1;
      TallySame(cs[..n], ds[..n], bad);
      AddChildSame(Tally(cs[..n]), Tally(ds[..n]), cs[n].name, ds[n].name, Duration(cs[n]), cs[n].off, bad);
      assert AlikeOne(cs[n], ds[n], bad);
    }
  }

  lemma {:induction false} NothingSame(bad: set<string>)
    ensures SameChildren(NoChildren, NoChildren, bad)
  {
  }

  /** The same latencies, off-CPU counts and children; callers may have other names. */
  ghost predicate SameTotals(s: Stat, t: Stat, bad: set<string>) {
    s.latency == t.latency && s.schedCount == t.schedCount && SameChildren(s.children, t.children, bad)
  }

  lemma {:induction false} VisitAccount(full: Config, filt: Config, v: Visit, s: Stat, t: Stat, bad: set<string>)
    requires SameBut(full, filt) && SameTotals(s, t, bad) && Covers(bad, full, v.parts)
    ensures SameTotals(Account(full, s, Recorded(v, false)), Account(filt, t, Recorded(v, true)), bad)
    ensures OffCount(Recorded(v, false).items) == OffCount(Recorded(v, true).items)
  {
    hide Charges, Tally, ItemsOff, OffCount, Record, AddChildren, AddChild, CallerName, TotalTime, TotalOff,
        SameChildren, Alike, Covers;
    var a, b := Recorded(v, false), Recorded(v, true);
    PartsCharges(full, filt, v.parts, a.entry, b.entry, 0, bad);
    var cs, ds := Charges(full, a.entry, 0, a.items), Charges(filt, b.entry, 0, b.items);
    TallySame(cs, ds, bad);
    var lat, off := Excess(v.leave, v.enter), ItemsOff(a.items);
    AddChildSame(Tally(cs), Tally(ds), TARGET_SELF, TARGET_SELF, Excess(lat, TotalTime(cs)), Excess(off, TotalOff(cs)),
        bad);
    var c := if full.opt.codeBlock then Tally(cs)
        else AddChild(Tally(cs), TARGET_SELF, Excess(lat, TotalTime(cs)), Excess(off, TotalOff(cs)));
    var d := if full.opt.codeBlock then Tally(ds)
        else AddChild(Tally(ds), TARGET_SELF, Excess(lat, TotalTime(ds)), Excess(off, TotalOff(ds)));
    AddChildrenSame(s.children, t.children, c, d, bad);
  }

  lemma {:induction false} AllAccount(full: Config, filt: Config, ps: seq<Period>, s: Stat, t: Stat, bad: set<string>)
    requires SameBut(full, filt) && SameTotals(s, t, bad) && CoversAll(bad, full, ps)
    ensures SameTotals(AccountAll(full, s, RecordAll(ps, false)), AccountAll(filt, t, RecordAll(ps, true)), bad)
    decreases |ps|
  {
    if ps != [] {
      hide Account, OffCount, Recorded, Covers, SameChildren, RecordNap;
      assert RecordAll(ps, false)[1..] == RecordAll(ps[1..], false)
          && RecordAll(ps, true)[1..] == RecordAll(ps[1..], true);
      if ps[0].Elsewhere? {
        AllAccount(full, filt, ps[1..], Counted(s, 1), Counted(t, 1), bad);
      } else {
        var a, b := Recorded(ps[0].visit, false), Recorded(ps[0].visit, true);
        VisitAccount(full, filt, ps[0].visit, s, t, bad);
        var n := OffCount(a.items);
        VisitAccount(full, filt, ps[0].visit, Counted(s, n), Counted(t, n), bad);
        AllAccount(full, filt, ps[1..], Account(full, Counted(s, n), a), Account(filt, Counted(t, n), b), bad);
      }
    }
  }

  /**
   * The event loop on a full trace and on the ip-filtered trace of the same
   * thread, for every tree without an interrupt on the first instruction:
   * equal latencies, equal off-CPU counts, and equal buckets under all names
   * but those of renamed interrupts.
   */
  lemma {:induction false} FilterChangesNothing(full: Config, filt: Config, ps: seq<Period>, bad: set<string>)
    requires SameBut(full, filt) && ProperAll(full.opt.codeBlock, ps) && NoHeadsAtAll(ps) && CoversAll(bad, full, ps)
    requires TimeOrdered(TraceActions(RecordAll(ps, false)))
    ensures SameTotals(Finish(Run(full, Init, TraceActions(RecordAll(ps, false)))),
                       Finish(Run(filt, Init, TraceActions(RecordAll(ps, true)))), bad)
  {
    hide Run, AccountAll, Finish, RecordAll, TraceActions, TimeOrdered, ProperAll, NoHeadsAtAll, CoversAll,
        SameChildren;
    AllValid(full, ps, false); AllValid(filt, ps, true);
    TraceTimes(ps);
    SameOrder(TraceActions(RecordAll(ps, false)), TraceActions(RecordAll(ps, true)));
    AnalyzerMeetsSpec(full, RecordAll(ps, false));
    AnalyzerMeetsSpec(filt, RecordAll(ps, true));
    NothingSame(bad);
    AllAccount(full, filt, ps, NoStat, NoStat, bad);
  }

  lemma {:induction false} NoneRenamed(cfg: Config, ps: seq<Period>)
    requires !cfg.opt.callLine || cfg.unfoldGathered
    ensures CoversAll({}, cfg, ps)
  {
  }

  lemma {:induction false} SameEverywhere(c: Children, d: Children)
    requires SameChildren(c, d, {})
    ensures c == d
  {
    assert c.target == d.target && c.sched == d.sched by {
      hide Add64;
      assert forall name :: name in c.target ==> Get(c.target, name) == Get(d.target, name);
      assert forall name :: name in c.sched ==> Get(c.sched, name) == Get(d.sched, name);
    }
  }

  /** Without gathered call lines nothing is renamed, and all children are equal. */
  lemma {:induction false} FilterKeepsChildren(full: Config, filt: Config, ps: seq<Period>)
    requires SameBut(full, filt) && ProperAll(full.opt.codeBlock, ps) && NoHeadsAtAll(ps)
    requires (!full.opt.callLine || full.unfoldGathered)
    requires TimeOrdered(TraceActions(RecordAll(ps, false)))
    ensures var a, b := Finish(Run(full, Init, TraceActions(RecordAll(ps, false)))),
      Finish(Run(filt, Init, TraceActions(RecordAll(ps, true))));
      a.latency == b.latency && a.schedCount == b.schedCount && a.children == b.children
  {
    hide Run, Finish, RecordAll, TraceActions, TimeOrdered, ProperAll, NoHeadsAtAll, CoversAll, SameChildren;
    NoneRenamed(full, ps);
    FilterChangesNothing(full, filt, ps, {});
    SameEverywhere(Finish(Run(full, Init, TraceActions(RecordAll(ps, false)))).children,
        Finish(Run(filt, Init, TraceActions(RecordAll(ps, true)))).children);
  }

  lemma {:induction false} AlikeNone(cs: seq<Charge>, ds: seq<Charge>)
    requires Alike(cs, ds, {})
    ensures cs == ds
  {
    forall i | 0 <= i < |cs|
      ensures cs[i] == ds[i]
    {
      assert AlikeOne(cs[i], ds[i], {});
    }
  }

  lemma {:induction false} VisitExact(full: Config, filt: Config, v: Visit, s: Stat)
    requires SameBut(full, filt) && !full.opt.callLine
    ensures Account(full, s, Recorded(v, false)) == Account(filt, s, Recorded(v, true))
    ensures OffCount(Recorded(v, false).items) == OffCount(Recorded(v, true).items)
  {
    hide Charges, Tally, ItemsOff, OffCount, AddLatency, AddChildLatency, AddChild, TotalTime, TotalOff, Alike;
    var a, b := Recorded(v, false), Recorded(v, true);
    PartsCharges(full, filt, v.parts, a.entry, b.entry, 0, {});
    AlikeNone(Charges(full, a.entry, 0, a.items), Charges(filt, b.entry, 0, b.items));
  }

  lemma {:induction false} AllExact(full: Config, filt: Config, ps: seq<Period>, s: Stat)
    requires SameBut(full, filt) && !full.opt.callLine
    ensures AccountAll(full, s, RecordAll(ps, false)) == AccountAll(filt, s, RecordAll(ps, true))
    decreases |ps|
  {
    hide Account, OffCount, Recorded, RecordNap;
    if ps != [] {
      assert RecordAll(ps, false)[1..] == RecordAll(ps[1..], false)
          && RecordAll(ps, true)[1..] == RecordAll(ps[1..], true);
      if ps[0].During? {
        VisitExact(full, filt, ps[0].visit, s);
        VisitExact(full, filt, ps[0].visit, Counted(s, OffCount(Recorded(ps[0].visit, false).items)));
      }
      AllExact(full, filt, ps[1..], AccountSegment(full, s, RecordPeriod(ps[0], false)));
    }
  }

  /** Without call lines the two recordings give the same statistics, callers and all. */
  lemma {:induction false} FilterKeepsEverything(full: Config, filt: Config, ps: seq<Period>)
    requires SameBut(full, filt) && !full.opt.callLine && ProperAll(full.opt.codeBlock, ps) && NoHeadsAtAll(ps)
    requires TimeOrdered(TraceActions(RecordAll(ps, false)))
    ensures Finish(Run(full, Init, TraceActions(RecordAll(ps, false)))) ==
      Finish(Run(filt, Init, TraceActions(RecordAll(ps, true))))
  {
    hide Run, AccountAll, Finish, RecordAll, TraceActions, TimeOrdered, ProperAll, NoHeadsAtAll;
    AllValid(full, ps, false); AllValid(filt, ps, true);
    TraceTimes(ps);
    SameOrder(TraceActions(RecordAll(ps, false)), TraceActions(RecordAll(ps, true)));
    AnalyzerMeetsSpec(full, RecordAll(ps, false));
    AnalyzerMeetsSpec(filt, RecordAll(ps, true));
    AllExact(full, filt, ps, NoStat);
  }
}
