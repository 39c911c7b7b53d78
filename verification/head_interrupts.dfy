/**
 * Interrupts on the first instruction of the target. A full trace shows them
 * for what they are; through the ip filter coming back looks like a new call.
 */
module HeadInterrupts {
  import opened Common
  import H = Histogram
  import opened FuncStats
  import opened Analyzer
  import opened CallTree
  import opened Restarts
  import opened TraceForms

  // ----- a filtered visit as the loop takes it

  function FirstHead(ps: seq<Part>): (i: nat)
    ensures i <= |ps| && (i < |ps| ==> HeadPart(ps[i])) && forall j :: 0 <= j < i ==> !HeadPart(ps[j])
  {
    if ps == [] || HeadPart(ps[0]) then 0 else 1 + FirstHead(ps[1..])
  }

  function Starts(entry: Action, ps: seq<Part>, ret: Action): Attempts
    decreases |ps|
  {
    var i := FirstHead(ps);
    if i == |ps| then Attempts([], Call(entry, RecordParts(ps, true), ret))
    else
      var x := RecordPart(ps[i], true);
      var rest := Starts(x.ret, ps[i + 1..], ret);
      Attempts([Lost(entry, RecordParts(ps[..i], true), InChildOf(x.call, x.offs))] + rest.lost, rest.call)
  }

  /** When the call begins that the loop records in the end. */
  function LastStart(enter: nat, ps: seq<Part>): nat
    decreases |ps|
  {
    if ps == [] then enter else LastStart(if HeadPart(ps[0]) then ps[0].until else enter, ps[1..])
  }

  lemma {:induction false} RecordConcat(a: seq<Part>, b: seq<Part>, f: bool)
    ensures RecordParts(a + b, f) == RecordParts(a, f) + RecordParts(b, f)
    decreases |a|
  {
    hide RecordPart;
    if a == [] {
      assert a + b == b;
    } else {
      assert (a + b)[1..] == a[1..] + b;
      RecordConcat(a[1..], b, f);
    }
  }

  lemma {:induction false} ItemsConcat(a: seq<Item>, b: seq<Item>)
    ensures ItemsActions(a + b) == ItemsActions(a) + ItemsActions(b)
    decreases |a|
  {
    hide ItemActions;
    if a == [] {
      assert a + b == b;
    } else {
      assert (a + b)[1..] == a[1..] + b;
      ItemsConcat(a[1..], b);
      assert ItemActions(a[0]) + (ItemsActions(a[1..]) + ItemsActions(b)) ==
          ItemActions(a[0]) + ItemsActions(a[1..]) + ItemsActions(b);
    }
  }

  lemma {:induction false} ItemsAround(ps: seq<Part>, i: nat)
    requires i < |ps| && ps[i].Sub?
    ensures var x := RecordPart(ps[i], true);
      ItemsActions(RecordParts(ps, true)) ==
        ItemsActions(RecordParts(ps[..i], true)) + ([x.call] + OffActions(x.offs))
            + ([x.ret] + ItemsActions(RecordParts(ps[i + 1..], true)))
  {
    hide OffActions, RecordPart;
    var x := RecordPart(ps[i], true);
    assert ps == ps[..i] + ([ps[i]] + ps[i + 1..]);
    RecordConcat(ps[..i], [ps[i]] + ps[i + 1..], true);
    assert ([ps[i]] + ps[i + 1..])[1..] == ps[i + 1..];
    ItemsConcat(RecordParts(ps[..i], true), [x] + RecordParts(ps[i + 1..], true));
    assert ([x] + RecordParts(ps[i + 1..], true))[1..] == RecordParts(ps[i + 1..], true);
    SubShape(ps[i]);
  }

  lemma {:induction false} SubShape(p: Part)
    requires HeadPart(p) || p.Sub?
    ensures RecordPart(p, true).Child?
    ensures ItemActions(RecordPart(p, true)) ==
      [RecordPart(p, true).call] + OffActions(RecordPart(p, true).offs) + [RecordPart(p, true).ret]
  {
  }

  /** The starts are the filtered recording, taken apart. */
  lemma {:induction false} StartsActions(entry: Action, ps: seq<Part>, ret: Action)
    ensures AttemptActions(Starts(entry, ps, ret)) == [entry] + ItemsActions(RecordParts(ps, true)) + [ret]
    decreases |ps|
  {
    hide OffActions, RecordPart, RecordParts, ItemsActions;
    var i := FirstHead(ps);
    if i < |ps| {
      var x := RecordPart(ps[i], true);
      SubShape(ps[i]);
      StartsActions(x.ret, ps[i + 1..], ret);
      ItemsAround(ps, i);
      AttemptsCons(Lost(entry, RecordParts(ps[..i], true), InChildOf(x.call, x.offs)), Starts(x.ret, ps[i + 1..], ret));
    }
  }

  lemma {:induction false} AttemptsCons(l: Lost, a: Attempts)
    ensures AttemptActions(Attempts([l] + a.lost, a.call)) == LostActions(l) + AttemptActions(a)
  {
    hide LostActions, CallActions;
    assert ([l] + a.lost)[1..] == a.lost;
  }

  lemma {:induction false} LostValid(cfg: Config, entry: Action, ps: seq<Part>, i: nat)
    requires !entry.isError && AtHead(entry) && forall j :: 0 <= j < |ps| ==> ProperPart(cfg.opt.codeBlock, ps[j])
    requires i < |ps| && HeadPart(ps[i]) && forall j :: 0 <= j < i ==> !HeadPart(ps[j])
    ensures var x := RecordPart(ps[i], true);
      && ValidLost(cfg, Lost(entry, RecordParts(ps[..i], true), InChildOf(x.call, x.offs)))
      && !x.ret.isError && AtHead(x.ret) && x.ret.ts == ps[i].until
  {
    hide ValidItem, RecordParts, ValidOff;
    PartsValid(cfg, ps[..i], true);
    NapsValid(ps[i].naps, true);
  }

  lemma {:induction false} StartsValid(cfg: Config, entry: Action, ps: seq<Part>, ret: Action)
    requires !entry.isError && AtHead(entry) && forall i :: 0 <= i < |ps| ==> ProperPart(cfg.opt.codeBlock, ps[i])
    requires Quiet(ret) && ret.fromTarget && !ret.toTarget && LeavesTarget(ret)
    ensures ValidAttempts(cfg, Starts(entry, ps, ret))
    decreases |ps|
  {
    hide ValidItem, RecordParts, RecordPart, ProperPart, ValidLost, EntersTarget, HeadPart, Normalized;
    var i := FirstHead(ps);
    if i < |ps| {
      SubShape(ps[i]);
      LostValid(cfg, entry, ps, i);
      StartsValid(cfg, RecordPart(ps[i], true).ret, ps[i + 1..], ret);
    } else {
      PartsValid(cfg, ps, true);
    }
  }

  lemma {:induction false} StartsLast(entry: Action, ps: seq<Part>, ret: Action)
    ensures Starts(entry, ps, ret).call.entry.ts == LastStart(entry.ts, ps) && Starts(entry, ps, ret).call.ret == ret
    decreases |ps|
  {
    hide RecordParts;
    var i := FirstHead(ps);
    LastStartSkip(entry.ts, ps, i);
    if i < |ps| {
      StartsLast(RecordPart(ps[i], true).ret, ps[i + 1..], ret);
    }
  }

  lemma {:induction false} LastStartSkip(enter: nat, ps: seq<Part>, i: nat)
    requires i <= |ps| && forall j :: 0 <= j < i ==> !HeadPart(ps[j])
    ensures LastStart(enter, ps) == LastStart(enter, ps[i..])
    ensures i < |ps| && HeadPart(ps[i]) ==> LastStart(enter, ps) == LastStart(ps[i].until, ps[i + 1..])
    decreases i
  {
    hide HeadPart;
    if i == 0 {
      assert ps[0..] == ps;
    } else {
      LastStartSkip(enter, ps[1..], i - 1);
      assert ps[1..][i - 1..] == ps[i..];
      if i < |ps| { assert ps[1..][i..] == ps[i + 1..]; }
    }
  }

  // ----- whole threads

  function Grouped(p: Period): Stretch {
    if p.Elsewhere? then Away(RecordNap(p.nap, true))
    else
      var c := Recorded(p.visit, true);
      Called(Starts(c.entry, p.visit.parts, c.ret))
  }

  function GroupAll(ps: seq<Period>): seq<Stretch> {
    if ps == [] then [] else [Grouped(ps[0])] + GroupAll(ps[1..])
  }

  lemma {:induction false} GroupedActions(ps: seq<Period>)
    ensures AllActions(GroupAll(ps)) == TraceActions(RecordAll(ps, true))
    decreases |ps|
  {
    if ps != [] {
      hide Starts, RecordNap, AttemptActions, CallActions;
      GroupedActions(ps[1..]);
      assert GroupAll(ps)[1..] == GroupAll(ps[1..]);
      TraceStep(ps, true);
      GroupedOne(ps[0]);
    }
  }

  lemma {:induction false} GroupedOne(p: Period)
    ensures StretchActions(Grouped(p)) == SegmentActions(RecordPeriod(p, true))
  {
    hide Starts, RecordNap, AttemptActions, ItemsActions, RecordParts;
    if p.During? {
      var c := Recorded(p.visit, true);
      StartsActions(c.entry, p.visit.parts, c.ret);
    }
  }

  lemma {:induction false} GroupedValid(cfg: Config, ps: seq<Period>)
    requires ProperAll(cfg.opt.codeBlock, ps)
    ensures forall i :: 0 <= i < |GroupAll(ps)| ==> ValidStretch(cfg, GroupAll(ps)[i])
    decreases |ps|
  {
    hide Starts, ValidAttempts, RecordParts, ProperPart;
    if ps != [] {
      GroupedValid(cfg, ps[1..]);
      if ps[0].During? {
        var c := Recorded(ps[0].visit, true);
        StartsValid(cfg, c.entry, ps[0].visit.parts, c.ret);
      }
    }
  }

  // ----- the latencies

  /** The latency of a visit as it was, or from the last time the loop saw it begin. */
  function Latency1(v: Visit, filtered: bool): nat {
    Excess(v.leave, Start1(v, filtered))
  }

  function Start1(v: Visit, filtered: bool): nat {
    if filtered then LastStart(v.enter, v.parts) else v.enter
  }

  /** The latencies to be recorded, in order. */
  function Counts(cfg: Config, p: Period, filtered: bool): seq<nat> {
    if p.During? && Wanted(cfg.opt, Start1(p.visit, filtered), Latency1(p.visit, filtered)) then
        [Latency1(p.visit, filtered)] else []
  }

  function Latencies(cfg: Config, ps: seq<Period>, filtered: bool): seq<nat> {
    if ps == [] then [] else Counts(cfg, ps[0], filtered) + Latencies(cfg, ps[1..], filtered)
  }

  lemma {:induction false} AccountTarget(cfg: Config, stat: Stat, call: Call, vals: seq<nat>)
    requires stat.latency.target == H.Of(vals)
    ensures var lat := Excess(call.ret.ts, call.entry.ts);
      Account(cfg, stat, call).latency.target == H.Of(vals + if Wanted(cfg.opt, call.entry.ts, lat) then [lat] else [])
  {
    hide H.Assign, H.Of, Charges, Tally, AddChildren, AddChild, ItemsOff, CallerName;
    H.AssignOf(vals, Excess(call.ret.ts, call.entry.ts));
    assert vals + [] == vals;
  }

  lemma {:induction false} LostsTarget(cfg: Config, stat: Stat, ls: seq<Lost>)
    ensures AccountLosts(cfg, stat, ls).latency.target == stat.latency.target
    decreases |ls|
  {
    if ls != [] {
      LostsTarget(cfg, AccountLost(cfg, stat, ls[0]), ls[1..]);
      LostTarget(cfg, stat, ls[0]);
    }
  }

  lemma {:induction false} LostTarget(cfg: Config, stat: Stat, l: Lost)
    ensures AccountLost(cfg, stat, l).latency.target == stat.latency.target
  {
    hide LostCharges, Tally, AddChild, AddChildren, ChildName, OffCount;
  }

  lemma {:induction false} FilteredOne(cfg: Config, p: Period, stat: Stat, vals: seq<nat>)
    requires stat.latency.target == H.Of(vals)
    ensures AccountStretch(cfg, stat, Grouped(p)).latency.target == H.Of(vals + Counts(cfg, p, true))
  {
    hide H.Of, Starts, Account, AccountLosts, RecordNap, Wanted, OffCount, LastStart, RecordParts;
    if p.Elsewhere? {
      assert vals + [] == vals;
    } else {
      var c := Recorded(p.visit, true);
      var a := Starts(c.entry, p.visit.parts, c.ret);
      StartsLast(c.entry, p.visit.parts, c.ret);
      LostsTarget(cfg, stat, a.lost);
      AccountTarget(cfg, Counted(AccountLosts(cfg, stat, a.lost), OffCount(a.call.items)), a.call, vals);
    }
  }

  lemma {:induction false} FilteredTarget(cfg: Config, ps: seq<Period>, stat: Stat, vals: seq<nat>)
    requires stat.latency.target == H.Of(vals)
    ensures AccountStretches(cfg, stat, GroupAll(ps)).latency.target == H.Of(vals + Latencies(cfg, ps, true))
    decreases |ps|
  {
    hide H.Of, Grouped, AccountStretch, Counts;
    if ps == [] {
      assert vals + [] == vals;
    } else {
      assert GroupAll(ps)[1..] == GroupAll(ps[1..]);
      FilteredOne(cfg, ps[0], stat, vals);
      FilteredTarget(cfg, ps[1..], AccountStretch(cfg, stat, Grouped(ps[0])), vals + Counts(cfg, ps[0], true));
      assert vals + Counts(cfg, ps[0], true) + Latencies(cfg, ps[1..], true) == vals + Latencies(cfg, ps, true);
    }
  }

  lemma {:induction false} FullOne(cfg: Config, p: Period, stat: Stat, vals: seq<nat>)
    requires stat.latency.target == H.Of(vals)
    ensures AccountSegment(cfg, stat, RecordPeriod(p, false)).latency.target == H.Of(vals + Counts(cfg, p, false))
  {
    hide H.Of, Account, RecordNap, Wanted, OffCount, RecordParts;
    if p.Elsewhere? {
      assert vals + [] == vals;
    } else {
      var c := Recorded(p.visit, false);
      AccountTarget(cfg, Counted(stat, OffCount(c.items)), c, vals);
    }
  }

  lemma {:induction false} FullTarget(cfg: Config, ps: seq<Period>, stat: Stat, vals: seq<nat>)
    requires stat.latency.target == H.Of(vals)
    ensures AccountAll(cfg, stat, RecordAll(ps, false)).latency.target == H.Of(vals + Latencies(cfg, ps, false))
    decreases |ps|
  {
    hide H.Of, RecordPeriod, Account, OffCount, Counts;
    if ps == [] {
      assert vals + [] == vals;
    } else {
      assert RecordAll(ps, false)[1..] == RecordAll(ps[1..], false);
      FullOne(cfg, ps[0], stat, vals);
      FullTarget(cfg, ps[1..], AccountSegment(cfg, stat, RecordPeriod(ps[0], false)), vals + Counts(cfg, ps[0], false));
      assert vals + Counts(cfg, ps[0], false) + Latencies(cfg, ps[1..], false) == vals + Latencies(cfg, ps, false);
    }
  }

  /**
   * What the loop records of any thread: from a full trace the latency of
   * every call, through the ip filter the time since the last resumption at
   * the first instruction.
   */
  lemma {:induction false} RecordedLatencies(full: Config, filt: Config, ps: seq<Period>)
    requires SameBut(full, filt) && ProperAll(full.opt.codeBlock, ps) && TimeOrdered(TraceActions(RecordAll(ps, false)))
    ensures Finish(Run(full, Init, TraceActions(RecordAll(ps, false)))).latency.target ==
      H.Of(Latencies(full, ps, false))
    ensures Finish(Run(filt, Init, TraceActions(RecordAll(ps, true)))).latency.target == H.Of(Latencies(filt, ps, true))
    ensures !Run(full, Init, TraceActions(RecordAll(ps, false))).crashed
    ensures !Run(filt, Init, TraceActions(RecordAll(ps, true))).crashed
  {
    hide Run, Finish, TraceActions, RecordAll, TimeOrdered, ProperAll, AccountAll, AccountStretches, GroupAll,
        Latencies, H.Of, ValidStretch;
    AllValid(full, ps, false);
    AnalyzerMeetsSpec(full, RecordAll(ps, false));
    TraceTimes(ps);
    SameOrder(TraceActions(RecordAll(ps, false)), TraceActions(RecordAll(ps, true)));
    GroupedActions(ps);
    GroupedValid(filt, ps);
    LoopMeetsSpec(filt, GroupAll(ps));
    NothingYet();
    FullTarget(full, ps, NoStat, []);
    FilteredTarget(filt, ps, NoStat, []);
    assert [] + Latencies(full, ps, false) == Latencies(full, ps, false)
        && [] + Latencies(filt, ps, true) == Latencies(filt, ps, true);
  }

  lemma {:induction false} NothingYet()
    ensures NoStat.latency.target == H.Of([])
  {
  }

  // ----- what else the two record

  /** Resumptions at the first instruction. */
  function HeadCount(ps: seq<Part>): nat {
    if ps == [] then 0 else (if HeadPart(ps[0]) then 1 else 0) + HeadCount(ps[1..])
  }

  function PartNaps(p: Part): nat {
    match p
    case Idle(_) => 1
    case Sub(_, _, _, _, naps, _, _, _) => |naps|
    case Branch(_, _, _, _) => 0
  }

  function NapCount(ps: seq<Part>): nat {
    if ps == [] then 0 else PartNaps(ps[0]) + NapCount(ps[1..])
  }

  function AllHeads(ps: seq<Period>): nat {
    if ps == [] then 0 else (if ps[0].During? then HeadCount(ps[0].visit.parts) else 0) + AllHeads(ps[1..])
  }

  function AllNaps(ps: seq<Period>): nat {
    if ps == [] then 0 else (if ps[0].During? then NapCount(ps[0].visit.parts) else 1) + AllNaps(ps[1..])
  }

  lemma {:induction false} NapsRecorded(naps: seq<Nap>, f: bool)
    ensures |RecordNaps(naps, f)| == |naps|
    decreases |naps|
  {
    if naps != [] {
      NapsRecorded(naps[1..], f);
    }
  }

  lemma {:induction false} PartsCounted(ps: seq<Part>, f: bool)
    ensures OffCount(RecordParts(ps, f)) == NapCount(ps)
    decreases |ps|
  {
    if ps != [] {
      PartsCounted(ps[1..], f);
      assert RecordParts(ps, f)[1..] == RecordParts(ps[1..], f);
      if ps[0].Sub? { NapsRecorded(ps[0].naps, f); }
    }
  }

  /** The counts up to the first head part, and of the rest. */
  lemma {:induction false} CountsAt(ps: seq<Part>, i: nat)
    requires i <= |ps| && forall j :: 0 <= j < i ==> !HeadPart(ps[j])
    ensures HeadCount(ps) == HeadCount(ps[i..]) && NapCount(ps) == NapCount(ps[..i]) + NapCount(ps[i..])
    decreases i
  {
    if i > 0 {
      assert ps[1..][..i - 1] == ps[..i][1..] && ps[1..][i - 1..] == ps[i..];
      CountsAt(ps[1..], i - 1);
    } else {
      assert ps[0..] == ps;
    }
  }

  /** One unknown call for each resumption at the first instruction, and every switch is counted. */
  lemma {:induction false} StartsCounted(cfg: Config, stat: Stat, entry: Action, ps: seq<Part>, ret: Action)
    requires cfg.opt.ipFiltering && entry.from == Unknown
    ensures var a := Starts(entry, ps, ret); var s := AccountLosts(cfg, stat, a.lost);
      s.latency.unknown == stat.latency.unknown + HeadCount(ps)
          && s.schedCount + OffCount(a.call.items) == stat.schedCount + NapCount(ps)
    decreases |ps|
  {
    hide AccountLost, OffCount, RecordParts, NapCount, HeadCount;
    var i := FirstHead(ps);
    CountsAt(ps, i);
    if i == |ps| {
      PartsCounted(ps, true);
      NoneLeft(ps);
    } else {
      var x := RecordPart(ps[i], true);
      var lost, rest := Lost(entry, RecordParts(ps[..i], true), InChildOf(x.call, x.offs)),
          Starts(x.ret, ps[i + 1..], ret);
      assert ([lost] + rest.lost)[1..] == rest.lost;
      PartsCounted(ps[..i], true);
      NapsRecorded(ps[i].naps, true);
      LostCounted(cfg, stat, lost);
      NextCounted(ps, i);
      StartsCounted(cfg, AccountLost(cfg, stat, lost), x.ret, ps[i + 1..], ret);
    }
  }

  lemma {:induction false} NoneLeft(ps: seq<Part>)
    ensures HeadCount(ps[|ps|..]) == 0 && NapCount(ps[|ps|..]) == 0
  {
  }

  lemma {:induction false} NextCounted(ps: seq<Part>, i: nat)
    requires i < |ps| && HeadPart(ps[i])
    ensures HeadCount(ps[i..]) == 1 + HeadCount(ps[i + 1..])
    ensures NapCount(ps[i..]) == |ps[i].naps| + NapCount(ps[i + 1..])
  {
    assert ps[i..][1..] == ps[i + 1..];
  }

  lemma {:induction false} LostCounted(cfg: Config, stat: Stat, l: Lost)
    requires cfg.opt.ipFiltering && l.entry.from == Unknown && l.place.InChildOf?
    ensures AccountLost(cfg, stat, l).latency.unknown == stat.latency.unknown + 1
    ensures AccountLost(cfg, stat, l).schedCount == stat.schedCount + OffCount(l.items) + |l.place.offs|
  {
    hide LostCharges, Tally, AddChild, AddChildren, ChildName, OffCount;
  }

  lemma {:induction false} CallCounted(cfg: Config, stat: Stat, call: Call)
    ensures Account(cfg, stat, call).latency.unknown == stat.latency.unknown
    ensures Account(cfg, stat, call).schedCount == stat.schedCount
  {
    hide Charges, Tally, AddChild, AddChildren, CallerName, ItemsOff, H.Assign;
  }

  lemma {:induction false} FilteredCounts(cfg: Config, ps: seq<Period>, stat: Stat)
    requires cfg.opt.ipFiltering
    ensures var s := AccountStretches(cfg, stat, GroupAll(ps));
      s.latency.unknown == stat.latency.unknown + AllHeads(ps) && s.schedCount == stat.schedCount + AllNaps(ps)
    decreases |ps|
  {
    hide Account, AccountLosts, Starts, OffCount, HeadCount, NapCount, RecordNap, RecordParts;
    if ps != [] {
      assert GroupAll(ps)[1..] == GroupAll(ps[1..]);
      if ps[0].During? {
        var c := Recorded(ps[0].visit, true);
        var a := Starts(c.entry, ps[0].visit.parts, c.ret);
        StartsCounted(cfg, stat, c.entry, ps[0].visit.parts, c.ret);
        CallCounted(cfg, Counted(AccountLosts(cfg, stat, a.lost), OffCount(a.call.items)), a.call);
      }
      FilteredCounts(cfg, ps[1..], AccountStretch(cfg, stat, Grouped(ps[0])));
    }
  }

  lemma {:induction false} FullCounts(cfg: Config, ps: seq<Period>, stat: Stat)
    ensures var s := AccountAll(cfg, stat, RecordAll(ps, false));
      s.latency.unknown == stat.latency.unknown && s.schedCount == stat.schedCount + AllNaps(ps)
    decreases |ps|
  {
    hide Account, OffCount, NapCount, RecordNap, RecordParts;
    if ps != [] {
      assert RecordAll(ps, false)[1..] == RecordAll(ps[1..], false);
      if ps[0].During? {
        var c := Recorded(ps[0].visit, false);
        PartsCounted(ps[0].visit.parts, false);
        CallCounted(cfg, Counted(stat, OffCount(c.items)), c);
      }
      FullCounts(cfg, ps[1..], AccountSegment(cfg, stat, RecordPeriod(ps[0], false)));
    }
  }

  /**
   * Whatever interrupts there are: both traces count the same switches. The
   * full one has no unknown call, the filtered one has one for each resumption
   * at the first instruction, and its buckets are those of the lost starts and
   * of the last attempts.
   */
  lemma {:induction false} RecordedCounts(full: Config, filt: Config, ps: seq<Period>)
    requires SameBut(full, filt) && ProperAll(full.opt.codeBlock, ps) && TimeOrdered(TraceActions(RecordAll(ps, false)))
    ensures var a, b := Finish(Run(full, Init, TraceActions(RecordAll(ps, false)))),
      Finish(Run(filt, Init, TraceActions(RecordAll(ps, true))));
      && a.schedCount == b.schedCount == AllNaps(ps) && a.latency.unknown == 0 && b.latency.unknown == AllHeads(ps)
      && b == AccountStretches(filt, NoStat, GroupAll(ps))
  {
    hide Run, Finish, TraceActions, RecordAll, TimeOrdered, ProperAll, AccountAll, AccountStretches, GroupAll,
        ValidStretch, AllHeads, AllNaps;
    AllValid(full, ps, false);
    AnalyzerMeetsSpec(full, RecordAll(ps, false));
    TraceTimes(ps);
    SameOrder(TraceActions(RecordAll(ps, false)), TraceActions(RecordAll(ps, true)));
    GroupedActions(ps);
    GroupedValid(filt, ps);
    LoopMeetsSpec(filt, GroupAll(ps));
    FullCounts(full, ps, NoStat);
    FilteredCounts(filt, ps, NoStat);
  }

  // ----- when the two agree

  /** Latencies and times are not restricted. */
  predicate Unrestricted(opt: Option) {
    opt.minLatency == 0 && opt.minTime == 0 && opt.maxLatency >= U64 - 1 && opt.maxTime >= U64 - 1
  }

  /** Every resumption at the first instruction happens at the instant of the entry. */
  predicate HeadsAtEntry(enter: nat, parts: seq<Part>) {
    forall i :: 0 <= i < |parts| && HeadPart(parts[i]) ==> parts[i].until == enter
  }

  predicate NothingLost(v: Visit) {
    HeadsAtEntry(v.enter, v.parts)
  }

  predicate NothingLostAtAll(ps: seq<Period>) {
    forall i :: 0 <= i < |ps| && ps[i].During? ==> NothingLost(ps[i].visit)
  }

  lemma {:induction false} LastStartFits(t: nat, enter: nat, ps: seq<Part>, ret: Action)
    requires enter <= t && Paced(ItemsActions(RecordParts(ps, false)) + [ret], t)
    ensures enter <= LastStart(enter, ps) <= ret.ts && ret.ts < U64
    ensures LastStart(enter, ps) == enter <==> HeadsAtEntry(enter, ps)
    decreases |ps|
  {
    hide RecordPart, ItemActions, Paced;
    if ps == [] {
      assert ItemsActions(RecordParts(ps, false)) + [ret] == [ret];
      PacedLast([ret], t);
    } else {
      var x, rest := RecordPart(ps[0], false), RecordParts(ps[1..], false);
      assert RecordParts(ps, false)[1..] == rest;
      assert ItemsActions(RecordParts(ps, false)) + [ret] == ItemActions(x) + (ItemsActions(rest) + [ret]);
      PacedConcat(ItemActions(x), ItemsActions(rest) + [ret], t);
      PartEnd(ps[0], t);
      LastStartFits(EndTime(ItemActions(x), t), if HeadPart(ps[0]) then ps[0].until else enter, ps[1..], ret);
      HeadsSplit(enter, ps);
    }
  }

  lemma {:induction false} HeadsSplit(enter: nat, ps: seq<Part>)
    requires ps != []
    ensures HeadsAtEntry(enter, ps) <==> (HeadPart(ps[0]) ==> ps[0].until == enter) && HeadsAtEntry(enter, ps[1..])
  {
    if HeadsAtEntry(enter, ps[1..]) {
      assert forall i :: 1 <= i < |ps| ==> ps[i] == ps[1..][i - 1];
    }
  }

  lemma {:induction false} PacedLast(actions: seq<Action>, now: nat)
    requires actions != [] && Paced(actions, now)
    ensures now <= actions[0].ts < U64
  {
  }

  lemma {:induction false} PartEnd(p: Part, t: nat)
    requires Paced(ItemActions(RecordPart(p, false)), t)
    ensures HeadPart(p) ==> t <= p.until && p.until == EndTime(ItemActions(RecordPart(p, false)), t)
    ensures t <= EndTime(ItemActions(RecordPart(p, false)), t)
  {
    hide OffActions, RecordNaps;
    assert ItemActions(RecordPart(p, false)) + [] == ItemActions(RecordPart(p, false));
    PacedConcat(ItemActions(RecordPart(p, false)), [], t);
  }

  lemma {:induction false} VisitFits(v: Visit, now: nat)
    requires Paced(CallActions(Recorded(v, false)), now)
    ensures v.enter <= LastStart(v.enter, v.parts) <= v.leave < U64
    ensures LastStart(v.enter, v.parts) == v.enter <==> NothingLost(v)
  {
    hide RecordParts, ItemsActions, HeadsAtEntry;
    var c := Recorded(v, false);
    assert CallActions(c) == [c.entry] + (ItemsActions(c.items) + [c.ret]);
    PacedConcat([c.entry], ItemsActions(c.items) + [c.ret], now);
    LastStartFits(v.enter, v.enter, v.parts, c.ret);
  }

  /** The filtered latencies add up to no more, and to the same only if nothing was lost. */
  lemma {:induction false} Compare(full: Config, filt: Config, ps: seq<Period>, now: nat)
    requires SameBut(full, filt) && Unrestricted(full.opt) && Paced(TraceActions(RecordAll(ps, false)), now)
    ensures H.Sum(Latencies(filt, ps, true)) <= H.Sum(Latencies(full, ps, false))
    ensures H.Sum(Latencies(filt, ps, true)) == H.Sum(Latencies(full, ps, false)) <==> NothingLostAtAll(ps)
    ensures NothingLostAtAll(ps) ==> Latencies(filt, ps, true) == Latencies(full, ps, false)
    decreases |ps|
  {
    hide Paced, TraceActions, RecordAll, RecordPeriod, SegmentActions, Counts, NothingLost;
    if ps != [] {
      var a := SegmentActions(RecordPeriod(ps[0], false));
      TraceStep(ps, false);
      PacedConcat(a, TraceActions(RecordAll(ps[1..], false)), now);
      Compare(full, filt, ps[1..], EndTime(a, now));
      CompareOne(full, filt, ps[0], now);
      H.SumConcat(Counts(filt, ps[0], true), Latencies(filt, ps[1..], true));
      H.SumConcat(Counts(full, ps[0], false), Latencies(full, ps[1..], false));
      LostSplit(ps);
    }
  }

  lemma {:induction false} LostSplit(ps: seq<Period>)
    requires ps != []
    ensures NothingLostAtAll(ps) <==> (ps[0].During? ==> NothingLost(ps[0].visit)) && NothingLostAtAll(ps[1..])
  {
    hide NothingLost;
    if NothingLostAtAll(ps[1..]) {
      assert forall i :: 1 <= i < |ps| ==> ps[i] == ps[1..][i - 1];
    }
  }

  lemma {:induction false} CompareOne(full: Config, filt: Config, p: Period, now: nat)
    requires SameBut(full, filt) && Unrestricted(full.opt) && Paced(SegmentActions(RecordPeriod(p, false)), now)
    ensures H.Sum(Counts(filt, p, true)) <= H.Sum(Counts(full, p, false))
    ensures H.Sum(Counts(filt, p, true)) == H.Sum(Counts(full, p, false)) <==> (p.During? ==> NothingLost(p.visit))
    ensures (p.During? ==> NothingLost(p.visit)) ==> Counts(filt, p, true) == Counts(full, p, false)
  {
    hide Paced, CallActions, Recorded, RecordNap, LastStart, NothingLost;
    if p.During? {
      VisitFits(p.visit, now);
      SumOne(Latency1(p.visit, true)); SumOne(Latency1(p.visit, false));
    }
  }

  lemma {:induction false} SumOne(x: nat)
    ensures H.Sum([x]) == x
  {
    assert [x][1..] == [];
  }

  /**
   * Without restrictions, the full and the ip-filtered trace of a thread give
   * the same latencies if and only if every resumption of a call at the first
   * instruction of the target happens at the instant of its entry.
   */
  lemma {:induction false} SameLatenciesIff(full: Config, filt: Config, ps: seq<Period>)
    requires SameBut(full, filt) && Unrestricted(full.opt) && ProperAll(full.opt.codeBlock, ps)
    requires TimeOrdered(TraceActions(RecordAll(ps, false)))
    ensures Finish(Run(full, Init, TraceActions(RecordAll(ps, false)))).latency.target ==
      Finish(Run(filt, Init, TraceActions(RecordAll(ps, true)))).latency.target
      <==> NothingLostAtAll(ps)
  {
    hide Run, Finish, TraceActions, RecordAll, TimeOrdered, ProperAll, Latencies, H.Of, H.Sum, NothingLostAtAll,
        Unrestricted;
    RecordedLatencies(full, filt, ps);
    OrderedIsPaced(TraceActions(RecordAll(ps, false)), 0);
    Compare(full, filt, ps, 0);
    H.OfIs(Latencies(full, ps, false));
    H.OfIs(Latencies(filt, ps, true));
  }

  function At(name: string, addr: nat, offset: nat): Symbol {
    Symbol(name, addr + offset, offset)
  }

  /** A call of the target from 100 to 130 with an interrupt on its first instruction from 110 on. */
  function HeadVisit(until: nat): Visit {
    var head, caller, handler := At("target", 1000, 0), At("caller", 2000, 4), At("handler", 3000, 0);
    Visit(100, caller, head, [Sub(true, 110, head, handler, [], until, handler, head)], 130, At("target", 1000, 8),
        caller)
  }

  lemma {:induction false} HeadVisitActions(until: nat)
    ensures var v := HeadVisit(until); var c := Recorded(v, false);
      && TraceActions(RecordAll([During(v)], false)) == CallActions(c)
      && CallActions(c) == [c.entry, c.items[0].call, c.items[0].ret, c.ret]
      && c.entry.ts == 100 && c.items[0].call.ts == 110 && c.items[0].ret.ts == until && c.ret.ts == 130
  {
    var v := HeadVisit(until);
    var c := Recorded(v, false);
    var i := RecordPart(v.parts[0], false);
    assert v.parts[1..] == [] && RecordParts([], false) == [];
    assert c.items == RecordParts(v.parts, false) == [i];
    assert c.items[1..] == [];
    assert ItemActions(i) == [i.call] + OffActions(i.offs) + [i.ret] && OffActions(i.offs) == [];
    assert ItemsActions(c.items) == [i.call, i.ret];
    TraceStep([During(v)], false);
    assert [During(v)][1..] == [];
  }

  lemma {:induction false} HeadVisitTimes(until: nat)
    requires 110 <= until <= 130
    ensures TimeOrdered(TraceActions(RecordAll([During(HeadVisit(until))], false)))
  {
    hide TraceActions, RecordAll, Recorded, CallActions;
    HeadVisitActions(until);
  }

  lemma {:induction false} LatenciesOfOne(cfg: Config, p: Period, filtered: bool)
    ensures Latencies(cfg, [p], filtered) == Counts(cfg, p, filtered)
  {
    hide Counts;
    assert [p][1..] == [] && Latencies(cfg, [], filtered) == [];
    assert Counts(cfg, p, filtered) + [] == Counts(cfg, p, filtered);
  }

  lemma {:induction false} HeadVisitLatency(full: Config, filt: Config, codeBlock: bool, until: nat)
    requires SameBut(full, filt) && Unrestricted(full.opt) && 110 <= until <= 130
    ensures var ps := [During(HeadVisit(until))];
      ProperAll(codeBlock, ps) && Latencies(full, ps, false) == [30] && Latencies(filt, ps, true) == [130 - until]
  {
    var v := HeadVisit(until);
    var ps := [During(v)];
    assert v.parts[1..] == [] && LastStart(100, v.parts) == until;
    assert Counts(full, ps[0], false) == [30] && Counts(filt, ps[0], true) == [130 - until];
    LatenciesOfOne(full, ps[0], false);
    LatenciesOfOne(filt, ps[0], true);
  }

  /**
   * Of that call the full trace yields a latency of 30; the filtered one
   * takes the resumption for a new call, 10 long after an interrupt of 10, and
   * 20 long even after one that took no time.
   */
  lemma {:induction false} HeadInterruptLost(full: Config, filt: Config, until: nat)
    requires SameBut(full, filt) && Unrestricted(full.opt) && 110 <= until <= 130
    ensures var ps := [During(HeadVisit(until))];
      && Finish(Run(full, Init, TraceActions(RecordAll(ps, false)))).latency.target == H.Of([30])
      && Finish(Run(filt, Init, TraceActions(RecordAll(ps, true)))).latency.target == H.Of([130 - until])
  {
    hide *;
    HeadVisitTimes(until);
    HeadVisitLatency(full, filt, full.opt.codeBlock, until);
    RecordedLatencies(full, filt, [During(HeadVisit(until))]);
  }
}
