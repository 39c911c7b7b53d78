/**
 * What the output of a thread has to say, read off its trace: for every name
 * how many children and how long, and for every caller which latencies. None of
 * the functions that the analyser uses to name, choose or add up occur here.
 */
module OutputSpec {
  import opened Common
  import H = Histogram
  import opened FuncStats
  import opened Analyzer
  import opened CallTree
  import opened Restarts
  import opened Buckets

  function Span(from: nat, to: nat): nat {
    if from <= to then to - from else 0
  }

  /** A stay off the CPU, measured in 32 bits. */
  function Stay(off: Off): nat {
    (off.e.ts - off.b.ts) % 0x1_0000_0000
  }

  function Stays(offs: seq<Off>): nat {
    if offs == [] then 0 else Stay(offs[0]) + Stays(offs[1..])
  }

  // ----- names

  /** The child is filed under `n`: its function, and with call lines the site of the call. */
  predicate ChildUnder(cfg: Config, call: Action, byIret: bool, n: string) {
    if !cfg.opt.callLine then n == call.to.name
    else if byIret && !cfg.unfoldGathered then n == call.to.name + "![gather_call_line]"
    else if call.to.name in {cfg.target, cfg.ancestor} then n == call.to.name
    else n == call.to.name + "!" + Decimal(call.from.addr)
  }

  /** The child never came back. */
  predicate UnknownUnder(cfg: Config, call: Action, n: string) {
    |n| >= 18 && n[..18] == "(unknown latency) " && ChildUnder(cfg, call, false, n[18..])
  }

  /** The call belongs to a caller: the function returned to, and with call lines the site of the call. */
  predicate CalledBy(cfg: Config, call: Call, who: Maybe<string>) {
    who.None?
    || (!cfg.opt.callLine && who.value == call.ret.to.name)
    || (cfg.opt.callLine && cfg.opt.ipFiltering && who.value == call.ret.to.name + "!" + Decimal(call.ret.to.addr))
    || (cfg.opt.callLine && !cfg.opt.ipFiltering && who.value == call.ret.to.name + "!" + Decimal(call.entry.from.addr))
  }

  /** A lost call belongs to the caller it came from, and to all unless that is called `unknown`. */
  predicate LostBy(cfg: Config, l: Lost, who: Maybe<string>) {
    var named := cfg.opt.callLine && !cfg.opt.ipFiltering;
    var caller := if named then l.entry.from.name + "!" + Decimal(l.entry.from.addr) else l.entry.from.name;
    if who.None? then caller != "unknown" else who.value == caller
  }

  /** The call is within the intervals asked for. */
  predicate Asked(opt: Option, call: Call) {
    && opt.minLatency <= Span(call.entry.ts, call.ret.ts) && Span(call.entry.ts, call.ret.ts) <= opt.maxLatency
    && opt.minTime <= call.entry.ts && call.entry.ts <= opt.maxTime
  }

  /** The call is recorded, for all or for one caller. */
  predicate Mine(cfg: Config, call: Call, who: Maybe<string>) {
    Asked(cfg.opt, call) && CalledBy(cfg, call, who)
  }

  // ----- children and code blocks

  /** Where the current code block began, and how long the thread was off the CPU since. */
  datatype Open = Open(ts: nat, offset: nat, off: nat)

  function Start(entry: Action): Open {
    Open(entry.ts, entry.to.offset, 0)
  }

  /** A new block begins where a child returns, where a branch that ends one leads and where the trace starts. */
  function Onward(o: Open, item: Item): Open {
    match item
    case Sleep(off) => o.(off := o.off + Stay(off))
    case Child(_, _, ret) => Open(ret.ts, ret.to.offset, 0)
    case Jump(a) => if a.from.offset == o.offset then o else Open(a.ts, a.to.offset, 0)
    case Pause(_, _, start) => Open(start.ts, start.to.offset, 0)
  }

  /** The block that the branch `a` ends, if it is not empty. */
  function FromBlock(cfg: Config, o: Open, a: Action, n: string): Cell {
    if cfg.opt.codeBlock && a.from.offset != o.offset
       && n == "*code block: " + Decimal(o.offset) + "-" + Decimal(a.from.offset)
    then Once(Span(o.ts, a.ts), o.off) else Nothing
  }

  function FromItem(cfg: Config, o: Open, item: Item, n: string): Cell {
    match item
    case Sleep(_) => Nothing
    case Jump(a) => FromBlock(cfg, o, a, n)
    case Pause(_, _, _) => Nothing
    case Child(call, offs, ret) =>
      Both(FromBlock(cfg, o, call, n),
           if ChildUnder(cfg, call, ret.kind == IRET, n) then Once(Span(call.ts, ret.ts), Stays(offs)) else Nothing)
  }

  function FromItems(cfg: Config, o: Open, items: seq<Item>, n: string): Cell
    decreases |items|
  {
    if items == [] then Nothing
    else Both(FromItem(cfg, o, items[0], n), FromItems(cfg, Onward(o, items[0]), items[1..], n))
  }

  function OpenAfter(o: Open, items: seq<Item>): Open
    decreases |items|
  {
    if items == [] then o else OpenAfter(Onward(o, items[0]), items[1..])
  }

  /** The time spent in children. */
  function InChildren(items: seq<Item>): nat {
    if items == [] then 0
    else (if items[0].Child? then Span(items[0].call.ts, items[0].ret.ts) else 0) + InChildren(items[1..])
  }

  /** The time off the CPU in the target itself, and altogether. */
  function OwnStay(item: Item): nat {
    if item.Sleep? then Stay(item.off) else if item.Pause? then Stays(item.offs) else 0
  }

  function OwnStays(items: seq<Item>): nat {
    if items == [] then 0 else OwnStay(items[0]) + OwnStays(items[1..])
  }

  function AllStays(items: seq<Item>): nat {
    if items == [] then 0
    else (if items[0].Child? then Stays(items[0].offs) else OwnStay(items[0])) + AllStays(items[1..])
  }

  /** Without code blocks, what the children leave of the call is the target's own. */
  function FromSelf(cfg: Config, call: Call, n: string): Cell {
    if !cfg.opt.codeBlock && n == "*self"
    then Once(Span(InChildren(call.items), Span(call.entry.ts, call.ret.ts)), OwnStays(call.items)) else Nothing
  }

  function FromCall(cfg: Config, call: Call, n: string): Cell {
    Both(FromItems(cfg, Start(call.entry), call.items, n), FromSelf(cfg, call, n))
  }

  /** What a lost call was charged with. */
  function FromPart(cfg: Config, l: Lost, n: string): Cell {
    var o := Start(l.entry);
    Both(FromItems(cfg, o, l.items, n),
         if l.place.InTarget? then Nothing else FromBlock(cfg, OpenAfter(o, l.items), l.place.call, n))
  }

  /** The same, with the child that did not come back. */
  function FromLost(cfg: Config, l: Lost, n: string): Cell {
    Both(FromPart(cfg, l, n), if l.place.InChildOf? && UnknownUnder(cfg, l.place.call, n) then Once(0, 0) else Nothing)
  }

  /** Something was charged: a child, or a code block that is not empty. */
  predicate Charged(cfg: Config, o: Open, items: seq<Item>)
    decreases |items|
  {
    && items != []
    && (items[0].Child? || (cfg.opt.codeBlock && items[0].Jump? && items[0].a.from.offset != o.offset)
        || Charged(cfg, Onward(o, items[0]), items[1..]))
  }

  // ----- whole threads

  function LostFor(cfg: Config, l: Lost, who: Maybe<string>, n: string): Cell {
    if LostBy(cfg, l, who) then FromLost(cfg, l, n) else Nothing
  }

  function FromLosts(cfg: Config, ls: seq<Lost>, who: Maybe<string>, n: string): Cell {
    if ls == [] then Nothing else Both(LostFor(cfg, ls[0], who, n), FromLosts(cfg, ls[1..], who, n))
  }

  /** A call that broke off files what it was charged with for a caller called `unknown`. */
  function FromTear(cfg: Config, t: Tear, who: Maybe<string>, n: string): Cell {
    if who == Some("unknown") then FromPart(cfg, t.last, n) else Nothing
  }

  function FromStretch(cfg: Config, t: Stretch, who: Maybe<string>, n: string): Cell {
    match t
    case Away(_) => Nothing
    case Fault(_) => Nothing
    case Called(a) =>
      Both(FromLosts(cfg, a.lost, who, n), if Mine(cfg, a.call, who) then FromCall(cfg, a.call, n) else Nothing)
    case Torn(tear, _) => Both(FromLosts(cfg, tear.lost, who, n), FromTear(cfg, tear, who, n))
  }

  function FromStretches(cfg: Config, ts: seq<Stretch>, who: Maybe<string>, n: string): Cell {
    if ts == [] then Nothing else Both(FromStretch(cfg, ts[0], who, n), FromStretches(cfg, ts[1..], who, n))
  }

  /** The latencies of the calls asked for, in order. */
  function Latencies(cfg: Config, ts: seq<Stretch>, who: Maybe<string>): seq<nat> {
    if ts == [] then [] else LatencyOf(cfg, ts[0], who) + Latencies(cfg, ts[1..], who)
  }

  function LatencyOf(cfg: Config, t: Stretch, who: Maybe<string>): seq<nat> {
    if t.Called? && Mine(cfg, t.attempts.call, who)
    then [Span(t.attempts.call.entry.ts, t.attempts.call.ret.ts)] else []
  }

  /** Their times off the CPU, where there are any. */
  function OffTimes(cfg: Config, ts: seq<Stretch>, who: Maybe<string>): seq<nat> {
    if ts == [] then [] else OffTimeOf(cfg, ts[0], who) + OffTimes(cfg, ts[1..], who)
  }

  function OffTimeOf(cfg: Config, t: Stretch, who: Maybe<string>): seq<nat> {
    if LatencyOf(cfg, t, who) != [] && AllStays(t.attempts.call.items) > 0 then [AllStays(t.attempts.call.items)]
    else []
  }

  function ItemSwitches(items: seq<Item>): nat {
    if items == [] then 0
    else
      var x := items[0];
      (if x.Jump? then 0 else if x.Sleep? then 1 else |x.offs|) + ItemSwitches(items[1..])
  }

  function PartSwitches(l: Lost): nat {
    ItemSwitches(l.items) + if l.place.InTarget? then 0 else |l.place.offs|
  }

  function LostSwitches(ls: seq<Lost>): nat {
    if ls == [] then 0 else PartSwitches(ls[0]) + LostSwitches(ls[1..])
  }

  function StretchSwitches(t: Stretch): nat {
    match t
    case Away(_) => 1
    case Fault(_) => 0
    case Called(a) => LostSwitches(a.lost) + ItemSwitches(a.call.items)
    case Torn(tear, _) => LostSwitches(tear.lost) + PartSwitches(tear.last)
  }

  /** How often the thread left the CPU. */
  function Switches(ts: seq<Stretch>): nat {
    if ts == [] then 0 else StretchSwitches(ts[0]) + Switches(ts[1..])
  }

  /** A lost call counts as unknown, unless it was left in the target with nothing charged. */
  function CountOf(cfg: Config, l: Lost): nat {
    if LostBy(cfg, l, None) && (l.place.InChildOf? || Charged(cfg, Start(l.entry), l.items)) then 1 else 0
  }

  function LostCount(cfg: Config, ls: seq<Lost>): nat {
    if ls == [] then 0 else CountOf(cfg, ls[0]) + LostCount(cfg, ls[1..])
  }

  /** How many calls were lost. */
  function Unknowns(cfg: Config, ts: seq<Stretch>): nat {
    if ts == [] then 0 else StretchUnknowns(cfg, ts[0]) + Unknowns(cfg, ts[1..])
  }

  function StretchUnknowns(cfg: Config, t: Stretch): nat {
    match t
    case Called(a) => LostCount(cfg, a.lost)
    case Torn(tear, _) => LostCount(cfg, tear.lost)
    case _ => 0
  }

  // ----- the specification of the loop agrees

  lemma {:induction false} StayIs(off: Off)
    ensures Measured(off) == Stay(off)
  {
    var d := off.e.ts - off.b.ts;
    Reduced(d);
  }

  lemma {:induction false} Reduced(d: int)
    ensures d % U64 % U32 == d % U32
  {
    var q := d / U64;
    assert d == q * U64 + d % U64 && U64 == U32 * U32;
    assert d == (q * U32) * U32 + d % U64;
  }

  lemma {:induction false} StaysAre(offs: seq<Off>)
    ensures MeasuredAll(offs) == Stays(offs)
    decreases |offs|
  {
    hide Measured, Stay;
    if offs != [] {
      StayIs(offs[0]);
      StaysAre(offs[1..]);
    }
  }

  lemma {:induction false} NameIs(cfg: Config, call: Action, byIret: bool, n: string)
    ensures ChildUnder(cfg, call, byIret, n) <==> n == ChildName(cfg, call, byIret)
  {
    hide Decimal;
    assert call.to.name + "!" + "[gather_call_line]" == call.to.name + "![gather_call_line]";
  }

  lemma {:induction false} UnknownIs(cfg: Config, call: Action, n: string)
    ensures UnknownUnder(cfg, call, n) <==> n == "(unknown latency) " + ChildName(cfg, call, false)
  {
    hide ChildName, ChildUnder;
    var p := "(unknown latency) ";
    var m := p + ChildName(cfg, call, false);
    assert |p| == 18 && m[..18] == p && m[18..] == ChildName(cfg, call, false);
    if UnknownUnder(cfg, call, n) {
      NameIs(cfg, call, false, n[18..]);
      assert n == n[..18] + n[18..];
    } else if n == m {
      NameIs(cfg, call, false, m[18..]);
    }
  }

  lemma {:induction false} CallerIs(cfg: Config, call: Call, who: Maybe<string>)
    ensures CalledBy(cfg, call, who) <==> Concerns(who, CallerName(cfg, call.entry, call.ret))
  {
    hide Decimal;
  }

  lemma {:induction false} LostCallerIs(cfg: Config, l: Lost, who: Maybe<string>)
    ensures var c := UnknownCaller(cfg, l.entry);
      LostBy(cfg, l, who) <==> Concerns(who, c) && (who.None? ==> c != UNKNOWN_CALLER)
  {
    hide Decimal;
  }

  lemma {:induction false} AskedIs(opt: Option, call: Call)
    ensures Asked(opt, call) <==> Wanted(opt, call.entry.ts, Excess(call.ret.ts, call.entry.ts))
    ensures Span(call.entry.ts, call.ret.ts) == Excess(call.ret.ts, call.entry.ts)
  {
  }

  function FromCharge(c: Charge, n: string): Cell {
    if n == c.name then Once(Span(c.begin, c.end), c.off) else Nothing
  }

  /** The charges under one name. */
  function Bag(cs: seq<Charge>, n: string): Cell {
    if cs == [] then Nothing else Both(Bag(cs[..|cs| - 1], n), FromCharge(cs[|cs| - 1], n))
  }

  lemma {:induction false} BagConcat(a: seq<Charge>, b: seq<Charge>, n: string)
    ensures Bag(a + b, n) == Both(Bag(a, n), Bag(b, n))
    decreases |b|
  {
    hide FromCharge, Both;
    if b == [] {
      assert a + b == a;
      BothNothing(Bag(a, n));
    } else {
      var b', c := b[..|b| - 1], b[|b| - 1];
      assert (a + b)[..|a + b| - 1] == a + b' && (a + b)[|a + b| - 1] == c;
      BagConcat(a, b', n);
      BothAssoc(Bag(a, n), Bag(b', n), FromCharge(c, n));
    }
  }

  lemma {:induction false} BagOne(c: Charge, n: string)
    ensures Bag([c], n) == FromCharge(c, n)
  {
    hide FromCharge;
    assert [c][..0] == [];
  }

  /** The buckets hold exactly the charges: their number, their times and their off-CPU times. */
  lemma {:induction false} TallyHolds(cs: seq<Charge>, n: string)
    ensures Shows(Tally(cs), n, Bag(cs, n)) && Listed(Tally(cs), n, Bag(cs, n))
    decreases |cs|
  {
    hide AddChild, Shows, Listed;
    if cs == [] {
      NoneShown(n);
    } else {
      var a, c := cs[..|cs| - 1], cs[|cs| - 1];
      TallyHolds(a, n);
      AddChildShows(Tally(a), c.name, Duration(c), c.off, n, Bag(a, n));
      AddChildListed(Tally(a), c.name, Duration(c), c.off, n, Bag(a, n));
    }
  }

  /** The block of the loop begins where that of the output does. */
  predicate SameOpen(cursor: Action, off: nat, o: Open) {
    cursor.ts == o.ts && cursor.to.offset == o.offset && off == o.off
  }

  lemma {:induction false} BlockBag(cfg: Config, cursor: Action, off: nat, o: Open, a: Action, n: string)
    requires SameOpen(cursor, off, o)
    ensures Bag(Block(cfg, cursor, off, a), n) == FromBlock(cfg, o, a, n)
  {
    hide Decimal, Bag;
    BagNone(n);
    BagOne(Charge(BlockName(cursor, a), cursor.ts, a.ts, off), n);
  }

  lemma {:induction false} BagNone(n: string)
    ensures Bag([], n) == Nothing
  {
  }

  lemma {:induction false} ItemBag(cfg: Config, cursor: Action, off: nat, o: Open, item: Item, n: string)
    requires SameOpen(cursor, off, o) && ValidItem(cfg, item)
    ensures Bag(ItemCharges(cfg, cursor, off, item), n) == FromItem(cfg, o, item, n)
    ensures SameOpen(NextCursor(cfg, cursor, off, item), NextOff(cfg, cursor, off, item), Onward(o, item))
  {
    hide Bag, FromBlock, ChildUnder, ChildName, BlockName, Stay, Measured, MeasuredAll, Stays, ValidChild, ValidOff;
    match item
    case Sleep(s) =>
      BagNone(n);
      StayIs(s);
    case Jump(a) => BlockBag(cfg, cursor, off, o, a, n);
    case Pause(_, _, _) => BagNone(n);
    case Child(call, offs, ret) =>
      StaysAre(offs);
      NameIs(cfg, call, ret.kind == IRET, n);
      BlockBag(cfg, cursor, off, o, call, n);
      BagOne(ChildCharge(cfg, item), n);
      BagConcat(Block(cfg, cursor, off, call), [ChildCharge(cfg, item)], n);
  }

  lemma {:induction false} ItemsBag(cfg: Config, cursor: Action, off: nat, o: Open, items: seq<Item>, n: string)
    requires SameOpen(cursor, off, o) && forall i :: 0 <= i < |items| ==> ValidItem(cfg, items[i])
    ensures Bag(Charges(cfg, cursor, off, items), n) == FromItems(cfg, o, items, n)
    ensures SameOpen(CursorAfter(cfg, cursor, off, items), OffAfter(cfg, cursor, off, items), OpenAfter(o, items))
    decreases |items|
  {
    hide Bag, FromItem, ItemCharges, NextCursor, NextOff, Onward, ValidItem, SameOpen;
    if items == [] {
      BagNone(n);
    } else {
      var x := items[0];
      var c, f := NextCursor(cfg, cursor, off, x), NextOff(cfg, cursor, off, x);
      ItemBag(cfg, cursor, off, o, x, n);
      ItemsBag(cfg, c, f, Onward(o, x), items[1..], n);
      BagConcat(ItemCharges(cfg, cursor, off, x), Charges(cfg, c, f, items[1..]), n);
    }
  }

  // ----- the target's own share

  lemma {:induction false} ItemsStays(items: seq<Item>)
    ensures ItemsOff(items) == AllStays(items)
    decreases |items|
  {
    hide Measured, MeasuredAll, Stay, Stays;
    if items != [] {
      ItemsStays(items[1..]);
      match items[0]
      case Sleep(o) => StayIs(o);
      case Child(_, offs, _) => StaysAre(offs);
      case Pause(_, offs, _) => StaysAre(offs);
      case Jump(_) =>
    }
  }

  /** Without code blocks only children are charged. */
  lemma {:induction false} ChildrenOnly(cfg: Config, cursor: Action, off: nat, items: seq<Item>)
    requires !cfg.opt.codeBlock
    ensures var cs := Charges(cfg, cursor, off, items);
      TotalTime(cs) == InChildren(items) && TotalOff(cs) + OwnStays(items) == AllStays(items)
    decreases |items|
  {
    hide Measured, MeasuredAll, Stay, Stays, ChildName, TotalTime, TotalOff;
    if items == [] {
      NoCharges();
    } else {
      var x := items[0];
      var c, f := NextCursor(cfg, cursor, off, x), NextOff(cfg, cursor, off, x);
      ChildrenOnly(cfg, c, f, items[1..]);
      if x.Child? {
        StaysAre(x.offs);
        assert ItemCharges(cfg, cursor, off, x) == [ChildCharge(cfg, x)];
        TotalsConcat([ChildCharge(cfg, x)], Charges(cfg, c, f, items[1..]));
        TotalsOne(ChildCharge(cfg, x));
      } else {
        assert ItemCharges(cfg, cursor, off, x) == [];
        assert [] + Charges(cfg, c, f, items[1..]) == Charges(cfg, c, f, items[1..]);
      }
    }
  }

  lemma {:induction false} NoCharges()
    ensures TotalTime([]) == 0 && TotalOff([]) == 0
  {
  }

  lemma {:induction false} TotalsOne(c: Charge)
    ensures TotalTime([c]) == Duration(c) && TotalOff([c]) == c.off
  {
    assert [c][..0] == [];
  }

  lemma {:induction false} TotalsConcat(a: seq<Charge>, b: seq<Charge>)
    ensures TotalTime(a + b) == TotalTime(a) + TotalTime(b) && TotalOff(a + b) == TotalOff(a) + TotalOff(b)
    decreases |b|
  {
    if b == [] {
      assert a + b == a;
    } else {
      assert (a + b)[..|a + b| - 1] == a + b[..|b| - 1];
      TotalsConcat(a, b[..|b| - 1]);
    }
  }

  // ----- calls and lost starts

  /** What is filed for one caller, or for all. */
  ghost predicate Output(p: Caller, n: string, x: Cell, lats: seq<nat>, offs: seq<nat>) {
    && p.latency.target == H.Of(lats) && p.latency.sched == H.Of(offs)
    && Shows(p.children, n, x) && Listed(p.children, n, x)
  }

  function CallChildren(cfg: Config, call: Call): Children {
    var charges := Charges(cfg, call.entry, 0, call.items);
    var lat, off := Excess(call.ret.ts, call.entry.ts), ItemsOff(call.items);
    if cfg.opt.codeBlock then Tally(charges)
    else AddChild(Tally(charges), TARGET_SELF, Excess(lat, TotalTime(charges)), Excess(off, TotalOff(charges)))
  }

  lemma {:induction false} CallShows(cfg: Config, call: Call, n: string)
    requires ValidCall(cfg, call)
    ensures Shows(CallChildren(cfg, call), n, FromCall(cfg, call, n))
    ensures Listed(CallChildren(cfg, call), n, FromCall(cfg, call, n))
  {
    hide Charges, Tally, Shows, Listed, FromItems, AddChild, ItemsOff, TotalTime, TotalOff, ValidItem, Bag, InChildren,
        OwnStays, AllStays;
    var cs, lat := Charges(cfg, call.entry, 0, call.items), Excess(call.ret.ts, call.entry.ts);
    ItemsBag(cfg, call.entry, 0, Start(call.entry), call.items, n);
    TallyHolds(cs, n);
    if !cfg.opt.codeBlock {
      var time, off := Excess(lat, TotalTime(cs)), Excess(ItemsOff(call.items), TotalOff(cs));
      ChildrenOnly(cfg, call.entry, 0, call.items);
      ItemsStays(call.items);
      AddChildShows(Tally(cs), TARGET_SELF, time, off, n, Bag(cs, n));
      AddChildListed(Tally(cs), TARGET_SELF, time, off, n, Bag(cs, n));
    }
  }

  lemma {:induction false} RecordOf(l: Latency, lat: nat, off: nat, lats: seq<nat>, offs: seq<nat>)
    requires l.target == H.Of(lats) && l.sched == H.Of(offs)
    ensures var r := Record(l, lat, off);
      r.target == H.Of(lats + [lat]) && r.sched == H.Of(offs + if off > 0 then [off] else []) && r.unknown == l.unknown
  {
    hide H.Assign, H.Of;
    H.AssignOf(lats, lat);
    H.AssignOf(offs, off);
    assert offs + [] == offs;
  }

  lemma {:induction false} AccountIs(cfg: Config, s: Stat, call: Call)
    ensures var lat, off, caller := Span(call.entry.ts, call.ret.ts), AllStays(call.items),
      CallerName(cfg, call.entry, call.ret);
      Account(cfg, s, call) ==
        if Asked(cfg.opt, call) then
            AddChildLatency(AddLatency(s, lat, off, caller), CallChildren(cfg, call), caller, true)
        else s
  {
    AskedIs(cfg.opt, call);
    ItemsStays(call.items);
    hide AddLatency, AddChildLatency, CallerName, AllStays, ItemsOff, Charges, Tally, TotalTime, TotalOff, AddChild,
        Asked,
        Wanted;
  }

  lemma {:induction false} CallPart(cfg: Config, s: Stat, call: Call, who: Maybe<string>)
    ensures var p, q := Part(s, who), Part(Account(cfg, s, call), who);
      && q.latency == (if Mine(cfg, call, who) then
           Record(p.latency, Span(call.entry.ts, call.ret.ts), AllStays(call.items))
                       else p.latency)
      && q.children == if Mine(cfg, call, who) then AddChildren(p.children, CallChildren(cfg, call)) else p.children
  {
    hide Account, AddLatency, AddChildLatency, CallChildren, Part, Record, CalledBy, Asked, CallerName, AllStays,
        AddChildren;
    var lat, off, caller := Span(call.entry.ts, call.ret.ts), AllStays(call.items),
        CallerName(cfg, call.entry, call.ret);
    AccountIs(cfg, s, call);
    CallerIs(cfg, call, who);
    LatencyPart(s, lat, off, caller, who);
    ChildPart(AddLatency(s, lat, off, caller), CallChildren(cfg, call), caller, true, who);
  }

  lemma {:induction false} CallOutput(cfg: Config, s: Stat, call: Call, who: Maybe<string>, n: string,
                                      x: Cell, lats: seq<nat>, offs: seq<nat>)
    requires ValidCall(cfg, call) && Output(Part(s, who), n, x, lats, offs)
    ensures var mine := Mine(cfg, call, who);
      Output(Part(Account(cfg, s, call), who), n, Both(x, if mine then FromCall(cfg, call, n) else Nothing),
             lats + (if mine then [Span(call.entry.ts, call.ret.ts)] else []),
             offs + (if mine && AllStays(call.items) > 0 then [AllStays(call.items)] else []))
  {
    hide Account, CallChildren, FromCall, Shows, Listed, Part, H.Of, Record, ValidCall, Mine, AllStays, AddChildren;
    assert lats + [] == lats && offs + [] == offs;
    CallPart(cfg, s, call, who);
    if Mine(cfg, call, who) {
      CallShows(cfg, call, n);
      RecordOf(Part(s, who).latency, Span(call.entry.ts, call.ret.ts), AllStays(call.items), lats, offs);
      AddChildrenShows(Part(s, who).children, CallChildren(cfg, call), n, x, FromCall(cfg, call, n));
    }
  }

  lemma {:induction false} PartShows(cfg: Config, l: Lost, n: string)
    requires ValidLost(cfg, l)
    ensures Bag(LostCharges(cfg, l), n) == FromPart(cfg, l, n)
  {
    hide Charges, FromItems, FromBlock, ValidItem, Bag, Block, CursorAfter, OffAfter, OpenAfter, Leaves, ValidOffs,
        Both;
    var o, cs := Start(l.entry), Charges(cfg, l.entry, 0, l.items);
    var c, f := CursorAfter(cfg, l.entry, 0, l.items), OffAfter(cfg, l.entry, 0, l.items);
    ItemsBag(cfg, l.entry, 0, o, l.items, n);
    BothNothing(Bag(cs, n));
    if l.place.InChildOf? {
      BlockBag(cfg, c, f, OpenAfter(o, l.items), l.place.call, n);
      BagConcat(cs, Block(cfg, c, f, l.place.call), n);
    }
  }

  lemma {:induction false} LostShows(cfg: Config, l: Lost, n: string)
    requires ValidLost(cfg, l)
    ensures Shows(LostChildren(cfg, l), n, FromLost(cfg, l, n)) && Listed(LostChildren(cfg, l), n, FromLost(cfg, l, n))
  {
    hide LostCharges, FromPart, Tally, Shows, Listed, AddChild, ValidLost, Bag, ChildName, UnknownUnder, Both;
    var x := Bag(LostCharges(cfg, l), n);
    PartShows(cfg, l, n);
    TallyHolds(LostCharges(cfg, l), n);
    BothNothing(x);
    if l.place.InChildOf? {
      var name := UNKNOWN_LATENCY + ChildName(cfg, l.place.call, false);
      UnknownIs(cfg, l.place.call, n);
      AddChildShows(Tally(LostCharges(cfg, l)), name, 0, 0, n, x);
      AddChildListed(Tally(LostCharges(cfg, l)), name, 0, 0, n, x);
    }
  }

  lemma {:induction false} LostPart(cfg: Config, s: Stat, l: Lost, who: Maybe<string>)
    ensures var p, q := Part(s, who), Part(AccountLost(cfg, s, l), who);
      && q.latency.target == p.latency.target && q.latency.sched == p.latency.sched
      && q.children == if LostBy(cfg, l, who) && !NothingCharged(cfg, l) then AddChildren(p.children,
             LostChildren(cfg, l)) else p.children
  {
    hide AddChildLatency, AddChildren, AddUnknown, LostOffs, LostBy, UnknownCaller, LostChildren, NothingCharged;
    var s1 := Counted(s, LostOffs(l));
    var caller, child := UnknownCaller(cfg, l.entry), LostChildren(cfg, l);
    CountedPart(s, LostOffs(l), who);
    UnknownPart(s1, child, caller, who);
    LostCallerIs(cfg, l, who);
    ChildPart(s1, child, caller, caller != UNKNOWN_CALLER, who);
  }

  lemma {:induction false} NothingShown(cfg: Config, l: Lost, n: string)
    requires ValidLost(cfg, l) && NothingCharged(cfg, l)
    ensures FromLost(cfg, l, n) == Nothing
  {
    hide LostCharges, FromPart, Bag, ValidLost, UnknownUnder, Both;
    PartShows(cfg, l, n);
    BagNone(n);
    BothNothing(Nothing);
  }

  lemma {:induction false} LostOutput(cfg: Config, s: Stat, l: Lost, who: Maybe<string>, n: string,
                                      x: Cell, lats: seq<nat>, offs: seq<nat>)
    requires ValidLost(cfg, l) && Output(Part(s, who), n, x, lats, offs)
    ensures Output(Part(AccountLost(cfg, s, l), who), n, Both(x, LostFor(cfg, l, who, n)), lats, offs)
  {
    hide AccountLost, LostChildren, FromLost, Shows, Listed, H.Of, ValidLost, LostBy, Part, AddChildren, NothingCharged,
        Both;
    LostPart(cfg, s, l, who);
    LostShows(cfg, l, n);
    BothNothing(x);
    if NothingCharged(cfg, l) {
      NothingShown(cfg, l, n);
    } else {
      AddChildrenShows(Part(s, who).children, LostChildren(cfg, l), n, x, FromLost(cfg, l, n));
    }
  }

  /** Counting an unknown call changes no histogram and no bucket. */
  lemma {:induction false} UnknownPart(s: Stat, child: Children, caller: string, who: Maybe<string>)
    ensures var gather := caller != UNKNOWN_CALLER;
      var p, q := Part(AddUnknown(s, child, caller), who), Part(AddChildLatency(s, child, caller, gather), who);
      && p.children == q.children && p.latency.target == q.latency.target && p.latency.sched == q.latency.sched
      && AddUnknown(s, child, caller).latency.unknown == s.latency.unknown + (if gather then 1 else 0)
      && AddUnknown(s, child, caller).schedCount == s.schedCount
  {
    hide AddChildren;
  }

  lemma {:induction false} LostsOutput(cfg: Config, s: Stat, ls: seq<Lost>, who: Maybe<string>, n: string,
                                       x: Cell, lats: seq<nat>, offs: seq<nat>)
    requires (forall i :: 0 <= i < |ls| ==> ValidLost(cfg, ls[i])) && Output(Part(s, who), n, x, lats, offs)
    ensures Output(Part(AccountLosts(cfg, s, ls), who), n, Both(x, FromLosts(cfg, ls, who, n)), lats, offs)
    decreases |ls|
  {
    hide AccountLost, LostFor, Output, ValidLost, Part;
    if ls != [] {
      LostOutput(cfg, s, ls[0], who, n, x, lats, offs);
      LostsOutput(cfg, AccountLost(cfg, s, ls[0]), ls[1..], who, n, Both(x, LostFor(cfg, ls[0], who, n)), lats, offs);
    }
  }

  lemma {:induction false} CountedPart(s: Stat, k: nat, who: Maybe<string>)
    ensures Part(Counted(s, k), who) == Part(s, who)
  {
  }

  /** What is filed for a caller called `unknown` is filed for that one only. */
  lemma {:induction false} FiledPart(s: Stat, child: Children, who: Maybe<string>)
    ensures var p, q := Part(s, who), Part(AddUnknown(s, child, "unknown"), who);
      && q.latency.target == p.latency.target && q.latency.sched == p.latency.sched
      && q.children == if who == Some("unknown") then AddChildren(p.children, child) else p.children
  {
    hide AddChildren, AddChildLatency;
    UnknownPart(s, child, "unknown", who);
    ChildPart(s, child, "unknown", false, who);
  }

  lemma {:induction false} FiledOutput(s: Stat, child: Children, y: Cell, who: Maybe<string>, n: string, x: Cell,
                                       lats: seq<nat>, offs: seq<nat>)
    requires Output(Part(s, who), n, x, lats, offs) && Shows(child, n, y) && Listed(child, n, y)
    ensures Output(Part(AddUnknown(s, child, "unknown"), who), n,
      Both(x, if who == Some("unknown") then y else Nothing),
                   lats, offs)
  {
    hide Part, AddUnknown, AddChildren, Shows, Listed, H.Of;
    FiledPart(s, child, who);
    AddChildrenShows(Part(s, who).children, child, n, x, y);
  }

  lemma {:induction false} TearOutput(cfg: Config, s: Stat, t: Tear, who: Maybe<string>, n: string, x: Cell,
                                      lats: seq<nat>, offs: seq<nat>)
    requires ValidTear(cfg, t) && Output(Part(s, who), n, x, lats, offs)
    ensures Output(Part(AccountTear(cfg, s, t), who), n,
                   Both(x, Both(FromLosts(cfg, t.lost, who, n), FromTear(cfg, t, who, n))), lats, offs)
  {
    hide AccountLosts, FromLosts, Output, Part, ValidLost, LostCharges, LostOffs, AddUnknown, Tally, Shows, Listed,
        Both,
        FromPart, Bag;
    var s1, y, z := AccountLosts(cfg, s, t.lost), FromLosts(cfg, t.lost, who, n), FromPart(cfg, t.last, n);
    LostsOutput(cfg, s, t.lost, who, n, x, lats, offs);
    CountedPart(s1, LostOffs(t.last), who);
    PartShows(cfg, t.last, n);
    TallyHolds(LostCharges(cfg, t.last), n);
    FiledOutput(Before(cfg, s, t), Tally(LostCharges(cfg, t.last)), z, who, n, Both(x, y), lats, offs);
    BothAssoc(x, y, FromTear(cfg, t, who, n));
  }

  lemma {:induction false} StretchOutput(cfg: Config, s: Stat, t: Stretch, who: Maybe<string>, n: string,
                                         x: Cell, lats: seq<nat>, offs: seq<nat>)
    requires ValidStretch(cfg, t) && Output(Part(s, who), n, x, lats, offs)
    ensures Output(Part(AccountStretch(cfg, s, t), who), n, Both(x, FromStretch(cfg, t, who, n)),
                   lats + LatencyOf(cfg, t, who), offs + OffTimeOf(cfg, t, who))
  {
    hide Account, AccountLosts, FromLosts, FromCall, Output, Part, ValidLost, ValidCall, Mine, AllStays, OffCount,
        ValidOff, Counted, AddUnknown, ValidTear, AccountTear, FromTear, Both, Shows, Listed;
    assert lats + [] == lats && offs + [] == offs;
    BothNothing(x);
    match t
    case Away(_) => CountedPart(s, 1, who);
    case Fault(_) =>
      NoneShown(n);
      FiledOutput(s, NoChildren, Nothing, who, n, x, lats, offs);
    case Torn(tear, _) => TearOutput(cfg, s, tear, who, n, x, lats, offs);
    case Called(a) =>
      var s1, y := AccountLosts(cfg, s, a.lost), FromLosts(cfg, a.lost, who, n);
      LostsOutput(cfg, s, a.lost, who, n, x, lats, offs);
      CountedPart(s1, OffCount(a.call.items), who);
      CallOutput(cfg, Counted(s1, OffCount(a.call.items)), a.call, who, n, Both(x, y), lats, offs);
      BothAssoc(x, y, if Mine(cfg, a.call, who) then FromCall(cfg, a.call, n) else Nothing);
  }

  lemma {:induction false} StretchesOutput(cfg: Config, s: Stat, ts: seq<Stretch>, who: Maybe<string>, n: string,
                                           x: Cell, lats: seq<nat>, offs: seq<nat>)
    requires (forall i :: 0 <= i < |ts| ==> ValidStretch(cfg, ts[i])) && Output(Part(s, who), n, x, lats, offs)
    ensures Output(Part(AccountStretches(cfg, s, ts), who), n, Both(x, FromStretches(cfg, ts, who, n)),
                   lats + Latencies(cfg, ts, who), offs + OffTimes(cfg, ts, who))
    decreases |ts|
  {
    hide AccountStretch, FromStretch, Output, ValidStretch, LatencyOf, OffTimeOf, Part;
    if ts == [] {
      assert lats + [] == lats && offs + [] == offs;
    } else {
      var l, f := LatencyOf(cfg, ts[0], who), OffTimeOf(cfg, ts[0], who);
      StretchOutput(cfg, s, ts[0], who, n, x, lats, offs);
      StretchesOutput(cfg, AccountStretch(cfg, s, ts[0]), ts[1..], who, n, Both(x, FromStretch(cfg, ts[0], who, n)),
          lats + l, offs + f);
      assert lats + l + Latencies(cfg, ts[1..], who) == lats + (l + Latencies(cfg, ts[1..], who));
      assert offs + f + OffTimes(cfg, ts[1..], who) == offs + (f + OffTimes(cfg, ts[1..], who));
    }
  }

  // ----- switches and unknown calls

  lemma {:induction false} SwitchesAre(items: seq<Item>)
    ensures OffCount(items) == ItemSwitches(items)
    decreases |items|
  {
    if items != [] {
      SwitchesAre(items[1..]);
    }
  }

  lemma {:induction false} CallCounts(cfg: Config, s: Stat, call: Call)
    ensures Account(cfg, s, call).schedCount == s.schedCount
    ensures Account(cfg, s, call).latency.unknown == s.latency.unknown
  {
    hide Charges, Tally, AddChild, AddChildren, CallerName, ItemsOff, H.Assign;
  }

  lemma {:induction false} ChargedIs(cfg: Config, cursor: Action, off: nat, o: Open, items: seq<Item>)
    requires SameOpen(cursor, off, o) && forall i :: 0 <= i < |items| ==> ValidItem(cfg, items[i])
    ensures Charged(cfg, o, items) <==> Charges(cfg, cursor, off, items) != []
    decreases |items|
  {
    hide BlockName, ChildCharge, ValidChild, ValidOff;
    if items != [] {
      var x := items[0];
      ItemBag(cfg, cursor, off, o, x, "");
      ChargedIs(cfg, NextCursor(cfg, cursor, off, x), NextOff(cfg, cursor, off, x), Onward(o, x), items[1..]);
    }
  }

  lemma {:induction false} LostCountIs(cfg: Config, s: Stat, l: Lost)
    requires ValidLost(cfg, l)
    ensures AccountLost(cfg, s, l).schedCount == s.schedCount + PartSwitches(l)
    ensures AccountLost(cfg, s, l).latency.unknown == s.latency.unknown + CountOf(cfg, l)
  {
    hide LostBy, AddUnknown, UnknownCaller, LostChildren, OffCount, ItemSwitches, Charged, Charges, ValidItem, Leaves,
        Block;
    ChargedIs(cfg, l.entry, 0, Start(l.entry), l.items);
    SwitchesAre(l.items);
    LostCallerIs(cfg, l, None);
    UnknownPart(Counted(s, LostOffs(l)), LostChildren(cfg, l), UnknownCaller(cfg, l.entry), None);
  }

  lemma {:induction false} LostCounts(cfg: Config, s: Stat, ls: seq<Lost>)
    requires forall i :: 0 <= i < |ls| ==> ValidLost(cfg, ls[i])
    ensures AccountLosts(cfg, s, ls).schedCount == s.schedCount + LostSwitches(ls)
    ensures AccountLosts(cfg, s, ls).latency.unknown == s.latency.unknown + LostCount(cfg, ls)
    decreases |ls|
  {
    hide AccountLost, PartSwitches, CountOf, ValidLost;
    if ls != [] {
      LostCountIs(cfg, s, ls[0]);
      LostCounts(cfg, AccountLost(cfg, s, ls[0]), ls[1..]);
    }
  }

  lemma {:induction false} StretchCounts(cfg: Config, s: Stat, t: Stretch)
    requires ValidStretch(cfg, t)
    ensures AccountStretch(cfg, s, t).schedCount == s.schedCount + StretchSwitches(t)
    ensures AccountStretch(cfg, s, t).latency.unknown == s.latency.unknown + StretchUnknowns(cfg, t)
  {
    hide Account, AccountLosts, OffCount, ItemSwitches, LostSwitches, LostCount, AddUnknown, Tally, LostCharges,
        ValidLost,
        ValidCall, ValidOff;
    match t
    case Away(_) =>
    case Fault(_) => UnknownPart(s, NoChildren, "unknown", None);
    case Called(a) =>
      LostCounts(cfg, s, a.lost);
      SwitchesAre(a.call.items);
      CallCounts(cfg, Counted(AccountLosts(cfg, s, a.lost), OffCount(a.call.items)), a.call);
    case Torn(tear, _) =>
      LostCounts(cfg, s, tear.lost);
      SwitchesAre(tear.last.items);
      UnknownPart(Before(cfg, s, tear), Tally(LostCharges(cfg, tear.last)), "unknown", None);
  }

  lemma {:induction false} StretchesCount(cfg: Config, s: Stat, ts: seq<Stretch>)
    requires forall i :: 0 <= i < |ts| ==> ValidStretch(cfg, ts[i])
    ensures AccountStretches(cfg, s, ts).schedCount == s.schedCount + Switches(ts)
    ensures AccountStretches(cfg, s, ts).latency.unknown == s.latency.unknown + Unknowns(cfg, ts)
    decreases |ts|
  {
    hide AccountStretch, StretchSwitches, StretchUnknowns, ValidStretch;
    if ts != [] {
      StretchCounts(cfg, s, ts[0]);
      StretchesCount(cfg, AccountStretch(cfg, s, ts[0]), ts[1..]);
    }
  }

  // ----- the loop

  lemma {:induction false} NothingOutput(who: Maybe<string>, n: string)
    ensures Output(Part(NoStat, who), n, Nothing, [], [])
  {
    NoneShown(n);
  }

  /**
   * On every time-ordered trace of calls, lost calls, errors and calls that
   * break off, and for all callers together or for one: the histograms hold the latencies
   * and off-CPU times of the calls asked for, and every bucket counts and adds
   * up exactly the children, code blocks and own shares of its name.
   */
  lemma {:induction false} OutputIs(cfg: Config, ts: seq<Stretch>, who: Maybe<string>, n: string)
    requires (forall i :: 0 <= i < |ts| ==> ValidStretch(cfg, ts[i])) && TimeOrdered(AllActions(ts))
    ensures var s := Finish(Run(cfg, Init, AllActions(ts)));
      && Output(Part(s, who), n, FromStretches(cfg, ts, who, n), Latencies(cfg, ts, who), OffTimes(cfg, ts, who))
      && s.schedCount == Switches(ts) && s.latency.unknown == Unknowns(cfg, ts)
  {
    hide Run, Finish, AllActions, AccountStretches, ValidStretch, TimeOrdered, Output, Part, FromStretches, Latencies,
        OffTimes;
    LoopMeetsSpec(cfg, ts);
    NothingOutput(who, n);
    StretchesOutput(cfg, NoStat, ts, who, n, Nothing, [], []);
    StretchesCount(cfg, NoStat, ts);
    assert [] + Latencies(cfg, ts, who) == Latencies(cfg, ts, who);
    assert [] + OffTimes(cfg, ts, who) == OffTimes(cfg, ts, who);
  }

  // ----- traces without lost starts

  function WholeOne(g: Segment): Stretch {
    if g.Outside? then Away(g.off) else Called(Attempts([], g.call))
  }

  function Whole(trace: seq<Segment>): seq<Stretch> {
    if trace == [] then [] else [WholeOne(trace[0])] + Whole(trace[1..])
  }

  lemma {:induction false} WholeOneIs(cfg: Config, g: Segment)
    requires if g.Outside? then ValidOff(g.off) else ValidCall(cfg, g.call)
    ensures StretchActions(WholeOne(g)) == (if g.Outside? then [g.off.b, g.off.e] else CallActions(g.call))
    ensures ValidStretch(cfg, WholeOne(g))
  {
    hide ValidCall, ValidOff, CallActions;
    if g.Inside? {
      assert [] + CallActions(g.call) == CallActions(g.call);
    }
  }

  lemma {:induction false} WholeIs(cfg: Config, trace: seq<Segment>)
    requires ValidTrace(cfg, trace)
    ensures AllActions(Whole(trace)) == TraceActions(trace)
    ensures forall i :: 0 <= i < |Whole(trace)| ==> ValidStretch(cfg, Whole(trace)[i])
    decreases |trace|
  {
    hide ValidCall, ValidOff, CallActions, WholeOne, StretchActions, ValidStretch;
    if trace != [] {
      WholeIs(cfg, trace[1..]);
      var ts := Whole(trace);
      assert ts[1..] == Whole(trace[1..]);
      assert forall i :: 1 <= i < |ts| ==> ts[i] == ts[1..][i - 1];
      WholeOneIs(cfg, trace[0]);
    }
  }

  lemma {:induction false} TraceOutput(cfg: Config, trace: seq<Segment>, who: Maybe<string>, n: string)
    requires ValidTrace(cfg, trace) && TimeOrdered(TraceActions(trace))
    ensures var s, ts := Finish(Run(cfg, Init, TraceActions(trace))), Whole(trace);
      && Output(Part(s, who), n, FromStretches(cfg, ts, who, n), Latencies(cfg, ts, who), OffTimes(cfg, ts, who))
      && s.schedCount == Switches(ts) && s.latency.unknown == 0
  {
    hide Run, Finish, AllActions, ValidStretch, TimeOrdered, Output, Part, FromStretches, Latencies, OffTimes, Unknowns,
        TraceActions, Whole;
    WholeIs(cfg, trace);
    OutputIs(cfg, Whole(trace), who, n);
    NoneUnknown(cfg, trace);
  }

  lemma {:induction false} NoneUnknown(cfg: Config, trace: seq<Segment>)
    ensures Unknowns(cfg, Whole(trace)) == 0
    decreases |trace|
  {
    if trace != [] {
      NoneUnknown(cfg, trace[1..]);
      assert Whole(trace)[1..] == Whole(trace[1..]);
    }
  }

  function ChildOf(x: Item, n: string): Cell {
    if x.Child? && x.call.to.name == n then Once(Span(x.call.ts, x.ret.ts), Stays(x.offs)) else Nothing
  }

  /** The children of a function, in one call and over the calls asked for. */
  function ChildrenOf(items: seq<Item>, n: string): Cell {
    if items == [] then Nothing else Both(ChildOf(items[0], n), ChildrenOf(items[1..], n))
  }

  function SegmentChildren(opt: Option, g: Segment, n: string): Cell {
    if g.Inside? && Asked(opt, g.call) then ChildrenOf(g.call.items, n) else Nothing
  }

  function AllChildrenOf(opt: Option, trace: seq<Segment>, n: string): Cell {
    if trace == [] then Nothing else Both(SegmentChildren(opt, trace[0], n), AllChildrenOf(opt, trace[1..], n))
  }

  /** How many calls were asked for. */
  function AskedCount(opt: Option, trace: seq<Segment>): nat {
    if trace == [] then 0
    else (if trace[0].Inside? && Asked(opt, trace[0].call) then 1 else 0) + AskedCount(opt, trace[1..])
  }

  lemma {:induction false} PlainItem(cfg: Config, o: Open, x: Item, n: string)
    requires !cfg.opt.codeBlock && !cfg.opt.callLine
    ensures FromItem(cfg, o, x, n) == ChildOf(x, n)
  {
    hide Stays, Once, Both;
    BothNothing(ChildOf(x, n));
  }

  lemma {:induction false} PlainItems(cfg: Config, o: Open, items: seq<Item>, n: string)
    requires !cfg.opt.codeBlock && !cfg.opt.callLine
    ensures FromItems(cfg, o, items, n) == ChildrenOf(items, n)
    decreases |items|
  {
    hide FromItem, ChildOf, Both, Onward;
    if items != [] {
      PlainItem(cfg, o, items[0], n);
      PlainItems(cfg, Onward(o, items[0]), items[1..], n);
    }
  }

  function SelfOf(cfg: Config, g: Segment, n: string): Cell {
    if g.Inside? && Asked(cfg.opt, g.call) then FromSelf(cfg, g.call, n) else Nothing
  }

  lemma {:induction false} PlainSegment(cfg: Config, g: Segment, n: string)
    requires !cfg.opt.codeBlock && !cfg.opt.callLine
    ensures FromStretch(cfg, WholeOne(g), None, n) == Both(SegmentChildren(cfg.opt, g, n), SelfOf(cfg, g, n))
  {
    hide FromItems, ChildrenOf, Asked, FromSelf, Both;
    BothNothing(Nothing);
    if g.Inside? {
      PlainItems(cfg, Start(g.call.entry), g.call.items, n);
      BothNothing(FromCall(cfg, g.call, n));
    }
  }

  function AllSelf(cfg: Config, trace: seq<Segment>, n: string): Cell {
    if trace == [] then Nothing else Both(SelfOf(cfg, trace[0], n), AllSelf(cfg, trace[1..], n))
  }

  lemma {:induction false} PlainTrace(cfg: Config, trace: seq<Segment>, n: string)
    requires !cfg.opt.codeBlock && !cfg.opt.callLine
    ensures FromStretches(cfg, Whole(trace), None, n) == Both(AllChildrenOf(cfg.opt, trace, n), AllSelf(cfg, trace, n))
    decreases |trace|
  {
    hide FromStretch, SegmentChildren, SelfOf, Both, WholeOne;
    if trace == [] {
      BothNothing(Nothing);
    } else {
      var g, rest := trace[0], trace[1..];
      PlainTrace(cfg, rest, n);
      assert Whole(trace)[1..] == Whole(rest);
      PlainSegment(cfg, g, n);
      BothSwap(SegmentChildren(cfg.opt, g, n), SelfOf(cfg, g, n), AllChildrenOf(cfg.opt, rest, n),
          AllSelf(cfg, rest, n));
    }
  }

  lemma {:induction false} SelfCounts(cfg: Config, trace: seq<Segment>, n: string)
    requires !cfg.opt.codeBlock
    ensures n != "*self" ==> AllSelf(cfg, trace, n) == Nothing
    ensures n == "*self" ==> AllSelf(cfg, trace, n).count == AskedCount(cfg.opt, trace)
    decreases |trace|
  {
    hide Asked, InChildren, OwnStays;
    if trace != [] {
      SelfCounts(cfg, trace[1..], n);
    }
  }

  /**
   * Without call lines and code blocks, the bucket of a function counts and
   * adds up its calls from the target, over all calls asked for, and `*self`
   * counts these.
   */
  lemma {:induction false} ChildBuckets(cfg: Config, trace: seq<Segment>, n: string)
    requires !cfg.opt.codeBlock && !cfg.opt.callLine && ValidTrace(cfg, trace) && TimeOrdered(TraceActions(trace))
    ensures var c, x := Finish(Run(cfg, Init, TraceActions(trace))).children, AllChildrenOf(cfg.opt, trace, n);
      && (n != "*self" ==> Shows(c, n, x) && Listed(c, n, x))
      && (n == "*self" ==> Get(c.target, n).count == x.count + AskedCount(cfg.opt, trace))
  {
    hide Run, Finish, TraceActions, ValidTrace, TimeOrdered, FromStretches, AllChildrenOf, AskedCount, Latencies,
        OffTimes, H.Of, AllSelf;
    TraceOutput(cfg, trace, None, n);
    PlainTrace(cfg, trace, n);
    SelfCounts(cfg, trace, n);
    BothNothing(AllChildrenOf(cfg.opt, trace, n));
  }

  // ----- sites are told apart

  function Digit(c: char): nat {
    if '0' <= c <= '9' then c as int - '0' as int else 10
  }

  function Value(s: string): nat {
    if s == [] then 0 else 10 * Value(s[..|s| - 1]) + Digit(s[|s| - 1])
  }

  /** Addresses and offsets are written in decimal, without a leading zero. */
  lemma {:induction false} DecimalIs(k: nat)
    ensures Value(Decimal(k)) == k && Decimal(k) != [] && (k > 0 ==> Decimal(k)[0] != '0')
    ensures forall c :: c in Decimal(k) ==> '0' <= c <= '9'
    decreases k
  {
    var d := ['0', '1', '2', '3', '4', '5', '6', '7', '8', '9'][k % 10];
    assert Digit(d) == k % 10;
    if k < 10 {
      assert Decimal(k) == [d] && [d][..0] == [];
    } else {
      DecimalIs(k / 10);
      assert Decimal(k)[..|Decimal(k)| - 1] == Decimal(k / 10);
    }
  }

  /** With call lines, calls of one function from different sites are filed under different names. */
  lemma {:induction false} SitesApart(name: string, a: nat, b: nat)
    requires name + "!" + Decimal(a) == name + "!" + Decimal(b)
    ensures a == b
  {
    DecimalIs(a); DecimalIs(b);
    var p := name + "!";
    assert (p + Decimal(a))[|p|..] == Decimal(a) && (p + Decimal(b))[|p|..] == Decimal(b);
  }

  /** Where the last `!` of a name is. */
  function LastMark(name: string): (i: int)
    ensures -1 <= i < |name| && (i >= 0 ==> name[i] == '!') && forall j :: i < j < |name| ==> name[j] != '!'
  {
    if name == [] then -1
    else if name[|name| - 1] == '!' then |name| - 1
    else LastMark(name[..|name| - 1])
  }

  /** `funcname_get_addr` and `funcname_get_name`. */
  function AddrOf(name: string): nat {
    var i := LastMark(name);
    if i < 0 || i == |name| - 1 then 0 else Value(name[i + 1..])
  }

  function NameOf(name: string): string {
    var i := LastMark(name);
    if i < 0 then name else name[..i]
  }

  /** The function and the site of a call can be read off its name again, whatever the function is called. */
  lemma {:induction false} NameRoundTrip(name: string, addr: nat)
    ensures NameOf(WithAddr(name, addr)) == name && AddrOf(WithAddr(name, addr)) == addr
  {
    hide Decimal;
    DecimalIs(addr);
    MarkAt(name, Decimal(addr));
  }

  lemma {:induction false} MarkAt(name: string, d: string)
    requires forall c :: c in d ==> c != '!'
    ensures var s := name + "!" + d; LastMark(s) == |name| && s[..|name|] == name && s[|name| + 1..] == d
  {
    hide LastMark;
    var s := name + "!" + d;
    forall j | |name| < j < |s|
      ensures s[j] != '!'
    {
      assert s[j] == d[j - |name| - 1] && s[j] in d;
    }
    assert s[|name|] == '!';
  }
}
