/** What the specification of a call promises: conservation of time, and exactness of the off-CPU time. */
module CallTreeLaws {
  import opened Common
  import opened FuncStats
  import opened Analyzer
  import opened CallTree

  // ----- charged intervals are disjoint and in order

  ghost predicate Intervals(charges: seq<Charge>, lo: nat, hi: nat)
    decreases |charges|
  {
    if charges == [] then lo <= hi
    else lo <= charges[0].begin <= charges[0].end && Intervals(charges[1..], charges[0].end, hi)
  }

  lemma {:induction false} IntervalsConcat(a: seq<Charge>, b: seq<Charge>, lo: nat, mid: nat, hi: nat)
    requires Intervals(a, lo, mid) && Intervals(b, mid, hi)
    ensures Intervals(a + b, lo, hi)
    decreases |a|
  {
    if a == [] {
      assert a + b == b;
      IntervalsWider(b, lo, mid, hi);
    } else {
      assert (a + b)[1..] == a[1..] + b;
      IntervalsConcat(a[1..], b, a[0].end, mid, hi);
    }
  }

  lemma {:induction false} IntervalsWider(a: seq<Charge>, lo: nat, lo': nat, hi: nat)
    requires Intervals(a, lo', hi) && lo <= lo'
    ensures Intervals(a, lo, hi) && lo' <= hi
    decreases |a|
  {
    if a != [] {
      IntervalsWider(a[1..], a[0].end, a[0].end, hi);
    }
  }

  /** Disjoint intervals in order add up to no more than the time they lie in. */
  lemma {:induction false} IntervalsFit(a: seq<Charge>, lo: nat, hi: nat)
    requires Intervals(a, lo, hi)
    ensures TotalTime(a) <= hi - lo
    decreases |a|
  {
    if a != [] {
      var b, c := a[..|a| - 1], a[|a| - 1];
      assert a == b + [c];
      IntervalsSplit(b, c, lo, hi);
      IntervalsFit(b, lo, c.begin);
    }
  }

  lemma {:induction false} IntervalsSplit(b: seq<Charge>, c: Charge, lo: nat, hi: nat)
    requires Intervals(b + [c], lo, hi)
    ensures Intervals(b, lo, c.begin) && c.begin <= c.end <= hi
    decreases |b|
  {
    if b == [] {
      assert b + [c] == [c];
    } else {
      assert (b + [c])[1..] == b[1..] + [c];
      IntervalsSplit(b[1..], c, b[0].end, hi);
    }
  }

  lemma {:induction false} BlockInterval(cfg: Config, cursor: Action, off: nat, a: Action)
    requires cursor.ts <= a.ts
    ensures Intervals(Block(cfg, cursor, off, a), cursor.ts, a.ts)
  {
  }

  lemma {:induction false} ItemIntervals(cfg: Config, cursor: Action, off: nat, item: Item, now: nat)
    requires cursor.ts <= now && Paced(ItemActions(item), now)
    ensures var next := NextCursor(cfg, cursor, off, item);
      Intervals(ItemCharges(cfg, cursor, off, item), cursor.ts, next.ts) && next.ts <= EndTime(ItemActions(item), now)
    ensures now <= EndTime(ItemActions(item), now)
  {
    assert ItemActions(item) + [] == ItemActions(item);
    PacedConcat(ItemActions(item), [], now);
    match item
    case Sleep(_) =>
    case Jump(a) =>
      BlockInterval(cfg, cursor, off, a);
    case Pause(end, offs, start) =>
    case Child(call, offs, ret) =>
      PacedConcat([call] + OffActions(offs), [ret], now);
      PacedConcat([call], OffActions(offs), now);
      BlockInterval(cfg, cursor, off, call);
      var c := ChildCharge(cfg, item);
      assert OffActions(offs) + [] == OffActions(offs);
      PacedConcat(OffActions(offs), [], call.ts);
      assert c.begin <= c.end && [c][1..] == [];
      IntervalsConcat(Block(cfg, cursor, off, call), [c], cursor.ts, call.ts, ret.ts);
  }

  lemma {:induction false} ItemsIntervals(cfg: Config, cursor: Action, off: nat, items: seq<Item>, now: nat)
    requires cursor.ts <= now && Paced(ItemsActions(items), now)
    ensures Intervals(Charges(cfg, cursor, off, items), cursor.ts, EndTime(ItemsActions(items), now))
    decreases |items|
  {
    if items != [] {
      var item, rest := items[0], items[1..];
      PacedConcat(ItemActions(item), ItemsActions(rest), now);
      ItemIntervals(cfg, cursor, off, item, now);
      var next, off' := NextCursor(cfg, cursor, off, item), NextOff(cfg, cursor, off, item);
      ItemsIntervals(cfg, next, off', rest, EndTime(ItemActions(item), now));
      IntervalsConcat(ItemCharges(cfg, cursor, off, item), Charges(cfg, next, off', rest), cursor.ts, next.ts,
                      EndTime(ItemsActions(items), now));
    }
  }

  /** In both modes the charges of a call are disjoint intervals in time order, inside the call. */
  lemma {:induction false} ChargesAreIntervals(cfg: Config, call: Call)
    requires TimeOrdered(CallActions(call))
    ensures Intervals(Charges(cfg, call.entry, 0, call.items), call.entry.ts, call.ret.ts)
    ensures TotalTime(Charges(cfg, call.entry, 0, call.items)) <= call.ret.ts - call.entry.ts
  {
    var mid := ItemsActions(call.items);
    OrderedIsPaced(CallActions(call), 0);
    PacedConcat([call.entry] + mid, [call.ret], 0);
    PacedConcat([call.entry], mid, 0);
    var cs := Charges(cfg, call.entry, 0, call.items);
    ItemsIntervals(cfg, call.entry, 0, call.items, call.entry.ts);
    assert Intervals([], EndTime(mid, call.entry.ts), call.ret.ts);
    IntervalsConcat(cs, [], call.entry.ts, EndTime(mid, call.entry.ts), call.ret.ts);
    assert cs + [] == cs;
    IntervalsFit(cs, call.entry.ts, call.ret.ts);
  }

  // ----- off-CPU time

  lemma {:induction false} OffCharged(cfg: Config, cursor: Action, off: nat, items: seq<Item>)
    ensures TotalOff(Charges(cfg, cursor, off, items)) <= off + ItemsOff(items)
    decreases |items|
  {
    if items != [] {
      var item, rest := items[0], items[1..];
      var next, off' := NextCursor(cfg, cursor, off, item), NextOff(cfg, cursor, off, item);
      var a, b := ItemCharges(cfg, cursor, off, item), Charges(cfg, next, off', rest);
      OffCharged(cfg, next, off', rest);
      TotalOffConcat(a, b);
      ItemOffCharged(cfg, cursor, off, item);
    }
  }

  lemma {:induction false} ItemOffCharged(cfg: Config, cursor: Action, off: nat, item: Item)
    ensures TotalOff(ItemCharges(cfg, cursor, off, item)) + NextOff(cfg, cursor, off, item) <= off + ItemOff(item)
  {
    match item
    case Sleep(_) =>
    case Jump(a) => TotalOffOne(Block(cfg, cursor, off, a));
    case Pause(_, _, _) =>
    case Child(call, _, _) =>
      TotalOffOne(Block(cfg, cursor, off, call));
      TotalOffConcat(Block(cfg, cursor, off, call), [ChildCharge(cfg, item)]);
      TotalOffOne([ChildCharge(cfg, item)]);
  }

  lemma TotalOffOne(a: seq<Charge>)
    requires |a| <= 1
    ensures TotalOff(a) == if a == [] then 0 else a[0].off
  {
    if |a| == 1 {
      assert a[..0] == [];
    }
  }

  lemma {:induction false} TotalOffConcat(a: seq<Charge>, b: seq<Charge>)
    ensures TotalOff(a + b) == TotalOff(a) + TotalOff(b)
    decreases |b|
  {
    if b == [] {
      assert a + b == a;
    } else {
      assert (a + b)[..|a + b| - 1] == a + b[..|b| - 1];
      TotalOffConcat(a, b[..|b| - 1]);
    }
  }

  /** What the target keeps for itself is exactly what its children leave. */
  lemma {:induction false} SelfIsTheRest(cfg: Config, call: Call)
    requires TimeOrdered(CallActions(call))
    ensures var cs, lat, off := Charges(cfg, call.entry, 0, call.items), Excess(call.ret.ts, call.entry.ts),
      ItemsOff(call.items);
      && TotalTime(cs) + Excess(lat, TotalTime(cs)) == lat
      && TotalOff(cs) + Excess(off, TotalOff(cs)) == off
  {
    ChargesAreIntervals(cfg, call);
    OffCharged(cfg, call.entry, 0, call.items);
  }

  lemma {:induction false} ItemsOffFits(items: seq<Item>, now: nat)
    requires Paced(ItemsActions(items), now)
    ensures now + ItemsOff(items) <= EndTime(ItemsActions(items), now)
    decreases |items|
  {
    if items != [] {
      var item, rest := items[0], items[1..];
      PacedConcat(ItemActions(item), ItemsActions(rest), now);
      ItemOffFits(item, now);
      ItemsOffFits(rest, EndTime(ItemActions(item), now));
    }
  }

  lemma {:induction false} ItemOffFits(item: Item, now: nat)
    requires Paced(ItemActions(item), now)
    ensures now + ItemOff(item) <= EndTime(ItemActions(item), now)
  {
    match item
    case Jump(_) =>
    case Sleep(o) => OffsFit([o], now);
      assert OffActions([o]) == [o.b, o.e] && [o][1..] == [];
    case Child(call, offs, ret) =>
      PacedConcat([call] + OffActions(offs), [ret], now);
      PacedConcat([call], OffActions(offs), now);
      OffsFit(offs, call.ts);
    case Pause(end, offs, start) =>
      PacedConcat([end] + OffActions(offs), [start], now);
      PacedConcat([end], OffActions(offs), now);
      OffsFit(offs, end.ts);
  }

  /** The off-CPU time of a call is at most its latency. */
  lemma {:induction false} OffTimeFits(call: Call)
    requires TimeOrdered(CallActions(call))
    ensures call.entry.ts + ItemsOff(call.items) <= call.ret.ts < U64
  {
    var mid := ItemsActions(call.items);
    OrderedIsPaced(CallActions(call), 0);
    PacedConcat([call.entry] + mid, [call.ret], 0);
    PacedConcat([call.entry], mid, 0);
    ItemsOffFits(call.items, call.entry.ts);
  }

  // ----- the 32-bit interval

  function TrueOff(off: Off): nat {
    Excess(off.e.ts, off.b.ts)
  }

  function TrueOffs(offs: seq<Off>): nat {
    if offs == [] then 0 else TrueOff(offs[0]) + TrueOffs(offs[1..])
  }

  function OffsOf(item: Item): seq<Off> {
    match item
    case Sleep(o) => [o]
    case Child(_, offs, _) => offs
    case Jump(_) => []
    case Pause(_, offs, _) => offs
  }

  function AllOffs(items: seq<Item>): seq<Off> {
    if items == [] then []
    else OffsOf(items[0]) + AllOffs(items[1..])
  }

  lemma {:induction false} MeasuredConcat(a: seq<Off>, b: seq<Off>)
    ensures MeasuredAll(a + b) == MeasuredAll(a) + MeasuredAll(b)
    decreases |a|
  {
    if a == [] {
      assert a + b == b;
    } else {
      assert (a + b)[1..] == a[1..] + b;
      MeasuredConcat(a[1..], b);
    }
  }

  lemma {:induction false} ItemsOffIs(items: seq<Item>)
    ensures ItemsOff(items) == MeasuredAll(AllOffs(items))
    decreases |items|
  {
    if items != [] {
      ItemsOffIs(items[1..]);
      MeasuredConcat(OffsOf(items[0]), AllOffs(items[1..]));
    }
  }

  lemma {:induction false} MeasuredIsTrue(offs: seq<Off>)
    requires forall i :: 0 <= i < |offs| ==> offs[i].b.ts <= offs[i].e.ts < U64
    ensures MeasuredAll(offs) <= TrueOffs(offs)
    ensures MeasuredAll(offs) == TrueOffs(offs) <==> forall i :: 0 <= i < |offs| ==> TrueOff(offs[i]) < U32
    decreases |offs|
  {
    if offs != [] {
      var o := offs[0];
      MinusMod(o.e.ts, o.b.ts);
      MeasuredIsTrue(offs[1..]);
      assert forall i :: 1 <= i < |offs| ==> offs[i] == offs[1..][i - 1];
      if MeasuredAll(offs) == TrueOffs(offs) {
        assert forall i :: 0 <= i < |offs| ==> TrueOff(offs[i]) < U32;
      }
    }
  }

  /** The off-CPU time of a call is exact if and only if every interval is shorter than 2^32 ns. */
  lemma {:induction false} OffTimeExact(call: Call)
    requires forall i :: 0 <= i < |AllOffs(call.items)| ==>
      AllOffs(call.items)[i].b.ts <= AllOffs(call.items)[i].e.ts < U64
    ensures ItemsOff(call.items) == TrueOffs(AllOffs(call.items)) <==>
      forall i :: 0 <= i < |AllOffs(call.items)| ==> TrueOff(AllOffs(call.items)[i]) < U32
  {
    ItemsOffIs(call.items);
    MeasuredIsTrue(AllOffs(call.items));
  }

  /** A call that sleeps for 2^32 ns. */
  function LongSleep(): Call {
    var head, inner, caller, sched := Symbol("target", 1000, 0), Symbol("target", 1008, 8), Symbol("caller", 2000, 4),
        Symbol("__schedule", 3000, 0);
    var off := Off(Action(CALL, inner, sched, 200, true, false, true, false, false),
        Action(RETURN, sched, inner, 200 + U32, false, true, false, true, false));
    Call(Action(CALL, caller, head, 100, false, true, false, false, false), [Sleep(off)],
        Action(RETURN, inner, caller, 300 + U32, true, false, false, false, false))
  }

  lemma {:induction false} LongSleepTrace(cfg: Config)
    ensures var trace, c := [Inside(LongSleep())], LongSleep();
      && ValidTrace(cfg, trace) && TimeOrdered(TraceActions(trace))
      && ItemsOff(c.items) == 0 && TrueOffs(AllOffs(c.items)) == U32
  {
    var c := LongSleep();
    var trace, off := [Inside(c)], c.items[0].off;
    assert trace[1..] == [] && c.items[1..] == [];
    assert ItemsActions(c.items) == [off.b, off.e];
    assert CallActions(c) == [c.entry, off.b, off.e, c.ret];
    assert TraceActions(trace) == CallActions(c);
    assert AllOffs(c.items) == [off] && [off][1..] == [];
  }

  /** Of that sleep nothing is recorded. */
  lemma {:induction false} LongSleepLost(cfg: Config)
    ensures TrueOffs(AllOffs(LongSleep().items)) == U32
    ensures Finish(Run(cfg, Init, TraceActions([Inside(LongSleep())]))).latency.sched == NoLatency.sched
  {
    hide Run, Finish, TraceActions, ValidTrace, TimeOrdered, ItemsOff, Charges, Tally, AddChild, AddChildren,
        CallerName, LongSleep, TrueOffs, AllOffs;
    LongSleepTrace(cfg);
    AnalyzerMeetsSpec(cfg, [Inside(LongSleep())]);
    assert [Inside(LongSleep())][1..] == [];
  }

  // ----- the buckets

  /** The totals of a bucket, over any listing of its keys. */
  function SumKeys(b: Bucket, keys: seq<string>): nat {
    if keys == [] then 0 else Get(b, keys[0]).total + SumKeys(b, keys[1..])
  }

  lemma {:induction false} SumKeysAdd(b: Bucket, keys: seq<string>, name: string, val: nat)
    requires Distinct(keys) && SumKeys(b, keys) + val < U64
    ensures SumKeys(AddVal(b, name, val), keys) == SumKeys(b, keys) + if name in keys then val else 0
    decreases |keys|
  {
    if keys != [] {
      SumKeysAdd(b, keys[1..], name, val);
      if keys[0] == name {
        assert name !in keys[1..];
      }
    }
  }

  lemma {:induction false} SumKeysEmpty(keys: seq<string>)
    ensures SumKeys(map[], keys) == 0
    decreases |keys|
  {
    if keys != [] {
      SumKeysEmpty(keys[1..]);
    }
  }

  /** Summed over their keys, the buckets hold all the time charged. */
  lemma {:induction false} TallySums(charges: seq<Charge>, keys: seq<string>)
    requires Distinct(keys) && forall i :: 0 <= i < |charges| ==> charges[i].name in keys
    requires TotalTime(charges) < U64 && TotalOff(charges) < U64
    ensures SumKeys(Tally(charges).target, keys) == TotalTime(charges)
    ensures SumKeys(Tally(charges).sched, keys) == TotalOff(charges)
    decreases |charges|
  {
    hide AddVal, SumKeys, Duration;
    if charges == [] {
      SumKeysEmpty(keys);
    } else {
      var a, c := charges[..|charges| - 1], charges[|charges| - 1];
      TallySums(a, keys);
      SumKeysAdd(Tally(a).target, keys, c.name, Duration(c));
      SumKeysAdd(Tally(a).sched, keys, c.name, c.off);
    }
  }

  /** The charges of a call with the target's own share. */
  function Shares(cfg: Config, call: Call): seq<Charge> {
    var cs := Charges(cfg, call.entry, 0, call.items);
    var lat := Excess(call.ret.ts, call.entry.ts);
    cs + [Charge(TARGET_SELF, call.entry.ts + TotalTime(cs), call.entry.ts + lat,
        Excess(ItemsOff(call.items), TotalOff(cs)))]
  }

  /** Outside code-block mode, the children recorded for a call are its shares. */
  lemma {:induction false} AccountUsesShares(cfg: Config, stat: Stat, call: Call)
    requires !cfg.opt.codeBlock
    ensures var lat := Excess(call.ret.ts, call.entry.ts); var caller := CallerName(cfg, call.entry, call.ret);
      Account(cfg, stat, call) ==
        if Wanted(cfg.opt, call.entry.ts, lat)
        then AddChildLatency(AddLatency(stat, lat, ItemsOff(call.items), caller), Tally(Shares(cfg, call)), caller,
            true)
        else stat
  {
    hide AddChildLatency, AddLatency, Charges, Wanted, CallerName, AddVal, Add64, ItemsOff;
    var cs := Charges(cfg, call.entry, 0, call.items);
    TallyAppend(cs, Shares(cfg, call)[|cs|]);
  }

  /** Conservation: the latencies recorded for a call add up to its latency, its off-CPU times to its off-CPU time. */
  lemma {:induction false} Conservation(cfg: Config, call: Call, keys: seq<string>)
    requires TimeOrdered(CallActions(call))
    requires Distinct(keys) && forall i :: 0 <= i < |Shares(cfg, call)| ==> Shares(cfg, call)[i].name in keys
    ensures SumKeys(Tally(Shares(cfg, call)).target, keys) == Excess(call.ret.ts, call.entry.ts)
    ensures SumKeys(Tally(Shares(cfg, call)).sched, keys) == ItemsOff(call.items)
  {
    hide Charges, Tally, SumKeys, ItemsOff;
    var cs := Charges(cfg, call.entry, 0, call.items);
    SelfIsTheRest(cfg, call);
    OffTimeFits(call);
    TallyAppend(cs, Shares(cfg, call)[|cs|]);
    assert CallActions(call)[|CallActions(call)| - 1] == call.ret;
    TallySums(Shares(cfg, call), keys);
  }
}
