/**
 * The specification of the analyser: a call of the target as a tree, what it
 * should be charged with, and the proof that the event loop records exactly that.
 */
module CallTree {
  import opened Common
  import opened FuncStats
  import opened Analyzer

  /** An off-CPU interval: entering and leaving the scheduler. */
  datatype Off = Off(b: Action, e: Action)

  /** What happens between entering the target and returning from it. */
  datatype Item =
    | Sleep(off: Off)                                       // off-CPU in the target itself
    | Child(call: Action, offs: seq<Off>, ret: Action)      // a call or an interrupt
    | Jump(a: Action)                                       // a branch inside the target
    | Pause(end: Action, offs: seq<Off>, start: Action)     // the trace is off for a while

  datatype Call = Call(entry: Action, items: seq<Item>, ret: Action)

  /** A thread's trace: calls of the target, and off-CPU intervals elsewhere. */
  datatype Segment = Outside(off: Off) | Inside(call: Call)

  // ----- the trace of a tree

  function OffActions(offs: seq<Off>): seq<Action> {
    if offs == [] then [] else [offs[0].b, offs[0].e] + OffActions(offs[1..])
  }

  function ItemActions(item: Item): seq<Action> {
    match item
    case Sleep(off) => [off.b, off.e]
    case Child(call, offs, ret) => [call] + OffActions(offs) + [ret]
    case Jump(a) => [a]
    case Pause(end, offs, start) => [end] + OffActions(offs) + [start]
  }

  function ItemsActions(items: seq<Item>): seq<Action> {
    if items == [] then [] else ItemActions(items[0]) + ItemsActions(items[1..])
  }

  function CallActions(call: Call): seq<Action> {
    [call.entry] + ItemsActions(call.items) + [call.ret]
  }

  function TraceActions(trace: seq<Segment>): seq<Action> {
    if trace == [] then []
    else
      var first := if trace[0].Outside? then [trace[0].off.b, trace[0].off.e] else CallActions(trace[0].call);
      first + TraceActions(trace[1..])
  }

  // ----- well-bracketed traces

  predicate Quiet(a: Action) {
    !a.isError && !a.schedBegin && !a.schedEnd
  }

  /** The record goes to the first instruction of the target. */
  predicate AtHead(a: Action) {
    a.toTarget && a.to.offset == 0
  }

  predicate ValidOff(off: Off) {
    && !off.b.isError && off.b.schedBegin && !AtHead(off.b)
    && !off.e.isError && off.e.schedEnd && !off.e.schedBegin && !AtHead(off.e)
  }

  predicate ValidOffs(offs: seq<Off>) {
    forall i :: 0 <= i < |offs| ==> ValidOff(offs[i])
  }

  /** An interrupt taken on the target's very first instruction. */
  predicate HeadInterrupt(call: Action) {
    call.kind == HW_INT && call.from.offset == 0
  }

  /** The record leaves the target for a child. */
  predicate Leaves(call: Action) {
    && Quiet(call) && call.fromTarget && !call.toTarget
    && (call.kind in {CALL, HW_INT, TR_END_CALL, TR_END_HW_INT, TR_END_SYSCALL}
        || (call.kind in {JMP, JCC} && call.to.offset == 0))
  }

  /**
   * A child is left by a call, an interrupt, a jump to a first instruction or
   * the ip-filter's ends of trace. It is resumed by a return, or, at an end of
   * trace for a call or an interrupt, by a start.
   */
  predicate ValidChild(call: Action, ret: Action) {
    && Leaves(call)
    && Quiet(ret) && ret.toTarget && !ret.fromTarget
    && (AtHead(ret) ==> HeadInterrupt(call))
    && (ret.kind in {RETURN, IRET, JMP, JCC} || (ret.kind == TR_START && call.kind in {TR_END_CALL, TR_END_HW_INT}))
  }

  /** The trace ends in the target and starts again there, but not at the first instruction. */
  predicate ValidPause(end: Action, start: Action) {
    && Quiet(end) && end.kind == TR_END && end.fromTarget && !end.toTarget
    && Quiet(start) && start.kind == TR_START && start.toTarget && !start.fromTarget && !AtHead(start)
  }

  predicate ValidItem(cfg: Config, item: Item) {
    match item
    case Sleep(off) => ValidOff(off)
    case Child(call, offs, ret) => ValidChild(call, ret) && ValidOffs(offs)
    case Jump(a) =>
      cfg.opt.codeBlock && Quiet(a) && a.kind in {JMP, JCC} && a.fromTarget && a.toTarget && a.to.offset != 0
    case Pause(end, offs, start) => ValidPause(end, start) && ValidOffs(offs)
  }

  /** A return, or a jump into the middle of another function. */
  predicate LeavesTarget(a: Action) {
    a.kind in {RETURN, IRET, TR_END_RETURN} || (a.kind in {JMP, JCC} && a.to.offset != 0)
  }

  predicate ValidCall(cfg: Config, call: Call) {
    && !call.entry.isError && AtHead(call.entry)
    && (forall i :: 0 <= i < |call.items| ==> ValidItem(cfg, call.items[i]))
    && Quiet(call.ret) && call.ret.fromTarget && !call.ret.toTarget
    && LeavesTarget(call.ret)
  }

  predicate ValidTrace(cfg: Config, trace: seq<Segment>) {
    forall i :: 0 <= i < |trace| ==> if trace[i].Outside? then ValidOff(trace[i].off) else ValidCall(cfg, trace[i].call)
  }

  /** Timestamps do not go back and fit into 64 bits. */
  ghost predicate TimeOrdered(actions: seq<Action>) {
    && (forall i, j :: 0 <= i < j < |actions| ==> actions[i].ts <= actions[j].ts)
    && (forall i :: 0 <= i < |actions| ==> actions[i].ts < U64)
  }

  // ----- what a call is charged with

  /** An interval charged to a child or a code block. */
  datatype Charge = Charge(name: string, begin: nat, end: nat, off: nat)

  /** The off-CPU time as the analyser measures it: each interval modulo 2^32. */
  function Measured(off: Off): nat {
    Sub64(off.e.ts, off.b.ts) % U32
  }

  function MeasuredAll(offs: seq<Off>): nat {
    if offs == [] then 0 else Measured(offs[0]) + MeasuredAll(offs[1..])
  }

  /** The code block from `cursor` to `a`, unless it is empty. */
  function Block(cfg: Config, cursor: Action, off: nat, a: Action): seq<Charge> {
    if cfg.opt.codeBlock && a.from.offset != cursor.to.offset
    then [Charge(BlockName(cursor, a), cursor.ts, a.ts, off)] else []
  }

  function ChildCharge(cfg: Config, item: Item): Charge
    requires item.Child?
  {
    Charge(ChildName(cfg, item.call, item.ret.kind == IRET), item.call.ts, item.ret.ts, MeasuredAll(item.offs))
  }

  /** The charges of one item, when the current block began at `cursor` with `off` spent off-CPU since. */
  function ItemCharges(cfg: Config, cursor: Action, off: nat, item: Item): seq<Charge> {
    match item
    case Sleep(_) => []
    case Child(call, _, _) => Block(cfg, cursor, off, call) + [ChildCharge(cfg, item)]
    case Jump(a) => Block(cfg, cursor, off, a)
    case Pause(_, _, _) => []
  }

  /** Where the next block begins: a child's return, a jump that closed a block, or a start of the trace. */
  function NextCursor(cfg: Config, cursor: Action, off: nat, item: Item): Action {
    match item
    case Sleep(_) => cursor
    case Child(_, _, ret) => ret
    case Jump(a) => if Block(cfg, cursor, off, a) == [] then cursor else a
    case Pause(_, _, start) => start
  }

  function NextOff(cfg: Config, cursor: Action, off: nat, item: Item): nat {
    match item
    case Sleep(o) => off + Measured(o)
    case Child(_, _, _) => 0
    case Jump(a) => if Block(cfg, cursor, off, a) == [] then off else 0
    case Pause(_, _, _) => 0
  }

  function Charges(cfg: Config, cursor: Action, off: nat, items: seq<Item>): seq<Charge>
    decreases |items|
  {
    if items == [] then []
    else
      ItemCharges(cfg, cursor, off, items[0])
      + Charges(cfg, NextCursor(cfg, cursor, off, items[0]), NextOff(cfg, cursor, off, items[0]), items[1..])
  }

  /** Where the last block of `items` begins, and the off-CPU time since. */
  function CursorAfter(cfg: Config, cursor: Action, off: nat, items: seq<Item>): Action
    decreases |items|
  {
    if items == [] then cursor
    else CursorAfter(cfg, NextCursor(cfg, cursor, off, items[0]), NextOff(cfg, cursor, off, items[0]), items[1..])
  }

  function OffAfter(cfg: Config, cursor: Action, off: nat, items: seq<Item>): nat
    decreases |items|
  {
    if items == [] then off else OffAfter(cfg, NextCursor(cfg, cursor, off, items[0]),
        NextOff(cfg, cursor, off, items[0]), items[1..])
  }

  function ItemOff(item: Item): nat {
    match item
    case Sleep(o) => Measured(o)
    case Child(_, offs, _) => MeasuredAll(offs)
    case Jump(_) => 0
    case Pause(_, offs, _) => MeasuredAll(offs)
  }

  function ItemsOff(items: seq<Item>): nat {
    if items == [] then 0 else ItemOff(items[0]) + ItemsOff(items[1..])
  }

  function Duration(c: Charge): nat {
    Excess(c.end, c.begin)
  }

  /** Buckets holding the given charges. */
  function Tally(charges: seq<Charge>): Children {
    if charges == [] then NoChildren
    else
      var c := charges[|charges| - 1];
      AddChild(Tally(charges[..|charges| - 1]), c.name, Duration(c), c.off)
  }

  function TotalTime(charges: seq<Charge>): nat {
    if charges == [] then 0 else TotalTime(charges[..|charges| - 1]) + Duration(charges[|charges| - 1])
  }

  function TotalOff(charges: seq<Charge>): nat {
    if charges == [] then 0 else TotalOff(charges[..|charges| - 1]) + charges[|charges| - 1].off
  }

  /** What a call adds to the statistics: its latency, its charges, and the rest as the target's own. */
  function Account(cfg: Config, stat: Stat, call: Call): Stat {
    var lat, off := Excess(call.ret.ts, call.entry.ts), ItemsOff(call.items);
    if !Wanted(cfg.opt, call.entry.ts, lat) then stat
    else
      var caller := CallerName(cfg, call.entry, call.ret);
      var charges := Charges(cfg, call.entry, 0, call.items);
      var children :=
        if cfg.opt.codeBlock then Tally(charges)
        else AddChild(Tally(charges), TARGET_SELF, Excess(lat, TotalTime(charges)), Excess(off, TotalOff(charges)));
      AddChildLatency(AddLatency(stat, lat, off, caller), children, caller, true)
  }

  function ItemOffCount(item: Item): nat {
    match item
    case Sleep(_) => 1
    case Child(_, offs, _) => |offs|
    case Jump(_) => 0
    case Pause(_, offs, _) => |offs|
  }

  function OffCount(items: seq<Item>): nat {
    if items == [] then 0 else ItemOffCount(items[0]) + OffCount(items[1..])
  }

  function Counted(stat: Stat, n: nat): Stat {
    stat.(schedCount := stat.schedCount + n)
  }

  /** The statistics after one segment of a trace. */
  function AccountSegment(cfg: Config, stat: Stat, g: Segment): Stat {
    if g.Outside? then Counted(stat, 1) else Account(cfg, Counted(stat, OffCount(g.call.items)), g.call)
  }

  /** The statistics of a whole trace. */
  function AccountAll(cfg: Config, stat: Stat, trace: seq<Segment>): Stat
    decreases |trace|
  {
    if trace == [] then stat else AccountAll(cfg, AccountSegment(cfg, stat, trace[0]), trace[1..])
  }

  // ----- time

  ghost predicate Paced(actions: seq<Action>, now: nat)
    decreases |actions|
  {
    actions == [] || (now <= actions[0].ts < U64 && Paced(actions[1..], actions[0].ts))
  }

  function EndTime(actions: seq<Action>, now: nat): nat {
    if actions == [] then now else actions[|actions| - 1].ts
  }

  lemma {:induction false} PacedConcat(a: seq<Action>, b: seq<Action>, now: nat)
    requires Paced(a + b, now)
    ensures Paced(a, now) && Paced(b, EndTime(a, now)) && now <= EndTime(a, now)
    ensures EndTime(a + b, now) == EndTime(b, EndTime(a, now))
    decreases |a|
  {
    if a == [] {
      assert a + b == b;
    } else {
      assert (a + b)[1..] == a[1..] + b;
      PacedConcat(a[1..], b, a[0].ts);
    }
  }

  lemma {:induction false} OrderedIsPaced(actions: seq<Action>, now: nat)
    requires TimeOrdered(actions) && (actions != [] ==> now <= actions[0].ts)
    ensures Paced(actions, now)
    decreases |actions|
  {
    if actions != [] {
      OrderedIsPaced(actions[1..], actions[0].ts);
    }
  }

  // ----- the totals kept with the buckets

  lemma {:induction false} TallyAppend(charges: seq<Charge>, c: Charge)
    ensures Tally(charges + [c]) == AddChild(Tally(charges), c.name, Duration(c), c.off)
    ensures TotalTime(charges + [c]) == TotalTime(charges) + Duration(c)
    ensures TotalOff(charges + [c]) == TotalOff(charges) + c.off
  {
    assert (charges + [c])[..|charges|] == charges;
  }

  lemma {:induction false} TallyTotals(charges: seq<Charge>)
    requires TotalTime(charges) < U64 && TotalOff(charges) < U64
    ensures Tally(charges).targetTotal == TotalTime(charges) && Tally(charges).schedTotal == TotalOff(charges)
    decreases |charges|
  {
    hide AddVal, Duration;
    if charges != [] {
      var c := charges[|charges| - 1];
      TallyTotals(charges[..|charges| - 1]);
      ChildTotals(Tally(charges[..|charges| - 1]), c.name, Duration(c), c.off);
    }
  }

  lemma {:induction false} ChildTotals(c: Children, name: string, lat: nat, off: nat)
    requires c.targetTotal + lat < U64 && c.schedTotal + off < U64
    ensures AddChild(c, name, lat, off).targetTotal == c.targetTotal + lat
    ensures AddChild(c, name, lat, off).schedTotal == c.schedTotal + off
  {
    hide AddVal;
  }

  // ----- the loop inside a call

  /** The loop is inside a call entered by `entry`, with `charges` made and `off` off-CPU since `cursor`. */
  ghost predicate Within(s: State, entry: Action, charges: seq<Charge>, offTotal: nat, off: nat, cursor: Action,
                         stat: Stat) {
    && s.stack == [entry] && s.child == Tally(charges)
    && s.schedTarget == offTotal && s.schedChild == off && s.schedSince.None?
    && s.targetBegin == Some(entry) && !s.prevTargetError
    && s.cursor.Some? && s.cursor.value.ts == cursor.ts && s.cursor.value.to == cursor.to
    && !s.wrongChain && s.noHwIntFromHead && s.stat == stat && !s.crashed
  }

  /** Nothing has been charged twice, and nothing beyond the time passed. */
  ghost predicate Fair(entry: Action, charges: seq<Charge>, offTotal: nat, off: nat, cursor: Action, now: nat) {
    && entry.ts <= cursor.ts <= now < U64
    && TotalTime(charges) <= cursor.ts - entry.ts
    && offTotal <= now - entry.ts && off <= now - cursor.ts
    && TotalOff(charges) + off <= offTotal
  }

  /** Off-CPU intervals change only the two counters. */
  lemma {:induction false} RunOff(cfg: Config, s: State, off: Off)
    requires ValidOff(off) && !s.crashed && s.schedSince.None?
    requires s.schedTarget + Measured(off) < U64 && s.schedChild + Measured(off) < U64
    ensures Run(cfg, s, [off.b, off.e]) ==
      s.(schedTarget := s.schedTarget + Measured(off), schedChild := s.schedChild + Measured(off),
          stat := Counted(s.stat, 1))
  {
    var s1 := Step(cfg, s, off.b);
    assert Run(cfg, s, [off.b, off.e]) == Run(cfg, s1, [off.e]);
    assert Run(cfg, s1, [off.e]) == Run(cfg, Step(cfg, s1, off.e), []);
  }

  lemma {:induction false} RunOffs(cfg: Config, s: State, offs: seq<Off>)
    requires ValidOffs(offs) && !s.crashed && s.schedSince.None?
    requires s.schedTarget + MeasuredAll(offs) < U64 && s.schedChild + MeasuredAll(offs) < U64
    ensures Run(cfg, s, OffActions(offs)) ==
      s.(schedTarget := s.schedTarget + MeasuredAll(offs), schedChild := s.schedChild + MeasuredAll(offs),
         stat := Counted(s.stat, |offs|))
    decreases |offs|
  {
    if offs != [] {
      RunConcat(cfg, s, [offs[0].b, offs[0].e], OffActions(offs[1..]));
      RunOff(cfg, s, offs[0]);
      RunOffs(cfg, Run(cfg, s, [offs[0].b, offs[0].e]), offs[1..]);
    }
  }

  /** Off-CPU intervals are no longer than the time they take. */
  lemma {:induction false} OffsFit(offs: seq<Off>, now: nat)
    requires Paced(OffActions(offs), now)
    ensures now + MeasuredAll(offs) <= EndTime(OffActions(offs), now)
    decreases |offs|
  {
    if offs != [] {
      var a := [offs[0].b, offs[0].e];
      PacedConcat(a, OffActions(offs[1..]), now);
      OffsFit(offs[1..], offs[0].e.ts);
    }
  }

  // ----- one item

  /** Running a single action is one step. */
  lemma RunOne(cfg: Config, s: State, a: Action)
    ensures Run(cfg, s, [a]) == Step(cfg, s, a)
  {
  }

  lemma {:induction false} MinusMod(x: nat, y: nat)
    requires y <= x < U64
    ensures Sub64(x, y) == x - y
  {
  }

  /** Closing the current block at `a`. */
  lemma {:induction false} RunBlock(cfg: Config, s: State, a: Action, entry: Action, charges: seq<Charge>,
                                    offTotal: nat, off: nat, cursor: Action, stat: Stat)
    requires cfg.opt.codeBlock && Within(s, entry, charges, offTotal, off, cursor, stat)
    requires Fair(entry, charges, offTotal, off, cursor, a.ts)
    ensures var b := Block(cfg, cursor, off, a); var s1 := AddCodeBlock(s, a);
      if b == [] then s1 == s
      else Within(s1, entry, charges + b, offTotal, 0, a, stat) && Fair(entry, charges + b, offTotal, 0, a, a.ts)
  {
    hide Tally, TotalTime, TotalOff, AddChild, Decimal, Sub64;
    MinusMod(a.ts, cursor.ts);
    if a.from.offset != cursor.to.offset {
      var c := Charge(BlockName(cursor, a), cursor.ts, a.ts, off);
      TallyAppend(charges, c);
      assert BlockName(s.cursor.value, a) == BlockName(cursor, a);
    }
  }

  lemma {:induction false} RunJump(cfg: Config, s: State, a: Action, entry: Action, charges: seq<Charge>, offTotal: nat,
                                   off: nat, cursor: Action, stat: Stat)
    requires ValidItem(cfg, Jump(a)) && Within(s, entry, charges, offTotal, off, cursor, stat)
    requires Fair(entry, charges, offTotal, off, cursor, a.ts)
    ensures var b := Block(cfg, cursor, off, a); var s1 := Step(cfg, s, a);
      if b == [] then s1 == s
      else Within(s1, entry, charges + b, offTotal, 0, a, stat) && Fair(entry, charges + b, offTotal, 0, a, a.ts)
  {
    RunBlock(cfg, s, a, entry, charges, offTotal, off, cursor, stat);
  }

  /** The loop is in a child of the call, left by `call`. */
  ghost predicate InChild(s: State, entry: Action, call: Action, charges: seq<Charge>, offTotal: nat, off: nat,
                          stat: Stat) {
    && s.stack == [entry, Normalized(call)] && s.child == Tally(charges)
    && s.schedTarget == offTotal && s.schedChild == off && s.schedSince.None?
    && s.targetBegin == Some(entry) && !s.prevTargetError && !s.wrongChain
    && (s.noHwIntFromHead <==> !HeadInterrupt(call)) && s.stat == stat && !s.crashed
  }

  lemma {:induction false} RunChildCall(cfg: Config, s: State, call: Action, ret: Action, entry: Action,
                                        charges: seq<Charge>, offTotal: nat, off: nat, cursor: Action, stat: Stat)
    requires ValidChild(call, ret) && Within(s, entry, charges, offTotal, off, cursor, stat)
    requires Fair(entry, charges, offTotal, off, cursor, call.ts)
    ensures var cs := charges + Block(cfg, cursor, off, call);
      && InChild(Step(cfg, s, call), entry, call, cs, offTotal, 0, stat)
      && TotalTime(cs) <= call.ts - entry.ts && TotalOff(cs) <= offTotal
  {
    hide Tally, TotalTime, TotalOff;
    var b := Normalized(call);
    var s1 := s.(noHwIntFromHead := !(b.kind == HW_INT && b.fromTarget && b.from.offset == 0));
    assert Step(cfg, s, call) == var s2 := OnCall(cfg, s1, b); if s2.crashed then s2 else s2.(cursor := Some(b));
    if cfg.opt.codeBlock {
      RunBlock(cfg, s, b, entry, charges, offTotal, off, cursor, stat);
      assert AddCodeBlock(s1, b) == AddCodeBlock(s, b).(noHwIntFromHead := s1.noHwIntFromHead);
      assert Block(cfg, cursor, off, b) == Block(cfg, cursor, off, call);
      if Block(cfg, cursor, off, b) == [] {
        assert charges + [] == charges;
      }
    } else {
      assert charges + [] == charges;
    }
  }

  /** The step at a child's return: one child is added and its frame popped. */
  lemma {:induction false} ChildReturnStep(cfg: Config, s: State, call: Action, ret: Action, entry: Action,
                                           charges: seq<Charge>, offTotal: nat, off: nat, stat: Stat)
    requires ValidChild(call, ret) && InChild(s, entry, call, charges, offTotal, off, stat)
    ensures var r := Normalized(ret);
      Step(cfg, s, ret) == AddOneChild(cfg, s, Normalized(call), r, false, r.kind == IRET)
                             .(stack := [entry], schedChild := 0, noHwIntFromHead := true, cursor := Some(r))
  {
    hide Tally, AddChild, ChildName, Sub64;
    var r, c := Normalized(ret), Normalized(call);
    var s1 := s.(noHwIntFromHead := true);
    assert Last(s.stack) == c && Pop(s.stack) == [entry];
    assert Step(cfg, s, ret) == var s2 := OnBranch(cfg, s1, r); if s2.crashed then s2 else s2.(cursor := Some(r));
  }

  lemma NameNormalized(cfg: Config, call: Action, gather: bool)
    ensures ChildName(cfg, Normalized(call), gather) == ChildName(cfg, call, gather)
    ensures Normalized(call).ts == call.ts && Normalized(call).to == call.to
    ensures Normalized(call).kind == IRET <==> call.kind == IRET
  {
  }

  lemma {:induction false} RunChildReturn(cfg: Config, s: State, call: Action, ret: Action, entry: Action,
                                          charges: seq<Charge>, offTotal: nat, off: nat, stat: Stat)
    requires ValidChild(call, ret) && InChild(s, entry, call, charges, offTotal, off, stat)
    requires entry.ts <= call.ts <= ret.ts < U64 && TotalTime(charges) <= call.ts - entry.ts
    requires TotalOff(charges) + off <= offTotal <= ret.ts - entry.ts
    ensures var cs := charges + [Charge(ChildName(cfg, call, ret.kind == IRET), call.ts, ret.ts, off)];
      && Within(Step(cfg, s, ret), entry, cs, offTotal, 0, ret, stat)
      && Fair(entry, cs, offTotal, 0, ret, ret.ts)
  {
    hide Tally, TotalTime, TotalOff, Step, AddChild, ChildName, Normalized, Sub64, ValidChild;
    var r, c := Normalized(ret), Normalized(call);
    NameNormalized(cfg, call, r.kind == IRET);
    NameNormalized(cfg, ret, false);
    var charge := Charge(ChildName(cfg, call, r.kind == IRET), call.ts, ret.ts, off);
    ChildReturnStep(cfg, s, call, ret, entry, charges, offTotal, off, stat);
    TallyAppend(charges, charge);
    MinusMod(ret.ts, call.ts);
  }

  /** A whole child: one charge for it, and in code-block mode one for the block before it. */
  lemma {:induction false} RunChild(cfg: Config, s: State, item: Item, entry: Action, charges: seq<Charge>,
                                    offTotal: nat, off: nat, cursor: Action, stat: Stat, now: nat)
    requires item.Child? && ValidItem(cfg, item) && Within(s, entry, charges, offTotal, off, cursor, stat)
    requires Fair(entry, charges, offTotal, off, cursor, now) && Paced(ItemActions(item), now)
    ensures var cs := charges + ItemCharges(cfg, cursor, off, item);
      && Within(Run(cfg, s, ItemActions(item)), entry, cs, offTotal + ItemOff(item), 0, item.ret,
           Counted(stat, |item.offs|))
      && Fair(entry, cs, offTotal + ItemOff(item), 0, item.ret, item.ret.ts)
  {
    hide Run, Step, Tally, TotalTime, TotalOff, Block, OffActions, MeasuredAll, ChildName, ValidChild, ValidOff;
    var call, offs, ret := item.call, item.offs, item.ret;
    var blk := Block(cfg, cursor, off, call);
    var m := MeasuredAll(offs);
    // split the actions and their times
    PacedConcat([call] + OffActions(offs), [ret], now);
    PacedConcat([call], OffActions(offs), now);
    OffsFit(offs, call.ts);
    RunConcat(cfg, s, [call] + OffActions(offs), [ret]);
    RunConcat(cfg, s, [call], OffActions(offs));
    RunOne(cfg, s, call);
    // run them
    RunChildCall(cfg, s, call, ret, entry, charges, offTotal, off, cursor, stat);
    var s1 := Step(cfg, s, call);
    RunOffs(cfg, s1, offs);
    var s2 := Run(cfg, s1, OffActions(offs));
    RunOne(cfg, s2, ret);
    RunChildReturn(cfg, s2, call, ret, entry, charges + blk, offTotal + m, m, Counted(stat, |offs|));
    var charge := ChildCharge(cfg, item);
    assert charges + (blk + [charge]) == charges + blk + [charge];
  }

  lemma {:induction false} RunSleep(cfg: Config, s: State, o: Off, entry: Action, charges: seq<Charge>, offTotal: nat,
                                    off: nat, cursor: Action, stat: Stat, now: nat)
    requires ValidOff(o) && Within(s, entry, charges, offTotal, off, cursor, stat)
    requires Fair(entry, charges, offTotal, off, cursor, now) && Paced([o.b, o.e], now)
    ensures var m := Measured(o);
      && Within(Run(cfg, s, [o.b, o.e]), entry, charges, offTotal + m, off + m, cursor, Counted(stat, 1))
      && Fair(entry, charges, offTotal + m, off + m, cursor, o.e.ts)
  {
    hide Run, Step, Tally, TotalTime, TotalOff;
    assert Paced([o.b, o.e][1..], o.b.ts) && [o.b, o.e][1..] == [o.e];
    MinusMod(o.e.ts, o.b.ts);
    RunOff(cfg, s, o);
  }

  /** A pause: no charge, and a new block begins. */
  lemma {:induction false} RunPause(cfg: Config, s: State, item: Item, entry: Action, charges: seq<Charge>,
                                    offTotal: nat, off: nat, cursor: Action, stat: Stat, now: nat)
    requires item.Pause? && ValidItem(cfg, item) && Within(s, entry, charges, offTotal, off, cursor, stat)
    requires Fair(entry, charges, offTotal, off, cursor, now) && Paced(ItemActions(item), now)
    ensures var m := MeasuredAll(item.offs);
      && Within(Run(cfg, s, ItemActions(item)), entry, charges, offTotal + m, 0, item.start,
           Counted(stat, |item.offs|))
      && Fair(entry, charges, offTotal + m, 0, item.start, item.start.ts)
  {
    hide Run, Step, Tally, TotalTime, TotalOff, OffActions, MeasuredAll, ValidOff, ValidPause;
    var end, offs, start := item.end, item.offs, item.start;
    PacedConcat([end] + OffActions(offs), [start], now);
    PacedConcat([end], OffActions(offs), now);
    OffsFit(offs, end.ts);
    RunConcat(cfg, s, [end] + OffActions(offs), [start]);
    RunConcat(cfg, s, [end], OffActions(offs));
    RunOne(cfg, s, end);
    TraceEnds(cfg, s, end, start);
    var s1 := Step(cfg, s, end);
    RunOffs(cfg, s1, offs);
    var s2 := Run(cfg, s1, OffActions(offs));
    RunOne(cfg, s2, start);
    TraceStarts(cfg, s2, entry, end, start);
  }

  lemma {:induction false} TraceEnds(cfg: Config, s: State, end: Action, start: Action)
    requires ValidPause(end, start) && !s.crashed && s.noHwIntFromHead
    ensures Step(cfg, s, end) == s.(stack := s.stack + [end], cursor := Some(end))
  {
  }

  lemma {:induction false} TraceStarts(cfg: Config, s: State, entry: Action, end: Action, start: Action)
    requires ValidPause(end, start) && !s.crashed && s.noHwIntFromHead && s.stack == [entry] + [end]
    ensures Step(cfg, s, start) == s.(stack := [entry], schedChild := 0, cursor := Some(start))
  {
    assert Last(s.stack) == end && Pop(s.stack) == [entry];
  }

  lemma {:induction false} RunItem(cfg: Config, s: State, item: Item, entry: Action, charges: seq<Charge>,
                                   offTotal: nat, off: nat, cursor: Action, stat: Stat, now: nat)
    requires ValidItem(cfg, item) && Within(s, entry, charges, offTotal, off, cursor, stat)
    requires Fair(entry, charges, offTotal, off, cursor, now) && Paced(ItemActions(item), now)
    ensures var cs, off', cursor' := charges + ItemCharges(cfg, cursor, off, item), NextOff(cfg, cursor, off, item),
      NextCursor(cfg, cursor, off, item);
      && Within(Run(cfg, s, ItemActions(item)), entry, cs, offTotal + ItemOff(item), off', cursor',
           Counted(stat, ItemOffCount(item)))
      && Fair(entry, cs, offTotal + ItemOff(item), off', cursor', EndTime(ItemActions(item), now))
  {
    hide Run, Step, Tally, TotalTime, TotalOff, Within, Fair;
    assert charges + [] == charges;
    match item
    case Sleep(o) =>
      RunSleep(cfg, s, o, entry, charges, offTotal, off, cursor, stat, now);
    case Child(call, offs, ret) =>
      RunChild(cfg, s, item, entry, charges, offTotal, off, cursor, stat, now);
    case Jump(a) =>
      FairLater(entry, charges, offTotal, off, cursor, now, a.ts);
      RunJump(cfg, s, a, entry, charges, offTotal, off, cursor, stat);
      RunOne(cfg, s, a);
    case Pause(_, _, _) =>
      RunPause(cfg, s, item, entry, charges, offTotal, off, cursor, stat, now);
  }

  lemma {:induction false} FairLater(entry: Action, charges: seq<Charge>, offTotal: nat, off: nat, cursor: Action,
                                     now: nat, later: nat)
    requires Fair(entry, charges, offTotal, off, cursor, now) && now <= later < U64
    ensures Fair(entry, charges, offTotal, off, cursor, later)
  {
  }

  lemma {:induction false} RunItems(cfg: Config, s: State, items: seq<Item>, entry: Action, charges: seq<Charge>,
                                    offTotal: nat, off: nat, cursor: Action, stat: Stat, now: nat)
    requires (forall i :: 0 <= i < |items| ==> ValidItem(cfg, items[i]))
    requires Within(s, entry, charges, offTotal, off, cursor, stat)
    requires Fair(entry, charges, offTotal, off, cursor, now) && Paced(ItemsActions(items), now)
    ensures var cs, off', cursor' := charges + Charges(cfg, cursor, off, items), OffAfter(cfg, cursor, off, items),
      CursorAfter(cfg, cursor, off, items);
      && Within(Run(cfg, s, ItemsActions(items)), entry, cs, offTotal + ItemsOff(items), off', cursor',
           Counted(stat, OffCount(items)))
      && Fair(entry, cs, offTotal + ItemsOff(items), off', cursor', EndTime(ItemsActions(items), now))
    decreases |items|
  {
    hide Run, Step, Tally, TotalTime, TotalOff, Within, Fair, ItemCharges, NextOff, NextCursor, ItemActions, ItemOff,
        ItemOffCount, ValidItem;
    if items == [] {
      RunNothing(cfg, s);
      assert charges + [] == charges;
    } else {
      var item, rest := items[0], items[1..];
      var a, b := ItemActions(item), ItemsActions(rest);
      PacedConcat(a, b, now);
      RunConcat(cfg, s, a, b);
      RunItem(cfg, s, item, entry, charges, offTotal, off, cursor, stat, now);
      var cs, off1, cursor1 := ItemCharges(cfg, cursor, off, item), NextOff(cfg, cursor, off, item),
          NextCursor(cfg, cursor, off, item);
      RunItems(cfg, Run(cfg, s, a), rest, entry, charges + cs, offTotal + ItemOff(item), off1, cursor1,
          Counted(stat, ItemOffCount(item)), EndTime(a, now));
      assert charges + (cs + Charges(cfg, cursor1, off1, rest)) == charges + cs + Charges(cfg, cursor1, off1, rest);
    }
  }

  lemma RunNothing(cfg: Config, s: State)
    ensures Run(cfg, s, []) == s
  {
  }

  // ----- whole calls and traces

  /** The loop is between calls. */
  ghost predicate Idle(s: State, stat: Stat) {
    && s.stack == [] && s.child == NoChildren && s.schedSince.None?
    && s.noHwIntFromHead && s.stat == stat && !s.crashed
  }

  lemma {:induction false} RunEntry(cfg: Config, s: State, entry: Action, stat: Stat)
    requires Idle(s, stat) && !entry.isError && AtHead(entry) && entry.ts < U64
    ensures Within(Step(cfg, s, entry), entry, [], 0, 0, entry, stat)
    ensures Fair(entry, [], 0, 0, entry, entry.ts)
  {
  }

  lemma {:induction false} RunReturn(cfg: Config, s: State, call: Call, off: nat, cursor: Action, stat: Stat, now: nat)
    requires ValidCall(cfg, call) && now <= call.ret.ts < U64
    requires var cs := Charges(cfg, call.entry, 0, call.items);
      Within(s, call.entry, cs, ItemsOff(call.items), off, cursor, stat)
          && Fair(call.entry, cs, ItemsOff(call.items), off, cursor, now)
    ensures Idle(Step(cfg, s, call.ret), Account(cfg, stat, call))
  {
    hide Tally, TotalTime, TotalOff, Charges, ItemsOff, AddLatency, AddChildLatency, AddChild, ValidItem;
    var entry, cs, r := call.entry, Charges(cfg, call.entry, 0, call.items), Normalized(call.ret);
    TallyTotals(cs);
    MinusMod(call.ret.ts, entry.ts);
    assert Step(cfg, s, call.ret) == OnReturn(cfg, s, r).(cursor := Some(r));
  }

  /** From just after the entry to just after the return. */
  lemma {:induction false} RunBody(cfg: Config, s: State, call: Call, stat: Stat)
    requires ValidCall(cfg, call) && Within(s, call.entry, [], 0, 0, call.entry, stat)
    requires call.entry.ts < U64 && Paced(ItemsActions(call.items) + [call.ret], call.entry.ts)
    ensures Idle(Run(cfg, s, ItemsActions(call.items) + [call.ret]),
      Account(cfg, Counted(stat, OffCount(call.items)), call))
  {
    hide Run, Step, Within, Fair, Idle, Account, Charges, Normalized, ValidItem;
    var entry, ret, mid := call.entry, call.ret, ItemsActions(call.items);
    PacedConcat(mid, [ret], entry.ts);
    RunConcat(cfg, s, mid, [ret]);
    StartFair(entry);
    RunItems(cfg, s, call.items, entry, [], 0, 0, entry, stat, entry.ts);
    assert [] + Charges(cfg, entry, 0, call.items) == Charges(cfg, entry, 0, call.items);
    var s1 := Run(cfg, s, mid);
    RunOne(cfg, s1, ret);
    RunReturn(cfg, s1, call, OffAfter(cfg, entry, 0, call.items), CursorAfter(cfg, entry, 0, call.items),
              Counted(stat, OffCount(call.items)), EndTime(mid, entry.ts));
  }

  lemma {:induction false} StartFair(entry: Action)
    requires entry.ts < U64
    ensures Fair(entry, [], 0, 0, entry, entry.ts)
  {
  }

  lemma {:induction false} RunCall(cfg: Config, s: State, call: Call, stat: Stat, now: nat)
    requires ValidCall(cfg, call) && Idle(s, stat) && Paced(CallActions(call), now)
    ensures Idle(Run(cfg, s, CallActions(call)), Account(cfg, Counted(stat, OffCount(call.items)), call))
  {
    hide Run, Step, Within, Idle, Account, ItemsActions, ValidItem, Normalized;
    var entry, rest := call.entry, ItemsActions(call.items) + [call.ret];
    assert CallActions(call) == [entry] + rest;
    PacedConcat([entry], rest, now);
    RunConcat(cfg, s, [entry], rest);
    RunOne(cfg, s, entry);
    RunEntry(cfg, s, entry, stat);
    RunBody(cfg, Step(cfg, s, entry), call, stat);
  }

  lemma {:induction false} RunOutside(cfg: Config, s: State, o: Off, stat: Stat)
    requires ValidOff(o) && Idle(s, stat)
    ensures Idle(Run(cfg, s, [o.b, o.e]), Counted(stat, 1))
  {
    var s1 := Step(cfg, s, o.b);
    assert Run(cfg, s, [o.b, o.e]) == Run(cfg, s1, [o.e]);
    RunOne(cfg, s1, o.e);
  }

  lemma {:induction false} RunTrace(cfg: Config, s: State, trace: seq<Segment>, stat: Stat, now: nat)
    requires ValidTrace(cfg, trace) && Idle(s, stat) && Paced(TraceActions(trace), now)
    ensures Idle(Run(cfg, s, TraceActions(trace)), AccountAll(cfg, stat, trace))
    decreases |trace|
  {
    hide Run, Step, Idle, Account, ValidCall, ValidOff, CallActions, OffCount;
    if trace == [] {
      RunNothing(cfg, s);
    } else {
      var a := if trace[0].Outside? then [trace[0].off.b, trace[0].off.e] else CallActions(trace[0].call);
      PacedConcat(a, TraceActions(trace[1..]), now);
      RunConcat(cfg, s, a, TraceActions(trace[1..]));
      var stat1;
      if trace[0].Outside? {
        RunOutside(cfg, s, trace[0].off, stat);
        stat1 := Counted(stat, 1);
      } else {
        RunCall(cfg, s, trace[0].call, stat, now);
        stat1 := Account(cfg, Counted(stat, OffCount(trace[0].call.items)), trace[0].call);
      }
      RunTrace(cfg, Run(cfg, s, a), trace[1..], stat1, EndTime(a, now));
    }
  }

  /**
   * On every well-bracketed, time-ordered trace, in either mode, the event loop
   * records exactly what the call trees call for, and no assertion fails.
   */
  lemma {:induction false} AnalyzerMeetsSpec(cfg: Config, trace: seq<Segment>)
    requires ValidTrace(cfg, trace) && TimeOrdered(TraceActions(trace))
    ensures var s := Run(cfg, Init, TraceActions(trace)); !s.crashed && Finish(s) == AccountAll(cfg, NoStat, trace)
  {
    OrderedIsPaced(TraceActions(trace), 0);
    RunTrace(cfg, Init, trace, NoStat, 0);
  }

  /**
   * `do_analyze` as a loop over the thread's actions. If they are those of a
   * well-bracketed trace in time order, the result is what its call trees call for.
   */
  method Analyze(cfg: Config, actions: seq<Action>) returns (stat: Stat, crashed: bool)
    ensures stat == Finish(Run(cfg, Init, actions)) && crashed == Run(cfg, Init, actions).crashed
    ensures forall trace :: ValidTrace(cfg, trace) && TimeOrdered(actions) && TraceActions(trace) == actions ==>
      !crashed && stat == AccountAll(cfg, NoStat, trace)
  {
    hide Step, Finish, ValidTrace, TimeOrdered, TraceActions, AccountAll;
    var s := Init;
    for i := 0 to |actions|
      invariant Run(cfg, s, actions[i..]) == Run(cfg, Init, actions)
    {
      s := Step(cfg, s, actions[i]);
      assert actions[i..][1..] == actions[i + 1..];
    }
    stat, crashed := Finish(s), s.crashed;
    forall trace | ValidTrace(cfg, trace) && TimeOrdered(actions) && TraceActions(trace) == actions
      ensures !crashed && stat == AccountAll(cfg, NoStat, trace)
    {
      AnalyzerMeetsSpec(cfg, trace);
    }
  }
}
