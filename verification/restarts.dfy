/**
 * Calls that the event loop does not see end. An entry of the target is taken
 * for a new call, be it that an interrupt on the first instruction returns or
 * that a child calls the target again; an error of the trace breaks a call off,
 * and so does the end of the trace. What was charged until then becomes unknown.
 */
module Restarts {
  import opened Common
  import opened FuncStats
  import opened Analyzer
  import opened CallTree

  /** Where a call was when the loop lost it: in the target, or in a child. */
  datatype Place = InTarget | InChildOf(call: Action, offs: seq<Off>)

  /** A call as far as the loop followed it. */
  datatype Lost = Lost(entry: Action, items: seq<Item>, place: Place)

  /** A call of the target with the calls that were lost before. */
  datatype Attempts = Attempts(lost: seq<Lost>, call: Call)

  /** The target is left and not resumed. */
  function Gone(call: Action, offs: seq<Off>): seq<Action> {
    [call] + OffActions(offs)
  }

  function PlaceActions(p: Place): seq<Action> {
    if p.InTarget? then [] else Gone(p.call, p.offs)
  }

  /** What follows the entry of a lost call. */
  function LostRest(l: Lost): seq<Action> {
    ItemsActions(l.items) + PlaceActions(l.place)
  }

  function LostActions(l: Lost): seq<Action> {
    [l.entry] + LostRest(l)
  }

  function AllLost(ls: seq<Lost>): seq<Action> {
    if ls == [] then [] else LostActions(ls[0]) + AllLost(ls[1..])
  }

  function AttemptActions(a: Attempts): seq<Action> {
    AllLost(a.lost) + CallActions(a.call)
  }

  /** It is not lost during an interrupt on the first instruction. */
  predicate ValidPlace(p: Place) {
    p.InChildOf? ==> Leaves(p.call) && !HeadInterrupt(p.call) && ValidOffs(p.offs)
  }

  predicate ValidLost(cfg: Config, l: Lost) {
    && !l.entry.isError && AtHead(l.entry)
    && (forall i :: 0 <= i < |l.items| ==> ValidItem(cfg, l.items[i]))
    && ValidPlace(l.place)
  }

  predicate ValidAttempts(cfg: Config, a: Attempts) {
    (forall i :: 0 <= i < |a.lost| ==> ValidLost(cfg, a.lost[i])) && ValidCall(cfg, a.call)
  }

  // ----- what is recorded

  function LostCharges(cfg: Config, l: Lost): seq<Charge> {
    var cs := Charges(cfg, l.entry, 0, l.items);
    if l.place.InTarget? then cs
    else cs + Block(cfg, CursorAfter(cfg, l.entry, 0, l.items), OffAfter(cfg, l.entry, 0, l.items), l.place.call)
  }

  function LostOffs(l: Lost): nat {
    OffCount(l.items) + if l.place.InTarget? then 0 else |l.place.offs|
  }

  /** Its charges, and the child that did not come back. */
  function LostChildren(cfg: Config, l: Lost): Children {
    var c := Tally(LostCharges(cfg, l));
    if l.place.InTarget? then c else AddChild(c, UNKNOWN_LATENCY + ChildName(cfg, l.place.call, false), 0, 0)
  }

  predicate NothingCharged(cfg: Config, l: Lost) {
    l.place.InTarget? && LostCharges(cfg, l) == []
  }

  function UnknownCaller(cfg: Config, entry: Action): string {
    if cfg.opt.callLine && !cfg.opt.ipFiltering then WithAddr(entry.from.name, entry.from.addr) else entry.from.name
  }

  /** What a lost call was charged with counts as unknown, for its own caller. */
  function AccountLost(cfg: Config, stat: Stat, l: Lost): Stat {
    var stat1 := Counted(stat, LostOffs(l));
    if NothingCharged(cfg, l) then stat1 else AddUnknown(stat1, LostChildren(cfg, l), UnknownCaller(cfg, l.entry))
  }

  function AccountLosts(cfg: Config, stat: Stat, ls: seq<Lost>): Stat
    decreases |ls|
  {
    if ls == [] then stat else AccountLosts(cfg, AccountLost(cfg, stat, ls[0]), ls[1..])
  }

  function AccountAttempts(cfg: Config, stat: Stat, a: Attempts): Stat {
    Account(cfg, Counted(AccountLosts(cfg, stat, a.lost), OffCount(a.call.items)), a.call)
  }

  // ----- the loop on a lost call

  /** The loop has just been through `entry`. */
  ghost predicate Entered(s: State, entry: Action, stat: Stat) {
    Within(s, entry, [], 0, 0, entry, stat)
  }

  /** The charges take no more time than has passed. */
  predicate Bounded(charges: seq<Charge>, now: nat) {
    TotalTime(charges) <= now && TotalOff(charges) <= now
  }

  lemma {:induction false} FairBounded(entry: Action, charges: seq<Charge>, offTotal: nat, off: nat, cursor: Action,
                                       now: nat)
    requires Fair(entry, charges, offTotal, off, cursor, now)
    ensures Bounded(charges, now)
  {
  }

  lemma {:induction false} LeaveValid(call: Action)
    requires Leaves(call)
    ensures exists ret :: ValidChild(call, ret)
  {
    var ret := call.(kind := RETURN, fromTarget := false, toTarget := true, to := Symbol("", 1, 1));
    assert ValidChild(call, ret);
  }

  /** Leaving the target for the last time. */
  lemma {:induction false} RunLeave(cfg: Config, s: State, entry: Action, call: Action, offs: seq<Off>,
                                    charges: seq<Charge>, offTotal: nat, off: nat, cursor: Action, stat: Stat, now: nat)
    requires Leaves(call) && ValidOffs(offs) && Within(s, entry, charges, offTotal, off, cursor, stat)
    requires Fair(entry, charges, offTotal, off, cursor, now) && Paced(Gone(call, offs), now)
    ensures var m := MeasuredAll(offs);
      InChild(Run(cfg, s, Gone(call, offs)), entry, call, charges + Block(cfg, cursor, off, call), offTotal + m, m,
          Counted(stat, |offs|))
    ensures Bounded(charges + Block(cfg, cursor, off, call), EndTime(Gone(call, offs), now))
  {
    hide Run, Step, Tally, TotalTime, TotalOff, Block, OffActions, MeasuredAll, ValidChild, ValidOff, ValidItem, Leaves;
    LeaveValid(call);
    var ret :| ValidChild(call, ret);
    PacedConcat([call], OffActions(offs), now);
    OffsFit(offs, call.ts);
    RunConcat(cfg, s, [call], OffActions(offs));
    RunOne(cfg, s, call);
    FairLater(entry, charges, offTotal, off, cursor, now, call.ts);
    RunChildCall(cfg, s, call, ret, entry, charges, offTotal, off, cursor, stat);
    RunEndTime(OffActions(offs), call.ts);
    RunOffs(cfg, Step(cfg, s, call), offs);
  }

  lemma {:induction false} RunEndTime(actions: seq<Action>, now: nat)
    requires Paced(actions, now) && now < U64
    ensures EndTime(actions, now) < U64
    decreases |actions|
  {
    if actions != [] {
      RunEndTime(actions[1..], actions[0].ts);
    }
  }

  /** The loop has been through a lost call, up to where it was lost. */
  ghost predicate Following(cfg: Config, s: State, l: Lost, stat: Stat) {
    && s.stack == [l.entry] + (if l.place.InTarget? then [] else [Normalized(l.place.call)])
    && s.child == Tally(LostCharges(cfg, l)) && s.schedSince.None? && s.targetBegin == Some(l.entry)
    && !s.prevTargetError
    && !s.wrongChain && s.noHwIntFromHead && s.stat == stat && !s.crashed
  }

  lemma {:induction false} RunRest(cfg: Config, s: State, l: Lost, stat: Stat)
    requires ValidLost(cfg, l) && Entered(s, l.entry, stat) && l.entry.ts < U64 && Paced(LostRest(l), l.entry.ts)
    ensures Following(cfg, Run(cfg, s, LostRest(l)), l, Counted(stat, LostOffs(l)))
    ensures Bounded(LostCharges(cfg, l), EndTime(LostRest(l), l.entry.ts))
  {
    hide Run, Step, Fair, Charges, Block, ItemsActions, Gone, OffCount, ValidItem, CursorAfter, OffAfter, ItemsOff,
        MeasuredAll, Paced, EndTime, ValidOffs, AtHead, Leaves, Tally, HeadInterrupt;
    var mid, end, now := ItemsActions(l.items), PlaceActions(l.place), l.entry.ts;
    PacedConcat(mid, end, now);
    RunConcat(cfg, s, mid, end);
    StartFair(l.entry);
    RunItems(cfg, s, l.items, l.entry, [], 0, 0, l.entry, stat, now);
    var cs, off, cursor := Charges(cfg, l.entry, 0, l.items), OffAfter(cfg, l.entry, 0, l.items),
        CursorAfter(cfg, l.entry, 0, l.items);
    assert [] + cs == cs;
    var s1 := Run(cfg, s, mid);
    if l.place.InTarget? {
      RunNothing(cfg, s1);
      assert mid + [] == mid;
      FairBounded(l.entry, cs, ItemsOff(l.items), off, cursor, EndTime(mid, now));
    } else {
      RunLeave(cfg, s1, l.entry, l.place.call, l.place.offs, cs, ItemsOff(l.items), off, cursor,
          Counted(stat, OffCount(l.items)), EndTime(mid, now));
    }
  }

  /** Entering the target in the middle of a call: all that was charged is given up. */
  lemma {:induction false} RunRestart(cfg: Config, s: State, l: Lost, next: Action, stat: Stat)
    requires Following(cfg, s, l, Counted(stat, LostOffs(l))) && !next.isError && AtHead(next)
    ensures Entered(Step(cfg, s, next), next, AccountLost(cfg, stat, l))
  {
    hide AddUnknown, ChildName, WithAddr, Tally, AddChild, IsEmpty, LostCharges, Normalized;
    TallyNothing();
    if l.place.InTarget? {
      TallyEmptyIff(LostCharges(cfg, l));
    } else {
      NameNormalized(cfg, l.place.call, false);
      NotEmpty(Tally(LostCharges(cfg, l)), UNKNOWN_LATENCY + ChildName(cfg, l.place.call, false));
    }
  }

  lemma {:induction false} NotEmpty(c: Children, name: string)
    ensures !IsEmpty(AddChild(c, name, 0, 0))
  {
    assert name in AddChild(c, name, 0, 0).target;
  }

  lemma {:induction false} TallyNothing()
    ensures Tally([]) == NoChildren
  {
  }

  /** A lost call, up to the entry that follows it. */
  lemma {:induction false} RunLost(cfg: Config, s: State, l: Lost, next: Action, stat: Stat)
    requires ValidLost(cfg, l) && Entered(s, l.entry, stat) && !next.isError && AtHead(next)
    requires l.entry.ts < U64 && Paced(LostRest(l), l.entry.ts)
    ensures Entered(Run(cfg, s, LostRest(l) + [next]), next, AccountLost(cfg, stat, l))
  {
    hide Run, Step, Entered, Following, LostRest, ValidLost, AccountLost, Paced, AtHead;
    RunConcat(cfg, s, LostRest(l), [next]);
    RunRest(cfg, s, l, stat);
    var s1 := Run(cfg, s, LostRest(l));
    RunOne(cfg, s1, next);
    RunRestart(cfg, s1, l, next, stat);
  }

  /** Every lost call, from one entry to the next. */
  lemma {:induction false} RunLosts(cfg: Config, s: State, ls: seq<Lost>, last: Action, stat: Stat, now: nat)
    requires (forall i :: 0 <= i < |ls| ==> ValidLost(cfg, ls[i])) && !last.isError && AtHead(last)
    requires Entered(s, if ls == [] then last else ls[0].entry, stat) && Paced(AllLost(ls) + [last], now)
    ensures Entered(Run(cfg, s, (AllLost(ls) + [last])[1..]), last, AccountLosts(cfg, stat, ls))
    decreases |ls|
  {
    hide Run, Entered, LostActions, ValidLost, AccountLost;
    if ls == [] {
      RunNothing(cfg, s);
      assert (AllLost(ls) + [last])[1..] == [];
    } else {
      var l, rest := ls[0], ls[1..];
      var next := if rest == [] then last else rest[0].entry;
      var tail := AllLost(rest) + [last];
      LostStep(l);
      NextStep(rest, last);
      var mid := LostActions(l)[1..];
      assert AllLost(ls) + [last] == LostActions(l) + tail;
      assert (AllLost(ls) + [last])[1..] == (mid + [next]) + tail[1..];
      PacedConcat(LostActions(l), tail, now);
      LostPaced(l, now);
      if rest != [] { ValidEntry(cfg, rest[0]); }
      RunLost(cfg, s, l, next, stat);
      RunConcat(cfg, s, mid + [next], tail[1..]);
      RunLosts(cfg, Run(cfg, s, mid + [next]), rest, last, AccountLost(cfg, stat, l), EndTime(LostActions(l), now));
    }
  }

  lemma {:induction false} ValidEntry(cfg: Config, l: Lost)
    requires ValidLost(cfg, l)
    ensures !l.entry.isError && AtHead(l.entry)
  {
  }

  lemma {:induction false} LostStep(l: Lost)
    ensures LostActions(l) != [] && LostActions(l)[0] == l.entry && LostActions(l)[1..] == LostRest(l)
  {
  }

  lemma {:induction false} NextStep(ls: seq<Lost>, last: Action)
    ensures var tail := AllLost(ls) + [last]; tail != [] && tail[0] == if ls == [] then last else ls[0].entry
  {
  }

  lemma {:induction false} LostPaced(l: Lost, now: nat)
    requires Paced(LostActions(l), now)
    ensures l.entry.ts < U64 && Paced(LostRest(l), l.entry.ts)
  {
    LostStep(l);
    PacedConcat([l.entry], LostRest(l), now);
  }

  lemma {:induction false} RunToLast(cfg: Config, s: State, ls: seq<Lost>, last: Action, stat: Stat, now: nat)
    requires (forall i :: 0 <= i < |ls| ==> ValidLost(cfg, ls[i])) && !last.isError && AtHead(last)
    requires Idle(s, stat) && Paced(AllLost(ls) + [last], now)
    ensures Entered(Run(cfg, s, AllLost(ls) + [last]), last, AccountLosts(cfg, stat, ls))
  {
    hide Run, Step, Entered, Idle, AllLost, AccountLosts, ValidLost, AtHead, Paced;
    var all := AllLost(ls) + [last];
    NextStep(ls, last);
    var first := all[0];
    FirstPaced(all, now);
    if ls != [] { ValidEntry(cfg, ls[0]); }
    EnterFrom(cfg, s, first, stat);
    assert all == [first] + all[1..];
    RunConcat(cfg, s, [first], all[1..]);
    RunOne(cfg, s, first);
    RunLosts(cfg, Step(cfg, s, first), ls, last, stat, now);
  }

  lemma {:induction false} EnterFrom(cfg: Config, s: State, entry: Action, stat: Stat)
    requires Idle(s, stat) && !entry.isError && AtHead(entry) && entry.ts < U64
    ensures Entered(Step(cfg, s, entry), entry, stat)
  {
    RunEntry(cfg, s, entry, stat);
  }

  /** From between calls to between calls: the lost calls count as unknown, the last one as the call. */
  lemma {:induction false} RunAttempts(cfg: Config, s: State, a: Attempts, stat: Stat, now: nat)
    requires ValidAttempts(cfg, a) && Idle(s, stat) && Paced(AttemptActions(a), now)
    ensures Idle(Run(cfg, s, AttemptActions(a)), AccountAttempts(cfg, stat, a))
  {
    hide Run, Within, Idle, Account, Normalized, ValidItem, ValidLost, AllLost, AccountLosts, ItemsActions, Paced,
        OffCount;
    var entry, rest := a.call.entry, ItemsActions(a.call.items) + [a.call.ret];
    var ls := AllLost(a.lost) + [entry];
    assert AttemptActions(a) == ls + rest;
    PacedConcat(ls, rest, now);
    LastPaced(AllLost(a.lost), entry, now);
    RunConcat(cfg, s, ls, rest);
    RunToLast(cfg, s, a.lost, entry, stat, now);
    RunBody(cfg, Run(cfg, s, ls), a.call, AccountLosts(cfg, stat, a.lost));
  }

  lemma {:induction false} FirstPaced(actions: seq<Action>, now: nat)
    requires actions != [] && Paced(actions, now)
    ensures actions[0].ts < U64
  {
  }

  lemma {:induction false} LastPaced(a: seq<Action>, last: Action, now: nat)
    requires Paced(a + [last], now)
    ensures EndTime(a + [last], now) == last.ts < U64
  {
    PacedConcat(a, [last], now);
  }

  // ----- calls that break off

  /** A call that breaks off, with the calls that were lost before. */
  datatype Tear = Tear(lost: seq<Lost>, last: Lost)

  function TearActions(t: Tear): seq<Action> {
    AllLost(t.lost) + [t.last.entry] + LostRest(t.last)
  }

  predicate ValidTear(cfg: Config, t: Tear) {
    (forall i :: 0 <= i < |t.lost| ==> ValidLost(cfg, t.lost[i])) && ValidLost(cfg, t.last)
  }

  function Before(cfg: Config, stat: Stat, t: Tear): Stat {
    Counted(AccountLosts(cfg, stat, t.lost), LostOffs(t.last))
  }

  /** Its charges are filed for a caller called `unknown`. */
  function AccountTear(cfg: Config, stat: Stat, t: Tear): Stat {
    AddUnknown(Before(cfg, stat, t), Tally(LostCharges(cfg, t.last)), "unknown")
  }

  /** The loop has made `charges` that are not filed yet. */
  ghost predicate Busy(s: State, charges: seq<Charge>, stat: Stat) {
    s.child == Tally(charges) && s.noHwIntFromHead && s.stat == stat && !s.crashed
  }

  lemma {:induction false} RunTear(cfg: Config, s: State, t: Tear, stat: Stat, now: nat)
    requires ValidTear(cfg, t) && Idle(s, stat) && Paced(TearActions(t), now)
    ensures Following(cfg, Run(cfg, s, TearActions(t)), t.last, Before(cfg, stat, t))
    ensures Bounded(LostCharges(cfg, t.last), EndTime(TearActions(t), now))
  {
    hide Run, Entered, Idle, ValidItem, AllLost, AccountLosts, LostRest, Paced, Following, ValidPlace;
    var ls, rest := AllLost(t.lost) + [t.last.entry], LostRest(t.last);
    PacedConcat(ls, rest, now);
    LastPaced(AllLost(t.lost), t.last.entry, now);
    RunConcat(cfg, s, ls, rest);
    RunToLast(cfg, s, t.lost, t.last.entry, stat, now);
    RunRest(cfg, Run(cfg, s, ls), t.last, AccountLosts(cfg, stat, t.lost));
  }

  /** An error gives up all that was charged, and the loop is between calls again. */
  lemma {:induction false} RunError(cfg: Config, s: State, err: Action, charges: seq<Charge>, stat: Stat)
    requires Busy(s, charges, stat) && err.isError
    ensures Idle(Step(cfg, s, err), AddUnknown(stat, Tally(charges), "unknown"))
  {
    hide AddUnknown, Tally;
  }

  /** The same for any state the loop can be in: only an interrupt on the first instruction stays pending. */
  lemma {:induction false} ErrorResets(cfg: Config, s: State, err: Action)
    requires !s.crashed && err.isError
    ensures Idle(Step(cfg, s, err), AddUnknown(s.stat, s.child, "unknown")) <==> s.noHwIntFromHead
  {
    hide AddUnknown;
  }

  // ----- whole traces

  /** A thread's trace: off-CPU intervals elsewhere, calls with those lost before, and errors between and in calls. */
  datatype Stretch =
    | Away(off: Off)
    | Called(attempts: Attempts)
    | Fault(err: Action)
    | Torn(tear: Tear, err: Action)

  function StretchActions(t: Stretch): seq<Action> {
    match t
    case Away(off) => [off.b, off.e]
    case Called(attempts) => AttemptActions(attempts)
    case Fault(err) => [err]
    case Torn(tear, err) => TearActions(tear) + [err]
  }

  function AllActions(ts: seq<Stretch>): seq<Action> {
    if ts == [] then [] else StretchActions(ts[0]) + AllActions(ts[1..])
  }

  predicate ValidStretch(cfg: Config, t: Stretch) {
    match t
    case Away(off) => ValidOff(off)
    case Called(attempts) => ValidAttempts(cfg, attempts)
    case Fault(err) => err.isError
    case Torn(tear, err) => ValidTear(cfg, tear) && err.isError
  }

  function AccountStretch(cfg: Config, stat: Stat, t: Stretch): Stat {
    match t
    case Away(_) => Counted(stat, 1)
    case Called(attempts) => AccountAttempts(cfg, stat, attempts)
    case Fault(_) => AddUnknown(stat, NoChildren, "unknown")
    case Torn(tear, _) => AccountTear(cfg, stat, tear)
  }

  function AccountStretches(cfg: Config, stat: Stat, ts: seq<Stretch>): Stat
    decreases |ts|
  {
    if ts == [] then stat else AccountStretches(cfg, AccountStretch(cfg, stat, ts[0]), ts[1..])
  }

  lemma {:induction false} RunStretch(cfg: Config, s: State, t: Stretch, stat: Stat, now: nat)
    requires ValidStretch(cfg, t) && Idle(s, stat) && Paced(StretchActions(t), now)
    ensures Idle(Run(cfg, s, StretchActions(t)), AccountStretch(cfg, stat, t))
  {
    hide Run, Step, AccountAttempts, AttemptActions, ValidAttempts, ValidOff, Paced, TearActions, ValidTear,
        LostCharges,
        Before, AddUnknown, Tally, Normalized;
    match t
    case Away(off) => RunOutside(cfg, s, off, stat);
    case Called(attempts) => RunAttempts(cfg, s, attempts, stat, now);
    case Fault(err) =>
      TallyNothing();
      RunOne(cfg, s, err);
      RunError(cfg, s, err, [], stat);
    case Torn(tear, err) =>
      PacedConcat(TearActions(tear), [err], now);
      RunConcat(cfg, s, TearActions(tear), [err]);
      RunTear(cfg, s, tear, stat, now);
      var s1 := Run(cfg, s, TearActions(tear));
      RunOne(cfg, s1, err);
      RunError(cfg, s1, err, LostCharges(cfg, tear.last), Before(cfg, stat, tear));
  }

  lemma {:induction false} RunStretches(cfg: Config, s: State, ts: seq<Stretch>, stat: Stat, now: nat)
    requires (forall i :: 0 <= i < |ts| ==> ValidStretch(cfg, ts[i])) && Idle(s, stat) && Paced(AllActions(ts), now)
    ensures Idle(Run(cfg, s, AllActions(ts)), AccountStretches(cfg, stat, ts))
    decreases |ts|
  {
    hide Run, Idle, AccountStretch, StretchActions, ValidStretch, Paced;
    if ts == [] {
      RunNothing(cfg, s);
    } else {
      var a := StretchActions(ts[0]);
      PacedConcat(a, AllActions(ts[1..]), now);
      RunConcat(cfg, s, a, AllActions(ts[1..]));
      RunStretch(cfg, s, ts[0], stat, now);
      RunStretches(cfg, Run(cfg, s, a), ts[1..], AccountStretch(cfg, stat, ts[0]), EndTime(a, now));
    }
  }

  /** With lost calls and errors as well, the loop records exactly what is specified, and no assertion fails. */
  lemma {:induction false} LoopMeetsSpec(cfg: Config, ts: seq<Stretch>)
    requires (forall i :: 0 <= i < |ts| ==> ValidStretch(cfg, ts[i])) && TimeOrdered(AllActions(ts))
    ensures var s := Run(cfg, Init, AllActions(ts)); !s.crashed && Finish(s) == AccountStretches(cfg, NoStat, ts)
  {
    hide Run, AllActions, AccountStretches, ValidStretch;
    OrderedIsPaced(AllActions(ts), 0);
    RunStretches(cfg, Init, ts, NoStat, 0);
  }

  /** If the trace ends in a call, what that was charged with is filed in the same way as at an error. */
  lemma {:induction false} TraceEndsInCall(cfg: Config, ts: seq<Stretch>, t: Tear)
    requires (forall i :: 0 <= i < |ts| ==> ValidStretch(cfg, ts[i])) && ValidTear(cfg, t)
    requires TimeOrdered(AllActions(ts) + TearActions(t))
    ensures var s, stat := Run(cfg, Init, AllActions(ts) + TearActions(t)), AccountStretches(cfg, NoStat, ts);
      !s.crashed && Finish(s) == if LostCharges(cfg, t.last) == [] then Before(cfg, stat, t)
        else AccountTear(cfg, stat, t)
  {
    hide Run, AllActions, AccountStretches, ValidStretch, TearActions, LostCharges, Before, ValidTear, AddUnknown,
        Tally, Finish, Idle, TimeOrdered, Paced, Normalized;
    StartIdle();
    var a, b := AllActions(ts), TearActions(t);
    var stat := AccountStretches(cfg, NoStat, ts);
    OrderedIsPaced(a + b, 0);
    PacedConcat(a, b, 0);
    RunConcat(cfg, Init, a, b);
    RunStretches(cfg, Init, ts, NoStat, 0);
    RunTear(cfg, Run(cfg, Init, a), t, stat, EndTime(a, 0));
    FinishBusy(Run(cfg, Init, a + b), LostCharges(cfg, t.last), Before(cfg, stat, t));
  }

  lemma {:induction false} StartIdle()
    ensures Idle(Init, NoStat)
  {
  }

  lemma {:induction false} FinishBusy(s: State, charges: seq<Charge>, stat: Stat)
    requires Busy(s, charges, stat)
    ensures !s.crashed && Finish(s) == if charges == [] then stat else AddUnknown(stat, Tally(charges), "unknown")
  {
    hide AddUnknown, Tally, IsEmpty;
    TallyEmptyIff(charges);
  }

  lemma {:induction false} TallyEmptyIff(cs: seq<Charge>)
    ensures IsEmpty(Tally(cs)) <==> cs == []
  {
    if cs != [] {
      var c := cs[|cs| - 1];
      assert c.name in Tally(cs).target;
    }
  }

  // ----- time missed because of errors

  /** Whether an interrupt on the first instruction of the target is pending after a record. */
  function Pending(pending: bool, a: Action): bool {
    if a.isError || (AtHead(a) && !pending) || a.schedBegin || a.schedEnd then pending
    else if a.kind in {JMP, JCC} && a.fromTarget && a.toTarget then pending
    else a.kind == HW_INT && a.fromTarget && a.from.offset == 0
  }

  /**
   * After an error, the time from the last entry of the target before it to the
   * next one after it; `begin` is the last entry so far.
   */
  function Missed(actions: seq<Action>, begin: Maybe<nat>, failed: bool, pending: bool): int
    decreases |actions|
  {
    if actions == [] then 0
    else
      var a, rest, p := actions[0], actions[1..], Pending(pending, actions[0]);
      if a.isError then Missed(rest, begin, true, p)
      else if AtHead(a) && !pending then
        (if failed && begin.Some? then a.ts - begin.value else 0) + Missed(rest, Some(a.ts), false, p)
      else Missed(rest, begin, failed, p)
  }

  /** What the loop keeps of this. */
  ghost predicate Keeps(s: State, begin: Maybe<nat>, failed: bool, pending: bool) {
    && s.prevTargetError == failed && s.noHwIntFromHead == !pending
    && begin == if s.targetBegin.None? then None else Some(s.targetBegin.value.ts)
  }

  /** Only an entry and an error change what is kept. */
  ghost predicate SameKept(s: State, s': State) {
    s'.prevTargetError == s.prevTargetError && s'.targetBegin == s.targetBegin && s'.miss == s.miss
  }

  lemma {:induction false} BlockKeeps(s: State, a: Action)
    ensures var s' := AddCodeBlock(s, a); SameKept(s, s') && s'.noHwIntFromHead == s.noHwIntFromHead
  {
    hide AddChild, BlockName, Sub64;
  }

  lemma {:induction false} MarksKeep(s: State, a: Action)
    ensures SameKept(s, OnSchedEnd(s, a)) && OnSchedEnd(s, a).noHwIntFromHead == s.noHwIntFromHead
    ensures SameKept(s.(prevTargetError := true), OnError(s)) && OnError(s).noHwIntFromHead == s.noHwIntFromHead
  {
    hide AddUnknown, Sub64, Add64;
  }

  lemma {:induction false} HeadKept(a: Action)
    ensures var b := Normalized(a);
      (b.kind == HW_INT <==> a.kind == HW_INT) && b.fromTarget == a.fromTarget && b.from == a.from
  {
  }

  lemma {:induction false} StartKeeps(cfg: Config, s: State, a: Action)
    ensures var s' := OnTraceStart(cfg, s, a); SameKept(s, s') && s'.noHwIntFromHead == s.noHwIntFromHead
  {
    hide AddChild, ChildName, Sub64;
  }

  lemma {:induction false} CallKeeps(cfg: Config, s: State, a: Action)
    ensures var s' := OnCall(cfg, s, a); SameKept(s, s') && s'.noHwIntFromHead == s.noHwIntFromHead
  {
    hide AddCodeBlock;
    BlockKeeps(s, a);
  }

  lemma {:induction false} ReturnKeeps(cfg: Config, s: State, a: Action)
    ensures var s' := OnReturn(cfg, s, a); SameKept(s, s') && s'.noHwIntFromHead == s.noHwIntFromHead
  {
    hide AddCall, AddChild, ChildName, CallerName, Sub64;
  }

  lemma {:induction false} BranchKeeps(cfg: Config, s: State, a: Action)
    ensures var s' := OnBranch(cfg, s, a); SameKept(s, s') && s'.noHwIntFromHead == s.noHwIntFromHead
  {
    hide OnTraceStart, OnCall, OnReturn;
    StartKeeps(cfg, s, a); CallKeeps(cfg, s, a); ReturnKeeps(cfg, s, a);
  }

  lemma {:induction false} EntryKeeps(cfg: Config, s: State, a: Action)
    ensures var s' := OnEntry(cfg, s, a);
      && !s'.prevTargetError && s'.targetBegin == Some(a) && s'.noHwIntFromHead == s.noHwIntFromHead
      && s'.miss == if s.prevTargetError && s.targetBegin.Some? then Add64(s.miss, Sub64(a.ts, s.targetBegin.value.ts))
                    else s.miss
  {
    hide AddUnknown, AddChild, ChildName, IsEmpty, WithAddr, Sub64, Add64;
  }

  lemma {:induction false} StepKeeps(cfg: Config, s: State, a: Action, begin: Maybe<nat>, failed: bool, pending: bool)
    requires Keeps(s, begin, failed, pending) && !s.crashed && !Step(cfg, s, a).crashed
    ensures var s', p := Step(cfg, s, a), Pending(pending, a); var entry := !a.isError && AtHead(a) && !pending;
      && Keeps(s', if entry then Some(a.ts) else begin, a.isError || (failed && !entry), p)
      && s'.miss == if entry && failed && begin.Some? then Add64(s.miss, Sub64(a.ts, begin.value)) else s.miss
  {
    hide AddUnknown, Sub64, Add64, OnBranch, OnEntry, AddCodeBlock, Normalized, OnSchedEnd, OnError;
    EntryKeeps(cfg, s, a);
    BlockKeeps(s, a);
    MarksKeep(s, a);
    HeadKept(a);
    var b := Normalized(a);
    BranchKeeps(cfg, s.(noHwIntFromHead := !(b.kind == HW_INT && b.fromTarget && b.from.offset == 0)), b);
  }

  lemma {:induction false} Cut(miss: int, d: int, rest: int)
    ensures ((miss + d % U64) % U64 + rest) % U64 == (miss + d + rest) % U64
  {
    var q, r := d / U64, (miss + d % U64) / U64;
    assert d == q * U64 + d % U64 && miss + d % U64 == r * U64 + (miss + d % U64) % U64;
    assert miss + d + rest == ((miss + d % U64) % U64 + rest) + (r + q) * U64;
    Whole((miss + d % U64) % U64 + rest, r + q);
  }

  lemma {:induction false} Whole(x: int, k: int)
    ensures (x + k * U64) % U64 == x % U64
  {
  }

  lemma {:induction false} RunMisses(cfg: Config, s: State, actions: seq<Action>, begin: Maybe<nat>, failed: bool,
                                     pending: bool)
    requires Keeps(s, begin, failed, pending) && !Run(cfg, s, actions).crashed && s.miss < U64
    ensures Run(cfg, s, actions).miss == (s.miss + Missed(actions, begin, failed, pending)) % U64
    decreases |actions|
  {
    hide Step, Keeps, Pending;
    if actions != [] {
      var a, rest := actions[0], actions[1..];
      var s' := Step(cfg, s, a);
      if s.crashed { CrashStays(cfg, s, actions); }
      if s'.crashed { CrashStays(cfg, s', rest); }
      StepKeeps(cfg, s, a, begin, failed, pending);
      var entry := !a.isError && AtHead(a) && !pending;
      var begin', failed', p := if entry then Some(a.ts)
          else begin, a.isError || (failed && !entry), Pending(pending, a);
      RunMisses(cfg, s', rest, begin', failed', p);
      if entry && failed && begin.Some? {
        Cut(s.miss, a.ts - begin.value, Missed(rest, begin', failed', p));
      }
    }
  }

  lemma {:induction false} CrashStays(cfg: Config, s: State, actions: seq<Action>)
    requires s.crashed
    ensures Run(cfg, s, actions).crashed
    decreases |actions|
  {
    if actions != [] {
      CrashStays(cfg, s, actions[1..]);
    }
  }

  /** For any records at all: the time missed is that between entries of the target with an error in between. */
  lemma {:induction false} MissedTime(cfg: Config, actions: seq<Action>)
    requires !Run(cfg, Init, actions).crashed
    ensures Run(cfg, Init, actions).miss == Missed(actions, None, false, false) % U64
  {
    hide Run;
    RunMisses(cfg, Init, actions, None, false, false);
  }
}
