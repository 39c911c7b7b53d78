/**
 * Calls of which the event loop sees only parts. The end of a call without its
 * beginning is what is left when the trace starts inside the target, when an
 * error falls into a call, when a child called the target again, and when the
 * trace ends in a system call and starts again: the loop takes that start for
 * the return from nowhere. Nothing of such a call is recorded as a latency; its
 * children are filed for a caller called `unknown`, later.
 */
module Fragments {
  import opened Common
  import opened FuncStats
  import opened Analyzer
  import opened CallTree
  import opened Restarts

  /** The rest of a call: perhaps a return into the target, what happens there, perhaps the return from it. */
  datatype Remainder = Remainder(back: Maybe<Action>, items: seq<Item>, ret: Maybe<Action>)

  /** A thread's trace, of whole calls and parts of calls. */
  datatype Piece =
    | Whole(stretch: Stretch)
    | Rest(rest: Remainder)
    | Strayed(tear: Tear, rest: Remainder)  // left for a child, and resumed by a start that does not match

  function One(a: Maybe<Action>): seq<Action> {
    if a.None? then [] else [a.value]
  }

  function RestTail(r: Remainder): seq<Action> {
    ItemsActions(r.items) + One(r.ret)
  }

  function RestActions(r: Remainder): seq<Action> {
    One(r.back) + RestTail(r)
  }

  function PieceActions(p: Piece): seq<Action> {
    match p
    case Whole(t) => StretchActions(t)
    case Rest(r) => RestActions(r)
    case Strayed(tear, r) => TearActions(tear) + RestActions(r)
  }

  function PiecesActions(ps: seq<Piece>): seq<Action> {
    if ps == [] then [] else PieceActions(ps[0]) + PiecesActions(ps[1..])
  }

  /** The record resumes the target, behind its first instruction. */
  predicate Resumes(a: Action) {
    Quiet(a) && a.toTarget && !a.fromTarget && !AtHead(a) && a.kind in {RETURN, IRET, JMP, JCC, TR_START, TR_END_RETURN}
  }

  predicate Returns(a: Action) {
    Quiet(a) && a.fromTarget && !a.toTarget && LeavesTarget(a)
  }

  /** With code blocks the rest begins with a record; otherwise with one or ends with one. */
  predicate ValidRest(cfg: Config, r: Remainder) {
    && (forall i :: 0 <= i < |r.items| ==> ValidItem(cfg, r.items[i]))
    && (r.back.Some? ==> Resumes(r.back.value)) && (r.ret.Some? ==> Returns(r.ret.value))
    && (r.back.None? ==> !cfg.opt.codeBlock && r.ret.Some?)
  }

  /**
   * A start of the trace matches neither a call nor an interrupt in the trace
   * nor an end of it in a system call; a return that ends the trace matches nothing.
   */
  predicate Mismatch(call: Action, back: Action) {
    back.kind == TR_END_RETURN || (back.kind == TR_START && call.kind !in {TR_END_CALL, TR_END_HW_INT})
  }

  predicate ValidPiece(cfg: Config, p: Piece) {
    match p
    case Whole(t) => ValidStretch(cfg, t)
    case Rest(r) => ValidRest(cfg, r)
    case Strayed(tear, r) =>
      && ValidTear(cfg, tear) && ValidRest(cfg, r)
      && tear.last.place.InChildOf? && r.back.Some? && Mismatch(tear.last.place.call, r.back.value)
  }

  predicate ValidPieces(cfg: Config, ps: seq<Piece>) {
    forall i :: 0 <= i < |ps| ==> ValidPiece(cfg, ps[i])
  }

  // ----- what is recorded

  const Nowhere := Action(OtherBranch, Symbol("", 0, 0), Symbol("", 0, 0), 0, false, false, false, false, false)

  function RestCharges(cfg: Config, r: Remainder): seq<Charge> {
    Charges(cfg, if r.back.Some? then r.back.value else Nowhere, 0, r.items)
  }

  /** What is owed is filed for a caller called `unknown`. */
  function Settle(stat: Stat, owed: seq<Charge>): Stat {
    if owed == [] then stat else AddUnknown(stat, Tally(owed), "unknown")
  }

  /** The statistics after a piece, and the charges that are not filed yet. */
  function AccountPiece(cfg: Config, stat: Stat, owed: seq<Charge>, p: Piece): (Stat, seq<Charge>) {
    match p
    case Rest(r) => (Counted(stat, OffCount(r.items)), owed + RestCharges(cfg, r))
    case Strayed(tear, r) =>
      (Counted(Before(cfg, Settle(stat, owed), tear), OffCount(r.items)),
       LostCharges(cfg, tear.last) + RestCharges(cfg, r))
    case Whole(t) =>
      match t
      case Away(_) => (Counted(stat, 1), owed)
      case Fault(_) => (AddUnknown(stat, Tally(owed), "unknown"), [])
      case _ => (AccountStretch(cfg, Settle(stat, owed), t), [])
  }

  function AccountPieces(cfg: Config, stat: Stat, owed: seq<Charge>, ps: seq<Piece>): Stat
    decreases |ps|
  {
    if ps == [] then Settle(stat, owed)
    else
      var x := AccountPiece(cfg, stat, owed, ps[0]);
      AccountPieces(cfg, x.0, x.1, ps[1..])
  }

  // ----- the loop without the beginning of a call behaves like the loop within one

  /** `t` is `s` inside a call entered by `e`. */
  ghost predicate Shadow(cfg: Config, s: State, t: State, e: Action) {
    && t.stack == [e] + s.stack && t.child == s.child && t.schedSince == s.schedSince
    && t.noHwIntFromHead == s.noHwIntFromHead && t.stat == s.stat && t.crashed == s.crashed
    && (cfg.opt.codeBlock ==> t.cursor == s.cursor)
    && (cfg.opt.codeBlock || (s.stack != [] && Last(s.stack).kind != TR_END) ==> t.schedChild == s.schedChild)
  }

  lemma {:induction false} ShadowBlock(cfg: Config, s: State, t: State, e: Action, a: Action)
    requires Shadow(cfg, s, t, e) && cfg.opt.codeBlock
    ensures Shadow(cfg, AddCodeBlock(s, a), AddCodeBlock(t, a), e)
    ensures AddCodeBlock(s, a).wrongChain == s.wrongChain && AddCodeBlock(s, a).stack == s.stack
    ensures AddCodeBlock(s, a).noHwIntFromHead == s.noHwIntFromHead
  {
    hide AddChild, BlockName, Sub64, Last;
    if s.cursor.Some? && a.from.offset != s.cursor.value.to.offset {
      var c := s.cursor.value;
      var lat := Sub64(a.ts, c.ts);
      if lat >= s.schedChild {
        var child := AddChild(s.child, BlockName(c, a), lat, s.schedChild);
        assert AddCodeBlock(s, a) == s.(child := child, schedChild := 0, cursor := Some(a));
        assert AddCodeBlock(t, a) == t.(child := child, schedChild := 0, cursor := Some(a));
      }
    }
  }

  function Head(s: State, call: Action): State {
    s.(noHwIntFromHead := !HeadInterrupt(call))
  }

  lemma {:induction false} CallStep(cfg: Config, s: State, call: Action)
    requires Leaves(call) && !s.crashed
    ensures var b := Normalized(call); var x := OnCall(cfg, Head(s, call), b);
      Step(cfg, s, call) == if x.crashed then x else x.(cursor := Some(b))
  {
    hide OnCall;
    var b := Normalized(call);
    assert b.kind in {HW_INT, TR_END_HW_INT, CALL, TR_END_SYSCALL, TR_END_CALL};
    assert OnBranch(cfg, Head(s, call), b) == OnCall(cfg, Head(s, call), b);
  }

  lemma {:induction false} ShadowPush(cfg: Config, s: State, t: State, e: Action, b: Action)
    requires Shadow(cfg, s, t, e) && s.stack == [] && !s.crashed
    ensures var x, y := OnCall(cfg, s, b), OnCall(cfg, t, b);
      Shadow(cfg, x.(cursor := Some(b)), y.(cursor := Some(b)), e) && x.wrongChain == s.wrongChain
          && x.crashed == y.crashed
    ensures var x := OnCall(cfg, s, b); !x.crashed ==> x.stack == [b] && x.noHwIntFromHead == s.noHwIntFromHead
  {
    hide AddCodeBlock;
    if cfg.opt.codeBlock {
      ShadowBlock(cfg, s, t, e, b);
    }
    assert [e] + [] + [b] == [e] + ([] + [b]);
  }

  /** Neither aborts, or both do. */
  lemma {:induction false} ShadowCall(cfg: Config, s: State, t: State, e: Action, call: Action)
    requires Leaves(call) && Shadow(cfg, s, t, e) && s.stack == [] && !s.crashed && !Step(cfg, t, call).crashed
    ensures var s', t' := Step(cfg, s, call), Step(cfg, t, call);
      && Shadow(cfg, s', t', e) && s'.wrongChain == s.wrongChain && s'.stack == [Normalized(call)]
      && (s'.noHwIntFromHead <==> !HeadInterrupt(call)) && !s'.crashed
  {
    hide OnCall, Step, Normalized, Leaves, HeadInterrupt;
    CallStep(cfg, s, call);
    CallStep(cfg, t, call);
    ShadowPush(cfg, Head(s, call), Head(t, call), e, Normalized(call));
  }

  lemma {:induction false} ShadowMark(cfg: Config, s: State, t: State, e: Action, a: Action)
    requires !a.isError && !AtHead(a) && (a.schedBegin || a.schedEnd) && Shadow(cfg, s, t, e)
    ensures var s', t' := Step(cfg, s, a), Step(cfg, t, a);
      && Shadow(cfg, s', t', e) && s'.wrongChain == s.wrongChain && s'.stack == s.stack
      && s'.noHwIntFromHead == s.noHwIntFromHead && s'.crashed == s.crashed
  {
    hide Sub64, Add64;
  }

  lemma {:induction false} ShadowOffs(cfg: Config, s: State, t: State, e: Action, offs: seq<Off>)
    requires ValidOffs(offs) && Shadow(cfg, s, t, e)
    ensures var s', t' := Run(cfg, s, OffActions(offs)), Run(cfg, t, OffActions(offs));
      && Shadow(cfg, s', t', e) && s'.wrongChain == s.wrongChain && s'.stack == s.stack
      && s'.noHwIntFromHead == s.noHwIntFromHead && s'.crashed == s.crashed
    decreases |offs|
  {
    hide Step, Shadow;
    if offs == [] {
      RunNothing(cfg, s);
      RunNothing(cfg, t);
    } else {
      var b, c, rest := offs[0].b, offs[0].e, OffActions(offs[1..]);
      ShadowMark(cfg, s, t, e, b);
      ShadowMark(cfg, Step(cfg, s, b), Step(cfg, t, b), e, c);
      RunTwo(cfg, s, b, c);
      RunTwo(cfg, t, b, c);
      RunConcat(cfg, s, [b, c], rest);
      RunConcat(cfg, t, [b, c], rest);
      ShadowOffs(cfg, Run(cfg, s, [b, c]), Run(cfg, t, [b, c]), e, offs[1..]);
    }
  }

  lemma {:induction false} RunTwo(cfg: Config, s: State, a: Action, b: Action)
    ensures Run(cfg, s, [a, b]) == Step(cfg, Step(cfg, s, a), b)
  {
    hide Step;
    assert [a, b][1..] == [b];
    RunOne(cfg, Step(cfg, s, a), b);
  }

  /** Returning from a child, with `below` under it on the stack. */
  lemma {:induction false} ReturnBranch(cfg: Config, s: State, below: seq<Action>, call: Action, ret: Action)
    requires ValidChild(call, ret) && s.stack == below + [Normalized(call)]
    ensures var r := Normalized(ret);
      OnBranch(cfg, s, r) ==
        AddOneChild(cfg, s, Normalized(call), r, false, r.kind == IRET).(stack := below, schedChild := 0)
  {
    hide AddChild, ChildName, Sub64;
    assert Last(s.stack) == Normalized(call) && Pop(s.stack) == below;
  }

  lemma {:induction false} ReturnStep(cfg: Config, s: State, below: seq<Action>, call: Action, ret: Action)
    requires ValidChild(call, ret) && s.stack == below + [Normalized(call)] && !s.crashed
    requires s.noHwIntFromHead <==> !HeadInterrupt(call)
    ensures var r := Normalized(ret);
      Step(cfg, s, ret) == AddOneChild(cfg, s, Normalized(call), r, false, r.kind == IRET)
                             .(stack := below, schedChild := 0, noHwIntFromHead := true, cursor := Some(r))
  {
    hide AddChild, ChildName, Sub64, OnBranch, Leaves;
    ReturnBranch(cfg, s.(noHwIntFromHead := true), below, call, ret);
  }

  lemma {:induction false} NotAnEnd(call: Action, ret: Action)
    requires ValidChild(call, ret)
    ensures Normalized(call).kind != TR_END
  {
  }

  lemma {:induction false} ShadowReturn(cfg: Config, s: State, t: State, e: Action, call: Action, ret: Action)
    requires ValidChild(call, ret) && Shadow(cfg, s, t, e) && s.stack == [Normalized(call)] && !s.crashed
    requires s.noHwIntFromHead <==> !HeadInterrupt(call)
    ensures var s', t' := Step(cfg, s, ret), Step(cfg, t, ret);
      && Shadow(cfg, s', t', e) && s'.wrongChain == s.wrongChain && s'.stack == [] && s'.noHwIntFromHead
      && !s'.crashed
  {
    hide AddChild, ChildName, Sub64, Step, ValidChild, HeadInterrupt;
    NotAnEnd(call, ret);
    assert s.stack == [] + [Normalized(call)] && t.stack == [e] + [Normalized(call)];
    ReturnStep(cfg, s, [], call, ret);
    ReturnStep(cfg, t, [e], call, ret);
  }

  /** After an item, the loop is where it was. */
  ghost predicate Alike(cfg: Config, s: State, s': State, t': State, e: Action) {
    && Shadow(cfg, s', t', e) && s'.wrongChain == s.wrongChain && s'.stack == [] && s'.noHwIntFromHead && !s'.crashed
  }

  lemma {:induction false} ShadowChild(cfg: Config, s: State, t: State, e: Action, item: Item)
    requires item.Child? && ValidItem(cfg, item) && Alike(cfg, s, s, t, e) && !Step(cfg, t, item.call).crashed
    ensures Alike(cfg, s, Run(cfg, s, ItemActions(item)), Run(cfg, t, ItemActions(item)), e)
  {
    hide Run, Step, Shadow, Leaves, HeadInterrupt, OffActions, ValidOff, Normalized;
    var call, mid, ret := item.call, OffActions(item.offs), item.ret;
    RunConcat(cfg, s, [call] + mid, [ret]); RunConcat(cfg, t, [call] + mid, [ret]);
    RunConcat(cfg, s, [call], mid); RunConcat(cfg, t, [call], mid);
    RunOne(cfg, s, call); RunOne(cfg, t, call);
    ShadowCall(cfg, s, t, e, call);
    var s1, t1 := Step(cfg, s, call), Step(cfg, t, call);
    ShadowOffs(cfg, s1, t1, e, item.offs);
    var s2, t2 := Run(cfg, s1, mid), Run(cfg, t1, mid);
    RunOne(cfg, s2, ret); RunOne(cfg, t2, ret);
    ShadowReturn(cfg, s2, t2, e, call, ret);
  }

  lemma {:induction false} ShadowPause(cfg: Config, s: State, t: State, e: Action, item: Item)
    requires item.Pause? && ValidItem(cfg, item) && Alike(cfg, s, s, t, e)
    ensures Alike(cfg, s, Run(cfg, s, ItemActions(item)), Run(cfg, t, ItemActions(item)), e)
  {
    hide Run, Step, OffActions, ValidOff;
    var end, mid, start := item.end, OffActions(item.offs), item.start;
    RunConcat(cfg, s, [end] + mid, [start]); RunConcat(cfg, t, [end] + mid, [start]);
    RunConcat(cfg, s, [end], mid); RunConcat(cfg, t, [end], mid);
    RunOne(cfg, s, end); RunOne(cfg, t, end);
    TraceEnds(cfg, s, end, start); TraceEnds(cfg, t, end, start);
    var s1, t1 := Step(cfg, s, end), Step(cfg, t, end);
    assert [e] + [] + [end] == [e] + ([] + [end]) && Last([] + [end]).kind == TR_END;
    ShadowOffs(cfg, s1, t1, e, item.offs);
    var s2, t2 := Run(cfg, s1, mid), Run(cfg, t1, mid);
    RunOne(cfg, s2, start); RunOne(cfg, t2, start);
    StrayStarts(cfg, s2, end, start);
    TraceStarts(cfg, t2, e, end, start);
  }

  lemma {:induction false} StrayStarts(cfg: Config, s: State, end: Action, start: Action)
    requires ValidPause(end, start) && !s.crashed && s.noHwIntFromHead && s.stack == [] + [end]
    ensures Step(cfg, s, start) == s.(stack := [], schedChild := 0, cursor := Some(start))
  {
    assert Last(s.stack) == end && Pop(s.stack) == [];
  }

  /** What does not abort in the end does not abort at the first record. */
  lemma {:induction false} FirstFine(cfg: Config, t: State, actions: seq<Action>)
    requires actions != [] && !Run(cfg, t, actions).crashed
    ensures !Step(cfg, t, actions[0]).crashed
  {
    hide Step;
    if Step(cfg, t, actions[0]).crashed {
      CrashStays(cfg, Step(cfg, t, actions[0]), actions[1..]);
    }
  }

  lemma {:induction false} ShadowItem(cfg: Config, s: State, t: State, e: Action, item: Item)
    requires ValidItem(cfg, item) && Alike(cfg, s, s, t, e) && !Run(cfg, t, ItemActions(item)).crashed
    ensures Alike(cfg, s, Run(cfg, s, ItemActions(item)), Run(cfg, t, ItemActions(item)), e)
  {
    hide Run, Step, Shadow;
    FirstFine(cfg, t, ItemActions(item));
    match item
    case Child(_, _, _) => ShadowChild(cfg, s, t, e, item);
    case Pause(_, _, _) => ShadowPause(cfg, s, t, e, item);
    case Sleep(off) =>
      assert OffActions([off]) == [off.b, off.e];
      ShadowOffs(cfg, s, t, e, [off]);
    case Jump(a) =>
      RunOne(cfg, s, a); RunOne(cfg, t, a);
      ShadowJump(cfg, s, t, e, a);
  }

  lemma {:induction false} ShadowJump(cfg: Config, s: State, t: State, e: Action, a: Action)
    requires ValidItem(cfg, Jump(a)) && Alike(cfg, s, s, t, e) && !Step(cfg, t, a).crashed
    ensures Alike(cfg, s, Step(cfg, s, a), Step(cfg, t, a), e)
  {
    hide AddCodeBlock;
    ShadowBlock(cfg, s, t, e, a);
  }

  lemma {:induction false} ShadowItems(cfg: Config, s: State, t: State, e: Action, items: seq<Item>)
    requires (forall i :: 0 <= i < |items| ==> ValidItem(cfg, items[i])) && Alike(cfg, s, s, t, e)
    requires !Run(cfg, t, ItemsActions(items)).crashed
    ensures Alike(cfg, s, Run(cfg, s, ItemsActions(items)), Run(cfg, t, ItemsActions(items)), e)
    decreases |items|
  {
    hide Run, Shadow, ValidItem, ItemActions;
    if items == [] {
      RunNothing(cfg, s); RunNothing(cfg, t);
    } else {
      var a, b := ItemActions(items[0]), ItemsActions(items[1..]);
      RunConcat(cfg, s, a, b); RunConcat(cfg, t, a, b);
      if Run(cfg, t, a).crashed { CrashStays(cfg, Run(cfg, t, a), b); }
      ShadowItem(cfg, s, t, e, items[0]);
      ShadowItems(cfg, Run(cfg, s, a), Run(cfg, t, a), e, items[1..]);
    }
  }

  // ----- the loop on the rest of a call

  /** Between calls, with `owed` charged and not filed. */
  ghost predicate Owing(s: State, owed: seq<Charge>, stat: Stat) {
    && s.stack == [] && s.child == Tally(owed) && s.schedSince.None? && (owed != [] ==> s.wrongChain)
    && s.noHwIntFromHead && s.stat == stat && !s.crashed
  }

  /** The loop has lost track of the call it is in; the current code block began at `cursor`. */
  ghost predicate Astray(cfg: Config, s: State, owed: seq<Charge>, cursor: Action, stat: Stat) {
    && s.stack == [] && s.child == Tally(owed) && s.schedSince.None?
    && s.noHwIntFromHead && s.stat == stat && !s.crashed
    && (cfg.opt.codeBlock ==>
          s.cursor.Some? && s.cursor.value.ts == cursor.ts && s.cursor.value.to == cursor.to && s.schedChild == 0)
  }

  /** The call that the loop might be in. */
  function Imagined(cfg: Config, s: State, owed: seq<Charge>, cursor: Action): State {
    s.(stack := [Nowhere], targetBegin := Some(Nowhere), prevTargetError := false, wrongChain := false,
       schedTarget := TotalOff(owed), schedChild := 0, cursor := if cfg.opt.codeBlock then s.cursor else Some(cursor))
  }

  lemma {:induction false} RunAstray(cfg: Config, s: State, items: seq<Item>, owed: seq<Charge>, cursor: Action,
                                     stat: Stat)
    requires (forall i :: 0 <= i < |items| ==> ValidItem(cfg, items[i])) && Astray(cfg, s, owed, cursor, stat)
    requires Bounded(owed, cursor.ts) && cursor.ts < U64 && Paced(ItemsActions(items), cursor.ts)
    ensures var s', cs := Run(cfg, s, ItemsActions(items)), owed + Charges(cfg, cursor, 0, items);
      && s'.stack == [] && s'.child == Tally(cs) && s'.schedSince.None? && s'.wrongChain == s.wrongChain
      && s'.noHwIntFromHead && s'.stat == Counted(stat, OffCount(items)) && !s'.crashed
      && Bounded(cs, EndTime(ItemsActions(items), cursor.ts))
  {
    hide Run, Step, Tally, TotalTime, TotalOff, Charges, ItemsActions, ValidItem, OffCount, OffAfter, CursorAfter,
        ItemsOff, Paced, EndTime;
    var t := Imagined(cfg, s, owed, cursor);
    assert Within(t, Nowhere, owed, TotalOff(owed), 0, cursor, stat);
    RunItems(cfg, t, items, Nowhere, owed, TotalOff(owed), 0, cursor, stat, cursor.ts);
    assert [Nowhere] + [] == [Nowhere];
    ShadowItems(cfg, s, t, Nowhere, items);
  }

  /** Coming back to the target with nothing, or nothing that matches, on the stack. */
  lemma {:induction false} BackStep(cfg: Config, s: State, back: Action, owed: seq<Charge>, stat: Stat)
    requires Resumes(back) && s.noHwIntFromHead && !s.crashed && s.schedSince.None?
    requires s.child == Tally(owed) && s.stat == stat
    requires s.stack == [] || (Mismatch(Last(s.stack), back) && Last(s.stack).kind != TR_END)
    ensures Astray(cfg, Step(cfg, s, back), owed, back, stat) && Step(cfg, s, back).wrongChain
  {
    hide Tally;
    var b := Normalized(back);
    assert Step(cfg, s, back) == OnBranch(cfg, s, b).(cursor := Some(b));
  }

  /** Leaving the target with nothing on the stack. */
  lemma {:induction false} OutStep(cfg: Config, s: State, ret: Action)
    requires Returns(ret) && s.stack == [] && s.noHwIntFromHead && !s.crashed
    ensures var s' := Step(cfg, s, ret);
      && s'.stack == [] && s'.child == s.child && s'.schedSince == s.schedSince && s'.wrongChain
      && s'.noHwIntFromHead && s'.stat == s.stat && !s'.crashed
  {
    var r := Normalized(ret);
    assert Step(cfg, s, ret) == OnBranch(cfg, s, r).(cursor := Some(r));
  }

  lemma {:induction false} RunTail(cfg: Config, s: State, r: Remainder, owed: seq<Charge>, cursor: Action, stat: Stat)
    requires ValidRest(cfg, r) && Astray(cfg, s, owed, cursor, stat) && (r.ret.None? ==> s.wrongChain)
    requires Bounded(owed, cursor.ts) && cursor.ts < U64 && Paced(RestTail(r), cursor.ts)
    ensures var cs := owed + Charges(cfg, cursor, 0, r.items);
      && Owing(Run(cfg, s, RestTail(r)), cs, Counted(stat, OffCount(r.items)))
      && Bounded(cs, EndTime(RestTail(r), cursor.ts))
  {
    hide Run, Step, Tally, TotalTime, TotalOff, Charges, ItemsActions, ValidItem, OffCount, Paced;
    var mid, end := ItemsActions(r.items), One(r.ret);
    PacedConcat(mid, end, cursor.ts);
    RunConcat(cfg, s, mid, end);
    RunAstray(cfg, s, r.items, owed, cursor, stat);
    var s1 := Run(cfg, s, mid);
    if r.ret.None? {
      RunNothing(cfg, s1);
      assert mid + [] == mid;
    } else {
      OnePaced(r.ret.value, EndTime(mid, cursor.ts));
      RunOne(cfg, s1, r.ret.value);
      OutStep(cfg, s1, r.ret.value);
    }
  }

  lemma {:induction false} OnePaced(a: Action, now: nat)
    requires Paced([a], now)
    ensures now <= a.ts < U64
  {
  }

  /** Without code blocks it does not matter where the target was entered. */
  lemma {:induction false} CursorIrrelevant(cfg: Config, c: Action, f: nat, d: Action, g: nat, items: seq<Item>)
    requires !cfg.opt.codeBlock
    ensures Charges(cfg, c, f, items) == Charges(cfg, d, g, items)
    decreases |items|
  {
    hide ChildCharge;
    if items != [] {
      CursorIrrelevant(cfg, NextCursor(cfg, c, f, items[0]), NextOff(cfg, c, f, items[0]),
                       NextCursor(cfg, d, g, items[0]), NextOff(cfg, d, g, items[0]), items[1..]);
    }
  }

  /** The rest of a call from between calls: its charges are owed as well. */
  lemma {:induction false} RunRemainder(cfg: Config, s: State, r: Remainder, owed: seq<Charge>, stat: Stat, now: nat)
    requires ValidRest(cfg, r) && Owing(s, owed, stat) && Bounded(owed, now) && now < U64 && Paced(RestActions(r), now)
    ensures var cs := owed + RestCharges(cfg, r);
      && Owing(Run(cfg, s, RestActions(r)), cs, Counted(stat, OffCount(r.items)))
      && Bounded(cs, EndTime(RestActions(r), now))
  {
    hide Run, Step, Tally, TotalTime, TotalOff, Charges, ItemsActions, ValidItem, OffCount, Paced, RestTail;
    if r.back.Some? {
      var back := r.back.value;
      PacedConcat([back], RestTail(r), now);
      OnePaced(back, now);
      RunConcat(cfg, s, [back], RestTail(r));
      RunOne(cfg, s, back);
      BackStep(cfg, s, back, owed, stat);
      RunTail(cfg, Step(cfg, s, back), r, owed, back, stat);
    } else {
      var c := Nowhere.(ts := now);
      assert [] + RestTail(r) == RestTail(r);
      RunTail(cfg, s, r, owed, c, stat);
      CursorIrrelevant(cfg, c, 0, Nowhere, 0, r.items);
    }
  }

  /** The entry of a call settles what is owed. */
  lemma {:induction false} EntrySettles(cfg: Config, s: State, entry: Action, owed: seq<Charge>, stat: Stat)
    requires Owing(s, owed, stat) && !entry.isError && AtHead(entry)
    ensures Step(cfg, s, entry) == Step(cfg, Settled(s, owed, stat), entry)
    ensures Idle(Settled(s, owed, stat), Settle(stat, owed))
  {
    hide AddUnknown, Tally, IsEmpty;
    TallyNothing();
    TallyEmptyIff(owed);
    TallyEmptyIff([]);
  }

  function Settled(s: State, owed: seq<Charge>, stat: Stat): State {
    s.(child := NoChildren, stat := Settle(stat, owed))
  }

  lemma {:induction false} SettledRun(cfg: Config, s: State, actions: seq<Action>, owed: seq<Charge>, stat: Stat)
    requires Owing(s, owed, stat) && actions != [] && !actions[0].isError && AtHead(actions[0])
    ensures Run(cfg, s, actions) == Run(cfg, Settled(s, owed, stat), actions)
    ensures Idle(Settled(s, owed, stat), Settle(stat, owed))
  {
    hide Step, Owing, Idle, Settled, Settle, AtHead;
    EntrySettles(cfg, s, actions[0], owed, stat);
  }

  lemma {:induction false} AttemptsBegin(cfg: Config, ls: seq<Lost>, entry: Action, rest: seq<Action>)
    requires (forall i :: 0 <= i < |ls| ==> ValidLost(cfg, ls[i])) && !entry.isError && AtHead(entry)
    ensures var a := AllLost(ls) + [entry] + rest; a != [] && !a[0].isError && AtHead(a[0])
  {
    hide ValidLost, AtHead;
    NextStep(ls, entry);
    if ls != [] { ValidEntry(cfg, ls[0]); }
  }

  lemma {:induction false} CalledBegins(cfg: Config, a: Attempts)
    requires ValidAttempts(cfg, a)
    ensures var x := AttemptActions(a); x != [] && !x[0].isError && AtHead(x[0])
  {
    hide ValidLost, AtHead, ValidItem, AllLost;
    var rest := ItemsActions(a.call.items) + [a.call.ret];
    AttemptsBegin(cfg, a.lost, a.call.entry, rest);
    assert AttemptActions(a) == AllLost(a.lost) + [a.call.entry] + rest;
  }

  lemma {:induction false} TearBegins(cfg: Config, t: Tear)
    requires ValidTear(cfg, t)
    ensures var x := TearActions(t); x != [] && !x[0].isError && AtHead(x[0])
  {
    hide ValidLost, AtHead, AllLost, LostRest;
    ValidEntry(cfg, t.last);
    AttemptsBegin(cfg, t.lost, t.last.entry, LostRest(t.last));
  }

  lemma {:induction false} OwesNothing(s: State, stat: Stat)
    ensures Idle(s, stat) <==> Owing(s, [], stat)
    ensures forall now: nat :: Bounded([], now)
  {
    TallyNothing();
  }

  lemma {:induction false} RunWhole(cfg: Config, s: State, t: Stretch, owed: seq<Charge>, stat: Stat, now: nat)
    requires ValidStretch(cfg, t) && Owing(s, owed, stat) && Bounded(owed, now) && Paced(StretchActions(t), now)
    ensures var x := AccountPiece(cfg, stat, owed, Whole(t));
      Owing(Run(cfg, s, StretchActions(t)), x.1, x.0) && Bounded(x.1, EndTime(StretchActions(t), now))
  {
    hide Run, Step, Tally, TotalTime, TotalOff, AccountStretch, AddUnknown, AttemptActions, TearActions, ValidAttempts,
        ValidTear, Paced, AtHead, Owing, Bounded;
    match t
    case Away(off) =>
      AwayPaced(off, now);
      OwingAway(cfg, s, off, owed, stat);
      BoundedLater(owed, now, off.e.ts);
    case Fault(err) =>
      RunOne(cfg, s, err);
      OwingError(cfg, s, err, owed, stat);
    case Called(a) =>
      CalledBegins(cfg, a);
      SettledRun(cfg, s, StretchActions(t), owed, stat);
      RunStretch(cfg, Settled(s, owed, stat), t, Settle(stat, owed), now);
      OwesNothing(Run(cfg, s, StretchActions(t)), AccountStretch(cfg, Settle(stat, owed), t));
    case Torn(tear, err) =>
      TearBegins(cfg, tear);
      SettledRun(cfg, s, StretchActions(t), owed, stat);
      RunStretch(cfg, Settled(s, owed, stat), t, Settle(stat, owed), now);
      OwesNothing(Run(cfg, s, StretchActions(t)), AccountStretch(cfg, Settle(stat, owed), t));
  }

  lemma {:induction false} AwayPaced(off: Off, now: nat)
    requires Paced([off.b, off.e], now)
    ensures now <= off.e.ts
  {
    assert [off.b, off.e][1..] == [off.e];
  }

  lemma {:induction false} BoundedLater(cs: seq<Charge>, now: nat, later: nat)
    requires Bounded(cs, now) && now <= later
    ensures Bounded(cs, later)
  {
  }

  lemma {:induction false} OwingAway(cfg: Config, s: State, off: Off, owed: seq<Charge>, stat: Stat)
    requires ValidOff(off) && Owing(s, owed, stat)
    ensures Owing(Run(cfg, s, [off.b, off.e]), owed, Counted(stat, 1))
  {
    hide Tally, Sub64, Add64;
    RunTwo(cfg, s, off.b, off.e);
  }

  lemma {:induction false} OwingError(cfg: Config, s: State, err: Action, owed: seq<Charge>, stat: Stat)
    requires err.isError && Owing(s, owed, stat)
    ensures Owing(Step(cfg, s, err), [], AddUnknown(stat, Tally(owed), "unknown")) && forall n: nat :: Bounded([], n)
  {
    hide AddUnknown, Tally;
    OwesNothing(Step(cfg, s, err), AddUnknown(stat, Tally(owed), "unknown"));
  }

  lemma {:induction false} RunStrayed(cfg: Config, s: State, t: Tear, r: Remainder, owed: seq<Charge>, stat: Stat,
                                      now: nat)
    requires ValidPiece(cfg, Strayed(t, r)) && Owing(s, owed, stat) && Paced(TearActions(t) + RestActions(r), now)
    ensures var x := AccountPiece(cfg, stat, owed, Strayed(t, r));
      && Owing(Run(cfg, s, TearActions(t) + RestActions(r)), x.1, x.0)
      && Bounded(x.1, EndTime(TearActions(t) + RestActions(r), now))
  {
    hide Run, Step, Tally, Charges, LostCharges, OffCount, Paced, TearActions, RestTail, ValidTear, Before, ValidItem,
        AtHead, Resumes, Settle, Owing, Astray, Settled, Idle, Bounded;
    var a, back, cs := TearActions(t), r.back.value, LostCharges(cfg, t.last);
    PacedConcat(a, RestActions(r), now);
    PacedConcat([back], RestTail(r), EndTime(a, now));
    OnePaced(back, EndTime(a, now));
    RunConcat(cfg, s, a, RestActions(r));
    TearBegins(cfg, t);
    SettledRun(cfg, s, a, owed, stat);
    RunTear(cfg, Settled(s, owed, stat), t, Settle(stat, owed), now);
    var s1 := Run(cfg, s, a);
    RunConcat(cfg, s1, [back], RestTail(r));
    RunOne(cfg, s1, back);
    LastIsCall(cfg, s1, t, back, Before(cfg, Settle(stat, owed), t));
    BackStep(cfg, s1, back, cs, Before(cfg, Settle(stat, owed), t));
    BoundedLater(cs, EndTime(a, now), back.ts);
    RunTail(cfg, Step(cfg, s1, back), r, cs, back, Before(cfg, Settle(stat, owed), t));
  }

  lemma {:induction false} LastIsCall(cfg: Config, s: State, t: Tear, back: Action, stat: Stat)
    requires ValidTear(cfg, t) && t.last.place.InChildOf? && Mismatch(t.last.place.call, back)
    requires Following(cfg, s, t.last, stat)
    ensures s.stack != [] && Mismatch(Last(s.stack), back) && Last(s.stack).kind != TR_END
  {
    hide ValidItem, LostCharges, Tally;
  }

  lemma {:induction false} RunPiece(cfg: Config, s: State, p: Piece, owed: seq<Charge>, stat: Stat, now: nat)
    requires ValidPiece(cfg, p) && Owing(s, owed, stat) && Bounded(owed, now) && now < U64
    requires Paced(PieceActions(p), now)
    ensures var x := AccountPiece(cfg, stat, owed, p);
      Owing(Run(cfg, s, PieceActions(p)), x.1, x.0) && Bounded(x.1, EndTime(PieceActions(p), now))
  {
    hide Run, Owing, Bounded, Paced, StretchActions, TearActions, RestActions, ValidStretch, AccountStretch,
        RestCharges,
        ValidTear, ValidRest, Settle, Before, LostCharges, OffCount;
    match p
    case Whole(t) => RunWhole(cfg, s, t, owed, stat, now);
    case Rest(r) => RunRemainder(cfg, s, r, owed, stat, now);
    case Strayed(t, r) => RunStrayed(cfg, s, t, r, owed, stat, now);
  }

  lemma {:induction false} RunPieces(cfg: Config, s: State, ps: seq<Piece>, owed: seq<Charge>, stat: Stat, now: nat)
    requires ValidPieces(cfg, ps) && Owing(s, owed, stat) && Bounded(owed, now) && now < U64
    requires Paced(PiecesActions(ps), now)
    ensures var s' := Run(cfg, s, PiecesActions(ps)); !s'.crashed && Finish(s') == AccountPieces(cfg, stat, owed, ps)
    decreases |ps|
  {
    hide Run, Owing, Bounded, Paced, PieceActions, ValidPiece, AccountPiece, Finish, Settle;
    if ps == [] {
      RunNothing(cfg, s);
      FinishOwing(s, owed, stat);
    } else {
      var a, x := PieceActions(ps[0]), AccountPiece(cfg, stat, owed, ps[0]);
      PacedConcat(a, PiecesActions(ps[1..]), now);
      RunEndTime(a, now);
      RunConcat(cfg, s, a, PiecesActions(ps[1..]));
      RunPiece(cfg, s, ps[0], owed, stat, now);
      RunPieces(cfg, Run(cfg, s, a), ps[1..], x.1, x.0, EndTime(a, now));
    }
  }

  lemma {:induction false} FinishOwing(s: State, owed: seq<Charge>, stat: Stat)
    requires Owing(s, owed, stat)
    ensures !s.crashed && Finish(s) == Settle(stat, owed)
  {
    hide Tally, AddUnknown;
    FinishBusy(s, owed, stat);
  }

  /**
   * On traces with parts of calls as well, the loop records exactly the calls
   * that are whole, files the charges of the others for a caller called
   * `unknown`, and no assertion fails.
   */
  lemma {:induction false} FragmentsMeetSpec(cfg: Config, ps: seq<Piece>)
    requires ValidPieces(cfg, ps) && TimeOrdered(PiecesActions(ps))
    ensures var s := Run(cfg, Init, PiecesActions(ps));
      !s.crashed && Finish(s) == AccountPieces(cfg, NoStat, [], ps)
  {
    hide Run, PiecesActions, AccountPieces, ValidPieces, Finish;
    OrderedIsPaced(PiecesActions(ps), 0);
    OwesNothing(Init, NoStat);
    StartIdle();
    RunPieces(cfg, Init, ps, [], NoStat, 0);
  }

  // ----- marks of the scheduler without their partner

  lemma {:induction false} CrashFixed(cfg: Config, s: State, actions: seq<Action>)
    requires s.crashed
    ensures Run(cfg, s, actions) == s
    decreases |actions|
  {
    if actions != [] {
      CrashFixed(cfg, s, actions[1..]);
    }
  }

  /** A child, an error or a new call ends the wait for the thread to come back. */
  predicate Forgets(s: State, a: Action) {
    Leaves(a) || a.isError || (AtHead(a) && s.noHwIntFromHead)
  }

  /** The same state, except that the thread is off the CPU since `b`. */
  function OffSince(s: State, b: Action): State {
    s.(schedSince := Some(b))
  }

  ghost predicate SameButOff(x: State, y: State) {
    x == y || (x.crashed && y.crashed && x.(schedSince := y.schedSince) == y)
  }

  lemma {:induction false} ChildStaysOff(cfg: Config, s: State, b: Action, a1: Action, a2: Action)
    ensures AddOneChild(cfg, OffSince(s, b), a1, a2, true, false) ==
      OffSince(AddOneChild(cfg, s, a1, a2, true, false), b)
  {
    hide AddChild, ChildName, Sub64;
  }

  lemma {:induction false} EntryForgets(cfg: Config, s: State, b: Action, next: Action)
    ensures OnEntry(cfg, OffSince(s, b), next) == OnEntry(cfg, s, next)
  {
    hide AddOneChild, AddUnknown, WithAddr, Sub64, Add64, IsEmpty;
    if s.targetBegin.Some? && |s.stack| == 2 {
      ChildStaysOff(cfg, s, b, s.stack[1], next);
    }
  }

  lemma {:induction false} ErrorForgets(s: State, b: Action)
    ensures OnError(OffSince(s, b)) == OnError(s)
  {
    hide AddUnknown;
  }

  lemma {:induction false} CallForgets(cfg: Config, s: State, b: Action, next: Action)
    requires !s.crashed
    ensures SameButOff(OnCall(cfg, OffSince(s, b), next), OnCall(cfg, s, next))
  {
    hide AddChild, BlockName, Sub64;
  }

  lemma {:induction false} LeaveForgets(cfg: Config, s: State, b: Action, next: Action)
    requires Leaves(next) && !s.crashed
    ensures SameButOff(Step(cfg, OffSince(s, b), next), Step(cfg, s, next))
  {
    hide Step, OnCall, Normalized, Leaves, HeadInterrupt;
    CallStep(cfg, s, next);
    CallStep(cfg, OffSince(s, b), next);
    CallForgets(cfg, Head(s, next), b, Normalized(next));
  }

  lemma {:induction false} BeginForgotten(cfg: Config, s: State, b: Action, next: Action)
    requires !b.isError && b.schedBegin && !AtHead(b) && Forgets(s, next)
    ensures SameButOff(Step(cfg, Step(cfg, s, b), next), Step(cfg, s, next))
  {
    hide OnEntry, OnError, OnBranch, AddCodeBlock, Leaves, Normalized, OnSchedEnd;
    if !s.crashed {
      EntryForgets(cfg, s, b, next);
      ErrorForgets(s, b);
      if Leaves(next) {
        LeaveForgets(cfg, s, b, next);
      }
    }
  }

  /** An off-CPU interval whose end is missing when a child, an error or a new call follows counts for nothing. */
  lemma {:induction false} StrayBegin(cfg: Config, before: seq<Action>, b: Action, next: Action, after: seq<Action>)
    requires !b.isError && b.schedBegin && !AtHead(b) && Forgets(Run(cfg, Init, before), next)
    ensures var s, s' := Run(cfg, Init, before + [b, next] + after), Run(cfg, Init, before + [next] + after);
      s.crashed == s'.crashed && Finish(s) == Finish(s') && s.miss == s'.miss
  {
    hide Run, Step, AddUnknown, IsEmpty;
    RunConcat(cfg, Init, before + [b, next], after); RunConcat(cfg, Init, before + [next], after);
    RunConcat(cfg, Init, before, [b, next]); RunConcat(cfg, Init, before, [next]);
    var s := Run(cfg, Init, before);
    RunTwo(cfg, s, b, next); RunOne(cfg, s, next);
    BeginForgotten(cfg, s, b, next);
    var x, y := Step(cfg, Step(cfg, s, b), next), Step(cfg, s, next);
    if x != y {
      CrashFixed(cfg, x, after); CrashFixed(cfg, y, after);
    }
  }

  /** An end without a beginning counts for nothing. */
  lemma {:induction false} StrayEnd(cfg: Config, before: seq<Action>, e: Action, after: seq<Action>)
    requires !e.isError && e.schedEnd && !e.schedBegin && !AtHead(e) && Run(cfg, Init, before).schedSince.None?
    ensures Run(cfg, Init, before + [e] + after) == Run(cfg, Init, before + after)
  {
    hide Run;
    RunConcat(cfg, Init, before + [e], after); RunConcat(cfg, Init, before, after);
    RunConcat(cfg, Init, before, [e]);
    RunOne(cfg, Run(cfg, Init, before), e);
  }

  /** With code blocks, and only then, a trace that begins in the target makes the loop abort at the first call. */
  lemma {:induction false} BeginsInTarget(cfg: Config, call: Action)
    requires Leaves(call)
    ensures Run(cfg, Init, [call]).crashed <==> cfg.opt.codeBlock
  {
    CallStep(cfg, Init, call);
    RunOne(cfg, Init, call);
  }
}
