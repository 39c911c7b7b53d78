/** `ThreadJob::do_analyze`: the event loop that rebuilds calls of the target function. */
module Analyzer {
  import opened Common
  import opened FuncStats

  datatype Symbol = Symbol(name: string, addr: nat, offset: nat)

  /** The branch types of the trace; `OtherBranch` stands for those the loop only reports. */
  datatype Kind =
    | CALL | RETURN | JCC | JMP | TR_START | TR_END_CALL | TR_END_RETURN | TR_END_HW_INT
    | TR_END_SYSCALL | TR_END | IRET | HW_INT | OtherBranch

  datatype Action = Action(kind: Kind, from: Symbol, to: Symbol, ts: nat, fromTarget: bool, toTarget: bool,
                           schedBegin: bool, schedEnd: bool, isError: bool)

  datatype Config = Config(opt: Option, target: string, ancestor: string, unfoldGathered: bool)

  /** The local variables of the loop; `crashed` is set where an assertion or a null cursor would abort. */
  datatype State = State(
    stack: seq<Action>, child: Children,
    schedTarget: nat, schedChild: nat, schedSince: Maybe<Action>,
    targetBegin: Maybe<Action>, prevTargetError: bool,
    cursor: Maybe<Action>, wrongChain: bool, noHwIntFromHead: bool,
    stat: Stat, miss: nat, crashed: bool)

  const Init := State([], NoChildren, 0, 0, None, None, false, None, true, true, NoStat, 0, false)

  const GATHER_CALL_LINE := "[gather_call_line]"
  const UNKNOWN_LATENCY := "(unknown latency) "
  const CODE_BLOCK := "*code block: "

  /** The name under which a child call is counted. */
  function ChildName(cfg: Config, call: Action, gather: bool): string {
    var name := call.to.name;
    if !cfg.opt.callLine then name
    else if gather && !cfg.unfoldGathered then name + "!" + GATHER_CALL_LINE
    else if name != cfg.target && name != cfg.ancestor then WithAddr(name, call.from.addr)
    else name
  }

  /** `add_one_child`. */
  function AddOneChild(cfg: Config, s: State, a1: Action, a2: Action, unknown: bool, gather: bool): State {
    var name := ChildName(cfg, a1, gather);
    var child := if unknown then AddChild(s.child, UNKNOWN_LATENCY + name, 0, 0)
                 else AddChild(s.child, name, Sub64(a2.ts, a1.ts), s.schedChild);
    s.(child := child, schedChild := 0)
  }

  function BlockName(a1: Action, a2: Action): string {
    CODE_BLOCK + Decimal(a1.to.offset) + "-" + Decimal(a2.from.offset)
  }

  /** `add_code_block`, from the cursor to `a2`. */
  function AddCodeBlock(s: State, a2: Action): State {
    if s.cursor.None? then s.(crashed := true)
    else
      var a1 := s.cursor.value;
      if a2.from.offset == a1.to.offset then s
      else
        var lat := Sub64(a2.ts, a1.ts);
        if lat < s.schedChild then s.(crashed := true)
        else s.(child := AddChild(s.child, BlockName(a1, a2), lat, s.schedChild), schedChild := 0, cursor := Some(a2))
  }

  predicate EntersTarget(a: Action) {
    a.to.offset == 0 && a.toTarget
  }

  function Last(stack: seq<Action>): Action
    requires stack != []
  {
    stack[|stack| - 1]
  }

  function Pop(stack: seq<Action>): seq<Action>
    requires stack != []
  {
    stack[..|stack| - 1]
  }

  /** A trace error: the chain is given up, its children become unknown. */
  function OnError(s: State): State {
    s.(stat := AddUnknown(s.stat, s.child, UNKNOWN_CALLER),
       stack := [], child := NoChildren, schedTarget := 0, schedChild := 0, schedSince := None,
       prevTargetError := true)
  }

  /** The target is entered. */
  function OnEntry(cfg: Config, s: State, a: Action): State {
    var s1 := if s.targetBegin.Some? && |s.stack| == 2 then AddOneChild(cfg, s, s.stack[1], a, true, false) else s;
    var s2 :=
      if IsEmpty(s1.child) then s1
      else if !s1.wrongChain && s1.targetBegin.Some? then
        var tb := s1.targetBegin.value;
        var caller := if cfg.opt.callLine && !cfg.opt.ipFiltering then WithAddr(tb.from.name, tb.from.addr)
            else tb.from.name;
        s1.(stat := AddUnknown(s1.stat, s1.child, caller), child := NoChildren)
      else s1.(stat := AddUnknown(s1.stat, s1.child, UNKNOWN_CALLER), child := NoChildren);
    var miss := if s2.prevTargetError && s2.targetBegin.Some? then Add64(s2.miss, Sub64(a.ts, s2.targetBegin.value.ts))
        else s2.miss;
    s2.(stack := [a], schedTarget := 0, schedChild := 0, schedSince := None,
        miss := miss, prevTargetError := false, targetBegin := Some(a), wrongChain := false, cursor := Some(a))
  }

  /** The thread is scheduled in again. The interval is held in 32 bits. */
  function OnSchedEnd(s: State, a: Action): State {
    if s.schedSince.None? then s
    else
      var t := Sub64(a.ts, s.schedSince.value.ts) % U32;
      s.(schedTarget := Add64(s.schedTarget, t), schedChild := Add64(s.schedChild, t), schedSince := None,
         stat := s.stat.(schedCount := s.stat.schedCount + 1))
  }

  /** Jumps out of and into the target count as calls and returns. */
  function Normalized(a: Action): Action {
    if a.kind != JMP && a.kind != JCC then a
    else if a.fromTarget && a.to.offset == 0 then a.(kind := CALL)
    else a.(kind := RETURN)
  }

  function OnTraceStart(cfg: Config, s: State, a: Action): State {
    var s1 :=
      if s.stack != [] && (Last(s.stack).kind == TR_END_HW_INT || Last(s.stack).kind == TR_END_CALL) then
        var s0 := AddOneChild(cfg, s, Last(s.stack), a, false, false);
        s0.(stack := Pop(s.stack))
      else if s.stack != [] && Last(s.stack).kind == TR_END then s.(stack := Pop(s.stack))
      else s.(stack := [], wrongChain := true);
    s1.(schedChild := 0)
  }

  function OnCall(cfg: Config, s: State, a: Action): State {
    var s1 := if cfg.opt.codeBlock then AddCodeBlock(s, a) else s;
    if s1.crashed then s1
    else s1.(stack := s1.stack + [a], schedSince := None, schedChild := 0)
  }

  function CallerName(cfg: Config, call: Action, ret: Action): string {
    if !cfg.opt.callLine then ret.to.name
    else WithAddr(ret.to.name, if cfg.opt.ipFiltering then ret.to.addr else call.from.addr)
  }

  function OnReturn(cfg: Config, s: State, a: Action): State {
    if |s.stack| == 1 && a.fromTarget && s.stack[0].toTarget then
      var call := s.stack[0];
      s.(stat := AddCall(cfg.opt, s.stat, call.ts, a.ts, CallerName(cfg, call, a), s.schedTarget, s.child),
         child := NoChildren, schedTarget := 0, stack := [])
    else if s.stack != [] && Last(s.stack).fromTarget && a.kind != TR_END_RETURN then
      var s1 := AddOneChild(cfg, s, Last(s.stack), a, false, a.kind == IRET);
      s1.(stack := Pop(s.stack))
    else s.(stack := [], wrongChain := true, schedTarget := 0, schedChild := 0)
  }

  function OnBranch(cfg: Config, s: State, a: Action): State {
    match a.kind
    case TR_START => OnTraceStart(cfg, s, a)
    case HW_INT => OnCall(cfg, s, a)
    case TR_END_HW_INT => OnCall(cfg, s, a)
    case CALL => OnCall(cfg, s, a)
    case TR_END_SYSCALL => OnCall(cfg, s, a)
    case TR_END_CALL => OnCall(cfg, s, a)
    case TR_END => s.(stack := s.stack + [a])
    case IRET => OnReturn(cfg, s, a)
    case RETURN => OnReturn(cfg, s, a)
    case TR_END_RETURN => OnReturn(cfg, s, a)
    case _ => s
  }

  /** One turn of the loop. */
  function Step(cfg: Config, s: State, a: Action): State {
    if s.crashed then s
    else if a.isError then OnError(s)
    else if EntersTarget(a) && s.noHwIntFromHead then OnEntry(cfg, s, a)
    else if a.schedBegin then s.(schedSince := Some(a))
    else if a.schedEnd then OnSchedEnd(s, a)
    else if (a.kind == JMP || a.kind == JCC) && a.fromTarget && a.toTarget then
      if cfg.opt.codeBlock then AddCodeBlock(s, a) else s.(crashed := true)
    else if (a.kind == JMP || a.kind == JCC) && !a.fromTarget && !a.toTarget then s.(crashed := true)
    else
      var b := Normalized(a);
      var s1 := OnBranch(cfg, s.(noHwIntFromHead := !(b.kind == HW_INT && b.fromTarget && b.from.offset == 0)), b);
      if s1.crashed then s1 else s1.(cursor := Some(b))
  }

  function Run(cfg: Config, s: State, actions: seq<Action>): State
    decreases |actions|
  {
    if actions == [] then s else Run(cfg, Step(cfg, s, actions[0]), actions[1..])
  }

  /** After the loop, children of an unfinished call count as unknown. */
  function Finish(s: State): Stat {
    if s.crashed || IsEmpty(s.child) then s.stat else AddUnknown(s.stat, s.child, UNKNOWN_CALLER)
  }

  lemma {:induction false} RunConcat(cfg: Config, s: State, a: seq<Action>, b: seq<Action>)
    ensures Run(cfg, s, a + b) == Run(cfg, Run(cfg, s, a), b)
    decreases |a|
  {
    if a == [] {
      assert a + b == b;
    } else {
      assert (a + b)[1..] == a[1..] + b;
      RunConcat(cfg, Step(cfg, s, a[0]), a[1..], b);
    }
  }
}
