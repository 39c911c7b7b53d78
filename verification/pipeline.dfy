/** From the lines of a file to the statistics of a thread: sharing out, decoding, merging and analysing. */
module Pipeline {
  import opened Common
  import opened FuncStats
  import opened Analyzer
  import opened CallTree
  import opened KwayMerge
  import opened ParseJobs
  import opened ParallelParse
  import opened ParallelLaws

  // ----- what a file says about a thread

  /**
   * Records of no interest: elsewhere and not in the scheduler, or inside the
   * target when code blocks are not asked for.
   */
  predicate Noise(codeBlock: bool, a: Action) {
    && !a.isError
    && ((!a.fromTarget && !a.toTarget && !a.schedBegin && !a.schedEnd) || (!codeBlock && a.fromTarget && a.toTarget))
  }

  /** The lines of a thread are the actions, in this order, with noise and lines that cannot be read in between. */
  ghost predicate Carries(codeBlock: bool, lines: seq<Line>, tid: int, actions: seq<Action>)
    decreases |lines|
  {
    if lines == [] then actions == []
    else if lines[0].Invalid? || lines[0].tid != tid then Carries(codeBlock, lines[1..], tid, actions)
    else
      || (Noise(codeBlock, lines[0].action) && Carries(codeBlock, lines[1..], tid, actions))
      || (actions != [] && lines[0].action == actions[0] && Carries(codeBlock, lines[1..], tid, actions[1..]))
  }

  /** Without code blocks, no record goes from the target to the target. */
  predicate Apart(codeBlock: bool, actions: seq<Action>) {
    forall i :: 0 <= i < |actions| ==>
        !actions[i].isError && (codeBlock || !(actions[i].fromTarget && actions[i].toTarget))
  }

  predicate Touches(a: Action) {
    a.fromTarget || a.toTarget || a.schedBegin || a.schedEnd
  }

  lemma {:induction false} CarriedIsParsed(codeBlock: bool, lines: seq<Line>, tid: int, actions: seq<Action>)
    requires Carries(codeBlock, lines, tid, actions) && Apart(codeBlock, actions)
    requires forall i :: 0 <= i < |actions| ==> Touches(actions[i])
    ensures Parsed(codeBlock, lines, tid) == actions && Errors(lines, tid) == []
    decreases |lines|
  {
    if lines != [] {
      var l, rest := lines[0], lines[1..];
      if l.Invalid? || l.tid != tid || (Noise(codeBlock, l.action) && Carries(codeBlock, rest, tid, actions)) {
        CarriedIsParsed(codeBlock, rest, tid, actions);
      } else {
        CarriedIsParsed(codeBlock, rest, tid, actions[1..]);
        assert actions == [actions[0]] + actions[1..];
      }
    }
  }

  // ----- every record of a trace touches the target or the scheduler

  ghost predicate AllTouch(actions: seq<Action>) {
    forall i :: 0 <= i < |actions| ==> Touches(actions[i])
  }

  lemma {:induction false} TouchConcat(a: seq<Action>, b: seq<Action>)
    requires AllTouch(a) && AllTouch(b)
    ensures AllTouch(a + b)
  {
  }

  lemma {:induction false} OffsTouch(offs: seq<Off>)
    requires ValidOffs(offs)
    ensures AllTouch(OffActions(offs))
    decreases |offs|
  {
    if offs != [] {
      assert ValidOff(offs[0]);
      OffsTouch(offs[1..]);
      TouchConcat([offs[0].b, offs[0].e], OffActions(offs[1..]));
    }
  }

  lemma {:induction false} ItemTouches(cfg: Config, item: Item)
    requires ValidItem(cfg, item)
    ensures AllTouch(ItemActions(item))
  {
    if item.Child? {
      OffsTouch(item.offs);
      TouchConcat([item.call], OffActions(item.offs));
      TouchConcat([item.call] + OffActions(item.offs), [item.ret]);
    } else if item.Pause? {
      OffsTouch(item.offs);
      TouchConcat([item.end], OffActions(item.offs));
      TouchConcat([item.end] + OffActions(item.offs), [item.start]);
    }
  }

  lemma {:induction false} ItemsTouch(cfg: Config, items: seq<Item>)
    requires forall i :: 0 <= i < |items| ==> ValidItem(cfg, items[i])
    ensures AllTouch(ItemsActions(items))
    decreases |items|
  {
    hide ValidItem, ItemActions;
    if items != [] {
      ItemTouches(cfg, items[0]);
      ItemsTouch(cfg, items[1..]);
      TouchConcat(ItemActions(items[0]), ItemsActions(items[1..]));
    }
  }

  lemma {:induction false} TraceTouches(cfg: Config, trace: seq<Segment>)
    requires ValidTrace(cfg, trace)
    ensures AllTouch(TraceActions(trace))
    decreases |trace|
  {
    hide ValidItem, ItemsActions;
    if trace != [] {
      var g := trace[0];
      TraceTouches(cfg, trace[1..]);
      if g.Inside? {
        ItemsTouch(cfg, g.call.items);
        TouchConcat([g.call.entry], ItemsActions(g.call.items));
        TouchConcat([g.call.entry] + ItemsActions(g.call.items), [g.call.ret]);
        TouchConcat(CallActions(g.call), TraceActions(trace[1..]));
      } else {
        TouchConcat([g.off.b, g.off.e], TraceActions(trace[1..]));
      }
    }
  }

  // ----- the way through the program

  /** The file holds a trace of the thread: well-bracketed, in time order, below the maximal time, with noise. */
  ghost predicate Holds(cfg: Config, lines: seq<Line>, tid: int, trace: seq<Segment>) {
    var actions := TraceActions(trace);
    && ValidTrace(cfg, trace) && TimeOrdered(actions) && Apart(cfg.opt.codeBlock, actions)
    && (forall i :: 0 <= i < |actions| ==> actions[i].ts < MAX_TS)
    && Carries(cfg.opt.codeBlock, lines, tid, actions)
  }

  /** Decoding gives exactly the records of the trace. */
  lemma {:induction false} DecodesTrace(cfg: Config, lines: seq<Line>, tid: int, trace: seq<Segment>)
    requires Holds(cfg, lines, tid, trace)
    ensures Parsed(cfg.opt.codeBlock, lines, tid) == TraceActions(trace) && Errors(lines, tid) == []
  {
    hide ValidTrace, TimeOrdered, Apart, Carries, Parsed, Errors, TraceActions;
    TraceTouches(cfg, trace);
    CarriedIsParsed(cfg.opt.codeBlock, lines, tid, TraceActions(trace));
  }

  /** However many jobs there are, what they hold of the thread is merged to the records of the trace. */
  lemma {:induction false} ExtractsTrace(cfg: Config, lines: seq<Line>, workers: nat, tid: int, trace: seq<Segment>)
    requires (workers > 0 || lines == []) && Fits(|lines|, workers) && Holds(cfg, lines, tid, trace)
    ensures var m := Merged(JobStreams(cfg.opt.codeBlock, Slices(lines, Ranges(|lines|, workers)), tid));
      m == TraceActions(trace)
  {
    hide Merged, JobStreams, Slices, Ranges, Fits, Parsed, Errors, TraceActions, ValidTrace, Carries, Apart;
    DecodesTrace(cfg, lines, tid, trace);
    OrderedThread(cfg.opt.codeBlock, lines, workers, tid);
  }

  lemma {:induction false} ParsedSize(codeBlock: bool, lines: seq<Line>, tid: int)
    ensures |Parsed(codeBlock, lines, tid)| + |Errors(lines, tid)| <= |lines|
    decreases |lines|
  {
    if lines != [] {
      ParsedSize(codeBlock, lines[1..], tid);
    }
  }

  lemma {:induction false} StreamsSize(codeBlock: bool, lines: seq<Line>, workers: nat, tid: int)
    requires (workers > 0 || lines == []) && Fits(|lines|, workers)
    ensures |Concat(JobStreams(codeBlock, Slices(lines, Ranges(|lines|, workers)), tid))| <= |lines|
  {
    hide Concat, JobStreams, Slices, Ranges, Fits, Parsed, Errors, Flatten;
    var xs := Slices(lines, Ranges(|lines|, workers));
    SlicesJoin(lines, workers);
    StreamsPerm(codeBlock, xs, tid);
    var c, p := Concat(JobStreams(codeBlock, xs, tid)), Parsed(codeBlock, lines, tid) + Errors(lines, tid);
    assert |c| == |multiset(c)| && |p| == |multiset(p)|;
    ParsedSize(codeBlock, lines, tid);
  }

  /** Creates the jobs and executes them; it stops at the first one that aborts. */
  method Decode(ranges: seq<Range>, codeBlock: bool, outOfOrder: bool, lines: seq<Line>)
    returns (jobs: seq<ParseJob>, ok: bool)
    ensures ok <==> !Aborts(codeBlock, outOfOrder, Slices(lines, ranges))
    ensures ok ==> |jobs| == |ranges|
    ensures ok ==> forall tid :: Streams(jobs, tid) == JobStreams(codeBlock, Slices(lines, ranges), tid)
  {
    hide InOrder, Slice, Parsed, Errors, StableSort, JobStreams;
    ghost var xs := Slices(lines, ranges);
    jobs, ok := [], true;
    for i := 0 to |ranges|
      invariant ok && |jobs| == i && fresh(jobs)
      invariant forall k :: 0 <= k < i ==> outOfOrder || InOrder(codeBlock, xs[k])
      invariant forall k, tid :: 0 <= k < i ==>
        ParallelParse.Get(jobs[k].parsed, tid) == StableSort(Parsed(codeBlock, xs[k], tid))
      invariant forall k, tid :: 0 <= k < i ==> ParallelParse.Get(jobs[k].errors, tid) == StableSort(Errors(xs[k], tid))
    {
      var job := new ParseJob(ranges[i]);
      ok := job.Exec(codeBlock, outOfOrder, lines);
      if !ok {
        assert !InOrder(codeBlock, xs[i]);
        return;
      }
      jobs := jobs + [job];
    }
    forall tid
      ensures Streams(jobs, tid) == JobStreams(codeBlock, xs, tid)
    {
      StreamsAre(codeBlock, jobs, xs, tid);
    }
  }

  /**
   * Shares a file out over the workers, decodes it, puts the records of a thread
   * together and analyses them; `ok` is that no assertion fails. If the file
   * holds a trace of the thread, and all its threads are in order or need not
   * be, the result is what the call trees of that trace call for.
   */
  method AnalyzeThread(cfg: Config, outOfOrder: bool, lines: seq<Line>, workers: nat, tid: int)
    returns (stat: Stat, ok: bool)
    requires workers > 0 || lines == []
    ensures Fits(|lines|, workers) && (outOfOrder || InOrder(cfg.opt.codeBlock, lines)) ==>
      forall trace :: Holds(cfg, lines, tid, trace) ==> ok && stat == AccountAll(cfg, NoStat, trace)
  {
    hide InOrder, Fits, Slices, Ranges, JobStreams, Merged, Holds, AccountAll, Aborts, Concat, Run, Finish,
        TraceActions,
        ValidTrace, TimeOrdered;
    var codeBlock := cfg.opt.codeBlock;
    var shares := AssignParseJobs(false, |lines|, workers);
    var ranges := seq(|shares|, i requires 0 <= i < |shares| => shares[i].range);
    assert ranges == Ranges(|lines|, workers);
    stat := NoStat;
    var jobs;
    jobs, ok := Decode(ranges, codeBlock, outOfOrder, lines);
    ghost var xs := Slices(lines, ranges);
    if Fits(|lines|, workers) && (outOfOrder || InOrder(codeBlock, lines)) {
      NoneAborts(codeBlock, outOfOrder, lines, workers);
      StreamsSize(codeBlock, lines, workers, tid);
      FitsSmall(|lines|, workers);
    }
    if ok {
      var actions, crashed;
      actions, ok := ExtractActions(jobs, tid);
      if ok {
        stat, crashed := Analyze(cfg, actions);
        ok := !crashed;
      }
      forall trace | Fits(|lines|, workers) && (outOfOrder || InOrder(codeBlock, lines))
          && Holds(cfg, lines, tid, trace)
        ensures ok && stat == AccountAll(cfg, NoStat, trace)
      {
        ExtractsTrace(cfg, lines, workers, tid, trace);
        StreamsBelow(cfg, lines, workers, tid, trace);
        HeldTrace(cfg, lines, tid, trace);
      }
    }
  }

  lemma {:induction false} FitsSmall(total: nat, workers: nat)
    requires (workers > 0 || total == 0) && Fits(total, workers)
    ensures total < U32
  {
  }

  lemma {:induction false} HeldTrace(cfg: Config, lines: seq<Line>, tid: int, trace: seq<Segment>)
    requires Holds(cfg, lines, tid, trace)
    ensures ValidTrace(cfg, trace) && TimeOrdered(TraceActions(trace))
  {
  }

  lemma {:induction false} NoneAborts(codeBlock: bool, outOfOrder: bool, lines: seq<Line>, workers: nat)
    requires (workers > 0 || lines == []) && Fits(|lines|, workers) && (outOfOrder || InOrder(codeBlock, lines))
    ensures !Aborts(codeBlock, outOfOrder, Slices(lines, Ranges(|lines|, workers)))
  {
    hide InOrder, Fits, Slices, Ranges, Flatten;
    var xs := Slices(lines, Ranges(|lines|, workers));
    SlicesJoin(lines, workers);
    if !outOfOrder {
      forall i | 0 <= i < |xs|
        ensures InOrder(codeBlock, xs[i])
      {
        PartInOrder(codeBlock, xs, i);
      }
    }
  }

  lemma {:induction false} StreamsBelow(cfg: Config, lines: seq<Line>, workers: nat, tid: int, trace: seq<Segment>)
    requires (workers > 0 || lines == []) && Fits(|lines|, workers) && Holds(cfg, lines, tid, trace)
    ensures var c := Concat(JobStreams(cfg.opt.codeBlock, Slices(lines, Ranges(|lines|, workers)), tid));
      forall a :: a in c ==> a.ts < MAX_TS
  {
    hide JobStreams, Slices, Ranges, Fits, Parsed, Errors, TraceActions, ValidTrace, Carries, Apart, Concat, Flatten;
    DecodesTrace(cfg, lines, tid, trace);
    SlicesJoin(lines, workers);
    StreamsBelowMax(cfg.opt.codeBlock, Slices(lines, Ranges(|lines|, workers)), tid);
  }
}
