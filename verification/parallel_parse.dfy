/** Decoding a trace in several parse jobs and putting each thread's actions together again. */
module ParallelParse {
  import opened Common
  import opened Analyzer
  import opened KwayMerge
  import opened ParseJobs

  datatype Line = Invalid | Line(tid: int, action: Action)

  /** The records `init_action` adds to the parsed actions. */
  predicate Kept(codeBlock: bool, a: Action) {
    && !a.isError
    && (a.fromTarget || a.toTarget || a.schedBegin || a.schedEnd)
    && (codeBlock || !(a.fromTarget && a.toTarget))
  }

  /** What one line adds to the parsed actions of a thread. */
  function ParsedOf(codeBlock: bool, l: Line, tid: int): seq<Action> {
    if l.Line? && l.tid == tid && Kept(codeBlock, l.action) then [l.action] else []
  }

  /** What one line adds to the error actions of a thread. */
  function ErrorOf(l: Line, tid: int): seq<Action> {
    if l.Line? && l.tid == tid && l.action.isError then [l.action] else []
  }

  function Parsed(codeBlock: bool, lines: seq<Line>, tid: int): seq<Action> {
    if lines == [] then [] else ParsedOf(codeBlock, lines[0], tid) + Parsed(codeBlock, lines[1..], tid)
  }

  function Errors(lines: seq<Line>, tid: int): seq<Action> {
    if lines == [] then [] else ErrorOf(lines[0], tid) + Errors(lines[1..], tid)
  }

  lemma {:induction false} Kinds(codeBlock: bool, lines: seq<Line>, tid: int)
    ensures forall a :: a in Parsed(codeBlock, lines, tid) ==> !a.isError
    ensures forall a :: a in Errors(lines, tid) ==> a.isError
    decreases |lines|
  {
    if lines != [] {
      Kinds(codeBlock, lines[1..], tid);
    }
  }

  lemma {:induction false} ConcatAssoc(x: seq<Action>, y: seq<Action>, z: seq<Action>)
    ensures x + (y + z) == x + y + z
  {
  }

  lemma {:induction false} ParsedConcat(codeBlock: bool, a: seq<Line>, b: seq<Line>, tid: int)
    ensures Parsed(codeBlock, a + b, tid) == Parsed(codeBlock, a, tid) + Parsed(codeBlock, b, tid)
    ensures Errors(a + b, tid) == Errors(a, tid) + Errors(b, tid)
    decreases |a|
  {
    hide ParsedOf, ErrorOf;
    if a == [] {
      assert a + b == b;
    } else {
      assert (a + b)[1..] == a[1..] + b && (a + b)[0] == a[0];
      ParsedConcat(codeBlock, a[1..], b, tid);
      ConcatAssoc(ParsedOf(codeBlock, a[0], tid), Parsed(codeBlock, a[1..], tid), Parsed(codeBlock, b, tid));
      ConcatAssoc(ErrorOf(a[0], tid), Errors(a[1..], tid), Errors(b, tid));
    }
  }

  // ----- `ActionSet::sort`, a stable sort by time

  function Insert(a: Action, s: seq<Action>): seq<Action> {
    if s == [] || a.ts <= s[0].ts then [a] + s else [s[0]] + Insert(a, s[1..])
  }

  function StableSort(s: seq<Action>): seq<Action> {
    if s == [] then [] else Insert(s[0], StableSort(s[1..]))
  }

  lemma {:induction false} SortedCons(a: Action, s: seq<Action>)
    requires Sorted(s) && forall x :: x in s ==> a.ts <= x.ts
    ensures Sorted([a] + s)
  {
  }

  lemma {:induction false} InsertAtLeast(a: Action, s: seq<Action>, m: nat)
    requires m <= a.ts && forall x :: x in s ==> m <= x.ts
    ensures forall x :: x in Insert(a, s) ==> m <= x.ts
    decreases |s|
  {
    if s != [] && a.ts > s[0].ts {
      InsertAtLeast(a, s[1..], m);
    }
  }

  lemma {:induction false} InsertSorted(a: Action, s: seq<Action>)
    requires Sorted(s)
    ensures Sorted(Insert(a, s))
    decreases |s|
  {
    if s == [] || a.ts <= s[0].ts {
      SortedCons(a, s);
    } else {
      InsertSorted(a, s[1..]);
      InsertAtLeast(a, s[1..], s[0].ts);
      SortedCons(s[0], Insert(a, s[1..]));
    }
  }

  lemma {:induction false} InsertPerm(a: Action, s: seq<Action>)
    ensures multiset(Insert(a, s)) == multiset{a} + multiset(s)
    decreases |s|
  {
    if s != [] && a.ts > s[0].ts {
      InsertPerm(a, s[1..]);
      assert s == [s[0]] + s[1..];
    }
  }

  lemma {:induction false} InsertInstant(a: Action, s: seq<Action>, t: nat)
    ensures AtTime(Insert(a, s), t) == AtTime([a] + s, t)
    decreases |s|
  {
    if s != [] && a.ts > s[0].ts {
      var r := s[1..];
      InsertInstant(a, r, t);
      assert s == [s[0]] + r && ([s[0]] + Insert(a, r))[1..] == Insert(a, r);
      assert ([a] + s)[1..] == s && ([a] + r)[1..] == r;
    }
  }

  lemma {:induction false} StableSortIs(s: seq<Action>)
    ensures Sorted(StableSort(s)) && multiset(StableSort(s)) == multiset(s)
    ensures SameInstants(StableSort(s), s)
    decreases |s|
  {
    if s != [] {
      var r := StableSort(s[1..]);
      StableSortIs(s[1..]);
      InsertSorted(s[0], r);
      InsertPerm(s[0], r);
      assert s == [s[0]] + s[1..];
      forall t: nat
        ensures AtTime(StableSort(s), t) == AtTime(s, t)
      {
        InsertInstant(s[0], r, t);
        assert ([s[0]] + r)[1..] == r;
      }
    }
  }

  lemma {:induction false} SortedStays(s: seq<Action>)
    requires Sorted(s)
    ensures StableSort(s) == s
  {
    StableSortIs(s);
    SortedUnique(StableSort(s), s);
  }

  // ----- one parse job

  function Get(m: map<int, seq<Action>>, tid: int): seq<Action> {
    if tid in m then m[tid] else []
  }

  function Append(m: map<int, seq<Action>>, tid: int, a: Action): map<int, seq<Action>> {
    m[tid := Get(m, tid) + [a]]
  }

  /** The lines numbered from `r.from` up to `r.to`. */
  function Slice(lines: seq<Line>, r: Range): seq<Line> {
    var lo := Min(r.from, |lines|);
    var hi := Min(r.to, |lines|);
    if lo < hi then lines[lo..hi] else []
  }

  lemma {:induction false} SliceTakes(lines: seq<Line>, r: Range, n: nat)
    requires n < |lines| && Reads(r, n)
    ensures Slice(lines[..n + 1], r) == Slice(lines[..n], r) + [lines[n]]
  {
    assert Slice(lines[..n + 1], r) == lines[r.from..n + 1];
    assert Slice(lines[..n], r) == lines[r.from..n];
  }

  lemma {:induction false} SliceSkips(lines: seq<Line>, r: Range, n: nat)
    requires n < |lines| && !Reads(r, n)
    ensures Slice(lines[..n + 1], r) == Slice(lines[..n], r)
  {
  }

  ghost predicate InOrder(codeBlock: bool, lines: seq<Line>) {
    forall tid :: Sorted(Parsed(codeBlock, lines, tid))
  }

  lemma {:induction false} ParsedNext(codeBlock: bool, lines: seq<Line>, l: Line, tid: int)
    ensures Parsed(codeBlock, lines + [l], tid) == Parsed(codeBlock, lines, tid) + ParsedOf(codeBlock, l, tid)
    ensures Errors(lines + [l], tid) == Errors(lines, tid) + ErrorOf(l, tid)
  {
    ParsedConcat(codeBlock, lines, [l], tid);
    assert [l][1..] == [];
  }

  lemma {:induction false} SlicePrefix(lines: seq<Line>, r: Range, n: nat)
    requires n <= |lines|
    ensures Slice(lines[..n], r) <= Slice(lines, r)
  {
    if r.from < Min(r.to, n) {
      assert Slice(lines[..n], r) == lines[r.from..Min(r.to, n)];
      assert Slice(lines, r) == lines[r.from..Min(r.to, |lines|)];
    }
  }

  lemma {:induction false} SortedNext(s: seq<Action>, a: Action)
    requires Sorted(s)
    ensures Sorted(s + [a]) <==> s == [] || Last(s).ts <= a.ts
  {
    if s != [] && Last(s).ts > a.ts {
      assert (s + [a])[|s| - 1].ts > (s + [a])[|s|].ts;
    }
  }

  /** A kept record leaves its thread in order unless it runs backwards. */
  lemma {:induction false} InOrderNext(codeBlock: bool, lines: seq<Line>, tid: int, a: Action)
    requires InOrder(codeBlock, lines) && Kept(codeBlock, a)
    ensures InOrder(codeBlock, lines + [Line(tid, a)])
      <==> Parsed(codeBlock, lines, tid) == [] || Last(Parsed(codeBlock, lines, tid)).ts <= a.ts
  {
    hide Parsed, Sorted, Kept;
    var l := Line(tid, a);
    ParsedNext(codeBlock, lines, l, tid);
    SortedNext(Parsed(codeBlock, lines, tid), a);
    forall u | u != tid
      ensures Parsed(codeBlock, lines + [l], u) == Parsed(codeBlock, lines, u)
    {
      ParsedNext(codeBlock, lines, l, u);
    }
  }

  lemma {:induction false} InOrderSkip(codeBlock: bool, lines: seq<Line>, l: Line)
    requires l.Line? ==> !Kept(codeBlock, l.action)
    ensures InOrder(codeBlock, lines + [l]) <==> InOrder(codeBlock, lines)
  {
    hide Parsed, Sorted, Kept;
    forall u
      ensures Parsed(codeBlock, lines + [l], u) == Parsed(codeBlock, lines, u)
    {
      ParsedNext(codeBlock, lines, l, u);
    }
  }

  /** The maps hold what the lines say, for every thread. */
  ghost predicate Holding(parsed: map<int, seq<Action>>, errors: map<int, seq<Action>>, codeBlock: bool,
                          lines: seq<Line>) {
    forall tid :: Get(parsed, tid) == Parsed(codeBlock, lines, tid) && Get(errors, tid) == Errors(lines, tid)
  }

  lemma {:induction false} HoldingNext(parsed: map<int, seq<Action>>, errors: map<int, seq<Action>>, codeBlock: bool,
                                       lines: seq<Line>, l: Line)
    requires Holding(parsed, errors, codeBlock, lines)
    ensures Holding(if l.Line? && Kept(codeBlock, l.action) then Append(parsed, l.tid, l.action) else parsed,
                    if l.Line? && l.action.isError then Append(errors, l.tid, l.action) else errors,
                    codeBlock, lines + [l])
  {
    hide Parsed, Errors, Kept;
    var p := if l.Line? && Kept(codeBlock, l.action) then Append(parsed, l.tid, l.action) else parsed;
    var e := if l.Line? && l.action.isError then Append(errors, l.tid, l.action) else errors;
    forall tid
      ensures Get(p, tid) == Parsed(codeBlock, lines + [l], tid) && Get(e, tid) == Errors(lines + [l], tid)
    {
      ParsedNext(codeBlock, lines, l, tid);
      assert Get(parsed, tid) == Parsed(codeBlock, lines, tid) && Get(errors, tid) == Errors(lines, tid);
    }
  }

  lemma {:induction false} StaysOutOfOrder(codeBlock: bool, lines: seq<Line>, r: Range, n: nat)
    requires n <= |lines| && !InOrder(codeBlock, Slice(lines[..n], r))
    ensures !InOrder(codeBlock, Slice(lines, r))
  {
    hide Parsed, Errors, Slice;
    SlicePrefix(lines, r, n);
    var a := Slice(lines[..n], r);
    var b := Slice(lines, r)[|a|..];
    assert Slice(lines, r) == a + b;
    var tid :| !Sorted(Parsed(codeBlock, a, tid));
    ParsedConcat(codeBlock, a, b, tid);
    var s, t := Parsed(codeBlock, a, tid), Parsed(codeBlock, a + b, tid);
    var i, j :| 0 <= i < j < |s| && s[i].ts > s[j].ts;
    assert t[i] == s[i] && t[j] == s[j];
  }

  lemma {:induction false} NothingRead(codeBlock: bool, lines: seq<Line>, r: Range)
    ensures InOrder(codeBlock, Slice(lines[..0], r)) && Holding(map[], map[], codeBlock, Slice(lines[..0], r))
  {
  }

  lemma {:induction false} HoldingAt(parsed: map<int, seq<Action>>, errors: map<int, seq<Action>>, codeBlock: bool,
                                     lines: seq<Line>, tid: int)
    requires Holding(parsed, errors, codeBlock, lines)
    ensures Get(parsed, tid) == Parsed(codeBlock, lines, tid) && Get(errors, tid) == Errors(lines, tid)
  {
  }

  /**
   * The records that matter to the analysis: those from or to the target,
   * between two points of the target only with code blocks, and those that
   * enter or leave the scheduler.
   */
  predicate Matters(codeBlock: bool, a: Action) {
    if a.isError then false
    else if a.fromTarget && a.toTarget then codeBlock
    else if a.fromTarget || a.toTarget then true
    else a.schedBegin || a.schedEnd
  }

  lemma {:induction false} ParsedHolds(codeBlock: bool, lines: seq<Line>, tid: int, a: Action)
    ensures a in Parsed(codeBlock, lines, tid) <==> Line(tid, a) in lines && Matters(codeBlock, a)
    ensures a in Errors(lines, tid) <==> Line(tid, a) in lines && a.isError
    decreases |lines|
  {
    if lines != [] {
      ParsedHolds(codeBlock, lines[1..], tid, a);
      assert lines == [lines[0]] + lines[1..];
    }
  }

  lemma {:induction false} HeldIs(parsed: map<int, seq<Action>>, errors: map<int, seq<Action>>, codeBlock: bool,
                                  lines: seq<Line>)
    requires Holding(parsed, errors, codeBlock, lines)
    ensures forall tid, a :: a in Get(parsed, tid) <==> Line(tid, a) in lines && Matters(codeBlock, a)
    ensures forall tid, a :: a in Get(errors, tid) <==> Line(tid, a) in lines && a.isError
  {
    hide Parsed, Errors, Matters, Get;
    forall tid, a
      ensures a in Get(parsed, tid) <==> Line(tid, a) in lines && Matters(codeBlock, a)
      ensures a in Get(errors, tid) <==> Line(tid, a) in lines && a.isError
    {
      HoldingAt(parsed, errors, codeBlock, lines, tid);
      ParsedHolds(codeBlock, lines, tid, a);
    }
  }

  class ParseJob {
    const range: Range
    var parsed: map<int, seq<Action>>
    var errors: map<int, seq<Action>>

    constructor (r: Range)
      ensures range == r && parsed == map[] && errors == map[]
    {
      range, parsed, errors := r, map[], map[];
    }

    ghost predicate Holds(codeBlock: bool, lines: seq<Line>)
      reads this
    {
      Holding(parsed, errors, codeBlock, lines)
    }

    /** Every record of the lines that matters is held for its thread, every error too, and nothing else. */
    ghost predicate HoldsJust(codeBlock: bool, lines: seq<Line>)
      reads this
    {
      && (forall tid, a :: a in Get(parsed, tid) <==> Line(tid, a) in lines && Matters(codeBlock, a))
      && (forall tid, a :: a in Get(errors, tid) <==> Line(tid, a) in lines && a.isError)
    }

    /** `add_action`, with its assertion as the result. */
    method AddAction(outOfOrder: bool, tid: int, a: Action) returns (ok: bool)
      modifies this`parsed
      ensures ok <==> outOfOrder || a.isError || old(Get(parsed, tid)) == [] || Last(old(Get(parsed, tid))).ts <= a.ts
      ensures parsed == if ok then Append(old(parsed), tid, a) else old(parsed)
    {
      var acts := if tid in parsed then parsed[tid] else [];
      ok := outOfOrder || acts == [] || a.ts >= acts[|acts| - 1].ts || a.isError;
      if ok {
        parsed := parsed[tid := acts + [a]];
      }
    }

    /** What `decode_to_actions` does with one decoded line. */
    method ReadLine(codeBlock: bool, outOfOrder: bool, line: Line, ghost seen: seq<Line>) returns (ok: bool)
      requires Holds(codeBlock, seen) && (outOfOrder || InOrder(codeBlock, seen))
      modifies this
      ensures ok <==> outOfOrder || InOrder(codeBlock, seen + [line])
      ensures ok ==> Holds(codeBlock, seen + [line])
    {
      hide InOrder, Holding, Parsed, Errors;
      HoldingNext(parsed, errors, codeBlock, seen, line);
      HoldingAt(parsed, errors, codeBlock, seen, if line.Line? then line.tid else 0);
      ok := true;
      if line.Line? && !line.action.isError && Kept(codeBlock, line.action) {
        if !outOfOrder { InOrderNext(codeBlock, seen, line.tid, line.action); }
        ok := AddAction(outOfOrder, line.tid, line.action);
        return;
      }
      InOrderSkip(codeBlock, seen, line);
      if line.Line? && line.action.isError {
        errors := errors[line.tid := (if line.tid in errors then errors[line.tid] else []) + [line.action]];
      }
    }

    /**
     * `decode_to_actions`, reading every line and skipping those of other
     * jobs. It aborts exactly when a thread's kept records run backwards.
     */
    method DecodeToActions(codeBlock: bool, outOfOrder: bool, lines: seq<Line>) returns (ok: bool)
      requires parsed == map[] && errors == map[]
      modifies this
      ensures ok <==> outOfOrder || InOrder(codeBlock, Slice(lines, range))
      ensures ok ==> Holds(codeBlock, Slice(lines, range))
      ensures ok ==> HoldsJust(codeBlock, Slice(lines, range))
    {
      hide InOrder, Slice, Holding, Matters;
      NothingRead(codeBlock, lines, range);
      var lnum := 0;
      while lnum < |lines|
        invariant lnum <= |lines|
        invariant Holds(codeBlock, Slice(lines[..lnum], range))
        invariant outOfOrder || InOrder(codeBlock, Slice(lines[..lnum], range))
      {
        if lnum < range.from || lnum >= range.to {
          SliceSkips(lines, range, lnum);
          lnum := lnum + 1;
          continue;
        }
        SliceTakes(lines, range, lnum);
        ghost var seen := Slice(lines[..lnum], range);
        ok := ReadLine(codeBlock, outOfOrder, lines[lnum], seen);
        lnum := lnum + 1;
        if !ok {
          StaysOutOfOrder(codeBlock, lines, range, lnum);
          return;
        }
      }
      assert lines[..lnum] == lines;
      ok := true;
      HeldIs(parsed, errors, codeBlock, Slice(lines, range));
    }

    /** `sort_actions`: the error actions always, the parsed ones only when they may be out of order. */
    method SortActions(outOfOrder: bool)
      modifies this
      ensures StablySorted(old(errors), errors)
      ensures if outOfOrder then StablySorted(old(parsed), parsed) else parsed == old(parsed)
    {
      hide StablySorted, Sort;
      SortEach(errors);
      SortEach(parsed);
      errors := Sort(errors);
      if outOfOrder {
        parsed := Sort(parsed);
      }
    }

    /** `exec`: afterwards both sets of every thread are in time order. */
    method Exec(codeBlock: bool, outOfOrder: bool, lines: seq<Line>) returns (ok: bool)
      requires parsed == map[] && errors == map[]
      modifies this
      ensures ok <==> outOfOrder || InOrder(codeBlock, Slice(lines, range))
      ensures ok ==> forall tid :: Get(parsed, tid) == StableSort(Parsed(codeBlock, Slice(lines, range), tid))
      ensures ok ==> forall tid :: Get(errors, tid) == StableSort(Errors(Slice(lines, range), tid))
    {
      hide Parsed, Errors, Slice, StableSort, StablySorted;
      ok := DecodeToActions(codeBlock, outOfOrder, lines);
      if ok {
        ghost var p, e := parsed, errors;
        SortActions(outOfOrder);
        ExecHolds(p, e, parsed, errors, codeBlock, outOfOrder, Slice(lines, range));
      }
    }
  }

  /** Every set is in time order, and the actions of one instant are those they were, in the same order. */
  ghost predicate StablySorted(was: map<int, seq<Action>>, now: map<int, seq<Action>>) {
    now.Keys == was.Keys && forall tid :: tid in was ==> Sorted(now[tid]) && SameInstants(now[tid], was[tid])
  }

  function Sort(m: map<int, seq<Action>>): map<int, seq<Action>> {
    map tid | tid in m :: StableSort(m[tid])
  }

  lemma {:induction false} SortEach(m: map<int, seq<Action>>)
    ensures StablySorted(m, Sort(m))
  {
    hide Sorted, SameInstants, StableSort;
    assert Sort(m).Keys == m.Keys;
    forall tid | tid in m
      ensures Sorted(StableSort(m[tid])) && SameInstants(StableSort(m[tid]), m[tid])
    {
      StableSortIs(m[tid]);
    }
  }

  /** A stable sort has one result. */
  lemma {:induction false} StablySortedAt(was: map<int, seq<Action>>, now: map<int, seq<Action>>, tid: int)
    requires StablySorted(was, now)
    ensures Get(now, tid) == StableSort(Get(was, tid))
  {
    hide Sorted, SameInstants, StableSort;
    StableSortIs(Get(was, tid));
    if tid in was {
      SameInstantsTwice(now[tid], was[tid], StableSort(was[tid]));
      SortedUnique(now[tid], StableSort(was[tid]));
    } else {
      SortedStays([]);
    }
  }

  lemma {:induction false} SameInstantsTwice(a: seq<Action>, b: seq<Action>, c: seq<Action>)
    requires SameInstants(a, b) && SameInstants(c, b)
    ensures SameInstants(a, c)
  {
  }

  lemma {:induction false} ExecHolds(parsed: map<int, seq<Action>>, errors: map<int, seq<Action>>,
                                     sortedParsed: map<int, seq<Action>>, sortedErrors: map<int, seq<Action>>,
                                     codeBlock: bool, outOfOrder: bool, lines: seq<Line>)
    requires Holding(parsed, errors, codeBlock, lines) && (outOfOrder || InOrder(codeBlock, lines))
    requires StablySorted(errors, sortedErrors)
    requires if outOfOrder then StablySorted(parsed, sortedParsed) else sortedParsed == parsed
    ensures forall tid :: Get(sortedParsed, tid) == StableSort(Parsed(codeBlock, lines, tid))
    ensures forall tid :: Get(sortedErrors, tid) == StableSort(Errors(lines, tid))
  {
    hide Parsed, Errors, StablySorted, Sorted, StableSort;
    forall tid
      ensures Get(sortedParsed, tid) == StableSort(Parsed(codeBlock, lines, tid))
      ensures Get(sortedErrors, tid) == StableSort(Errors(lines, tid))
    {
      HoldingAt(parsed, errors, codeBlock, lines, tid);
      StablySortedAt(errors, sortedErrors, tid);
      if outOfOrder { StablySortedAt(parsed, sortedParsed, tid); } else { SortedStays(Parsed(codeBlock, lines, tid)); }
    }
  }

  // ----- putting a thread together

  /** What the merge reads: job `i / 2`, its error actions at odd places. */
  function Stream(jobs: seq<ParseJob>, tid: int, i: nat): seq<Action>
    requires i < 2 * |jobs|
    reads jobs
  {
    if i % 2 == 1 then Get(jobs[i / 2].errors, tid) else Get(jobs[i / 2].parsed, tid)
  }

  ghost function Streams(jobs: seq<ParseJob>, tid: int): (s: seq<seq<Action>>)
    reads jobs
    ensures |s| == 2 * |jobs| && forall i :: 0 <= i < |s| ==> s[i] == Stream(jobs, tid, i)
  {
    seq(2 * |jobs|, i requires 0 <= i < 2 * |jobs| reads jobs => Stream(jobs, tid, i))
  }

  /** The streams from given positions on. */
  ghost function Rest(streams: seq<seq<Action>>, at: seq<nat>): seq<seq<Action>>
    requires |at| == |streams| && forall i :: 0 <= i < |at| ==> at[i] <= |streams[i]|
  {
    seq(|streams|, i requires 0 <= i < |streams| => streams[i][at[i]..])
  }

  lemma {:induction false} RestAdvance(streams: seq<seq<Action>>, at: seq<nat>, b: nat)
    requires |at| == |streams| && (forall i :: 0 <= i < |at| ==> at[i] <= |streams[i]|)
    requires b < |at| && at[b] < |streams[b]|
    ensures Rest(streams, at[b := at[b] + 1]) == Drop(Rest(streams, at), b)
  {
    var r, r' := Rest(streams, at), Rest(streams, at[b := at[b] + 1]);
    assert streams[b][at[b]..][1..] == streams[b][at[b] + 1..];
    assert forall i :: 0 <= i < |r| ==> r'[i] == Drop(r, b)[i];
  }

  lemma {:induction false} RestStart(streams: seq<seq<Action>>, at: seq<nat>)
    requires |at| == |streams| && forall i :: 0 <= i < |at| ==> at[i] == 0
    ensures Rest(streams, at) == streams
  {
    assert forall i :: 0 <= i < |streams| ==> streams[i][0..] == streams[i];
  }

  /**
   * `extract_actions`: takes the earliest head among all jobs until none is
   * left below the maximal time, then checks the number of actions.
   */
  method ExtractActions(jobs: seq<ParseJob>, tid: int) returns (actions: seq<Action>, ok: bool)
    ensures actions == Merged(Streams(jobs, tid))
    ensures |Concat(Streams(jobs, tid))| < U32 ==>
      (ok <==> forall a :: a in Concat(Streams(jobs, tid)) ==> a.ts < MAX_TS)
  {
    hide Merged, Concat, Best;
    ghost var streams := Streams(jobs, tid);
    var total := CountActions(jobs, tid);
    actions := [];
    var pointers: seq<nat> := seq(2 * |jobs|, _ => 0);
    RestStart(streams, pointers);
    while true
      invariant |pointers| == |streams| && forall i :: 0 <= i < |streams| ==> pointers[i] <= |streams[i]|
      invariant actions + Merged(Rest(streams, pointers)) == Merged(streams)
      decreases |Concat(Rest(streams, pointers))|
    {
      var min := Earliest(jobs, tid, pointers);
      MergedStep(Rest(streams, pointers));
      if min.None? {
        break;
      }
      RestAdvance(streams, pointers, min.value);
      actions := actions + [Stream(jobs, tid, min.value)[pointers[min.value]]];
      pointers := pointers[min.value := pointers[min.value] + 1];
    }
    ok := |actions| == total;
    CompleteIff(streams);
  }

  lemma {:induction false} MergedStep(streams: seq<seq<Action>>)
    ensures var b := Best(streams, |streams|);
      if b.None? then Merged(streams) == []
      else
        && Merged(streams) == [streams[b.value][0]] + Merged(Drop(streams, b.value))
        && |Concat(Drop(streams, b.value))| < |Concat(streams)|
  {
    var b := Best(streams, |streams|);
    if b.Some? { DropHead(streams, b.value); }
  }

  lemma {:induction false} BestNext(streams: seq<seq<Action>>, n: nat)
    requires n <= |streams|
    ensures n == 0 ==> Best(streams, n) == None
    ensures n > 0 ==> var b := Best(streams, n - 1);
      Best(streams, n) == if Ready(streams[n - 1])
          && (b.None? || streams[n - 1][0].ts < streams[b.value][0].ts) then Some(n - 1) else b
  {
  }

  /** The scan over the heads. */
  method Earliest(jobs: seq<ParseJob>, tid: int, pointers: seq<nat>) returns (min: Maybe<nat>)
    requires |pointers| == 2 * |jobs| && forall i :: 0 <= i < |pointers| ==> pointers[i] <= |Streams(jobs, tid)[i]|
    ensures min == Best(Rest(Streams(jobs, tid), pointers), |pointers|)
  {
    hide Best;
    ghost var rest := Rest(Streams(jobs, tid), pointers);
    min := None;
    var minTs := MAX_TS;
    BestNext(rest, 0);
    for i := 0 to |pointers|
      invariant min == Best(rest, i) && minTs == if min.None? then MAX_TS else rest[min.value][0].ts
    {
      BestNext(rest, i + 1);
      var stream := Stream(jobs, tid, i);
      assert rest[i] == stream[pointers[i]..];
      if pointers[i] < |stream| {
        var action := stream[pointers[i]];
        if action.ts < minTs {
          minTs, min := action.ts, Some(i);
        }
      }
    }
  }

  lemma {:induction false} ConcatTwo(streams: seq<seq<Action>>, n: nat)
    requires n + 2 <= |streams|
    ensures |Concat(streams[..n + 2])| == |Concat(streams[..n])| + |streams[n]| + |streams[n + 1]|
  {
    var s, t := streams[..n + 2], streams[..n + 1];
    ConcatSplit(s, n + 1);
    assert s[..n + 1] == t && s[n + 2..] == [];
    ConcatSplit(t, n);
    assert t[..n] == streams[..n] && t[n + 1..] == [];
  }

  lemma {:induction false} WrapSum(x: nat, y: nat, z: nat)
    ensures ((x % U32 + y) % U32 + z) % U32 == (x + y + z) % U32
  {
  }

  /** The sizes of a thread's sets, added up in 32 bits. */
  method CountActions(jobs: seq<ParseJob>, tid: int) returns (total: nat)
    ensures total == |Concat(Streams(jobs, tid))| % U32
  {
    hide Concat;
    ghost var streams := Streams(jobs, tid);
    total := 0;
    NoStreams();
    assert streams[..0] == [];
    for i := 0 to |jobs|
      invariant total == |Concat(streams[..2 * i])| % U32
    {
      ConcatTwo(streams, 2 * i);
      assert Stream(jobs, tid, 2 * i) == Get(jobs[i].parsed, tid)
          && Stream(jobs, tid, 2 * i + 1) == Get(jobs[i].errors, tid);
      WrapSum(|Concat(streams[..2 * i])|, |streams[2 * i]|, |streams[2 * i + 1]|);
      total := (total + |Get(jobs[i].parsed, tid)|) % U32;
      total := (total + |Get(jobs[i].errors, tid)|) % U32;
    }
    assert streams[..2 * |jobs|] == streams;
  }

  lemma {:induction false} NoStreams()
    ensures Concat([]) == []
  {
  }
}
