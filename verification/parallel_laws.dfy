/** The parallel decode and merge against a run with a single job. */
module ParallelLaws {
  import opened Analyzer
  import opened KwayMerge
  import opened ParseJobs
  import opened ParallelParse

  function Flatten(xs: seq<seq<Line>>): seq<Line> {
    if xs == [] then [] else xs[0] + Flatten(xs[1..])
  }

  /** The streams of one thread after each job has read its part. */
  function JobStreams(codeBlock: bool, xs: seq<seq<Line>>, tid: int): seq<seq<Action>> {
    if xs == [] then []
    else
      var first := [StableSort(Parsed(codeBlock, xs[0], tid)), StableSort(Errors(xs[0], tid))];
      first + JobStreams(codeBlock, xs[1..], tid)
  }

  lemma {:induction false} JobStreamsSize(codeBlock: bool, xs: seq<seq<Line>>, tid: int)
    ensures |JobStreams(codeBlock, xs, tid)| == 2 * |xs|
    decreases |xs|
  {
    if xs != [] {
      JobStreamsSize(codeBlock, xs[1..], tid);
    }
  }

  lemma {:induction false} JobStreamsAt(codeBlock: bool, xs: seq<seq<Line>>, tid: int, k: nat)
    requires k < |xs|
    ensures |JobStreams(codeBlock, xs, tid)| == 2 * |xs|
    ensures JobStreams(codeBlock, xs, tid)[2 * k] == StableSort(Parsed(codeBlock, xs[k], tid))
    ensures JobStreams(codeBlock, xs, tid)[2 * k + 1] == StableSort(Errors(xs[k], tid))
    decreases k
  {
    hide Parsed, Errors, StableSort;
    JobStreamsSize(codeBlock, xs, tid);
    if k > 0 {
      var ys := xs[1..];
      JobStreamsAt(codeBlock, ys, tid, k - 1);
      assert JobStreams(codeBlock, xs, tid)[2 * k] == JobStreams(codeBlock, ys, tid)[2 * (k - 1)];
      assert JobStreams(codeBlock, xs, tid)[2 * k + 1] == JobStreams(codeBlock, ys, tid)[2 * (k - 1) + 1];
    }
  }

  /** What `ParseJob.Exec` leaves in the jobs is what `ExtractActions` merges. */
  lemma {:induction false} StreamsAre(codeBlock: bool, jobs: seq<ParseJob>, xs: seq<seq<Line>>, tid: int)
    requires |jobs| == |xs|
    requires forall k :: 0 <= k < |jobs| ==> Get(jobs[k].parsed, tid) == StableSort(Parsed(codeBlock, xs[k], tid))
    requires forall k :: 0 <= k < |jobs| ==> Get(jobs[k].errors, tid) == StableSort(Errors(xs[k], tid))
    ensures Streams(jobs, tid) == JobStreams(codeBlock, xs, tid)
  {
    hide Parsed, Errors, StableSort, JobStreams;
    JobStreamsSize(codeBlock, xs, tid);
    forall i | 0 <= i < 2 * |jobs|
      ensures Streams(jobs, tid)[i] == JobStreams(codeBlock, xs, tid)[i]
    {
      JobStreamsAt(codeBlock, xs, tid, i / 2);
      assert i == 2 * (i / 2) || i == 2 * (i / 2) + 1;
    }
  }

  // ----- the parts make up the trace

  function Slices(lines: seq<Line>, jobs: seq<Range>): seq<seq<Line>> {
    seq(|jobs|, i requires 0 <= i < |jobs| => Slice(lines, jobs[i]))
  }

  lemma {:induction false} FlattenSnoc(xs: seq<seq<Line>>, x: seq<Line>)
    ensures Flatten(xs + [x]) == Flatten(xs) + x
    decreases |xs|
  {
    if xs == [] {
      assert [x][1..] == [];
    } else {
      assert (xs + [x])[1..] == xs[1..] + [x];
      FlattenSnoc(xs[1..], x);
    }
  }

  lemma {:induction false} ShareSlice(lines: seq<Line>, step: nat, i: nat)
    ensures lines[..Min(i * step, |lines|)] + Slice(lines, Share(|lines|, step, i)) ==
      lines[..Min((i + 1) * step, |lines|)]
  {
    assert (i + 1) * step == i * step + step;
  }

  lemma {:induction false} SlicesPrefix(lines: seq<Line>, workers: nat, k: nat)
    requires |lines| > 100 * workers && workers > 0 && Fits(|lines|, workers) && k <= workers
    ensures Flatten(Slices(lines, Ranges(|lines|, workers))[..k]) ==
      lines[..Min(k * StepSize(|lines|, workers), |lines|)]
    decreases k
  {
    hide Share, Slice, StepSize;
    var xs := Slices(lines, Ranges(|lines|, workers));
    if k == 0 {
      assert xs[..0] == [] && 0 * StepSize(|lines|, workers) == 0;
    } else {
      SlicesPrefix(lines, workers, k - 1);
      assert xs[..k] == xs[..k - 1] + [xs[k - 1]];
      FlattenSnoc(xs[..k - 1], xs[k - 1]);
      NotCut(|lines|, workers, k - 1);
      ShareSlice(lines, StepSize(|lines|, workers), k - 1);
    }
  }

  /** Read one after the other, the parts of all jobs are the whole trace. */
  lemma {:induction false} SlicesJoin(lines: seq<Line>, workers: nat)
    requires (workers > 0 || lines == []) && Fits(|lines|, workers)
    ensures Flatten(Slices(lines, Ranges(|lines|, workers))) == lines
  {
    var xs := Slices(lines, Ranges(|lines|, workers));
    if |lines| > 100 * workers {
      SlicesPrefix(lines, workers, workers);
      StepCovers(|lines|, workers);
      assert xs[..workers] == xs;
    } else {
      assert xs == [Slice(lines, WHOLE)] && Slice(lines, WHOLE) == lines;
      assert xs[1..] == [];
    }
  }

  // ----- what the streams hold

  lemma {:induction false} FlattenHead(codeBlock: bool, xs: seq<seq<Line>>, tid: int)
    requires xs != []
    ensures Parsed(codeBlock, Flatten(xs), tid) ==
      Parsed(codeBlock, xs[0], tid) + Parsed(codeBlock, Flatten(xs[1..]), tid)
    ensures Errors(Flatten(xs), tid) == Errors(xs[0], tid) + Errors(Flatten(xs[1..]), tid)
  {
    ParsedConcat(codeBlock, xs[0], Flatten(xs[1..]), tid);
  }

  lemma {:induction false} ConcatHead(codeBlock: bool, xs: seq<seq<Line>>, tid: int)
    requires xs != []
    ensures Concat(JobStreams(codeBlock, xs, tid)) ==
      StableSort(Parsed(codeBlock, xs[0], tid))
          + (StableSort(Errors(xs[0], tid)) + Concat(JobStreams(codeBlock, xs[1..], tid)))
  {
    hide Parsed, Errors, StableSort;
    var p, e, r := StableSort(Parsed(codeBlock, xs[0], tid)), StableSort(Errors(xs[0], tid)),
        JobStreams(codeBlock, xs[1..], tid);
    assert ([p, e] + r)[1..] == [e] + r && ([e] + r)[1..] == r;
  }

  lemma {:induction false} StreamsSorted(codeBlock: bool, xs: seq<seq<Line>>, tid: int)
    ensures AllSorted(JobStreams(codeBlock, xs, tid))
  {
    hide Parsed, Errors, StableSort, JobStreams;
    JobStreamsSize(codeBlock, xs, tid);
    forall i | 0 <= i < 2 * |xs|
      ensures Sorted(JobStreams(codeBlock, xs, tid)[i])
    {
      JobStreamsAt(codeBlock, xs, tid, i / 2);
      assert i == 2 * (i / 2) || i == 2 * (i / 2) + 1;
      StableSortIs(Errors(xs[i / 2], tid));
      StableSortIs(Parsed(codeBlock, xs[i / 2], tid));
    }
  }

  lemma {:induction false} StreamsPerm(codeBlock: bool, xs: seq<seq<Line>>, tid: int)
    ensures multiset(Concat(JobStreams(codeBlock, xs, tid))) ==
      multiset(Parsed(codeBlock, Flatten(xs), tid)) + multiset(Errors(Flatten(xs), tid))
    decreases |xs|
  {
    if xs != [] {
      hide *;
      StreamsPerm(codeBlock, xs[1..], tid);
      FlattenHead(codeBlock, xs, tid);
      ConcatHead(codeBlock, xs, tid);
      StableSortIs(Parsed(codeBlock, xs[0], tid));
      StableSortIs(Errors(xs[0], tid));
    }
  }

  /** One instant in the order of the jobs: parsed actions, then errors, job after job. */
  function Mixed(codeBlock: bool, xs: seq<seq<Line>>, tid: int, t: nat): seq<Action> {
    if xs == [] then []
    else AtTime(Parsed(codeBlock, xs[0], tid), t) + (AtTime(Errors(xs[0], tid), t) + Mixed(codeBlock, xs[1..], tid, t))
  }

  lemma {:induction false} SortedInstant(s: seq<Action>, t: nat)
    ensures AtTime(StableSort(s), t) == AtTime(s, t)
  {
    StableSortIs(s);
  }

  lemma {:induction false} StreamsInstant(codeBlock: bool, xs: seq<seq<Line>>, tid: int, t: nat)
    ensures AtTime(Concat(JobStreams(codeBlock, xs, tid)), t) == Mixed(codeBlock, xs, tid, t)
    decreases |xs|
  {
    if xs != [] {
      hide Parsed, Errors, StableSort, JobStreams, Concat, AtTime;
      StreamsInstant(codeBlock, xs[1..], tid, t);
      ConcatHead(codeBlock, xs, tid);
      var p, e, r := Parsed(codeBlock, xs[0], tid), Errors(xs[0], tid), Concat(JobStreams(codeBlock, xs[1..], tid));
      AtTimeConcat(StableSort(p), StableSort(e) + r, t);
      AtTimeConcat(StableSort(e), r, t);
      SortedInstant(p, t); SortedInstant(e, t);
    }
  }

  ghost predicate BelowMax(codeBlock: bool, lines: seq<Line>, tid: int) {
    && (forall a :: a in Parsed(codeBlock, lines, tid) ==> a.ts < MAX_TS)
    && (forall a :: a in Errors(lines, tid) ==> a.ts < MAX_TS)
  }

  lemma {:induction false} StreamsBelowMax(codeBlock: bool, xs: seq<seq<Line>>, tid: int)
    requires BelowMax(codeBlock, Flatten(xs), tid)
    ensures forall a :: a in Concat(JobStreams(codeBlock, xs, tid)) ==> a.ts < MAX_TS
  {
    hide Parsed, Errors, Concat, JobStreams;
    StreamsPerm(codeBlock, xs, tid);
    forall a | a in Concat(JobStreams(codeBlock, xs, tid))
      ensures a.ts < MAX_TS
    {
      assert a in multiset(Concat(JobStreams(codeBlock, xs, tid)));
    }
  }

  // ----- the results

  /** However the trace is split, a thread gets all its actions, in time order. */
  lemma {:induction false} SortedPermutation(codeBlock: bool, xs: seq<seq<Line>>, tid: int)
    requires BelowMax(codeBlock, Flatten(xs), tid)
    ensures Sorted(Merged(JobStreams(codeBlock, xs, tid)))
    ensures multiset(Merged(JobStreams(codeBlock, xs, tid))) ==
      multiset(Parsed(codeBlock, Flatten(xs), tid)) + multiset(Errors(Flatten(xs), tid))
  {
    hide *;
    StreamsSorted(codeBlock, xs, tid);
    StreamsBelowMax(codeBlock, xs, tid);
    MergedSorted(JobStreams(codeBlock, xs, tid));
    MergedAll(JobStreams(codeBlock, xs, tid));
    StreamsPerm(codeBlock, xs, tid);
  }

  /** An error of an earlier part and a parsed action of a later part share an instant. */
  ghost predicate LateTie(codeBlock: bool, xs: seq<seq<Line>>, tid: int, t: nat) {
    exists i, j :: 0 <= i < j < |xs| && AtTime(Errors(xs[i], tid), t) != []
        && AtTime(Parsed(codeBlock, xs[j], tid), t) != []
  }

  /** The same instant when one job reads everything. */
  function Straight(codeBlock: bool, lines: seq<Line>, tid: int, t: nat): seq<Action> {
    AtTime(Parsed(codeBlock, lines, tid), t) + AtTime(Errors(lines, tid), t)
  }

  lemma {:induction false} InstantKinds(codeBlock: bool, lines: seq<Line>, tid: int, t: nat)
    ensures forall a :: a in AtTime(Parsed(codeBlock, lines, tid), t) ==> !a.isError
    ensures forall a :: a in AtTime(Errors(lines, tid), t) ==> a.isError
  {
    hide Parsed, Errors;
    Kinds(codeBlock, lines, tid);
    AtTimeIn(Parsed(codeBlock, lines, tid), t);
    AtTimeIn(Errors(lines, tid), t);
  }

  lemma {:induction false} AtTimeIn(s: seq<Action>, t: nat)
    ensures forall a :: a in AtTime(s, t) ==> a in s
    decreases |s|
  {
    if s != [] {
      AtTimeIn(s[1..], t);
    }
  }

  lemma {:induction false} ParsedSomewhere(codeBlock: bool, xs: seq<seq<Line>>, tid: int, t: nat) returns (j: nat)
    requires AtTime(Parsed(codeBlock, Flatten(xs), tid), t) != []
    ensures j < |xs| && AtTime(Parsed(codeBlock, xs[j], tid), t) != []
    decreases |xs|
  {
    if AtTime(Parsed(codeBlock, xs[0], tid), t) != [] {
      j := 0;
    } else {
      FlattenHead(codeBlock, xs, tid);
      AtTimeConcat(Parsed(codeBlock, xs[0], tid), Parsed(codeBlock, Flatten(xs[1..]), tid), t);
      j := ParsedSomewhere(codeBlock, xs[1..], tid, t);
      j := j + 1;
    }
  }

  lemma {:induction false} StraightHead(codeBlock: bool, xs: seq<seq<Line>>, tid: int, t: nat)
    requires xs != []
    ensures Straight(codeBlock, Flatten(xs), tid, t) ==
      AtTime(Parsed(codeBlock, xs[0], tid), t) + AtTime(Parsed(codeBlock, Flatten(xs[1..]), tid), t)
      + (AtTime(Errors(xs[0], tid), t) + AtTime(Errors(Flatten(xs[1..]), tid), t))
  {
    hide Parsed, Errors, AtTime, Flatten;
    FlattenHead(codeBlock, xs, tid);
    AtTimeConcat(Parsed(codeBlock, xs[0], tid), Parsed(codeBlock, Flatten(xs[1..]), tid), t);
    AtTimeConcat(Errors(xs[0], tid), Errors(Flatten(xs[1..]), tid), t);
  }

  lemma {:induction false} Swap(p: seq<Action>, e: seq<Action>, q: seq<Action>, f: seq<Action>)
    requires e == [] || q == []
    ensures p + (e + (q + f)) == p + q + (e + f)
  {
  }

  lemma {:induction false} NoTieRest(codeBlock: bool, xs: seq<seq<Line>>, tid: int, t: nat)
    requires xs != [] && !LateTie(codeBlock, xs, tid, t)
    ensures !LateTie(codeBlock, xs[1..], tid, t)
  {
    hide Parsed, Errors, AtTime;
  }

  lemma {:induction false} NoTieSame(codeBlock: bool, xs: seq<seq<Line>>, tid: int, t: nat)
    requires !LateTie(codeBlock, xs, tid, t)
    ensures Mixed(codeBlock, xs, tid, t) == Straight(codeBlock, Flatten(xs), tid, t)
    decreases |xs|
  {
    if xs != [] {
      hide Parsed, Errors, AtTime, Flatten;
      var ys := xs[1..];
      NoTieRest(codeBlock, xs, tid, t);
      NoTieSame(codeBlock, ys, tid, t);
      StraightHead(codeBlock, xs, tid, t);
      if AtTime(Errors(xs[0], tid), t) != [] && AtTime(Parsed(codeBlock, Flatten(ys), tid), t) != [] {
        var j := ParsedSomewhere(codeBlock, ys, tid, t);
        assert false;
      }
      Swap(AtTime(Parsed(codeBlock, xs[0], tid), t), AtTime(Errors(xs[0], tid), t),
           AtTime(Parsed(codeBlock, Flatten(ys), tid), t), AtTime(Errors(Flatten(ys), tid), t));
    }
  }

  ghost predicate ErrorFirst(s: seq<Action>) {
    exists p, q :: 0 <= p < q < |s| && s[p].isError && !s[q].isError
  }

  lemma {:induction false} ErrorFirstGrows(a: seq<Action>, s: seq<Action>)
    requires ErrorFirst(s)
    ensures ErrorFirst(a + s)
  {
    var p, q :| 0 <= p < q < |s| && s[p].isError && !s[q].isError;
    assert (a + s)[|a| + p] == s[p] && (a + s)[|a| + q] == s[q];
  }

  lemma {:induction false} MixedHolds(codeBlock: bool, xs: seq<seq<Line>>, tid: int, t: nat, j: nat) returns (q: nat)
    requires j < |xs| && AtTime(Parsed(codeBlock, xs[j], tid), t) != []
    ensures q < |Mixed(codeBlock, xs, tid, t)| && !Mixed(codeBlock, xs, tid, t)[q].isError
    decreases j
  {
    hide Parsed, Errors, AtTime;
    InstantKinds(codeBlock, xs[j], tid, t);
    var p, e := AtTime(Parsed(codeBlock, xs[0], tid), t), AtTime(Errors(xs[0], tid), t);
    if j == 0 {
      q := 0;
      assert p[0] in p;
    } else {
      var r := MixedHolds(codeBlock, xs[1..], tid, t, j - 1);
      q := |p| + |e| + r;
    }
  }

  lemma {:induction false} TieMixes(codeBlock: bool, xs: seq<seq<Line>>, tid: int, t: nat, i: nat, j: nat)
    requires i < j < |xs| && AtTime(Errors(xs[i], tid), t) != [] && AtTime(Parsed(codeBlock, xs[j], tid), t) != []
    ensures ErrorFirst(Mixed(codeBlock, xs, tid, t))
    decreases i
  {
    hide Parsed, Errors, AtTime;
    var p, e, r := AtTime(Parsed(codeBlock, xs[0], tid), t), AtTime(Errors(xs[0], tid), t),
        Mixed(codeBlock, xs[1..], tid, t);
    if i == 0 {
      InstantKinds(codeBlock, xs[0], tid, t);
      var q := MixedHolds(codeBlock, xs[1..], tid, t, j - 1);
      assert e[0] in e;
      assert (e + r)[0] == e[0] && (e + r)[|e| + q] == r[q];
      assert ErrorFirst(e + r);
    } else {
      TieMixes(codeBlock, xs[1..], tid, t, i - 1, j - 1);
      ErrorFirstGrows(e, r);
    }
    ErrorFirstGrows(p, e + r);
  }

  lemma {:induction false} StraightNeverMixes(codeBlock: bool, lines: seq<Line>, tid: int, t: nat)
    ensures !ErrorFirst(Straight(codeBlock, lines, tid, t))
  {
    hide Parsed, Errors, AtTime;
    InstantKinds(codeBlock, lines, tid, t);
    var p: seq<Action>, e: seq<Action> := AtTime(Parsed(codeBlock, lines, tid), t), AtTime(Errors(lines, tid), t);
    forall k | 0 <= k < |p| + |e|
      ensures (p + e)[k].isError <==> k >= |p|
    {
      if k < |p| { assert p[k] in p; } else { assert e[k - |p|] in e; }
    }
  }

  lemma {:induction false} InstantIff(codeBlock: bool, xs: seq<seq<Line>>, tid: int, t: nat)
    ensures Mixed(codeBlock, xs, tid, t) == Straight(codeBlock, Flatten(xs), tid, t)
      <==> !LateTie(codeBlock, xs, tid, t)
  {
    hide Mixed, Straight, ErrorFirst;
    if LateTie(codeBlock, xs, tid, t) {
      var i, j :| 0 <= i < j < |xs| && AtTime(Errors(xs[i], tid), t) != []
          && AtTime(Parsed(codeBlock, xs[j], tid), t) != [];
      TieMixes(codeBlock, xs, tid, t, i, j);
      StraightNeverMixes(codeBlock, Flatten(xs), tid, t);
    } else {
      NoTieSame(codeBlock, xs, tid, t);
    }
  }

  lemma {:induction false} OneJobInstant(codeBlock: bool, lines: seq<Line>, tid: int, t: nat)
    ensures Mixed(codeBlock, [lines], tid, t) == Straight(codeBlock, lines, tid, t)
  {
    assert [lines][1..] == [];
  }

  lemma {:induction false} FlattenOne(lines: seq<Line>)
    ensures Flatten([lines]) == lines
  {
    assert [lines][1..] == [];
  }

  /** The merge of several jobs is that of one job if and only if no instant has a late tie. */
  lemma {:induction false} SameAsOneJobIff(codeBlock: bool, xs: seq<seq<Line>>, tid: int)
    requires BelowMax(codeBlock, Flatten(xs), tid)
    ensures Merged(JobStreams(codeBlock, xs, tid)) == Merged(JobStreams(codeBlock, [Flatten(xs)], tid))
      <==> forall t: nat :: !LateTie(codeBlock, xs, tid, t)
  {
    hide BelowMax, LateTie, Mixed, Straight, Merged, Concat, JobStreams, Flatten, AtTime, AllSorted;
    var lines := Flatten(xs);
    FlattenOne(lines);
    StreamsSorted(codeBlock, xs, tid); StreamsSorted(codeBlock, [lines], tid);
    StreamsBelowMax(codeBlock, xs, tid); StreamsBelowMax(codeBlock, [lines], tid);
    MergedDetermined(JobStreams(codeBlock, xs, tid), JobStreams(codeBlock, [lines], tid));
    var a, b := Concat(JobStreams(codeBlock, xs, tid)), Concat(JobStreams(codeBlock, [lines], tid));
    forall t: nat
      ensures AtTime(a, t) == AtTime(b, t) <==> !LateTie(codeBlock, xs, tid, t)
    {
      StreamsInstant(codeBlock, xs, tid, t); StreamsInstant(codeBlock, [lines], tid, t);
      OneJobInstant(codeBlock, lines, tid, t);
      InstantIff(codeBlock, xs, tid, t);
    }
  }

  // ----- with the abort of a job that sees a thread run backwards

  /** What comes out for a thread: nothing, if some job aborted, or the merged actions. */
  datatype Outcome = Aborted | Extracted(actions: seq<Action>)

  ghost predicate Aborts(codeBlock: bool, outOfOrder: bool, xs: seq<seq<Line>>) {
    !outOfOrder && exists i :: 0 <= i < |xs| && !InOrder(codeBlock, xs[i])
  }

  ghost function OutcomeOf(codeBlock: bool, outOfOrder: bool, xs: seq<seq<Line>>, tid: int): Outcome {
    if Aborts(codeBlock, outOfOrder, xs) then Aborted else Extracted(Merged(JobStreams(codeBlock, xs, tid)))
  }

  lemma {:induction false} SortedParts(a: seq<Action>, b: seq<Action>)
    requires Sorted(a + b)
    ensures Sorted(a) && Sorted(b)
  {
    assert forall i :: 0 <= i < |a| ==> (a + b)[i] == a[i];
    assert forall i :: 0 <= i < |b| ==> (a + b)[|a| + i] == b[i];
  }

  /** Every part of a trace in order is in order. */
  lemma {:induction false} PartInOrder(codeBlock: bool, xs: seq<seq<Line>>, i: nat)
    requires InOrder(codeBlock, Flatten(xs)) && i < |xs|
    ensures InOrder(codeBlock, xs[i])
    decreases i
  {
    hide Parsed, Sorted;
    forall tid
      ensures Sorted(Parsed(codeBlock, xs[0], tid)) && Sorted(Parsed(codeBlock, Flatten(xs[1..]), tid))
    {
      FlattenHead(codeBlock, xs, tid);
      SortedParts(Parsed(codeBlock, xs[0], tid), Parsed(codeBlock, Flatten(xs[1..]), tid));
    }
    if i > 0 {
      PartInOrder(codeBlock, xs[1..], i - 1);
    }
  }

  /**
   * Several jobs and one job give a thread the same outcome if and only if a
   * job aborts in both runs, or none does and no instant has a late tie.
   */
  lemma {:induction false} SameOutcomeIff(codeBlock: bool, outOfOrder: bool, xs: seq<seq<Line>>, tid: int)
    requires BelowMax(codeBlock, Flatten(xs), tid)
    ensures OutcomeOf(codeBlock, outOfOrder, xs, tid) == OutcomeOf(codeBlock, outOfOrder, [Flatten(xs)], tid)
      <==> Aborts(codeBlock, outOfOrder, xs)
           || ((outOfOrder || InOrder(codeBlock, Flatten(xs))) && forall t: nat :: !LateTie(codeBlock, xs, tid, t))
  {
    hide BelowMax, LateTie, Merged, JobStreams, Flatten, InOrder;
    SameAsOneJobIff(codeBlock, xs, tid);
    var one := [Flatten(xs)];
    assert one[0] == Flatten(xs);
    if Aborts(codeBlock, outOfOrder, xs) {
      var i :| 0 <= i < |xs| && !InOrder(codeBlock, xs[i]);
      if InOrder(codeBlock, Flatten(xs)) {
        PartInOrder(codeBlock, xs, i);
      }
      assert !InOrder(codeBlock, one[0]);
    }
  }

  /** The same for the shares of `assign_parse_jobs` and one job for the whole file, for every number of workers. */
  lemma {:induction false} ParallelIsSequentialIff(codeBlock: bool, outOfOrder: bool, lines: seq<Line>, workers: nat,
          tid: int)
    requires (workers > 0 || lines == []) && Fits(|lines|, workers) && BelowMax(codeBlock, lines, tid)
    ensures var xs := Slices(lines, Ranges(|lines|, workers));
      OutcomeOf(codeBlock, outOfOrder, xs, tid) == OutcomeOf(codeBlock, outOfOrder, [lines], tid)
      <==> Aborts(codeBlock, outOfOrder, xs)
           || ((outOfOrder || InOrder(codeBlock, lines)) && forall t: nat :: !LateTie(codeBlock, xs, tid, t))
  {
    hide *;
    SlicesJoin(lines, workers);
    SameOutcomeIff(codeBlock, outOfOrder, Slices(lines, Ranges(|lines|, workers)), tid);
  }

  // ----- two inputs on which they differ

  /** A file of 201 lines with a record on each side of the boundary between two jobs. */
  function AcrossBoundary(a: Action, b: Action): seq<Line> {
    Blank(100) + [Line(0, a)] + ([Line(0, b)] + Blank(99))
  }

  function Blank(n: nat): (s: seq<Line>)
    ensures |s| == n && forall i :: 0 <= i < n ==> s[i] == Invalid
  {
    seq(n, _ => Invalid)
  }

  lemma {:induction false} BlankParsed(codeBlock: bool, n: nat, tid: int)
    ensures Parsed(codeBlock, Blank(n), tid) == [] && Errors(Blank(n), tid) == []
    decreases n
  {
    if n > 0 {
      assert Blank(n)[1..] == Blank(n - 1);
      BlankParsed(codeBlock, n - 1, tid);
    }
  }

  /** Two workers share those lines as 101 and 100, with the boundary between the two records. */
  lemma {:induction false} BoundarySlices(a: Action, b: Action)
    ensures var lines := AcrossBoundary(a, b);
      && |lines| == 201 && Fits(201, 2)
      && Slices(lines, Ranges(201, 2)) == [Blank(100) + [Line(0, a)], [Line(0, b)] + Blank(99)]
  {
    var lines := AcrossBoundary(a, b);
    assert StepSize(201, 2) == 101;
    var rs := Ranges(201, 2);
    assert rs[0] == Range(0, 101) && rs[1] == Range(101, 201);
    assert Slice(lines, rs[0]) == lines[0..101] == Blank(100) + [Line(0, a)];
    assert Slice(lines, rs[1]) == lines[101..201] == [Line(0, b)] + Blank(99);
  }

  lemma {:induction false} BoundaryParts(codeBlock: bool, a: Action, b: Action, tid: int)
    ensures Parsed(codeBlock, Blank(100) + [Line(0, a)], tid) == ParsedOf(codeBlock, Line(0, a), tid)
    ensures Errors(Blank(100) + [Line(0, a)], tid) == ErrorOf(Line(0, a), tid)
    ensures Parsed(codeBlock, [Line(0, b)] + Blank(99), tid) == ParsedOf(codeBlock, Line(0, b), tid)
    ensures Errors([Line(0, b)] + Blank(99), tid) == ErrorOf(Line(0, b), tid)
    ensures Parsed(codeBlock, AcrossBoundary(a, b), tid) ==
      ParsedOf(codeBlock, Line(0, a), tid) + ParsedOf(codeBlock, Line(0, b), tid)
    ensures Errors(AcrossBoundary(a, b), tid) == ErrorOf(Line(0, a), tid) + ErrorOf(Line(0, b), tid)
  {
    hide Parsed, Errors, ParsedOf, ErrorOf, Blank;
    BlankParsed(codeBlock, 100, tid); BlankParsed(codeBlock, 99, tid);
    OneLine(codeBlock, Line(0, a), tid); OneLine(codeBlock, Line(0, b), tid);
    ParsedConcat(codeBlock, Blank(100), [Line(0, a)], tid);
    ParsedConcat(codeBlock, [Line(0, b)], Blank(99), tid);
    ParsedConcat(codeBlock, Blank(100) + [Line(0, a)], [Line(0, b)] + Blank(99), tid);
  }

  lemma {:induction false} OneLine(codeBlock: bool, l: Line, tid: int)
    ensures Parsed(codeBlock, [l], tid) == ParsedOf(codeBlock, l, tid) && Errors([l], tid) == ErrorOf(l, tid)
  {
    assert [l][1..] == [];
  }

  lemma {:induction false} OneInstant(a: Action)
    ensures AtTime([a], a.ts) == [a]
  {
    assert [a][1..] == [];
  }

  /** An error and a call of the same instant, on both sides of the boundary, come out in another order. */
  lemma {:induction false} TieReorders(codeBlock: bool, e: Action, a: Action)
    requires e.isError && Kept(codeBlock, a) && e.ts == a.ts < MAX_TS
    ensures var lines := AcrossBoundary(e, a);
      OutcomeOf(codeBlock, false, Slices(lines, Ranges(|lines|, 2)), 0) != OutcomeOf(codeBlock, false, [lines], 0)
  {
    hide Parsed, Errors, OutcomeOf, AtTime, Fits, Slices, Ranges, AcrossBoundary, Blank;
    var lines := AcrossBoundary(e, a);
    BoundarySlices(e, a);
    BoundaryParts(codeBlock, e, a, 0);
    OneInstant(e); OneInstant(a);
    var xs := Slices(lines, Ranges(201, 2));
    assert AtTime(Errors(xs[0], 0), e.ts) == [e] && AtTime(Parsed(codeBlock, xs[1], 0), e.ts) == [a];
    assert LateTie(codeBlock, xs, 0, e.ts);
    forall tid
      ensures Sorted(Parsed(codeBlock, xs[0], tid)) && Sorted(Parsed(codeBlock, xs[1], tid))
    {
      BoundaryParts(codeBlock, e, a, tid);
    }
    assert !Aborts(codeBlock, false, xs);
    ParallelIsSequentialIff(codeBlock, false, lines, 2, 0);
  }

  lemma {:induction false} OneInOrder(codeBlock: bool, lines: seq<Line>, l: Line)
    requires forall tid :: Parsed(codeBlock, lines, tid) == ParsedOf(codeBlock, l, tid)
    ensures InOrder(codeBlock, lines)
  {
    hide Parsed, Kept;
  }

  lemma {:induction false} BoundaryOrder(codeBlock: bool, a: Action, b: Action)
    requires Kept(codeBlock, a) && Kept(codeBlock, b) && b.ts < a.ts
    ensures InOrder(codeBlock, Blank(100) + [Line(0, a)]) && InOrder(codeBlock, [Line(0, b)] + Blank(99))
    ensures !InOrder(codeBlock, AcrossBoundary(a, b))
  {
    hide Parsed, Errors, AcrossBoundary, Blank, Kept, Sorted;
    forall tid
      ensures Parsed(codeBlock, Blank(100) + [Line(0, a)], tid) == ParsedOf(codeBlock, Line(0, a), tid)
      ensures Parsed(codeBlock, [Line(0, b)] + Blank(99), tid) == ParsedOf(codeBlock, Line(0, b), tid)
    {
      BoundaryParts(codeBlock, a, b, tid);
    }
    OneInOrder(codeBlock, Blank(100) + [Line(0, a)], Line(0, a));
    OneInOrder(codeBlock, [Line(0, b)] + Blank(99), Line(0, b));
    BoundaryParts(codeBlock, a, b, 0);
    Backwards(a, b);
  }

  lemma {:induction false} Backwards(a: Action, b: Action)
    requires b.ts < a.ts
    ensures !Sorted([a] + [b])
  {
    assert ([a] + [b])[0] == a && ([a] + [b])[1] == b;
  }

  /** A thread that runs backwards just at the boundary: two jobs extract it, one job aborts. */
  lemma {:induction false} BackwardsAcrossJobs(codeBlock: bool, a: Action, b: Action)
    requires Kept(codeBlock, a) && Kept(codeBlock, b) && b.ts < a.ts < MAX_TS
    ensures var lines := AcrossBoundary(a, b);
      && OutcomeOf(codeBlock, false, Slices(lines, Ranges(|lines|, 2)), 0).Extracted?
      && OutcomeOf(codeBlock, false, [lines], 0).Aborted?
  {
    hide InOrder, Slices, Ranges, AcrossBoundary, Blank, Merged, JobStreams, Fits;
    var lines := AcrossBoundary(a, b);
    BoundarySlices(a, b);
    BoundaryOrder(codeBlock, a, b);
    assert !InOrder(codeBlock, [lines][0]);
  }

  /** A thread without errors whose records are in order comes out as it was recorded. */
  lemma {:induction false} OrderedThread(codeBlock: bool, lines: seq<Line>, workers: nat, tid: int)
    requires (workers > 0 || lines == []) && Fits(|lines|, workers) && BelowMax(codeBlock, lines, tid)
    requires Errors(lines, tid) == [] && Sorted(Parsed(codeBlock, lines, tid))
    ensures Merged(JobStreams(codeBlock, Slices(lines, Ranges(|lines|, workers)), tid)) == Parsed(codeBlock, lines, tid)
  {
    hide Parsed, Errors, JobStreams, Merged, Concat, AtTime, Mixed, Straight, Flatten, Slices, Ranges, Fits, BelowMax,
        Sorted, AllSorted;
    var xs := Slices(lines, Ranges(|lines|, workers));
    SlicesJoin(lines, workers);
    var m := Merged(JobStreams(codeBlock, xs, tid));
    StreamsSorted(codeBlock, xs, tid);
    StreamsBelowMax(codeBlock, xs, tid);
    MergedSorted(JobStreams(codeBlock, xs, tid));
    forall t: nat
      ensures AtTime(m, t) == AtTime(Parsed(codeBlock, lines, tid), t)
    {
      MergedInstant(JobStreams(codeBlock, xs, tid), t);
      StreamsInstant(codeBlock, xs, tid, t);
      NoErrorsNoTie(codeBlock, xs, tid, t);
      InstantIff(codeBlock, xs, tid, t);
      NoErrorsStraight(codeBlock, lines, tid, t);
    }
    SortedUnique(m, Parsed(codeBlock, lines, tid));
  }

  lemma {:induction false} NoErrorsStraight(codeBlock: bool, lines: seq<Line>, tid: int, t: nat)
    requires Errors(lines, tid) == []
    ensures Straight(codeBlock, lines, tid, t) == AtTime(Parsed(codeBlock, lines, tid), t)
  {
    hide Errors, Parsed;
  }

  lemma {:induction false} NoErrorsNoTie(codeBlock: bool, xs: seq<seq<Line>>, tid: int, t: nat)
    requires Errors(Flatten(xs), tid) == []
    ensures !LateTie(codeBlock, xs, tid, t)
  {
    forall i | 0 <= i < |xs|
      ensures Errors(xs[i], tid) == []
    {
      NoErrorsPart(codeBlock, xs, tid, i);
    }
  }

  lemma {:induction false} NoErrorsPart(codeBlock: bool, xs: seq<seq<Line>>, tid: int, i: nat)
    requires Errors(Flatten(xs), tid) == [] && i < |xs|
    ensures Errors(xs[i], tid) == []
    decreases i
  {
    hide Errors;
    FlattenHead(codeBlock, xs, tid);
    if i > 0 {
      NoErrorsPart(codeBlock, xs[1..], tid, i - 1);
    }
  }
}
