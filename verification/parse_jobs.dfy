/** `assign_parse_jobs`: how the lines of a trace are shared out. */
module ParseJobs {
  import opened Common

  /** The lines a job reads; both ends are stored as 32-bit numbers. */
  datatype Range = Range(from: nat, to: nat)

  const WHOLE := Range(0, U32 - 1)

  function StepSize(total: nat, workers: nat): nat
    requires workers > 0
  {
    total / workers + 1
  }

  function Min(x: nat, y: nat): nat {
    if x < y then x else y
  }

  /** The range of job `i` before it is cut to 32 bits. */
  function Share(total: nat, step: nat, i: nat): Range {
    Range(i * step, Min((i + 1) * step, total))
  }

  function Cut(r: Range): Range {
    Range(r.from % U32, r.to % U32)
  }

  /** The ranges handed out. */
  function Ranges(total: nat, workers: nat): seq<Range>
    requires workers > 0 || total == 0
  {
    if total > 100 * workers then
        seq(workers, i requires 0 <= i < workers => Cut(Share(total, StepSize(total, workers), i)))
    else [WHOLE]
  }

  /** A job reads the common trace file, or a script file of its own. */
  datatype Job = Job(script: Maybe<nat>, range: Range)

  function Jobs(parallelScript: bool, total: nat, workers: nat): seq<Job>
    requires parallelScript || workers > 0 || total == 0
  {
    if parallelScript then seq(workers, (i: nat) => Job(Some(i), WHOLE))
    else
      var ranges := Ranges(total, workers);
      seq(|ranges|, i requires 0 <= i < |ranges| => Job(None, ranges[i]))
  }

  /** The division by the number of workers is only reached with lines to share. */
  method AssignParseJobs(parallelScript: bool, total: nat, workers: nat) returns (jobs: seq<Job>)
    requires parallelScript || workers > 0 || total == 0
    ensures jobs == Jobs(parallelScript, total, workers)
  {
    jobs := [];
    if parallelScript {
      for i := 0 to workers
        invariant |jobs| == i && forall k :: 0 <= k < i ==> jobs[k] == Job(Some(k), WHOLE)
      {
        jobs := jobs + [Job(Some(i), WHOLE)];
      }
    } else if total > 100 * workers {
      var step := total / workers + 1;
      for i := 0 to workers
        invariant |jobs| == i
        invariant forall k :: 0 <= k < i ==> jobs[k] == Job(None, Cut(Share(total, step, k)))
      {
        var from := i * step;
        var to := if (i + 1) * step < total then (i + 1) * step else total;
        jobs := jobs + [Job(None, Range(from % U32, to % U32))];
      }
    } else {
      jobs := [Job(None, WHOLE)];
    }
  }

  predicate Reads(r: Range, line: nat) {
    r.from <= line < r.to
  }

  ghost predicate ReadOnce(jobs: seq<Range>, line: nat) {
    exists i :: 0 <= i < |jobs| && Reads(jobs[i], line) && forall j :: 0 <= j < |jobs| && Reads(jobs[j], line) ==>
        j == i
  }

  /** There are fewer than 2^32 lines, and no bound of a range is cut. */
  predicate Fits(total: nat, workers: nat)
    requires workers > 0 || total == 0
  {
    total < U32 && (total > 100 * workers ==> (workers - 1) * StepSize(total, workers) < U32)
  }

  lemma {:induction false} MulMonotone(i: nat, j: nat, step: nat)
    requires i <= j
    ensures i * step <= j * step
  {
  }

  lemma {:induction false} StepCovers(total: nat, workers: nat)
    requires workers > 0
    ensures total < workers * StepSize(total, workers) <= total + workers
  {
    var q := total / workers;
    assert total == q * workers + total % workers;
    assert workers * (q + 1) == q * workers + workers;
  }

  lemma {:induction false} ShareOf(total: nat, workers: nat, line: nat) returns (i: nat)
    requires workers > 0 && line < total
    ensures i < workers && i == line / StepSize(total, workers)
    ensures i * StepSize(total, workers) <= line < (i + 1) * StepSize(total, workers)
  {
    var step := StepSize(total, workers);
    StepCovers(total, workers);
    i := line / step;
    assert line == i * step + line % step;
    assert (i + 1) * step == i * step + step;
    if workers <= i {
      MulMonotone(workers, i, step);
      assert false;
    }
  }

  lemma {:induction false} NotCut(total: nat, workers: nat, i: nat)
    requires workers > 0 && total > 100 * workers && Fits(total, workers) && i < workers
    ensures Cut(Share(total, StepSize(total, workers), i)) == Share(total, StepSize(total, workers), i)
  {
    MulMonotone(i, workers - 1, StepSize(total, workers));
  }

  lemma {:induction false} OnlyShare(step: nat, line: nat, i: nat, j: nat)
    requires i * step <= line < (i + 1) * step && j * step <= line < (j + 1) * step
    ensures i == j
  {
    if i < j {
      MulMonotone(i + 1, j, step);
      assert false;
    }
    if j < i {
      MulMonotone(j + 1, i, step);
      assert false;
    }
  }

  lemma {:induction false} FitsReadsOnce(total: nat, workers: nat, line: nat)
    requires (workers > 0 || total == 0) && Fits(total, workers) && line < total
    ensures ReadOnce(Ranges(total, workers), line)
  {
    hide Share;
    var jobs := Ranges(total, workers);
    if total > 100 * workers {
      var step := StepSize(total, workers);
      var i := ShareOf(total, workers, line);
      NotCut(total, workers, i);
      ShareReads(total, step, i, line);
      assert Reads(jobs[i], line);
      forall j | 0 <= j < |jobs| && Reads(jobs[j], line)
        ensures j == i
      {
        NotCut(total, workers, j);
        ShareReads(total, step, j, line);
        OnlyShare(step, line, i, j);
      }
    } else {
      assert Reads(jobs[0], line);
    }
  }

  lemma {:induction false} ShareReads(total: nat, step: nat, i: nat, line: nat)
    requires line < total
    ensures Reads(Share(total, step, i), line) <==> i * step <= line < (i + 1) * step
  {
  }

  lemma {:induction false} ReadTwice(jobs: seq<Range>, line: nat, i: nat, j: nat)
    requires i < |jobs| && j < |jobs| && i != j && Reads(jobs[i], line) && Reads(jobs[j], line)
    ensures !ReadOnce(jobs, line)
  {
  }

  lemma {:induction false} NeverRead(jobs: seq<Range>, line: nat)
    requires forall i :: 0 <= i < |jobs| ==> jobs[i].to <= line
    ensures !ReadOnce(jobs, line)
  {
  }

  lemma {:induction false} BoundsBelow(total: nat, workers: nat)
    requires workers > 0 || total == 0
    ensures forall i :: 0 <= i < |Ranges(total, workers)| ==> Ranges(total, workers)[i].to <= U32 - 1
  {
    hide Share;
  }

  lemma {:induction false} Below(i: nat, j: nat, step: nat)
    requires i * step < j * step
    ensures i < j
  {
    if j <= i {
      MulMonotone(j, i, step);
    }
  }

  /** The job that reads the last line when its own range is not cut. */
  lemma {:induction false} LastLine(total: nat, workers: nat) returns (i: nat)
    requires workers > 0 && total > 100 * workers && total < U32 && (workers - 1) * StepSize(total, workers) >= U32
    ensures i < workers - 1 && Reads(Cut(Share(total, StepSize(total, workers), i)), total - 1)
  {
    var step := StepSize(total, workers);
    i := ShareOf(total, workers, total - 1);
    Below(i, workers - 1, step);
    ShareReads(total, step, i, total - 1);
  }

  /** A cut bound wraps the last range back over lines that other jobs read, or leaves the last lines out. */
  lemma {:induction false} CutMissesOrRepeats(total: nat, workers: nat) returns (line: nat)
    requires (workers > 0 || total == 0) && !Fits(total, workers)
    ensures line < total && !ReadOnce(Ranges(total, workers), line)
  {
    hide ReadOnce, Share, Reads;
    if total >= U32 {
      line := U32 - 1;
      BoundsBelow(total, workers);
      NeverRead(Ranges(total, workers), line);
    } else {
      line := total - 1;
      LastWraps(total, workers);
      var i := LastLine(total, workers);
      ReadTwice(Ranges(total, workers), line, i, workers - 1);
    }
  }

  lemma {:induction false} LastWraps(total: nat, workers: nat)
    requires workers > 0 && total > 100 * workers && total < U32 && (workers - 1) * StepSize(total, workers) >= U32
    ensures Reads(Cut(Share(total, StepSize(total, workers), workers - 1)), total - 1)
  {
    var step, w := StepSize(total, workers), workers - 1;
    StepCovers(total, workers);
    assert w * step == workers * step - step;
    assert U32 <= w * step < U32 + workers;
    assert (w * step) % U32 == w * step - U32;
  }

  /** Every line is read by exactly one job if and only if there are fewer than 2^32 and no bound is cut. */
  lemma {:induction false} EachLineOnceIff(total: nat, workers: nat)
    requires workers > 0 || total == 0
    ensures Fits(total, workers) <==> forall line: nat :: line < total ==> ReadOnce(Ranges(total, workers), line)
  {
    hide Ranges, Fits, ReadOnce;
    if Fits(total, workers) {
      forall line: nat | line < total
        ensures ReadOnce(Ranges(total, workers), line)
      {
        FitsReadsOnce(total, workers, line);
      }
    } else {
      var line := CutMissesOrRepeats(total, workers);
    }
  }

  /** A million workers on 2^32 - 1 lines: the ranges no longer partition them. */
  lemma {:induction false} TooManyWorkers() returns (line: nat)
    ensures line < U32 - 1 && !ReadOnce(Ranges(U32 - 1, 1_000_000), line)
  {
    hide Ranges, ReadOnce;
    assert StepSize(U32 - 1, 1_000_000) == 4295;
    line := CutMissesOrRepeats(U32 - 1, 1_000_000);
  }

  /**
   * With a script file per worker, every line of every file is read by exactly
   * one job if and only if no file has 2^32 lines.
   */
  lemma {:induction false} EachScriptLineOnceIff(sizes: seq<nat>)
    ensures var jobs := Jobs(true, 0, |sizes|);
      (forall f, line: nat :: 0 <= f < |sizes| && line < sizes[f] ==> ScriptReadOnce(jobs, f, line))
          <==> forall f :: 0 <= f < |sizes| ==> sizes[f] < U32
  {
    var jobs := Jobs(true, 0, |sizes|);
    if f :| 0 <= f < |sizes| && sizes[f] >= U32 {
      assert !ScriptReadOnce(jobs, f, U32 - 1);
    } else {
      forall f, line: nat | 0 <= f < |sizes| && line < sizes[f]
        ensures ScriptReadOnce(jobs, f, line)
      {
        assert jobs[f].script == Some(f) && Reads(jobs[f].range, line);
      }
    }
  }

  ghost predicate ScriptReadOnce(jobs: seq<Job>, file: nat, line: nat) {
    exists i :: 0 <= i < |jobs| && jobs[i].script == Some(file) && Reads(jobs[i].range, line)
      && forall j :: 0 <= j < |jobs| && jobs[j].script == Some(file) && Reads(jobs[j].range, line) ==> j == i
  }
}
