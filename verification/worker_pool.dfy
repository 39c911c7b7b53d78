/**
 * `ParallelWorkerPool`: the workers of a pool take their steps in any order,
 * among them threads add jobs and go through `wait_all_idle`.
 */
module WorkerPool {
  import opened WorkerQueue

  /** A thread that may call `wait_all_idle`, and the worker it visits next. */
  datatype Visitor = Outside | Visiting(next: nat)

  /** The pool is alive if it has workers. */
  datatype Pool = Pool(workers: seq<State>, visitors: seq<Visitor>)

  datatype Move =
    | Work(worker: nat, event: Event)  // a step of the thread of a worker
    | AddJob(job: Job, idx: nat)
    | Begin(visitor: nat)              // the call of `wait_all_idle`
    | Visit(visitor: nat)              // a test in `wait_idle` of the worker visited
    | End(visitor: nat)                // the return of `wait_all_idle`

  ghost predicate Start(p: Pool, size: nat, visitors: nat) {
    && |p.workers| == size && (forall k :: 0 <= k < size ==> Init(p.workers[k], visitors))
    && |p.visitors| == visitors && forall t :: 0 <= t < visitors ==> p.visitors[t] == Outside
  }

  /** The test a visitor makes: the first one of its call, or one after it was woken. */
  function Test(s: State, t: nat): Event {
    if t < |s.waiters| && s.waiters[t].Waiting? then Recheck(t) else Call(t)
  }

  ghost predicate Possible(p: Pool, m: Move) {
    match m
    case Work(k, e) => k < |p.workers| && (e.Clear? || e.Look? || e.WakeUp? || e.Finish?) && Enabled(p.workers[k], e)
    case AddJob(_, _) => true
    case Begin(t) => t < |p.visitors| && p.visitors[t].Outside?
    case Visit(t) => Visits(p, t) && Enabled(p.workers[p.visitors[t].next], Test(p.workers[p.visitors[t].next], t))
    case End(t) => t < |p.visitors| && p.visitors[t] == Visiting(|p.workers|)
  }

  predicate Visits(p: Pool, t: nat) {
    t < |p.visitors| && p.visitors[t].Visiting? && p.visitors[t].next < |p.workers|
  }

  ghost function Moved(p: Pool, k: nat, e: Event): Pool
    requires k < |p.workers| && Enabled(p.workers[k], e)
  {
    p.(workers := p.workers[k := After(p.workers[k], e)])
  }

  ghost function Result(p: Pool, m: Move): Pool
    requires Possible(p, m)
  {
    match m
    case Work(k, e) => Moved(p, k, e)
    case AddJob(job, idx) => if p.workers == [] then p else Moved(p, idx % |p.workers|, Add(job))
    case Begin(t) => p.(visitors := p.visitors[t := Visiting(0)])
    case Visit(t) =>
      var k := p.visitors[t].next;
      var q := Moved(p, k, Test(p.workers[k], t));
      if Idle(p.workers[k]) then q.(visitors := p.visitors[t := Visiting(k + 1)]) else q
    case End(t) => p.(visitors := p.visitors[t := Outside])
  }

  ghost predicate IsHistory(run: seq<Pool>, moves: seq<Move>, size: nat, visitors: nat) {
    && |run| == |moves| + 1 && Start(run[0], size, visitors)
    && forall i :: 0 <= i < |moves| ==> Possible(run[i], moves[i]) && run[i + 1] == Result(run[i], moves[i])
  }

  // ----- what holds of every worker

  ghost predicate Ok(p: Pool, size: nat, visitors: nat) {
    && |p.workers| == size && |p.visitors| == visitors
    && forall k :: 0 <= k < size ==> Inv(p.workers[k]) && |p.workers[k].waiters| == visitors
  }

  lemma {:induction false} EventOk(s: State, e: Event)
    requires Inv(s) && Enabled(s, e)
    ensures Inv(After(s, e)) && |After(s, e).waiters| == |s.waiters|
    ensures s.done <= After(s, e).done
    ensures After(s, e).added == s.added + if e.Add? then [e.job] else []
  {
    hide Inv, NonNull;
    StepInv(s, e);
  }

  lemma {:induction false} MoveOk(p: Pool, m: Move, size: nat, visitors: nat)
    requires Ok(p, size, visitors) && Possible(p, m)
    ensures Ok(Result(p, m), size, visitors)
  {
    hide Inv, Enabled, After, Idle;
    match m
    case Work(k, e) => EventOk(p.workers[k], e);
    case AddJob(job, idx) =>
      if p.workers != [] {
        CanAdd(p.workers[idx % size], job);
        EventOk(p.workers[idx % size], Add(job));
      }
    case Visit(t) => EventOk(p.workers[p.visitors[t].next], Test(p.workers[p.visitors[t].next], t));
    case Begin(_) =>
    case End(_) =>
  }

  lemma {:induction false} CanAdd(s: State, job: Job)
    ensures Enabled(s, Add(job))
  {
  }

  lemma {:induction false} HistoryOk(run: seq<Pool>, moves: seq<Move>, size: nat, visitors: nat, i: nat)
    requires IsHistory(run, moves, size, visitors) && i < |run|
    ensures Ok(run[i], size, visitors)
    decreases i
  {
    if i > 0 {
      hide Ok, Possible, Result, Start;
      HistoryOk(run, moves, size, visitors, i - 1);
      assert Possible(run[i - 1], moves[i - 1]);
      MoveOk(run[i - 1], moves[i - 1], size, visitors);
    }
  }

  // ----- who gets a job

  /** The jobs among the moves that go to worker `k`. */
  function Given(moves: seq<Move>, size: nat, k: nat): seq<Job> {
    if moves == [] then [] else
      var m := moves[|moves| - 1];
      Given(moves[..|moves| - 1], size, k) + if m.AddJob? && size > 0 && m.idx % size == k then [m.job] else []
  }

  lemma {:induction false} MoveEffect(p: Pool, m: Move, size: nat, visitors: nat, k: nat)
    requires Ok(p, size, visitors) && Possible(p, m) && k < size
    ensures p.workers[k].done <= Result(p, m).workers[k].done
    ensures Result(p, m).workers[k].added == p.workers[k].added + if m.AddJob? && m.idx % size == k then [m.job] else []
  {
    hide Inv, Enabled, After, Idle;
    match m
    case Work(w, e) => EventOk(p.workers[w], e);
    case AddJob(job, idx) =>
      CanAdd(p.workers[idx % size], job);
      EventOk(p.workers[idx % size], Add(job));
    case Visit(t) => EventOk(p.workers[p.visitors[t].next], Test(p.workers[p.visitors[t].next], t));
    case Begin(_) =>
    case End(_) =>
  }

  lemma {:induction false} AddedIsGiven(run: seq<Pool>, moves: seq<Move>, size: nat, visitors: nat, i: nat, k: nat)
    requires IsHistory(run, moves, size, visitors) && i < |run| && k < size
    ensures |run[i].workers| == size && run[i].workers[k].added == Given(moves[..i], size, k)
    decreases i
  {
    HistoryOk(run, moves, size, visitors, i);
    if i > 0 {
      hide Ok, Possible, Result, Start;
      AddedIsGiven(run, moves, size, visitors, i - 1, k);
      HistoryOk(run, moves, size, visitors, i - 1);
      assert Possible(run[i - 1], moves[i - 1]);
      MoveEffect(run[i - 1], moves[i - 1], size, visitors, k);
      assert moves[..i][..i - 1] == moves[..i - 1];
    }
  }

  /** Worker `k` executes the jobs whose index is `k` modulo the size of the pool, once each and in order. */
  lemma {:induction false} EachWorkerItsJobs(run: seq<Pool>, moves: seq<Move>, size: nat, visitors: nat, i: nat, k: nat)
    requires IsHistory(run, moves, size, visitors) && i < |run| && k < size
    ensures |run[i].workers| == size
    ensures run[i].workers[k].done + Current(run[i].workers[k]) + NonNull(run[i].workers[k].queue) ==
      NonNull(Given(moves[..i], size, k))
  {
    hide IsHistory, NonNull, Given;
    HistoryOk(run, moves, size, visitors, i);
    AddedIsGiven(run, moves, size, visitors, i, k);
    Accounted(run[i].workers[k]);
  }

  // ----- `wait_all_idle`

  ghost predicate Executed(jobs: seq<Job>, s: State) {
    NonNull(jobs) <= s.done
  }

  lemma {:induction false} DoneStays(p: Pool, m: Move, size: nat, visitors: nat, k: nat, jobs: seq<Job>)
    requires Ok(p, size, visitors) && Possible(p, m) && k < size && Executed(jobs, p.workers[k])
    ensures Executed(jobs, Result(p, m).workers[k])
  {
    hide Ok, Possible, Result, NonNull;
    MoveEffect(p, m, size, visitors, k);
  }

  lemma {:induction false} GivenGrows(moves: seq<Move>, size: nat, k: nat, i: nat, j: nat)
    requires i <= j <= |moves|
    ensures Given(moves[..i], size, k) <= Given(moves[..j], size, k)
    ensures (forall n :: i <= n < j ==> !moves[n].AddJob?) ==> Given(moves[..i], size, k) == Given(moves[..j], size, k)
    decreases j
  {
    if i < j {
      GivenGrows(moves, size, k, i, j - 1);
      assert moves[..j][..j - 1] == moves[..j - 1];
    }
  }

  lemma {:induction false} PrefixNonNull(a: seq<Job>, b: seq<Job>)
    requires a <= b
    ensures NonNull(a) <= NonNull(b)
  {
    assert b == a + b[|a|..];
    NonNullConcat(a, b[|a|..]);
  }

  /** The visitor has gone past workers that had executed everything given before its call. */
  ghost predicate Passed(p: Pool, t: nat, given: seq<seq<Job>>) {
    && t < |p.visitors| && p.visitors[t].Visiting? && p.visitors[t].next <= |p.workers| == |given|
    && forall k :: 0 <= k < p.visitors[t].next ==> Executed(given[k], p.workers[k])
  }

  lemma {:induction false} MovePasses(p: Pool, m: Move, size: nat, visitors: nat, t: nat, given: seq<seq<Job>>)
    requires Ok(p, size, visitors) && Possible(p, m) && m != End(t) && Passed(p, t, given)
    requires forall k :: 0 <= k < size ==> given[k] <= p.workers[k].added
    ensures Passed(Result(p, m), t, given)
  {
    hide Inv, Enabled, After, Idle, Executed;
    MoveOk(p, m, size, visitors);
    var q := Result(p, m);
    forall k | 0 <= k < p.visitors[t].next
      ensures Executed(given[k], q.workers[k])
    {
      DoneStays(p, m, size, visitors, k, given[k]);
    }
    if m == Visit(t) && Idle(p.workers[p.visitors[t].next]) {
      var k := p.visitors[t].next;
      IdleExecuted(p.workers[k], given[k]);
      DoneStays(p, m, size, visitors, k, given[k]);
    }
  }

  lemma {:induction false} IdleExecuted(s: State, jobs: seq<Job>)
    requires Inv(s) && Idle(s) && jobs <= s.added
    ensures Executed(jobs, s)
  {
    hide Inv, Idle, NonNull;
    IdleMeansDone(s);
    PrefixNonNull(jobs, s.added);
  }

  /** Each worker's jobs before move `i`. */
  ghost function GivenBefore(moves: seq<Move>, size: nat, i: nat): (g: seq<seq<Job>>)
    requires i <= |moves|
    ensures |g| == size && forall k :: 0 <= k < size ==> g[k] == Given(moves[..i], size, k)
  {
    seq(size, k requires 0 <= k < size => Given(moves[..i], size, k))
  }

  ghost predicate Stays(moves: seq<Move>, t: nat, i: nat, j: nat)
    requires j <= |moves|
  {
    forall n :: i < n < j ==> moves[n] != End(t)
  }

  lemma {:induction false} BeginPasses(p: Pool, t: nat, given: seq<seq<Job>>)
    requires Possible(p, Begin(t)) && |given| == |p.workers|
    ensures Passed(Result(p, Begin(t)), t, given)
  {
  }

  lemma {:induction false} HistoryStep(run: seq<Pool>, moves: seq<Move>, size: nat, visitors: nat, i: nat)
    requires IsHistory(run, moves, size, visitors) && i < |moves|
    ensures |run| == |moves| + 1 && Possible(run[i], moves[i]) && run[i + 1] == Result(run[i], moves[i])
    ensures Ok(run[i], size, visitors) && |run[i].workers| == size
  {
    hide Possible, Result, Start;
    HistoryOk(run, moves, size, visitors, i);
  }

  lemma {:induction false} VisitPasses(run: seq<Pool>, moves: seq<Move>, size: nat, visitors: nat, t: nat, i: nat,
                                       j: nat)
    requires IsHistory(run, moves, size, visitors) && i < j <= |moves| && moves[i] == Begin(t) && Stays(moves, t, i, j)
    ensures |run| == |moves| + 1 && Passed(run[j], t, GivenBefore(moves, size, i))
    decreases j
  {
    hide Ok, Possible, Result, Passed, IsHistory, Given, GivenBefore;
    HistoryStep(run, moves, size, visitors, j - 1);
    var given := GivenBefore(moves, size, i);
    if i == j - 1 {
      BeginPasses(run[i], t, given);
    } else {
      VisitPasses(run, moves, size, visitors, t, i, j - 1);
      forall k | 0 <= k < size
        ensures given[k] <= run[j - 1].workers[k].added
      {
        AddedIsGiven(run, moves, size, visitors, j - 1, k);
        GivenGrows(moves, size, k, i, j - 1);
      }
      MovePasses(run[j - 1], moves[j - 1], size, visitors, t, given);
    }
  }

  lemma {:induction false} AllExecuted(s: State)
    requires Inv(s) && Executed(s.added, s)
    ensures s.done == NonNull(s.added)
  {
    hide Inv, NonNull, Current;
    Accounted(s);
  }

  /**
   * A thread calls `wait_all_idle` at move `i` and returns at move `j`. Then
   * every worker has executed what it was given before the call; without new
   * jobs in between, it has executed all it was ever given.
   */
  lemma {:induction false} WaitAllIdleReturns(run: seq<Pool>, moves: seq<Move>, size: nat, visitors: nat, t: nat,
                                              i: nat, j: nat, k: nat)
    requires IsHistory(run, moves, size, visitors) && i < j < |moves| && k < size
    requires moves[i] == Begin(t) && moves[j] == End(t) && Stays(moves, t, i, j)
    ensures |run[j].workers| == size && NonNull(Given(moves[..i], size, k)) <= run[j].workers[k].done
    ensures (forall n :: i <= n < j ==> !moves[n].AddJob?) ==>
      run[j].workers[k].done == NonNull(Given(moves[..j], size, k))
  {
    HistoryOk(run, moves, size, visitors, j);
    assert Possible(run[j], moves[j]);
    hide IsHistory, NonNull, Given, Inv;
    VisitPasses(run, moves, size, visitors, t, i, j);
    AddedIsGiven(run, moves, size, visitors, j, k);
    GivenGrows(moves, size, k, i, j);
    assert Executed(Given(moves[..i], size, k), run[j].workers[k]);
    if forall n :: i <= n < j ==> !moves[n].AddJob? {
      AllExecuted(run[j].workers[k]);
    }
  }

  // ----- the thread that waits is woken

  ghost predicate NoneStuck(p: Pool) {
    forall k :: 0 <= k < |p.workers| ==> !Stuck(p.workers[k])
  }

  lemma {:induction false} MoveNotStuck(p: Pool, m: Move, size: nat, visitors: nat)
    requires Ok(p, size, visitors) && Possible(p, m) && visitors <= 1 && NoneStuck(p)
    ensures NoneStuck(Result(p, m))
  {
    hide Inv, Enabled, After, Idle, Stuck;
    match m
    case Work(k, e) => OneWaiterNotStuck(p.workers[k], e);
    case AddJob(job, idx) =>
      if p.workers != [] {
        CanAdd(p.workers[idx % size], job);
        OneWaiterNotStuck(p.workers[idx % size], Add(job));
      }
    case Visit(t) => OneWaiterNotStuck(p.workers[p.visitors[t].next], Test(p.workers[p.visitors[t].next], t));
    case Begin(_) =>
    case End(_) =>
  }

  /** One thread in `wait_all_idle`, as in the program, never sleeps beside an idle worker without being notified. */
  lemma {:induction false} OneVisitorNeverStuck(run: seq<Pool>, moves: seq<Move>, size: nat, visitors: nat, i: nat)
    requires IsHistory(run, moves, size, visitors) && i < |run| && visitors <= 1
    ensures NoneStuck(run[i])
    decreases i
  {
    if i > 0 {
      hide Ok, Possible, Result, Start, NoneStuck;
      OneVisitorNeverStuck(run, moves, size, visitors, i - 1);
      HistoryOk(run, moves, size, visitors, i - 1);
      assert Possible(run[i - 1], moves[i - 1]);
      MoveNotStuck(run[i - 1], moves[i - 1], size, visitors);
    }
  }

  // ----- progress

  /** The move gets a worker on. */
  predicate Gets(p: Pool, m: Move) {
    m.Work? && m.worker < |p.workers| && Works(p.workers[m.worker], m.event)
  }

  function RankOf(ws: seq<State>): nat {
    if ws == [] then 0 else RankOf(ws[..|ws| - 1]) + Rank(ws[|ws| - 1])
  }

  lemma {:induction false} RankUpdate(ws: seq<State>, k: nat, s: State)
    requires k < |ws|
    ensures RankOf(ws[k := s]) == RankOf(ws) - Rank(ws[k]) + Rank(s)
    decreases |ws|
  {
    hide Rank;
    var n := |ws| - 1;
    if k < n {
      RankUpdate(ws[..n], k, s);
      assert ws[k := s][..n] == ws[..n][k := s];
    } else {
      assert ws[k := s][..n] == ws[..n];
    }
  }

  lemma {:induction false} RankZero(ws: seq<State>, k: nat)
    requires k < |ws|
    ensures Rank(ws[k]) <= RankOf(ws)
    decreases |ws|
  {
    hide Rank;
    if k < |ws| - 1 {
      RankZero(ws[..|ws| - 1], k);
    }
  }

  lemma {:induction false} SomeRank(ws: seq<State>) returns (k: nat)
    requires RankOf(ws) > 0
    ensures k < |ws| && Rank(ws[k]) > 0
    decreases |ws|
  {
    hide Rank;
    var n := |ws| - 1;
    k := n;
    if Rank(ws[n]) == 0 {
      k := SomeRank(ws[..n]);
    }
  }

  lemma {:induction false} MoveRank(p: Pool, m: Move, size: nat, visitors: nat)
    requires Ok(p, size, visitors) && Possible(p, m) && !m.AddJob?
    ensures Gets(p, m) ==> RankOf(Result(p, m).workers) < RankOf(p.workers)
    ensures !Gets(p, m) ==> RankOf(Result(p, m).workers) == RankOf(p.workers)
  {
    hide Inv, After, Rank, RankOf, Idle, Works, Ok;
    match m
    case Work(k, e) =>
      StepRank(p.workers[k], e);
      RankUpdate(p.workers, k, After(p.workers[k], e));
      OwnSteps(p.workers[k], e);
    case Visit(t) =>
      var k := p.visitors[t].next;
      var e := Test(p.workers[k], t);
      StepRank(p.workers[k], e);
      OwnSteps(p.workers[k], e);
      RankUpdate(p.workers, k, After(p.workers[k], e));
    case Begin(_) =>
    case End(_) =>
  }

  lemma {:induction false} OwnSteps(s: State, e: Event)
    ensures e.Call? || e.Recheck? ==> !Works(s, e)
    ensures Works(s, e) ==> e.Clear? || e.Look? || e.WakeUp? || e.Finish?
  {
  }

  ghost predicate LeadsTo(p: Pool, ms: seq<Move>, q: Pool)
    decreases |ms|
  {
    if ms == [] then q == p else Possible(p, ms[0]) && LeadsTo(Result(p, ms[0]), ms[1..], q)
  }

  ghost function Got(p: Pool, ms: seq<Move>): nat
    decreases |ms|
  {
    if ms == [] || !Possible(p, ms[0]) then 0 else (if Gets(p, ms[0]) then 1 else 0) + Got(Result(p, ms[0]), ms[1..])
  }

  predicate NoJobs(ms: seq<Move>) {
    forall i :: 0 <= i < |ms| ==> !ms[i].AddJob?
  }

  /** Whatever order the moves come in, without new jobs the workers get on a bounded number of times. */
  lemma {:induction false} PoolIsBounded(p: Pool, ms: seq<Move>, q: Pool, size: nat, visitors: nat)
    requires Ok(p, size, visitors) && LeadsTo(p, ms, q) && NoJobs(ms)
    ensures Ok(q, size, visitors) && Got(p, ms) + RankOf(q.workers) <= RankOf(p.workers)
    ensures forall k :: 0 <= k < size ==> |q.workers| == |p.workers| == size && q.workers[k].added == p.workers[k].added
    decreases |ms|
  {
    hide Possible, Result, RankOf, Gets, Inv;
    if ms != [] {
      var r := Result(p, ms[0]);
      MoveOk(p, ms[0], size, visitors);
      MoveRank(p, ms[0], size, visitors);
      PoolIsBounded(r, ms[1..], q, size, visitors);
      forall k | 0 <= k < size
        ensures r.workers[k].added == p.workers[k].added
      {
        MoveEffect(p, ms[0], size, visitors, k);
      }
    }
  }

  ghost predicate AllDone(p: Pool, given: seq<seq<Job>>) {
    |p.workers| == |given|
    && forall k :: 0 <= k < |given| ==> Idle(p.workers[k]) && p.workers[k].done == NonNull(given[k])
  }

  lemma {:induction false} PoolAtRest(p: Pool, size: nat, visitors: nat, given: seq<seq<Job>>)
    requires Ok(p, size, visitors) && RankOf(p.workers) == 0 && |given| == size
    requires forall k :: 0 <= k < size ==> p.workers[k].added == given[k]
    ensures AllDone(p, given)
  {
    hide Inv, Idle, NonNull, RankOf;
    forall k | 0 <= k < size
      ensures Idle(p.workers[k]) && p.workers[k].done == NonNull(given[k])
    {
      RankZero(p.workers, k);
      AtRest(p.workers[k]);
    }
  }

  lemma {:induction false} PoolDrain(p: Pool, size: nat, visitors: nat) returns (ms: seq<Move>, q: Pool)
    requires Ok(p, size, visitors)
    ensures LeadsTo(p, ms, q) && NoJobs(ms) && |ms| <= RankOf(p.workers) && RankOf(q.workers) == 0
    ensures q.visitors == p.visitors
    decreases RankOf(p.workers)
  {
    hide Ok, Enabled, After, Works, Rank, RankOf;
    ms, q := [], p;
    if RankOf(p.workers) > 0 {
      var k := SomeRank(p.workers);
      var e := CanWork(p.workers[k]);
      OwnSteps(p.workers[k], e);
      var m := Work(k, e);
      MoveOk(p, m, size, visitors);
      MoveRank(p, m, size, visitors);
      var rest;
      rest, q := PoolDrain(Result(p, m), size, visitors);
      ms := [m] + rest;
      assert ms[1..] == rest;
    }
  }

  /** What the workers were given before move `i`, in a state of a history. */
  lemma {:induction false} GivenAt(run: seq<Pool>, moves: seq<Move>, size: nat, visitors: nat, i: nat)
    requires IsHistory(run, moves, size, visitors) && i < |run|
    ensures Ok(run[i], size, visitors) && i <= |moves|
    ensures forall k :: 0 <= k < size ==>
      |run[i].workers| == size && run[i].workers[k].added == GivenBefore(moves, size, i)[k]
  {
    HistoryOk(run, moves, size, visitors, i);
    hide Start, Possible, Result;
    forall k | 0 <= k < size
      ensures |run[i].workers| == size && run[i].workers[k].added == GivenBefore(moves, size, i)[k]
    {
      AddedIsGiven(run, moves, size, visitors, i, k);
    }
  }

  /**
   * From every state of every history: once the workers have got on as often as
   * the ranks say, however the moves are mixed, every worker has executed all
   * that it was given and is idle.
   */
  lemma {:induction false} EveryJobOfThePoolRuns(run: seq<Pool>, moves: seq<Move>, size: nat, visitors: nat, i: nat,
                                                 ms: seq<Move>, q: Pool)
    requires IsHistory(run, moves, size, visitors) && i < |run| && LeadsTo(run[i], ms, q) && NoJobs(ms)
    requires Got(run[i], ms) >= RankOf(run[i].workers)
    ensures i <= |moves| && AllDone(q, GivenBefore(moves, size, i))
  {
    hide IsHistory, LeadsTo, Ok, Inv, RankOf, Got, Given, AllDone;
    GivenAt(run, moves, size, visitors, i);
    PoolIsBounded(run[i], ms, q, size, visitors);
    PoolAtRest(q, size, visitors, GivenBefore(moves, size, i));
  }

  lemma {:induction false} VisitNext(p: Pool, t: nat, size: nat, visitors: nat)
    requires Ok(p, size, visitors) && Visits(p, t) && Idle(p.workers[p.visitors[t].next])
    ensures Possible(p, Visit(t)) && RankOf(Result(p, Visit(t)).workers) == RankOf(p.workers)
    ensures Result(p, Visit(t)).visitors == p.visitors[t := Visiting(p.visitors[t].next + 1)]
  {
    hide Inv, Idle, RankOf;
    TestEnabled(p.workers[p.visitors[t].next], t);
    MoveRank(p, Visit(t), size, visitors);
  }

  lemma {:induction false} TestEnabled(s: State, t: nat)
    requires t < |s.waiters|
    ensures Enabled(s, Test(s, t))
  {
  }

  /** A thread goes round the idle workers and is through. */
  lemma {:induction false} GoRound(p: Pool, t: nat, size: nat, visitors: nat) returns (ms: seq<Move>, q: Pool)
    requires Ok(p, size, visitors) && RankOf(p.workers) == 0
    requires t < |p.visitors| && p.visitors[t].Visiting? && p.visitors[t].next <= size
    ensures LeadsTo(p, ms, q) && NoJobs(ms) && |ms| == size - p.visitors[t].next && Possible(q, End(t))
    ensures Ok(q, size, visitors)
    decreases size - p.visitors[t].next
  {
    ms, q := [], p;
    if p.visitors[t].next < size {
      hide Possible, Result, RankOf, Ok, LeadsTo;
      RestsAt(p, p.visitors[t].next, size, visitors);
      VisitNext(p, t, size, visitors);
      var r := Result(p, Visit(t));
      MoveOk(p, Visit(t), size, visitors);
      var rest;
      rest, q := GoRound(r, t, size, visitors);
      ms := [Visit(t)] + rest;
      assert ms[1..] == rest;
      OneStep(p, ms, q);
    }
  }

  lemma {:induction false} OneStep(p: Pool, ms: seq<Move>, q: Pool)
    requires ms != [] && Possible(p, ms[0]) && LeadsTo(Result(p, ms[0]), ms[1..], q)
    ensures LeadsTo(p, ms, q)
  {
    hide Possible, Result;
  }

  lemma {:induction false} RestsAt(p: Pool, k: nat, size: nat, visitors: nat)
    requires Ok(p, size, visitors) && RankOf(p.workers) == 0 && k < size
    ensures |p.workers| == size && Idle(p.workers[k])
  {
    hide Inv, Idle, RankOf, NonNull;
    RankZero(p.workers, k);
    AtRest(p.workers[k]);
  }

  lemma {:induction false} LeadsOn(p: Pool, ms: seq<Move>, q: Pool, ns: seq<Move>, r: Pool)
    requires LeadsTo(p, ms, q) && LeadsTo(q, ns, r)
    ensures LeadsTo(p, ms + ns, r)
    decreases |ms|
  {
    hide Possible, Result;
    if ms == [] {
      assert ms + ns == ns;
    } else {
      LeadsOn(Result(p, ms[0]), ms[1..], q, ns, r);
      assert (ms + ns)[1..] == ms[1..] + ns;
    }
  }

  lemma {:induction false} NextFits(run: seq<Pool>, moves: seq<Move>, size: nat, visitors: nat, i: nat, t: nat)
    requires IsHistory(run, moves, size, visitors) && i < |run| && t < |run[i].visitors| && run[i].visitors[t].Visiting?
    ensures run[i].visitors[t].next <= size
    decreases i
  {
    if i > 0 {
      HistoryStep(run, moves, size, visitors, i - 1);
      var p, m := run[i - 1], moves[i - 1];
      hide Ok, Start, Enabled, After, Idle;
      if t < |p.visitors| && p.visitors[t].Visiting? {
        NextFits(run, moves, size, visitors, i - 1, t);
      }
    }
  }

  /** From every state of every history in which a thread is in `wait_all_idle`, there is a way for it to return. */
  lemma {:induction false} WaitAllIdleCanReturn(run: seq<Pool>, moves: seq<Move>, size: nat, visitors: nat, i: nat,
          t: nat)
    returns (ms: seq<Move>, q: Pool)
    requires IsHistory(run, moves, size, visitors) && i < |run| && t < |run[i].visitors| && run[i].visitors[t].Visiting?
    ensures LeadsTo(run[i], ms, q) && NoJobs(ms) && |ms| <= RankOf(run[i].workers) + size && Possible(q, End(t))
  {
    HistoryOk(run, moves, size, visitors, i);
    NextFits(run, moves, size, visitors, i, t);
    hide IsHistory, LeadsTo, Ok, RankOf, Possible;
    var first, p;
    first, p := PoolDrain(run[i], size, visitors);
    PoolIsBounded(run[i], first, p, size, visitors);
    var second;
    second, q := GoRound(p, t, size, visitors);
    LeadsOn(run[i], first, p, second, q);
    ms := first + second;
  }
}
