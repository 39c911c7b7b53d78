/**
 * `ParallelWorker` before it is stopped, as a transition system. A section
 * under the mutex is one step; clearing `job_doing` at the top of the loop and
 * executing a job happen outside the mutex and are steps of their own. Threads
 * asleep on a condition variable may wake up without a notification.
 */
module WorkerQueue {
  /** A job pointer; zero is the null pointer, which the worker skips. */
  type Job = nat

  const NULL := 0

  datatype Worker =
    | Top                     // before `job_doing` is cleared
    | Ready                   // before the mutex is taken
    | Asleep(notified: bool)  // in `jobs_cv.wait`
    | Running(job: Job)

  /** A thread that may call `wait_idle`. */
  datatype Waiter = Away | Waiting(notified: bool)

  /** `added`, `taken` and `done` record what was pushed, popped and executed. */
  datatype State = State(queue: seq<Job>, doing: Job, worker: Worker, waiters: seq<Waiter>,
                         added: seq<Job>, taken: seq<Job>, done: seq<Job>)

  datatype Event =
    | Clear
    | Look(woken: nat)   // the first test of the queue; `woken` is the waiter notified if it is empty
    | WakeUp
    | Finish
    | Add(job: Job)
    | Call(waiter: nat)  // `wait_idle`, up to its first test
    | Recheck(waiter: nat)

  /** The constructor leaves `job_doing` uninitialised, so it starts out arbitrary. */
  ghost predicate Init(s: State, waiters: nat) {
    && s.queue == [] && s.worker == Top && s.added == [] && s.taken == [] && s.done == []
    && |s.waiters| == waiters && forall t :: 0 <= t < waiters ==> s.waiters[t] == Away
  }

  predicate Idle(s: State) {
    s.doing == NULL && s.queue == []
  }

  predicate Unnotified(s: State, t: nat) {
    t < |s.waiters| && s.waiters[t] == Waiting(false)
  }

  ghost predicate Enabled(s: State, e: Event) {
    match e
    case Clear => s.worker.Top?
    case Look(woken) => s.worker.Ready? && (s.queue == [] && (exists t :: Unnotified(s, t)) ==> Unnotified(s, woken))
    case WakeUp => s.worker.Asleep?
    case Finish => s.worker.Running?
    case Add(_) => true
    case Call(t) => t < |s.waiters| && s.waiters[t].Away?
    case Recheck(t) => t < |s.waiters| && s.waiters[t].Waiting?
  }

  function Pop(s: State): State
    requires s.queue != []
  {
    s.(queue := s.queue[1..], doing := s.queue[0], worker := Running(s.queue[0]), taken := s.taken + [s.queue[0]])
  }

  /** `idle_cv.notify_one`. */
  function Notify(s: State, t: nat): State {
    if Unnotified(s, t) then s.(waiters := s.waiters[t := Waiting(true)]) else s
  }

  ghost function After(s: State, e: Event): State
    requires Enabled(s, e)
  {
    match e
    case Clear => s.(doing := NULL, worker := Ready)
    case Look(woken) => if s.queue == [] then Notify(s, woken).(worker := Asleep(false)) else Pop(s)
    case WakeUp => if s.queue == [] then s.(worker := Asleep(false)) else Pop(s)
    case Finish => s.(worker := Top, done := s.done + NonNull([s.worker.job]))
    case Add(job) => s.(queue := s.queue + [job], added := s.added + [job],
        worker := if s.worker.Asleep? then Asleep(true) else s.worker)
    case Call(t) => s.(waiters := s.waiters[t := if Idle(s) then Away else Waiting(false)])
    case Recheck(t) => s.(waiters := s.waiters[t := if Idle(s) then Away else Waiting(false)])
  }

  ghost predicate Next(s: State, s': State) {
    exists e :: Enabled(s, e) && s' == After(s, e)
  }

  /** The step lets a call of `wait_idle` return. */
  predicate Returns(s: State, e: Event) {
    (e.Call? || e.Recheck?) && Idle(s)
  }

  function NonNull(jobs: seq<Job>): seq<Job> {
    if jobs == [] then [] else (if jobs[0] != NULL then [jobs[0]] else []) + NonNull(jobs[1..])
  }

  lemma {:induction false} NonNullConcat(a: seq<Job>, b: seq<Job>)
    ensures NonNull(a + b) == NonNull(a) + NonNull(b)
    decreases |a|
  {
    if a == [] {
      assert a + b == b;
    } else {
      assert (a + b)[1..] == a[1..] + b;
      NonNullConcat(a[1..], b);
    }
  }

  // ----- the queue

  /** The job being executed, unless it is a null pointer. */
  function Current(s: State): seq<Job> {
    if s.worker.Running? then NonNull([s.worker.job]) else []
  }

  ghost predicate Inv(s: State) {
    && s.added == s.taken + s.queue
    && NonNull(s.taken) == s.done + Current(s)
    && (s.worker.Running? ==> s.doing == s.worker.job)
    && (s.worker.Ready? || s.worker.Asleep? ==> s.doing == NULL)
    && (s.worker == Asleep(false) ==> s.queue == [])
  }

  lemma {:induction false} PopInv(s: State)
    requires Inv(s) && s.queue != [] && !s.worker.Running?
    ensures Inv(Pop(s))
  {
    var j, r := s.queue[0], s.queue[1..];
    NonNullConcat(s.taken, [j]);
    assert s.queue == [j] + r;
    assert s.taken + s.queue == (s.taken + [j]) + r;
  }

  lemma {:induction false} StepInv(s: State, e: Event)
    requires Inv(s) && Enabled(s, e)
    ensures Inv(After(s, e))
  {
    hide NonNull;
    if (e.Look? || e.WakeUp?) && s.queue != [] {
      PopInv(s);
    } else if e.Add? {
      assert s.taken + (s.queue + [e.job]) == s.taken + s.queue + [e.job];
    }
  }

  ghost predicate IsRun(run: seq<State>, waiters: nat) {
    run != [] && Init(run[0], waiters) && forall i :: 0 <= i < |run| - 1 ==> Next(run[i], run[i + 1])
  }

  lemma {:induction false} RunInv(run: seq<State>, waiters: nat, i: nat)
    requires IsRun(run, waiters) && i < |run|
    ensures Inv(run[i])
    decreases i
  {
    if i > 0 {
      hide Inv;
      RunInv(run, waiters, i - 1);
      assert Next(run[i - 1], run[i]);
      var e :| Enabled(run[i - 1], e) && run[i] == After(run[i - 1], e);
      StepInv(run[i - 1], e);
    }
  }

  lemma {:induction false} Accounted(s: State)
    requires Inv(s)
    ensures s.done + Current(s) + NonNull(s.queue) == NonNull(s.added)
  {
    NonNullConcat(s.taken, s.queue);
  }

  /** Each job is executed once and in the order of its addition; at most one is under way. */
  lemma {:induction false} FifoOnce(run: seq<State>, waiters: nat, i: nat)
    requires IsRun(run, waiters) && i < |run|
    ensures run[i].done + Current(run[i]) + NonNull(run[i].queue) == NonNull(run[i].added)
  {
    RunInv(run, waiters, i);
    Accounted(run[i]);
  }

  lemma {:induction false} IdleMeansDone(s: State)
    requires Inv(s) && Idle(s)
    ensures s.done == NonNull(s.added)
  {
    assert s.taken + [] == s.taken && s.done + [] == s.done;
    assert [NULL][1..] == [];
    assert NonNull([NULL]) == [];
  }

  /** When `wait_idle` returns, every job added so far has been executed. */
  lemma {:induction false} WaitIdleReturns(run: seq<State>, waiters: nat, i: nat, e: Event)
    requires IsRun(run, waiters) && i < |run| && Enabled(run[i], e) && Returns(run[i], e)
    ensures After(run[i], e).done == NonNull(After(run[i], e).added)
  {
    RunInv(run, waiters, i);
    IdleMeansDone(run[i]);
  }

  /** No wake-up of the worker is lost. */
  lemma {:induction false} WorkerIsWoken(run: seq<State>, waiters: nat, i: nat)
    requires IsRun(run, waiters) && i < |run| && run[i].queue != [] && run[i].worker.Asleep?
    ensures run[i].worker.notified
  {
    RunInv(run, waiters, i);
  }

  // ----- progress

  /** The worker gets on: any step of its thread but a wake-up that finds nothing to do. */
  predicate Works(s: State, e: Event) {
    e.Clear? || e.Look? || e.Finish? || (e.WakeUp? && s.queue != [])
  }

  /** How many such steps are left at most. */
  function Rank(s: State): nat {
    4 * |s.queue| + match s.worker case Running(_) => 3 case Top => 2 case Ready => 1 case Asleep(_) => 0
  }

  lemma {:induction false} StepRank(s: State, e: Event)
    requires Enabled(s, e)
    ensures Works(s, e) ==> Rank(After(s, e)) < Rank(s)
    ensures !Works(s, e) ==> Rank(After(s, e)) == Rank(s) + if e.Add? then 4 else 0
    ensures !e.Add? ==> After(s, e).added == s.added
    ensures |After(s, e).waiters| == |s.waiters|
  {
    hide NonNull;
  }

  /** As long as there is something left, the worker can get on. */
  lemma {:induction false} CanWork(s: State) returns (e: Event)
    requires Rank(s) > 0
    ensures Enabled(s, e) && Works(s, e)
  {
    match s.worker
    case Running(_) => e := Finish;
    case Top => e := Clear;
    case Asleep(_) => e := WakeUp;
    case Ready =>
      var t: nat := 0;
      if exists u :: Unnotified(s, u) {
        t :| Unnotified(s, t);
      }
      e := Look(t);
  }

  /** With nothing left, the worker is idle and every job has been executed. */
  lemma {:induction false} AtRest(s: State)
    requires Inv(s) && Rank(s) == 0
    ensures Idle(s) && s.worker.Asleep? && s.done == NonNull(s.added)
  {
    hide NonNull;
    IdleMeansDone(s);
  }

  /** The events lead from one state to another. */
  ghost predicate Leads(s: State, es: seq<Event>, s': State)
    decreases |es|
  {
    if es == [] then s' == s else Enabled(s, es[0]) && Leads(After(s, es[0]), es[1..], s')
  }

  /** How many of the events get the worker on. */
  ghost function Worked(s: State, es: seq<Event>): nat
    decreases |es|
  {
    if es == [] || !Enabled(s, es[0]) then 0 else (if Works(s, es[0]) then 1 else 0) + Worked(After(s, es[0]), es[1..])
  }

  predicate NoAdd(es: seq<Event>) {
    forall i :: 0 <= i < |es| ==> !es[i].Add?
  }

  /** Whatever the other threads do meanwhile, without new jobs the worker gets on a bounded number of times. */
  lemma {:induction false} WorkIsBounded(s: State, es: seq<Event>, s': State)
    requires Inv(s) && Leads(s, es, s') && NoAdd(es)
    ensures Inv(s') && Worked(s, es) + Rank(s') <= Rank(s) && s'.added == s.added
    decreases |es|
  {
    hide Inv, Enabled, After, Works, Rank;
    if es != [] {
      StepInv(s, es[0]);
      StepRank(s, es[0]);
      WorkIsBounded(After(s, es[0]), es[1..], s');
    }
  }

  lemma {:induction false} Drain(s: State) returns (es: seq<Event>, s': State)
    requires Inv(s)
    ensures Leads(s, es, s') && NoAdd(es) && |es| == Worked(s, es) && Rank(s') == 0
    decreases Rank(s)
  {
    hide Inv, Enabled, After, Works;
    es, s' := [], s;
    if Rank(s) > 0 {
      var e := CanWork(s);
      IsWork(s, e);
      StepInv(s, e);
      StepRank(s, e);
      var rest;
      rest, s' := Drain(After(s, e));
      es := [e] + rest;
      assert es[1..] == rest;
    }
  }

  lemma {:induction false} IsWork(s: State, e: Event)
    requires Works(s, e)
    ensures !e.Add?
  {
  }

  /**
   * From every state of every run: as long as jobs are queued or under way the
   * worker can get on, and once it has done so `Rank` times, however the steps
   * of other threads are mixed in, all jobs added so far are executed and every
   * call of `wait_idle` that looks again returns.
   */
  lemma {:induction false} EveryJobRuns(run: seq<State>, waiters: nat, i: nat, es: seq<Event>, s': State)
    requires IsRun(run, waiters) && i < |run| && Leads(run[i], es, s') && NoAdd(es)
    requires Worked(run[i], es) >= Rank(run[i])
    ensures s'.done == NonNull(run[i].added) && Idle(s')
    ensures forall t :: 0 <= t < |s'.waiters| && s'.waiters[t].Waiting? ==>
      Enabled(s', Recheck(t)) && After(s', Recheck(t)).waiters[t] == Away
  {
    hide IsRun, Leads, NonNull;
    RunInv(run, waiters, i);
    WorkIsBounded(run[i], es, s');
    AtRest(s');
  }

  /** There is such a way from every state of every run. */
  lemma {:induction false} EveryJobCanRun(run: seq<State>, waiters: nat, i: nat) returns (es: seq<Event>, s': State)
    requires IsRun(run, waiters) && i < |run|
    ensures Leads(run[i], es, s') && NoAdd(es) && |es| <= Rank(run[i])
    ensures s'.done == NonNull(run[i].added) && Idle(s')
  {
    hide IsRun, Leads, NonNull, Inv;
    RunInv(run, waiters, i);
    es, s' := Drain(run[i]);
    WorkIsBounded(run[i], es, s');
    AtRest(s');
  }

  // ----- is every waiter woken?

  /** An idle worker sleeps while a waiter that was not notified sleeps too. */
  ghost predicate Stuck(s: State) {
    s.worker.Asleep? && Idle(s) && exists t :: Unnotified(s, t)
  }

  lemma {:induction false} OneWaiterNotStuck(s: State, e: Event)
    requires Inv(s) && Enabled(s, e) && |s.waiters| <= 1 && !Stuck(s)
    ensures !Stuck(After(s, e))
  {
    hide NonNull;
    var before, after := Unnotified(s, 0), Unnotified(After(s, e), 0);
  }

  lemma {:induction false} OneWaiterNeverStuck(run: seq<State>, waiters: nat, i: nat)
    requires IsRun(run, waiters) && i < |run| && waiters <= 1
    ensures !Stuck(run[i]) && |run[i].waiters| == waiters
    decreases i
  {
    if i > 0 {
      hide Inv, Stuck, NonNull;
      OneWaiterNeverStuck(run, waiters, i - 1);
      RunInv(run, waiters, i - 1);
      assert Next(run[i - 1], run[i]);
      var e :| Enabled(run[i - 1], e) && run[i] == After(run[i - 1], e);
      OneWaiterNotStuck(run[i - 1], e);
    }
  }

  /** Waiters of which all but the first two are away. */
  function Two(n: nat, a: Waiter, b: Waiter): seq<Waiter>
    requires n >= 2
  {
    [a, b] + seq(n - 2, _ => Away)
  }

  /** One job, two callers of `wait_idle` while it runs, and a single notification when it is over. */
  function StuckRun(n: nat): seq<State>
    requires n >= 2
  {
    var none, first, both, last := Two(n, Away, Away), Two(n, Waiting(false), Away),
        Two(n, Waiting(false), Waiting(false)), Two(n, Waiting(true), Waiting(false));
    [ State([], NULL, Top, none, [], [], []),
      State([1], NULL, Top, none, [1], [], []),
      State([1], NULL, Ready, none, [1], [], []),
      State([], 1, Running(1), none, [1], [1], []),
      State([], 1, Running(1), first, [1], [1], []),
      State([], 1, Running(1), both, [1], [1], []),
      State([], 1, Top, both, [1], [1], [1]),
      State([], NULL, Ready, both, [1], [1], [1]),
      State([], NULL, Asleep(false), last, [1], [1], [1]) ]
  }

  function StuckEvent(i: nat): Event {
    match i
    case 0 => Add(1)
    case 1 => Clear
    case 2 => Look(0)
    case 3 => Call(0)
    case 4 => Call(1)
    case 5 => Finish
    case 6 => Clear
    case _ => Look(0)
  }

  lemma {:induction false} StuckStep(n: nat, i: nat)
    requires n >= 2 && i < 8
    ensures Enabled(StuckRun(n)[i], StuckEvent(i)) && StuckRun(n)[i + 1] == After(StuckRun(n)[i], StuckEvent(i))
  {
    var run := StuckRun(n);
    assert Two(n, Waiting(false), Away) == Two(n, Away, Away)[0 := Waiting(false)];
    assert Two(n, Waiting(false), Waiting(false)) == Two(n, Waiting(false), Away)[1 := Waiting(false)];
    assert Two(n, Waiting(true), Waiting(false)) == Two(n, Waiting(false), Waiting(false))[0 := Waiting(true)];
    assert [1][1..] == [];
    if i == 2 { assert run[2].queue[1..] == []; }
    if i == 7 { assert Unnotified(run[7], 0); }
  }

  /** With two or more threads waiting, one can be left asleep beside the idle worker. */
  lemma {:induction false} TwoWaitersStuck(n: nat)
    requires n >= 2
    ensures IsRun(StuckRun(n), n) && |StuckRun(n)| == 9 && Stuck(StuckRun(n)[8])
  {
    var run := StuckRun(n);
    forall i | 0 <= i < |run| - 1
      ensures Next(run[i], run[i + 1])
    {
      StuckStep(n, i);
    }
    assert Unnotified(run[8], 1);
  }

  ghost predicate EverStuck(waiters: nat) {
    exists run, i :: IsRun(run, waiters) && 0 <= i < |run| && Stuck(run[i])
  }

  /** Every waiter is woken in every run if and only if at most one thread waits. */
  lemma {:induction false} NeverStuckIff(waiters: nat)
    ensures !EverStuck(waiters) <==> waiters <= 1
  {
    hide IsRun, Stuck, StuckRun;
    if waiters <= 1 {
      forall run, i | IsRun(run, waiters) && 0 <= i < |run|
        ensures !Stuck(run[i])
      {
        OneWaiterNeverStuck(run, waiters, i);
      }
    } else {
      TwoWaitersStuck(waiters);
    }
  }
}
