/**
 * `RwSpinLock` as a transition system: every atomic access of a thread is one
 * step, and steps of different threads interleave freely.
 */
module RwSpinLock {
  const WRITE := 0x2000_0000
  const INT_MAX := 0x7FFF_FFFF

  /** Where a thread stands; `lk` is its local copy of the word. */
  datatype Phase =
    | Idle
    | Tried(lk: int)      // s_lock: the word has been loaded
    | Reading
    | Owner               // x_lock: the mutex is held
    | Waiting(lk: int)    // x_lock: WRITE has been subtracted
    | Writing
    | Leaving             // x_unlock: WRITE has been added again

  datatype State = State(word: int, owner: set<nat>, threads: seq<Phase>)

  datatype Event = Load | Swap | SUnlock | Lock | Subtract | Spin | Enter | Add | Unlock

  ghost predicate Init(s: State) {
    s.word == WRITE && s.owner == {} && forall t :: 0 <= t < |s.threads| ==> s.threads[t] == Idle
  }

  function At(s: State, t: nat, p: Phase): seq<Phase>
    requires t < |s.threads|
  {
    s.threads[t := p]
  }

  /** A weak exchange may fail although the word is unchanged: the thread then loads again. */
  predicate Enabled(s: State, t: nat, e: Event)
    requires t < |s.threads|
  {
    var p := s.threads[t];
    match e
    case Load => p.Idle? || p.Tried?
    case Swap => p.Tried? && p.lk > 0 && s.word == p.lk
    case SUnlock => p.Reading?
    case Lock => p.Idle? && s.owner == {}
    case Subtract => p.Owner?
    case Spin => p.Waiting? && p.lk != 0
    case Enter => p.Waiting? && p.lk == 0
    case Add => p.Writing?
    case Unlock => p.Leaving?
  }

  function After(s: State, t: nat, e: Event): State
    requires t < |s.threads| && Enabled(s, t, e)
  {
    match e
    case Load => s.(threads := At(s, t, Tried(s.word)))
    case Swap => s.(word := s.threads[t].lk - 1, threads := At(s, t, Reading))
    case SUnlock => s.(word := s.word + 1, threads := At(s, t, Idle))
    case Lock => s.(owner := {t}, threads := At(s, t, Owner))
    case Subtract => s.(word := s.word - WRITE, threads := At(s, t, Waiting(s.word)))
    case Spin => s.(threads := At(s, t, Waiting(s.word)))
    case Enter => s.(threads := At(s, t, Writing))
    case Add => s.(word := s.word + WRITE, threads := At(s, t, Leaving))
    case Unlock => s.(owner := {}, threads := At(s, t, Idle))
  }

  ghost predicate Next(s: State, s': State) {
    exists t: nat, e :: t < |s.threads| && Enabled(s, t, e) && s' == After(s, t, e)
  }

  // ----- the invariant

  function Readers(ps: seq<Phase>): nat {
    if ps == [] then 0 else (if ps[0].Reading? then 1 else 0) + Readers(ps[1..])
  }

  predicate Subtracted(p: Phase) {
    p.Waiting? || p.Writing?
  }

  predicate HoldsMutex(p: Phase) {
    p.Owner? || p.Waiting? || p.Writing? || p.Leaving?
  }

  /** Some writer has subtracted and not yet added again. */
  ghost predicate Taken(s: State) {
    exists t :: 0 <= t < |s.threads| && Subtracted(s.threads[t])
  }

  ghost predicate Inv(s: State) {
    && |s.threads| < WRITE
    && s.word == WRITE - Readers(s.threads) - (if Taken(s) then WRITE else 0)
    && (forall t: nat :: t < |s.threads| ==> (HoldsMutex(s.threads[t]) <==> t in s.owner))
    && (forall t, u :: t in s.owner && u in s.owner ==> t == u)
    && (forall t: nat :: t < |s.threads| && (s.threads[t] == Writing || s.threads[t] == Waiting(0)) ==>
         Readers(s.threads) == 0)
  }

  lemma {:induction false} ReadersUpdate(ps: seq<Phase>, t: nat, p: Phase)
    requires t < |ps|
    ensures Readers(ps[t := p]) == Readers(ps) - (if ps[t].Reading? then 1 else 0) + if p.Reading? then 1 else 0
    decreases t
  {
    if t > 0 {
      ReadersUpdate(ps[1..], t - 1, p);
      assert ps[t := p][1..] == ps[1..][t - 1 := p];
    }
  }

  lemma {:induction false} ReadersBound(ps: seq<Phase>, t: nat)
    ensures Readers(ps) <= |ps|
    ensures t < |ps| && !ps[t].Reading? ==> Readers(ps) < |ps|
    ensures t < |ps| && ps[t].Reading? ==> Readers(ps) > 0
    decreases |ps|
  {
    if ps != [] {
      ReadersBound(ps[1..], if t == 0 then 0 else t - 1);
    }
  }

  lemma {:induction false} NoReaders(ps: seq<Phase>)
    requires forall t :: 0 <= t < |ps| ==> ps[t] == Idle
    ensures Readers(ps) == 0
    decreases |ps|
  {
    if ps != [] {
      NoReaders(ps[1..]);
    }
  }

  lemma {:induction false} InitInv(s: State)
    requires Init(s) && |s.threads| < WRITE
    ensures Inv(s)
  {
    NoReaders(s.threads);
  }

  /** Only `Subtract` and `Add` change whether the lock is taken. */
  lemma {:induction false} TakenAfter(s: State, t: nat, e: Event)
    requires Inv(s) && t < |s.threads| && Enabled(s, t, e)
    ensures e == Subtract ==> !Taken(s) && Taken(After(s, t, e))
    ensures e == Add ==> Taken(s) && !Taken(After(s, t, e))
    ensures e != Subtract && e != Add ==> (Taken(After(s, t, e)) <==> Taken(s))
  {
    hide Readers;
    var s' := After(s, t, e);
    if e == Subtract {
      assert Subtracted(s'.threads[t]);
    } else if e != Add {
      if Taken(s) {
        var u :| 0 <= u < |s.threads| && Subtracted(s.threads[u]);
        assert Subtracted(s'.threads[u]);
      }
      if Taken(s') {
        var u :| 0 <= u < |s.threads| && Subtracted(s'.threads[u]);
        assert Subtracted(s.threads[u]);
      }
    }
  }

  lemma {:induction false} StepInv(s: State, t: nat, e: Event)
    requires Inv(s) && t < |s.threads| && Enabled(s, t, e)
    ensures Inv(After(s, t, e))
  {
    hide Readers, Taken;
    var s' := After(s, t, e);
    TakenAfter(s, t, e);
    ReadersUpdate(s.threads, t, s'.threads[t]);
    ReadersBound(s.threads, t);
    TakenBy(s, t);
    WordInv(s, t, e);
    MutexInv(s, t, e);
    EmptyInv(s, t, e);
  }

  lemma {:induction false} TakenBy(s: State, t: nat)
    requires t < |s.threads|
    ensures Subtracted(s.threads[t]) ==> Taken(s)
  {
  }

  lemma {:induction false} WordInv(s: State, t: nat, e: Event)
    requires Inv(s) && t < |s.threads| && Enabled(s, t, e)
    ensures var s' := After(s, t, e); s'.word == WRITE - Readers(s'.threads) - if Taken(s') then WRITE else 0
  {
    hide Readers, Taken;
    TakenAfter(s, t, e);
    ReadersUpdate(s.threads, t, After(s, t, e).threads[t]);
  }

  lemma {:induction false} MutexInv(s: State, t: nat, e: Event)
    requires Inv(s) && t < |s.threads| && Enabled(s, t, e)
    ensures var s' := After(s, t, e);
      && (forall u: nat :: u < |s'.threads| ==> (HoldsMutex(s'.threads[u]) <==> u in s'.owner))
      && (forall u, v :: u in s'.owner && v in s'.owner ==> u == v)
  {
    hide Readers, Taken;
    assert HoldsMutex(s.threads[t]) <==> t in s.owner;
  }

  /** No reader gets in once a writer waits, so an empty lock stays empty. */
  lemma {:induction false} EmptyInv(s: State, t: nat, e: Event)
    requires Inv(s) && t < |s.threads| && Enabled(s, t, e)
    ensures var s' := After(s, t, e);
      forall u: nat :: u < |s'.threads| && (s'.threads[u] == Writing || s'.threads[u] == Waiting(0)) ==>
          Readers(s'.threads) == 0
  {
    hide Readers, Taken;
    var s' := After(s, t, e);
    ReadersUpdate(s.threads, t, s'.threads[t]);
    ReadersBound(s.threads, t);
    TakenAfter(s, t, e);
    forall u: nat | u < |s'.threads| && (s'.threads[u] == Writing || s'.threads[u] == Waiting(0))
      ensures Readers(s'.threads) == 0
    {
      TakenBy(s, u);
      TakenBy(s', u);
    }
  }

  // ----- every run

  ghost predicate IsRun(run: seq<State>) {
    && run != [] && Init(run[0]) && |run[0].threads| < WRITE
    && forall i :: 0 <= i < |run| - 1 ==> Next(run[i], run[i + 1])
  }

  lemma {:induction false} RunInv(run: seq<State>, i: nat)
    requires IsRun(run) && i < |run|
    ensures Inv(run[i])
    decreases i
  {
    hide Inv;
    if i == 0 {
      InitInv(run[0]);
    } else {
      RunInv(run, i - 1);
      assert Next(run[i - 1], run[i]);
      var t: nat, e :| t < |run[i - 1].threads| && Enabled(run[i - 1], t, e) && run[i] == After(run[i - 1], t, e);
      StepInv(run[i - 1], t, e);
    }
  }

  /** The word counts: WRITE, less the readers, less WRITE while a writer has it. It never overflows. */
  lemma {:induction false} WordCounts(run: seq<State>, i: nat)
    requires IsRun(run) && i < |run|
    ensures run[i].word == WRITE - Readers(run[i].threads) - if Taken(run[i]) then WRITE else 0
    ensures -INT_MAX <= run[i].word <= INT_MAX
  {
    RunInv(run, i);
    ReadersBound(run[i].threads, 0);
  }

  /** A writer in its section is alone. */
  lemma {:induction false} WriterIsAlone(run: seq<State>, i: nat, t: nat, u: nat)
    requires IsRun(run) && i < |run| && t < |run[i].threads| && u < |run[i].threads| && t != u
    requires run[i].threads[t].Writing?
    ensures !run[i].threads[u].Writing? && !run[i].threads[u].Reading?
  {
    RunInv(run, i);
    ReadersBound(run[i].threads, u);
    assert HoldsMutex(run[i].threads[t]) && t in run[i].owner;
  }

  lemma {:induction false} StepNoNewReader(s: State, s': State)
    requires Inv(s) && Next(s, s') && Taken(s)
    ensures Readers(s'.threads) <= Readers(s.threads)
  {
    var t: nat, e :| t < |s.threads| && Enabled(s, t, e) && s' == After(s, t, e);
    ReadersUpdate(s.threads, t, s'.threads[t]);
  }

  /** From the moment a writer has subtracted until it adds again, the number of readers does not rise. */
  lemma {:induction false} ReadersOnlyLeave(run: seq<State>, i: nat, j: nat)
    requires IsRun(run) && i <= j < |run| && forall k :: i <= k < j ==> Taken(run[k])
    ensures Readers(run[j].threads) <= Readers(run[i].threads)
    decreases j
  {
    hide Readers, Taken, Inv;
    if i < j {
      ReadersOnlyLeave(run, i, j - 1);
      RunInv(run, j - 1);
      assert Next(run[j - 1], run[j]);
      StepNoNewReader(run[j - 1], run[j]);
    }
  }

  /** A waiting writer that looks again gets in exactly when the last reader has left. */
  lemma {:induction false} WriterGetsIn(run: seq<State>, i: nat, t: nat)
    requires IsRun(run) && i < |run| && t < |run[i].threads| && Enabled(run[i], t, Spin)
    ensures Enabled(After(run[i], t, Spin), t, Enter) <==> Readers(run[i].threads) == 0
  {
    hide Readers;
    RunInv(run, i);
    TakenBy(run[i], t);
  }

  /** A reader that loads the word can exchange it at once exactly when no writer has it, however many others read. */
  lemma {:induction false} ReaderGetsIn(run: seq<State>, i: nat, t: nat)
    requires IsRun(run) && i < |run| && t < |run[i].threads| && Enabled(run[i], t, Load)
    ensures var s := After(run[i], t, Load);
      && (Enabled(s, t, Swap) <==> !Taken(run[i]))
      && (!Taken(run[i]) ==> After(s, t, Swap).threads == run[i].threads[t := Reading])
  {
    hide Readers;
    RunInv(run, i);
    ReadersBound(run[i].threads, t);
  }

  // ----- nobody is left behind

  /** The step of a thread. */
  datatype Step = Step(t: nat, e: Event)

  ghost predicate Leads(s: State, steps: seq<Step>, s': State)
    decreases |steps|
  {
    if steps == [] then s' == s
    else
      var x := steps[0];
      x.t < |s.threads| && Enabled(s, x.t, x.e) && Leads(After(s, x.t, x.e), steps[1..], s')
  }

  lemma {:induction false} LeadsOn(s: State, a: seq<Step>, s1: State, b: seq<Step>, s2: State)
    requires Leads(s, a, s1) && Leads(s1, b, s2)
    ensures Leads(s, a + b, s2)
    decreases |a|
  {
    hide Enabled, After;
    if a == [] {
      assert a + b == b;
    } else {
      LeadsOn(After(s, a[0].t, a[0].e), a[1..], s1, b, s2);
      assert (a + b)[1..] == a[1..] + b;
    }
  }

  lemma {:induction false} LeadsInv(s: State, steps: seq<Step>, s': State)
    requires Inv(s) && Leads(s, steps, s')
    ensures Inv(s')
    decreases |steps|
  {
    hide Inv, Enabled, After;
    if steps != [] {
      StepInv(s, steps[0].t, steps[0].e);
      LeadsInv(After(s, steps[0].t, steps[0].e), steps[1..], s');
    }
  }

  function Weight(p: Phase): nat {
    match p
    case Idle => 0
    case Tried(_) => 2
    case Reading => 1
    case Owner => 4
    case Waiting(_) => 3
    case Writing => 2
    case Leaving => 1
  }

  function Weights(ps: seq<Phase>): nat {
    if ps == [] then 0 else Weight(ps[0]) + Weights(ps[1..])
  }

  lemma {:induction false} WeightsUpdate(ps: seq<Phase>, t: nat, p: Phase)
    requires t < |ps|
    ensures Weights(ps[t := p]) == Weights(ps) - Weight(ps[t]) + Weight(p)
    decreases t
  {
    if t > 0 {
      WeightsUpdate(ps[1..], t - 1, p);
      assert ps[t := p][1..] == ps[1..][t - 1 := p];
    }
  }

  lemma {:induction false} ReaderAmong(ps: seq<Phase>) returns (t: nat)
    requires Readers(ps) > 0
    ensures t < |ps| && ps[t].Reading?
    decreases |ps|
  {
    t := 0;
    if !ps[0].Reading? {
      t := ReaderAmong(ps[1..]);
      t := t + 1;
    }
  }

  lemma {:induction false} One(s: State, t: nat, e: Event)
    requires t < |s.threads| && Enabled(s, t, e)
    ensures Leads(s, [Step(t, e)], After(s, t, e))
  {
    assert [Step(t, e)][1..] == [];
  }

  /** The thread that holds the mutex gets on when nobody reads. */
  lemma {:induction false} WriterOn(s: State, t: nat) returns (steps: seq<Step>, s': State)
    requires Inv(s) && t < |s.threads| && HoldsMutex(s.threads[t]) && Readers(s.threads) == 0
    ensures Leads(s, steps, s') && Weights(s'.threads) < Weights(s.threads)
  {
    hide Readers, Weights, Leads;
    var p := s.threads[t];
    if p.Waiting? && p.lk != 0 {
      TakenBy(s, t);
      var s1 := After(s, t, Spin);
      One(s, t, Spin);
      One(s1, t, Enter);
      s' := After(s1, t, Enter);
      LeadsOn(s, [Step(t, Spin)], s1, [Step(t, Enter)], s');
      steps := [Step(t, Spin)] + [Step(t, Enter)];
      assert s'.threads == s.threads[t := Writing];
    } else {
      var e := if p.Owner? then Subtract else if p.Waiting? then Enter else if p.Writing? then Add else Unlock;
      One(s, t, e);
      steps, s' := [Step(t, e)], After(s, t, e);
    }
    WeightsUpdate(s.threads, t, s'.threads[t]);
    assert s'.threads == s.threads[t := s'.threads[t]];
  }

  /** A thread that has loaded the word gets in when no writer has it. */
  lemma {:induction false} ReaderOn(s: State, t: nat) returns (steps: seq<Step>, s': State)
    requires Inv(s) && t < |s.threads| && s.threads[t].Tried? && !Taken(s)
    ensures Leads(s, steps, s') && Weights(s'.threads) < Weights(s.threads)
  {
    hide Readers, Weights, Leads, Taken;
    ReadersBound(s.threads, t);
    var s1 := After(s, t, Load);
    One(s, t, Load);
    One(s1, t, Swap);
    s' := After(s1, t, Swap);
    LeadsOn(s, [Step(t, Load)], s1, [Step(t, Swap)], s');
    steps := [Step(t, Load)] + [Step(t, Swap)];
    assert s'.threads == s.threads[t := Reading];
    WeightsUpdate(s.threads, t, Reading);
  }

  predicate AllIdle(s: State) {
    s.word == WRITE && s.owner == {} && forall t :: 0 <= t < |s.threads| ==> s.threads[t] == Idle
  }

  lemma {:induction false} SomeoneGetsOn(s: State) returns (steps: seq<Step>, s': State)
    requires Inv(s) && exists t :: 0 <= t < |s.threads| && s.threads[t] != Idle
    ensures Leads(s, steps, s') && Weights(s'.threads) < Weights(s.threads)
  {
    hide Leads, Weights, Readers;
    if Readers(s.threads) > 0 {
      var t := ReaderAmong(s.threads);
      One(s, t, SUnlock);
      steps, s' := [Step(t, SUnlock)], After(s, t, SUnlock);
      WeightsUpdate(s.threads, t, Idle);
    } else if u: nat :| u < |s.threads| && HoldsMutex(s.threads[u]) {
      steps, s' := WriterOn(s, u);
    } else {
      var t: nat :| t < |s.threads| && s.threads[t] != Idle;
      ReadersBound(s.threads, t);
      steps, s' := ReaderOn(s, t);
    }
  }

  lemma {:induction false} Unwind(s: State) returns (steps: seq<Step>, s': State)
    requires Inv(s)
    ensures Leads(s, steps, s') && Inv(s') && forall t :: 0 <= t < |s'.threads| ==> s'.threads[t] == Idle
    decreases Weights(s.threads)
  {
    hide Inv, Weights, Enabled, After;
    steps, s' := [], s;
    if exists t :: 0 <= t < |s.threads| && s.threads[t] != Idle {
      var a, s1, b;
      a, s1 := SomeoneGetsOn(s);
      LeadsInv(s, a, s1);
      b, s' := Unwind(s1);
      LeadsOn(s, a, s1, b, s');
      steps := a + b;
    }
  }

  /**
   * There is no deadlock: from every state of every run all threads can leave,
   * and the lock is then as at the start.
   */
  lemma {:induction false} EveryoneCanLeave(run: seq<State>, i: nat) returns (steps: seq<Step>, s': State)
    requires IsRun(run) && i < |run|
    ensures Leads(run[i], steps, s') && AllIdle(s')
  {
    hide Leads, Readers;
    RunInv(run, i);
    steps, s' := Unwind(run[i]);
    NoReaders(s'.threads);
    LeadsSame(run[i], steps, s');
    OwnersFit(run, i);
    OwnersStay(run[i], steps, s');
  }

  /** From every state of every run every thread can come to write, and to read. */
  lemma {:induction false} EveryoneCanEnter(run: seq<State>, i: nat, t: nat)
    returns (a: seq<Step>, w: State, b: seq<Step>, r: State)
    requires IsRun(run) && i < |run| && t < |run[i].threads|
    ensures Leads(run[i], a, w) && t < |w.threads| && w.threads[t] == Writing
    ensures Leads(run[i], b, r) && t < |r.threads| && r.threads[t] == Reading
  {
    hide Leads, Enabled, After;
    var c, s, x;
    c, s := EveryoneCanLeave(run, i);
    LeadsSame(run[i], c, s);
    x, w := CanWrite(s, t);
    LeadsOn(run[i], c, s, x, w);
    a := c + x;
    x, r := CanRead(s, t);
    LeadsOn(run[i], c, s, x, r);
    b := c + x;
  }

  lemma {:induction false} CanWrite(s: State, t: nat) returns (steps: seq<Step>, s': State)
    requires AllIdle(s) && t < |s.threads|
    ensures Leads(s, steps, s') && t < |s'.threads| && s'.threads[t] == Writing
  {
    var s1 := After(s, t, Lock);
    var s2 := After(s1, t, Subtract);
    var s3 := After(s2, t, Spin);
    s' := After(s3, t, Enter);
    hide Leads, After, Enabled;
    One(s, t, Lock); One(s1, t, Subtract); One(s2, t, Spin); One(s3, t, Enter);
    LeadsOn(s, [Step(t, Lock)], s1, [Step(t, Subtract)], s2);
    LeadsOn(s, [Step(t, Lock)] + [Step(t, Subtract)], s2, [Step(t, Spin)], s3);
    steps := [Step(t, Lock)] + [Step(t, Subtract)] + [Step(t, Spin)] + [Step(t, Enter)];
    LeadsOn(s, [Step(t, Lock)] + [Step(t, Subtract)] + [Step(t, Spin)], s3, [Step(t, Enter)], s');
  }

  lemma {:induction false} CanRead(s: State, t: nat) returns (steps: seq<Step>, s': State)
    requires AllIdle(s) && t < |s.threads|
    ensures Leads(s, steps, s') && t < |s'.threads| && s'.threads[t] == Reading
  {
    var s1 := After(s, t, Load);
    s' := After(s1, t, Swap);
    hide Leads;
    One(s, t, Load); One(s1, t, Swap);
    LeadsOn(s, [Step(t, Load)], s1, [Step(t, Swap)], s');
    steps := [Step(t, Load)] + [Step(t, Swap)];
  }

  lemma {:induction false} LeadsSame(s: State, steps: seq<Step>, s': State)
    requires Leads(s, steps, s')
    ensures |s'.threads| == |s.threads|
    decreases |steps|
  {
    if steps != [] {
      LeadsSame(After(s, steps[0].t, steps[0].e), steps[1..], s');
    }
  }

  ghost predicate OwnersOk(s: State) {
    forall t :: t in s.owner ==> t < |s.threads|
  }

  lemma {:induction false} OwnersStay(s: State, steps: seq<Step>, s': State)
    requires Leads(s, steps, s') && OwnersOk(s)
    ensures OwnersOk(s')
    decreases |steps|
  {
    if steps != [] {
      OwnersStay(After(s, steps[0].t, steps[0].e), steps[1..], s');
    }
  }

  lemma {:induction false} OwnersFit(run: seq<State>, i: nat)
    requires IsRun(run) && i < |run|
    ensures OwnersOk(run[i])
    decreases i
  {
    if i > 0 {
      OwnersFit(run, i - 1);
      assert Next(run[i - 1], run[i]);
    }
  }
}
