/** The lock sequence state machine of `perf lock`, aggregated by lock address or by task. */
module LockReport {
  import opened Common

  /** A sequence that does not exist yet is `UNINITIALIZED`; `RELEASED` is looked for but never stored. */
  datatype SeqState = UNINITIALIZED | RELEASED | ACQUIRING | ACQUIRED | READ_ACQUIRED | CONTENDED

  datatype Seq = Seq(state: SeqState, readCount: int, prevEventTime: nat)

  const NewSeq := Seq(UNINITIALIZED, 0, 0)

  /** Sequences belong to a task and a lock. */
  datatype SeqKey = SeqKey(tid: nat, addr: nat)

  datatype Aggregation = BY_ADDR | BY_TASK

  function KeyOf(mode: Aggregation, k: SeqKey): nat {
    if mode == BY_ADDR then k.addr else k.tid
  }

  /** By address the sequences of a lock belong together, by task those of a task. */
  predicate Belongs(mode: Aggregation, k: SeqKey, key: nat) {
    match mode
    case BY_ADDR => k.addr == key
    case BY_TASK => k.tid == key
  }

  lemma {:induction false} KeyIs(mode: Aggregation, k: SeqKey, key: nat)
    ensures KeyOf(mode, k) == key <==> Belongs(mode, k, key)
  {
  }

  datatype LockStat = LockStat(nrAcquire: nat, nrAcquired: nat, nrContended: nat, nrRelease: nat,
                               nrReadlock: nat, nrTrylock: nat,
                               waitTotal: nat, waitMin: nat, waitMax: nat, broken: bool)

  /** A counter has 32 bits. */
  function Next(counter: nat): nat {
    (counter + 1) % U32
  }

  const NewStat := LockStat(0, 0, 0, 0, 0, 0, 0, U64 - 1, 0, false)

  datatype Event =
    | Acquire(flag: nat) | Acquired | Contended | Release   // lockdep events
    | ContentionBegin | ContentionEnd                       // events without lockdep

  predicate TryLock(flag: nat) {
    flag % 2 == 1
  }

  predicate ReadLock(flag: nat) {
    flag / 2 % 2 == 1
  }

  /** What an event leaves of its sequence and of its statistics; `bug` is a failed `BUG_ON`. */
  datatype Outcome = Outcome(seq': Seq, stat: LockStat, bug: bool)

  /** A broken sequence is forgotten. */
  function Broken(l: LockStat): Outcome {
    Outcome(NewSeq, l.(broken := true), false)
  }

  function OnAcquire(s: Seq, l: LockStat, flag: nat, time: nat): Outcome {
    match s.state
    case UNINITIALIZED | RELEASED =>
      if flag == 0 then Outcome(s.(state := ACQUIRING, prevEventTime := time), l.(nrAcquire := Next(l.nrAcquire)),
          false)
      else Outcome(Seq(READ_ACQUIRED, 1, time),
                   l.(nrTrylock := if TryLock(flag) then Next(l.nrTrylock) else l.nrTrylock,
                      nrReadlock := if ReadLock(flag) then Next(l.nrReadlock) else l.nrReadlock,
                      nrAcquired := Next(l.nrAcquired), nrAcquire := Next(l.nrAcquire)), false)
    case READ_ACQUIRED =>
      if ReadLock(flag) then Outcome(s.(readCount := s.readCount + 1), l.(nrAcquired := Next(l.nrAcquired)), false)
      else Broken(l)
    case ACQUIRED | ACQUIRING | CONTENDED => Broken(l)
  }

  /** The length of a wait, in 64 bits. */
  function Term(s: Seq, time: nat): nat {
    (time - s.prevEventTime) % U64
  }

  /** The total of the waits has 64 bits. */
  function AddWait(l: LockStat, term: nat): LockStat {
    l.(waitTotal := (l.waitTotal + term) % U64,
       waitMin := if term < l.waitMin then term else l.waitMin,
       waitMax := if l.waitMax < term then term else l.waitMax)
  }

  function OnAcquired(s: Seq, l: LockStat, time: nat): Outcome {
    match s.state
    case UNINITIALIZED => Outcome(s, l, false)
    case ACQUIRING => Outcome(s.(state := ACQUIRED, prevEventTime := time), l.(nrAcquired := Next(l.nrAcquired)), false)
    case CONTENDED => Outcome(s.(state := ACQUIRED, prevEventTime := time),
        AddWait(l, Term(s, time)).(nrAcquired := Next(l.nrAcquired)), false)
    case RELEASED | ACQUIRED | READ_ACQUIRED => Broken(l)
  }

  function OnContended(s: Seq, l: LockStat, time: nat): Outcome {
    match s.state
    case UNINITIALIZED => Outcome(s, l, false)
    case ACQUIRING => Outcome(s.(state := CONTENDED, prevEventTime := time), l.(nrContended := Next(l.nrContended)),
        false)
    case RELEASED | ACQUIRED | READ_ACQUIRED | CONTENDED => Broken(l)
  }

  function OnRelease(s: Seq, l: LockStat): Outcome {
    match s.state
    case UNINITIALIZED => Outcome(s, l, false)
    case ACQUIRED => Outcome(NewSeq, l.(nrRelease := Next(l.nrRelease)), false)
    case READ_ACQUIRED =>
      if s.readCount - 1 < 0 then Outcome(s, l, true)
      else if s.readCount - 1 > 0 then
          Outcome(s.(readCount := s.readCount - 1), l.(nrRelease := Next(l.nrRelease)), false)
      else Outcome(NewSeq, l.(nrRelease := Next(l.nrRelease)), false)
    case ACQUIRING | CONTENDED | RELEASED => Broken(l)
  }

  /** Nested contention keeps the first begin. */
  function OnContentionBegin(s: Seq, l: LockStat, time: nat): Outcome {
    match s.state
    case UNINITIALIZED | ACQUIRED => Outcome(s.(state := CONTENDED, prevEventTime := time),
        l.(nrContended := Next(l.nrContended)), false)
    case CONTENDED => Outcome(s, l, false)
    case ACQUIRING | READ_ACQUIRED | RELEASED => Broken(l)
  }

  function OnContentionEnd(s: Seq, l: LockStat, time: nat): Outcome {
    match s.state
    case UNINITIALIZED => Outcome(s, l, false)
    case CONTENDED => Outcome(s.(state := ACQUIRED), AddWait(l, Term(s, time)).(nrAcquired := Next(l.nrAcquired)),
        false)
    case ACQUIRING | ACQUIRED | READ_ACQUIRED | RELEASED => Broken(l)
  }

  function On(e: Event, s: Seq, l: LockStat, time: nat): Outcome {
    match e
    case Acquire(flag) => OnAcquire(s, l, flag, time)
    case Acquired => OnAcquired(s, l, time)
    case Contended => OnContended(s, l, time)
    case Release => OnRelease(s, l)
    case ContentionBegin => OnContentionBegin(s, l, time)
    case ContentionEnd => OnContentionEnd(s, l, time)
  }

  // ----- what one event does to the counts

  predicate SeqOk(s: Seq) {
    (s.state == READ_ACQUIRED ==> s.readCount >= 1) && s.state != RELEASED
  }

  /** How often the lock is held through this sequence. */
  function Held(s: Seq): nat {
    if s.state == ACQUIRED then 1 else if s.state == READ_ACQUIRED && s.readCount > 0 then s.readCount else 0
  }

  function Waiting(s: Seq): nat {
    if s.state == CONTENDED then 1 else 0
  }

  /** The event ends a wait. */
  predicate EndsWait(e: Event, s: Seq) {
    s.state == CONTENDED && (e.Acquired? || e.ContentionEnd?)
  }

  /** Holds that the event forgets without a release. */
  function Dropped(e: Event, s: Seq): nat {
    if e.Release? || (e.Acquire? && s.state == READ_ACQUIRED && e.flag / 2 % 2 == 1) then 0 else Held(s)
  }

  /** Waits that the event forgets without an end. */
  function Abandoned(e: Event, s: Seq): nat {
    if e.Acquire? || e.Contended? || e.Release? then Waiting(s) else 0
  }

  /** The event counts as an acquisition. */
  predicate Acquires(e: Event, s: Seq) {
    match e
    case Acquire(flag) => if s.state == READ_ACQUIRED then flag / 2 % 2 == 1 else s.state == UNINITIALIZED && flag != 0
    case Acquired => s.state == ACQUIRING || s.state == CONTENDED
    case ContentionEnd => s.state == CONTENDED
    case _ => false
  }

  predicate Releases(e: Event, s: Seq) {
    e.Release? && (s.state == ACQUIRED || s.state == READ_ACQUIRED)
  }

  /** The event counts as a contention. */
  predicate Contends(e: Event, s: Seq) {
    (e.Contended? && s.state == ACQUIRING) || (e.ContentionBegin? && (s.state == UNINITIALIZED || s.state == ACQUIRED))
  }

  /** The event counts as an attempt; the lowest bit of its flag says that it only tries, the next one that it reads. */
  predicate Attempts(e: Event, s: Seq) {
    e.Acquire? && s.state == UNINITIALIZED
  }

  predicate Tries(e: Event, s: Seq) {
    Attempts(e, s) && e.flag % 2 == 1
  }

  predicate Reads(e: Event, s: Seq) {
    Attempts(e, s) && e.flag / 2 % 2 == 1
  }

  /** The event does not fit the state of its sequence. */
  predicate Breaks(e: Event, s: Seq) {
    match s.state
    case UNINITIALIZED | RELEASED => false
    case ACQUIRING => !e.Acquired? && !e.Contended?
    case ACQUIRED => !e.Release? && !e.ContentionBegin?
    case READ_ACQUIRED => !e.Release? && !(e.Acquire? && e.flag / 2 % 2 == 1)
    case CONTENDED => e.Acquire? || e.Contended? || e.Release?
  }

  function Once(b: bool): nat {
    if b then 1 else 0
  }

  /**
   * From `s` and `l` to `s'` and `l'` every acquisition is released, held or
   * dropped, every contention is over, waiting or abandoned; the counters
   * count these in their widths, and only a wait that ends goes into the wait
   * times.
   */
  ghost predicate Conserved(e: Event, s: Seq, l: LockStat, s': Seq, l': LockStat, time: nat) {
    && Once(Releases(e, s)) + Held(s') + Dropped(e, s) == Held(s) + Once(Acquires(e, s))
    && Once(EndsWait(e, s)) + Waiting(s') + Abandoned(e, s) == Waiting(s) + Once(Contends(e, s))
    && l'.nrAcquired == (if Acquires(e, s) then Next(l.nrAcquired) else l.nrAcquired)
    && l'.nrRelease == (if Releases(e, s) then Next(l.nrRelease) else l.nrRelease)
    && l'.nrContended == (if Contends(e, s) then Next(l.nrContended) else l.nrContended)
    && l'.nrAcquire == (if Attempts(e, s) then Next(l.nrAcquire) else l.nrAcquire)
    && l'.nrTrylock == (if Tries(e, s) then Next(l.nrTrylock) else l.nrTrylock)
    && l'.nrReadlock == (if Reads(e, s) then Next(l.nrReadlock) else l.nrReadlock)
    && (l'.broken <==> l.broken || Breaks(e, s))
    && var w := if EndsWait(e, s) then AddWait(l, Term(s, time)) else l;
       l'.waitTotal == w.waitTotal && l'.waitMin == w.waitMin && l'.waitMax == w.waitMax
  }

  lemma {:induction false} OneEvent(e: Event, s: Seq, l: LockStat, time: nat)
    requires SeqOk(s)
    ensures var o := On(e, s, l, time); !o.bug && SeqOk(o.seq') && Conserved(e, s, l, o.seq', o.stat, time)
  {
  }

  // ----- adding up the sequences of a key

  ghost function Sum(seqs: map<SeqKey, Seq>, mode: Aggregation, key: nat, f: Seq -> nat): nat
    decreases seqs.Keys
  {
    if seqs == map[] then 0
    else
      var k :| k in seqs;
      (if Belongs(mode, k, key) then f(seqs[k]) else 0) + Sum(seqs - {k}, mode, key, f)
  }

  lemma {:induction false} SumPick(seqs: map<SeqKey, Seq>, mode: Aggregation, key: nat, f: Seq -> nat, k: SeqKey)
    requires k in seqs
    ensures Sum(seqs, mode, key, f) == (if Belongs(mode, k, key) then f(seqs[k]) else 0) + Sum(seqs - {k}, mode, key, f)
    decreases seqs.Keys
  {
    var j :| j in seqs && Sum(seqs, mode, key, f) ==
        (if Belongs(mode, j, key) then f(seqs[j]) else 0) + Sum(seqs - {j}, mode, key, f);
    if j != k {
      SumPick(seqs - {j}, mode, key, f, k);
      SumPick(seqs - {k}, mode, key, f, j);
      assert seqs - {j} - {k} == seqs - {k} - {j};
    }
  }

  function SeqAt(seqs: map<SeqKey, Seq>, k: SeqKey): Seq {
    if k in seqs then seqs[k] else NewSeq
  }

  lemma {:induction false} SumUpdate(seqs: map<SeqKey, Seq>, mode: Aggregation, key: nat, f: Seq -> nat, k: SeqKey,
                                     s: Seq)
    requires f(NewSeq) == 0
    ensures Sum(seqs[k := s], mode, key, f) ==
      Sum(seqs, mode, key, f) + if Belongs(mode, k, key) then f(s) - f(SeqAt(seqs, k)) else 0
  {
    SumPick(seqs[k := s], mode, key, f, k);
    if k in seqs {
      SumPick(seqs, mode, key, f, k);
      assert seqs[k := s] - {k} == seqs - {k};
    } else {
      assert seqs[k := s] - {k} == seqs;
    }
  }

  const HeldBy: Seq -> nat := (s: Seq) => Held(s)
  const WaitedBy: Seq -> nat := (s: Seq) => Waiting(s)

  // ----- one key

  /**
   * What happened to a key: its waits, acquisitions, releases and contentions,
   * the attempts and how many of them were tries and reads, and what broken
   * sequences took with them.
   */
  datatype Ledger = Ledger(waits: seq<nat>, acquired: nat, released: nat, contended: nat, dropped: nat, abandoned: nat,
                           attempts: nat, tries: nat, shared: nat, broken: bool)

  const NewLedger := Ledger([], 0, 0, 0, 0, 0, 0, 0, 0, false)

  function StatAt(stats: map<nat, LockStat>, key: nat): LockStat {
    if key in stats then stats[key] else NewStat
  }

  function Total(waits: seq<nat>): nat {
    if waits == [] then 0 else Total(waits[..|waits| - 1]) + waits[|waits| - 1]
  }

  /** Total, minimum and maximum are those of the finished waits, the total in 64 bits. */
  ghost predicate Measured(waits: seq<nat>, l: LockStat) {
    && l.waitTotal == Total(waits) % U64
    && (forall i :: 0 <= i < |waits| ==> l.waitMin <= waits[i] <= l.waitMax)
    && (if waits == [] then l.waitMin == U64 - 1 && l.waitMax == 0 else l.waitMin in waits && l.waitMax in waits)
  }

  /**
   * For one key: acquisitions are released, held or dropped; contentions are
   * over, waiting or abandoned; the counters count them in 32 bits; and the
   * waits are measured.
   */
  ghost predicate Balanced(seqs: map<SeqKey, Seq>, mode: Aggregation, key: nat, l: LockStat, g: Ledger) {
    && g.released + Sum(seqs, mode, key, HeldBy) + g.dropped == g.acquired
    && |g.waits| + Sum(seqs, mode, key, WaitedBy) + g.abandoned == g.contended
    && Counted(l, g) && Measured(g.waits, l)
  }

  predicate Counted(l: LockStat, g: Ledger) {
    && l.nrAcquired == g.acquired % U32 && l.nrRelease == g.released % U32 && l.nrContended == g.contended % U32
    && l.nrAcquire == g.attempts % U32 && l.nrTrylock == g.tries % U32 && l.nrReadlock == g.shared % U32
    && l.broken == g.broken
  }

  /** The ledger after an event on a sequence. */
  function Booked(g: Ledger, e: Event, s: Seq, time: nat): Ledger {
    Ledger(g.waits + (if EndsWait(e, s) then [Term(s, time)] else []),
           g.acquired + Once(Acquires(e, s)), g.released + Once(Releases(e, s)), g.contended + Once(Contends(e, s)),
           g.dropped + Dropped(e, s), g.abandoned + Abandoned(e, s),
           g.attempts + Once(Attempts(e, s)), g.tries + Once(Tries(e, s)), g.shared + Once(Reads(e, s)),
           g.broken || Breaks(e, s))
  }

  lemma {:induction false} NextWraps(n: nat)
    ensures Next(n % U32) == (n + 1) % U32
  {
  }

  lemma {:induction false} CountedAfter(e: Event, s: Seq, l: LockStat, g: Ledger, time: nat)
    requires Counted(l, g) && SeqOk(s)
    ensures Counted(On(e, s, l, time).stat, Booked(g, e, s, time))
  {
    OneEvent(e, s, l, time);
    hide On, Next, Releases, Acquires, Contends, EndsWait, Held, Waiting, Dropped, Abandoned, AddWait, Term, Attempts,
        Tries, Reads, Breaks;
    NextWraps(g.acquired); NextWraps(g.released); NextWraps(g.contended);
    NextWraps(g.attempts); NextWraps(g.tries); NextWraps(g.shared);
  }

  lemma {:induction false} MeasuredNext(waits: seq<nat>, l: LockStat, term: nat)
    requires Measured(waits, l) && term < U64
    ensures Measured(waits + [term], AddWait(l, term))
  {
    var w := waits + [term];
    assert w[..|waits|] == waits;
    assert w[|waits|] == term && term in w;
    TotalWraps(Total(waits), term);
  }

  lemma {:induction false} TotalWraps(total: nat, term: nat)
    ensures (total % U64 + term) % U64 == (total + term) % U64
  {
  }

  lemma {:induction false} MeasuredSame(waits: seq<nat>, l: LockStat, m: LockStat)
    requires Measured(waits, l) && l.waitTotal == m.waitTotal && l.waitMin == m.waitMin && l.waitMax == m.waitMax
    ensures Measured(waits, m) && waits + [] == waits
  {
  }

  /** n waits: n times the least is at most the total, which is at most n times the greatest. */
  lemma {:induction false} TotalBounds(waits: seq<nat>, lo: nat, hi: nat)
    requires forall i :: 0 <= i < |waits| ==> lo <= waits[i] <= hi
    ensures |waits| * lo <= Total(waits) <= |waits| * hi
    decreases |waits|
  {
    if waits != [] {
      var n := |waits| - 1;
      TotalBounds(waits[..n], lo, hi);
      assert (n + 1) * lo == n * lo + lo && (n + 1) * hi == n * hi + hi;
    }
  }

  lemma {:induction false} BalancedAfter(seqs: map<SeqKey, Seq>, mode: Aggregation, k: SeqKey, e: Event, l: LockStat,
                                         g: Ledger, time: nat)
    requires Balanced(seqs, mode, KeyOf(mode, k), l, g) && SeqOk(SeqAt(seqs, k))
    ensures var o := On(e, SeqAt(seqs, k), l, time);
      Balanced(seqs[k := o.seq'], mode, KeyOf(mode, k), o.stat, Booked(g, e, SeqAt(seqs, k), time))
  {
    hide Sum, On, Held, Waiting, Dropped, Abandoned, EndsWait, AddWait, Measured, Term, Counted, Next, Acquires,
        Releases, Contends;
    var s := SeqAt(seqs, k);
    var o := On(e, s, l, time);
    Uncounted();
    OneEvent(e, s, l, time);
    CountedAfter(e, s, l, g, time);
    SumUpdate(seqs, mode, KeyOf(mode, k), HeldBy, k, o.seq');
    SumUpdate(seqs, mode, KeyOf(mode, k), WaitedBy, k, o.seq');
    TermFits(s, time);
    if EndsWait(e, s) {
      MeasuredNext(g.waits, l, Term(s, time));
      MeasuredSame(g.waits + [Term(s, time)], AddWait(l, Term(s, time)), o.stat);
    } else {
      MeasuredSame(g.waits, l, o.stat);
    }
  }

  lemma {:induction false} TermFits(s: Seq, time: nat)
    ensures Term(s, time) < U64
  {
  }

  lemma {:induction false} Uncounted()
    ensures Held(NewSeq) == 0 && Waiting(NewSeq) == 0
  {
  }

  lemma {:induction false} BalancedElsewhere(seqs: map<SeqKey, Seq>, mode: Aggregation, k: SeqKey, s: Seq, key: nat,
                                             l: LockStat, g: Ledger)
    requires Balanced(seqs, mode, key, l, g) && !Belongs(mode, k, key)
    ensures Balanced(seqs[k := s], mode, key, l, g)
  {
    hide Sum, Held, Waiting, Measured;
    Uncounted();
    SumUpdate(seqs, mode, key, HeldBy, k, s);
    SumUpdate(seqs, mode, key, WaitedBy, k, s);
  }

  lemma {:induction false} SumNothing(seqs: map<SeqKey, Seq>, mode: Aggregation, key: nat, f: Seq -> nat)
    requires f(NewSeq) == 0 && forall k :: k in seqs && Belongs(mode, k, key) ==> seqs[k] == NewSeq
    ensures Sum(seqs, mode, key, f) == 0
    decreases seqs.Keys
  {
    if seqs != map[] {
      var k :| k in seqs;
      SumPick(seqs, mode, key, f, k);
      SumNothing(seqs - {k}, mode, key, f);
    }
  }

  lemma {:induction false} BalancedNew(seqs: map<SeqKey, Seq>, mode: Aggregation, key: nat)
    requires forall k :: k in seqs && Belongs(mode, k, key) ==> seqs[k] == NewSeq
    ensures Balanced(seqs, mode, key, NewStat, NewLedger)
  {
    hide Sum;
    Uncounted();
    SumNothing(seqs, mode, key, HeldBy);
    SumNothing(seqs, mode, key, WaitedBy);
  }

  // ----- every run

  /** One event of a task and a lock; `matches` tells whether the filters let a begin of contention through. */
  datatype Sample = Sample(key: SeqKey, event: Event, time: nat, matches: bool)

  /** The two tables. */
  datatype Books = Books(seqs: map<SeqKey, Seq>, stats: map<nat, LockStat>)

  const NoBooks := Books(map[], map[])

  /** The sample reaches its sequence: it is not filtered out, and not the end of a contention on an unknown key. */
  predicate Reaches(mode: Aggregation, b: Books, s: Sample) {
    (s.event.ContentionBegin? ==> s.matches) && (s.event.ContentionEnd? ==> KeyOf(mode, s.key) in b.stats)
  }

  function Apply(mode: Aggregation, b: Books, s: Sample): Books {
    var key := KeyOf(mode, s.key);
    if Reaches(mode, b, s) then
      var o := On(s.event, SeqAt(b.seqs, s.key), StatAt(b.stats, key), s.time);
      Books(b.seqs[s.key := o.seq'], b.stats[key := o.stat])
    else if s.event.ContentionEnd? then b
    else b.(stats := b.stats[key := StatAt(b.stats, key)])
  }

  function Replay(mode: Aggregation, samples: seq<Sample>): Books {
    if samples == [] then NoBooks else Apply(mode, Replay(mode, samples[..|samples| - 1]), samples[|samples| - 1])
  }

  /** What the samples finished, dropped and abandoned for a key. */
  function Settled(mode: Aggregation, samples: seq<Sample>, key: nat): Ledger {
    if samples == [] then NewLedger
    else
      var n := |samples| - 1;
      var b, s, g := Replay(mode, samples[..n]), samples[n], Settled(mode, samples[..n], key);
      if Belongs(mode, s.key, key) && Reaches(mode, b, s) then Booked(g, s.event, SeqAt(b.seqs, s.key), s.time) else g
  }

  ghost predicate SeqsOk(mode: Aggregation, b: Books) {
    && (forall k :: k in b.seqs ==> SeqOk(b.seqs[k]))
    && (forall k :: k in b.seqs && KeyOf(mode, k) !in b.stats ==> b.seqs[k] == NewSeq)
  }

  lemma {:induction false} ApplyOk(mode: Aggregation, b: Books, s: Sample)
    requires SeqsOk(mode, b)
    ensures SeqsOk(mode, Apply(mode, b, s)) && SeqOk(SeqAt(b.seqs, s.key))
  {
    hide On, Reaches, SeqOk;
    SeqAtOk(b.seqs, s.key);
    OneEventOk(s.event, SeqAt(b.seqs, s.key), StatAt(b.stats, KeyOf(mode, s.key)), s.time);
  }

  lemma {:induction false} SeqAtOk(seqs: map<SeqKey, Seq>, k: SeqKey)
    requires forall j :: j in seqs ==> SeqOk(seqs[j])
    ensures SeqOk(SeqAt(seqs, k))
  {
  }

  lemma {:induction false} OneEventOk(e: Event, s: Seq, l: LockStat, time: nat)
    requires SeqOk(s)
    ensures SeqOk(On(e, s, l, time).seq')
  {
    OneEvent(e, s, l, time);
  }

  lemma {:induction false} ReplayOk(mode: Aggregation, samples: seq<Sample>)
    ensures SeqsOk(mode, Replay(mode, samples))
    decreases |samples|
  {
    hide SeqsOk, Apply;
    if samples == [] {
      NoBooksOk(mode);
    } else {
      ReplayOk(mode, samples[..|samples| - 1]);
      ApplyOk(mode, Replay(mode, samples[..|samples| - 1]), samples[|samples| - 1]);
    }
  }

  lemma {:induction false} NoBooksOk(mode: Aggregation)
    ensures SeqsOk(mode, NoBooks)
  {
  }

  /** The balance of a key before it has statistics is that of new ones. */
  ghost predicate Sound(mode: Aggregation, b: Books, key: nat, g: Ledger) {
    Balanced(b.seqs, mode, key, StatAt(b.stats, key), g) && (key !in b.stats ==> g == NewLedger)
  }

  lemma {:induction false} ApplySound(mode: Aggregation, b: Books, s: Sample, key: nat, g: Ledger)
    requires SeqsOk(mode, b) && Sound(mode, b, key, g)
    ensures Sound(mode, Apply(mode, b, s), key,
                  if Belongs(mode, s.key, key) && Reaches(mode, b, s) then
                      Booked(g, s.event, SeqAt(b.seqs, s.key), s.time) else g)
  {
    hide On, Reaches, Balanced, SeqsOk, Booked, Belongs, KeyOf;
    ApplyOk(mode, b, s);
    KeyIs(mode, s.key, key);
    if Reaches(mode, b, s) {
      var o := On(s.event, SeqAt(b.seqs, s.key), StatAt(b.stats, KeyOf(mode, s.key)), s.time);
      if KeyOf(mode, s.key) == key {
        BalancedAfter(b.seqs, mode, s.key, s.event, StatAt(b.stats, key), g, s.time);
      } else {
        BalancedElsewhere(b.seqs, mode, s.key, o.seq', key, StatAt(b.stats, key), g);
      }
    }
  }

  /**
   * For every sequence of samples and every key: acquisitions are released,
   * held or dropped, contentions are over, waiting or abandoned, and total,
   * minimum and maximum are those of the finished waits.
   */
  lemma {:induction false} ReplayBalanced(mode: Aggregation, samples: seq<Sample>, key: nat)
    ensures Sound(mode, Replay(mode, samples), key, Settled(mode, samples, key))
    decreases |samples|
  {
    hide Sound, Apply, Reaches, Booked;
    if samples == [] {
      StartSound(mode, key);
    } else {
      var n := |samples| - 1;
      ReplayOk(mode, samples[..n]);
      ReplayBalanced(mode, samples[..n], key);
      ApplySound(mode, Replay(mode, samples[..n]), samples[n], key, Settled(mode, samples[..n], key));
    }
  }

  lemma {:induction false} StartSound(mode: Aggregation, key: nat)
    ensures Sound(mode, NoBooks, key, NewLedger)
  {
    BalancedNew(map[], mode, key);
  }

  /** An event counts at most once. */
  lemma {:induction false} SettledFits(mode: Aggregation, samples: seq<Sample>, key: nat)
    ensures var g := Settled(mode, samples, key);
      g.acquired <= |samples| && g.released <= |samples| && g.contended <= |samples| && |g.waits| <= |samples|
    decreases |samples|
  {
    hide Replay, Reaches, Acquires, Releases, Contends, EndsWait;
    if samples != [] {
      SettledFits(mode, samples[..|samples| - 1], key);
    }
  }

  /** The total shown is the true one if and only if that is below 2^64. */
  lemma {:induction false} TotalExactIff(mode: Aggregation, samples: seq<Sample>, key: nat)
    ensures var total := Total(Settled(mode, samples, key).waits);
      StatAt(Replay(mode, samples).stats, key).waitTotal == total <==> total < U64
  {
    hide Sum, Replay, Settled, Total;
    ReplayBalanced(mode, samples, key);
  }

  /**
   * The bounds a reader of the report relies on, for the number n of
   * finished waits. Of what happened, releases plus holds are at most the
   * acquisitions, and n plus the waiting ones at most the contentions; so are
   * the counters shown, below 2^32 events. If the waits add up to less than
   * 2^64, n * min <= total <= n * max.
   */
  lemma {:induction false} ReportBounds(mode: Aggregation, samples: seq<Sample>, key: nat)
    ensures var b, g := Replay(mode, samples), Settled(mode, samples, key);
      var l, n, held, waiting := StatAt(b.stats, key), |g.waits|, Sum(b.seqs, mode, key, HeldBy),
          Sum(b.seqs, mode, key, WaitedBy);
      && g.released + held <= g.acquired && n + waiting <= g.contended
      && (|samples| < U32 ==> l.nrRelease + held <= l.nrAcquired && n + waiting <= l.nrContended)
      && (Total(g.waits) < U64 ==> n * l.waitMin <= l.waitTotal <= n * l.waitMax)
  {
    hide Sum, Replay, Settled, Total, Counted, Measured, StatAt;
    ReplayBalanced(mode, samples, key);
    SettledFits(mode, samples, key);
    var l, g := StatAt(Replay(mode, samples).stats, key), Settled(mode, samples, key);
    if |samples| < U32 {
      CountedBelow(l, g);
    }
    if Total(g.waits) < U64 {
      MeasuredBelow(g.waits, l);
    }
  }

  lemma {:induction false} CountedBelow(l: LockStat, g: Ledger)
    requires Counted(l, g) && g.acquired < U32 && g.released < U32 && g.contended < U32
    ensures l.nrAcquired == g.acquired && l.nrRelease == g.released && l.nrContended == g.contended
  {
  }

  lemma {:induction false} MeasuredBelow(waits: seq<nat>, l: LockStat)
    requires Measured(waits, l) && Total(waits) < U64
    ensures |waits| * l.waitMin <= l.waitTotal <= |waits| * l.waitMax
  {
    hide Total;
    TotalBounds(waits, l.waitMin, l.waitMax);
  }

  // ----- events in time order

  ghost predicate InOrder(samples: seq<Sample>, lo: nat, hi: nat) {
    && (forall i :: 0 <= i < |samples| ==> lo <= samples[i].time <= hi)
    && forall i, j :: 0 <= i < j < |samples| ==> samples[i].time <= samples[j].time
  }

  /** Sequences that wait began to do so between two instants. */
  ghost predicate BegunIn(b: Books, lo: nat, now: nat) {
    forall k :: k in b.seqs && b.seqs[k].state == CONTENDED ==> lo <= b.seqs[k].prevEventTime <= now
  }

  lemma {:induction false} BegunAfter(e: Event, s: Seq, l: LockStat, time: nat)
    ensures var q := On(e, s, l, time).seq'; q.state == CONTENDED ==> q == s || q.prevEventTime == time
  {
  }

  lemma {:induction false} ApplyBegun(mode: Aggregation, b: Books, s: Sample, lo: nat, now: nat)
    requires BegunIn(b, lo, now) && lo <= now <= s.time
    ensures BegunIn(Apply(mode, b, s), lo, s.time)
  {
    hide On, Reaches;
    BegunAfter(s.event, SeqAt(b.seqs, s.key), StatAt(b.stats, KeyOf(mode, s.key)), s.time);
  }

  lemma {:induction false} ReplayBegun(mode: Aggregation, samples: seq<Sample>, lo: nat, hi: nat)
    requires InOrder(samples, lo, hi) && samples != []
    ensures BegunIn(Replay(mode, samples), lo, samples[|samples| - 1].time)
    decreases |samples|
  {
    hide Apply;
    var n := |samples| - 1;
    if n > 0 {
      ReplayBegun(mode, samples[..n], lo, hi);
      ApplyBegun(mode, Replay(mode, samples[..n]), samples[n], lo, samples[n - 1].time);
    } else {
      assert samples[..0] == [];
      ApplyBegun(mode, NoBooks, samples[0], lo, samples[0].time);
    }
  }

  /** On events in time order a wait is as long as the time between its two events. */
  lemma {:induction false} TermInOrder(s: Seq, time: nat)
    requires s.prevEventTime <= time < U64
    ensures Term(s, time) == time - s.prevEventTime
  {
  }

  lemma {:induction false} WaitsFit(mode: Aggregation, samples: seq<Sample>, key: nat, lo: nat, hi: nat)
    requires InOrder(samples, lo, hi) && lo <= hi < U64
    ensures forall w :: w in Settled(mode, samples, key).waits ==> w <= hi - lo
    decreases |samples|
  {
    hide Replay, Reaches, Acquires, Releases, Contends;
    if samples != [] {
      var n := |samples| - 1;
      WaitsFit(mode, samples[..n], key, lo, hi);
      var s := samples[n];
      var b := Replay(mode, samples[..n]);
      if EndsWait(s.event, SeqAt(b.seqs, s.key)) {
        BegunBefore(mode, samples, lo, hi);
        TermInOrder(SeqAt(b.seqs, s.key), s.time);
      }
    }
  }

  lemma {:induction false} BegunBefore(mode: Aggregation, samples: seq<Sample>, lo: nat, hi: nat)
    requires InOrder(samples, lo, hi) && samples != []
    ensures BegunIn(Replay(mode, samples[..|samples| - 1]), lo, samples[|samples| - 1].time)
  {
    var n := |samples| - 1;
    if n > 0 {
      ReplayBegun(mode, samples[..n], lo, hi);
    }
  }

  /**
   * For fewer than 2^32 events in time order, over a stretch whose length
   * times their number is below 2^64: no wait is longer than the stretch, the
   * total is the true one, and all bounds hold of what is shown.
   */
  lemma {:induction false} OrderedReport(mode: Aggregation, samples: seq<Sample>, key: nat, lo: nat, hi: nat)
    requires InOrder(samples, lo, hi) && lo <= hi < U64 && |samples| < U32 && |samples| * (hi - lo) < U64
    ensures var b, waits := Replay(mode, samples), Settled(mode, samples, key).waits;
      var l, n := StatAt(b.stats, key), |waits|;
      && (forall w :: w in waits ==> w <= hi - lo) && l.waitTotal == Total(waits)
      && n * l.waitMin <= l.waitTotal <= n * l.waitMax
      && l.nrRelease + Sum(b.seqs, mode, key, HeldBy) <= l.nrAcquired
           && n + Sum(b.seqs, mode, key, WaitedBy) <= l.nrContended
  {
    hide Sum, Replay, Settled, Total, InOrder;
    var waits := Settled(mode, samples, key).waits;
    WaitsFit(mode, samples, key, lo, hi);
    assert forall i :: 0 <= i < |waits| ==> waits[i] in waits;
    TotalBounds(waits, 0, hi - lo);
    SettledFits(mode, samples, key);
    Scaled(|waits|, |samples|, hi - lo);
    TotalExactIff(mode, samples, key);
    ReportBounds(mode, samples, key);
  }

  lemma {:induction false} Scaled(m: nat, n: nat, d: nat)
    requires m <= n
    ensures m * d <= n * d
  {
  }

  // ----- where a wait began

  /** A sequence that waits began to do so at sample `j`, and has only seen nested begins of contention since. */
  ghost predicate Began(samples: seq<Sample>, k: SeqKey, since: nat, j: nat) {
    && j < |samples| && samples[j].key == k && samples[j].time == since
    && (samples[j].event.Contended? || samples[j].event.ContentionBegin?)
    && forall i :: j < i < |samples| && samples[i].key == k ==> samples[i].event.ContentionBegin?
  }

  lemma {:induction false} StaysContended(e: Event, s: Seq, l: LockStat, time: nat)
    requires On(e, s, l, time).seq'.state == CONTENDED
    ensures var q := On(e, s, l, time).seq';
      if s.state == CONTENDED then q == s && e.ContentionBegin?
      else q.prevEventTime == time && (e.Contended? || e.ContentionBegin?)
  {
  }

  /** The length of a wait is measured from the event that began it. */
  lemma {:induction false} WaitBegan(mode: Aggregation, samples: seq<Sample>, k: SeqKey) returns (j: nat)
    requires SeqAt(Replay(mode, samples).seqs, k).state == CONTENDED
    ensures Began(samples, k, SeqAt(Replay(mode, samples).seqs, k).prevEventTime, j)
    decreases |samples|
  {
    hide On;
    var n := |samples| - 1;
    var b, s := Replay(mode, samples[..n]), samples[n];
    ReplayOk(mode, samples[..n]);
    var q := SeqAt(b.seqs, k);
    if s.key == k && Reaches(mode, b, s) {
      StaysContended(s.event, q, StatAt(b.stats, KeyOf(mode, k)), s.time);
      if q.state == CONTENDED {
        j := WaitBegan(mode, samples[..n], k);
      } else {
        j := n;
      }
    } else {
      j := WaitBegan(mode, samples[..n], k);
    }
  }

  // ----- keys do not meet

  /** The samples of a lock, or of a task. */
  function OnLock(samples: seq<Sample>, addr: nat): seq<Sample> {
    if samples == [] then []
    else
      var last := samples[|samples| - 1];
      OnLock(samples[..|samples| - 1], addr) + if last.key.addr == addr then [last] else []
  }

  function ByTask(samples: seq<Sample>, tid: nat): seq<Sample> {
    if samples == [] then []
    else
      var last := samples[|samples| - 1];
      ByTask(samples[..|samples| - 1], tid) + if last.key.tid == tid then [last] else []
  }

  function OnlyOf(mode: Aggregation, samples: seq<Sample>, key: nat): seq<Sample> {
    if samples == [] then []
    else
      var last := samples[|samples| - 1];
      OnlyOf(mode, samples[..|samples| - 1], key) + if Belongs(mode, last.key, key) then [last] else []
  }

  /** Two books say the same about a key. */
  ghost predicate SameFor(mode: Aggregation, b: Books, c: Books, key: nat) {
    && (key in b.stats <==> key in c.stats) && StatAt(b.stats, key) == StatAt(c.stats, key)
    && forall k :: Belongs(mode, k, key) ==> SeqAt(b.seqs, k) == SeqAt(c.seqs, k)
  }

  lemma {:induction false} ApplySame(mode: Aggregation, b: Books, c: Books, s: Sample, key: nat)
    requires SameFor(mode, b, c, key)
    ensures Belongs(mode, s.key, key) ==>
      SameFor(mode, Apply(mode, b, s), Apply(mode, c, s), key) && (Reaches(mode, b, s) <==> Reaches(mode, c, s))
    ensures !Belongs(mode, s.key, key) ==> SameFor(mode, Apply(mode, b, s), c, key)
  {
    hide On;
    KeyIs(mode, s.key, key);
  }

  lemma {:induction false} OnlyOfSame(mode: Aggregation, samples: seq<Sample>, key: nat)
    ensures var own := OnlyOf(mode, samples, key);
      SameFor(mode, Replay(mode, samples), Replay(mode, own), key)
          && Settled(mode, samples, key) == Settled(mode, own, key)
    decreases |samples|
  {
    hide Apply, Booked, Reaches, Belongs;
    if samples != [] {
      var n := |samples| - 1;
      var s, own := samples[n], OnlyOf(mode, samples[..n], key);
      OnlyOfSame(mode, samples[..n], key);
      ApplySame(mode, Replay(mode, samples[..n]), Replay(mode, own), s, key);
      if Belongs(mode, s.key, key) {
        assert (own + [s])[..|own|] == own;
      } else {
        assert own + [] == own;
      }
    }
  }

  lemma {:induction false} OnlyIs(samples: seq<Sample>, key: nat)
    ensures OnlyOf(BY_ADDR, samples, key) == OnLock(samples, key)
    ensures OnlyOf(BY_TASK, samples, key) == ByTask(samples, key)
    decreases |samples|
  {
    if samples != [] {
      OnlyIs(samples[..|samples| - 1], key);
    }
  }

  /** By address, the entry of a lock is the one its own events give, and by task that of a task. */
  lemma {:induction false} KeysDoNotMeet(samples: seq<Sample>, key: nat)
    ensures StatAt(Replay(BY_ADDR, samples).stats, key) == StatAt(Replay(BY_ADDR, OnLock(samples, key)).stats, key)
    ensures key in Replay(BY_ADDR, samples).stats <==> key in Replay(BY_ADDR, OnLock(samples, key)).stats
    ensures Settled(BY_ADDR, samples, key) == Settled(BY_ADDR, OnLock(samples, key), key)
    ensures StatAt(Replay(BY_TASK, samples).stats, key) == StatAt(Replay(BY_TASK, ByTask(samples, key)).stats, key)
    ensures key in Replay(BY_TASK, samples).stats <==> key in Replay(BY_TASK, ByTask(samples, key)).stats
    ensures Settled(BY_TASK, samples, key) == Settled(BY_TASK, ByTask(samples, key), key)
  {
    hide Replay, Settled, StatAt, OnLock, ByTask, OnlyOf;
    OnlyIs(samples, key);
    OnlyOfSame(BY_ADDR, samples, key);
    OnlyOfSame(BY_TASK, samples, key);
  }

  // ----- and out of it

  /** Two contentions of one task, each ending before it began. */
  function Backwards(): seq<Sample> {
    var k := SeqKey(1, 1);
    [Sample(k, ContentionBegin, 10, true), Sample(k, ContentionEnd, 5, true),
     Sample(k, ContentionBegin, 10, true), Sample(k, ContentionEnd, 5, true)]
  }

  lemma {:induction false} ReplayNext(mode: Aggregation, samples: seq<Sample>, s: Sample, key: nat)
    ensures Replay(mode, samples + [s]) == Apply(mode, Replay(mode, samples), s)
    ensures var b, g := Replay(mode, samples), Settled(mode, samples, key);
      Settled(mode, samples + [s], key) ==
        if Belongs(mode, s.key, key) && Reaches(mode, b, s) then Booked(g, s.event, SeqAt(b.seqs, s.key), s.time) else g
  {
    assert (samples + [s])[..|samples|] == samples;
  }

  const Begun := Books(map[SeqKey(1, 1) := Seq(CONTENDED, 0, 10)],
      map[1 := LockStat(0, 0, 1, 0, 0, 0, 0, U64 - 1, 0, false)])

  const Ended := Books(map[SeqKey(1, 1) := Seq(ACQUIRED, 0, 10)],
                       map[1 := LockStat(0, 1, 1, 0, 0, 0, U64 - 5, U64 - 5, U64 - 5, false)])

  const BegunAgain := Books(map[SeqKey(1, 1) := Seq(CONTENDED, 0, 10)],
                            map[1 := LockStat(0, 1, 2, 0, 0, 0, U64 - 5, U64 - 5, U64 - 5, false)])

  const EndedAgain := Books(map[SeqKey(1, 1) := Seq(ACQUIRED, 0, 10)],
                            map[1 := LockStat(0, 2, 2, 0, 0, 0, U64 - 10, U64 - 5, U64 - 5, false)])

  lemma {:induction false} BackwardsSteps(mode: Aggregation)
    ensures var x := Backwards();
      && Apply(mode, NoBooks, x[0]) == Begun && Apply(mode, Begun, x[1]) == Ended
      && Apply(mode, Ended, x[2]) == BegunAgain && Apply(mode, BegunAgain, x[3]) == EndedAgain
  {
    assert (5 - 10) % U64 == U64 - 5;
  }

  lemma {:induction false} BackwardsEnds(mode: Aggregation, b: Books, g: Ledger, s: Sample)
    requires (b == Begun || b == BegunAgain) && s == Backwards()[1]
    ensures Reaches(mode, b, s) && Booked(g, s.event, SeqAt(b.seqs, s.key), s.time).waits == g.waits + [U64 - 5]
  {
    assert (5 - 10) % U64 == U64 - 5;
  }

  lemma {:induction false} BackwardsBegins(mode: Aggregation, b: Books, g: Ledger, s: Sample)
    requires (b == NoBooks || b == Ended) && s == Backwards()[0]
    ensures Reaches(mode, b, s) && Booked(g, s.event, SeqAt(b.seqs, s.key), s.time).waits == g.waits
  {
  }

  /** Both waits count as 2^64 - 5, and twice that is more than the total shown. */
  lemma {:induction false} BackwardsBreaksBounds(mode: Aggregation)
    ensures var l, waits := StatAt(Replay(mode, Backwards()).stats, 1), Settled(mode, Backwards(), 1).waits;
      waits == [U64 - 5, U64 - 5] && l.waitMin == U64 - 5 && l.waitTotal == U64 - 10
          && |waits| * l.waitMin > l.waitTotal
  {
    hide Replay, Settled, Apply, Booked, Reaches;
    var x := Backwards();
    var a := [x[0]];
    BackwardsSteps(mode);
    NothingYet(mode);
    BackwardsBegins(mode, NoBooks, NewLedger, x[0]);
    ReplayNext(mode, [], x[0], 1);
    assert [] + [x[0]] == a;
    BackwardsEnds(mode, Begun, Settled(mode, a, 1), x[1]);
    ReplayNext(mode, a, x[1], 1);
    BackwardsBegins(mode, Ended, Settled(mode, a + [x[1]], 1), x[2]);
    ReplayNext(mode, a + [x[1]], x[2], 1);
    BackwardsEnds(mode, BegunAgain, Settled(mode, a + [x[1]] + [x[2]], 1), x[3]);
    ReplayNext(mode, a + [x[1]] + [x[2]], x[3], 1);
    assert x == a + [x[1]] + [x[2]] + [x[3]];
  }

  lemma {:induction false} NothingYet(mode: Aggregation)
    ensures Replay(mode, []) == NoBooks && Settled(mode, [], 1) == NewLedger
  {
  }

  // ----- the handlers, on a sequence and its statistics

  /** `report_lock_acquire_event`. */
  method ReportAcquire(seq0: Seq, ls0: LockStat, flag: nat, time: nat) returns (s: Seq, ls: LockStat)
    ensures Outcome(s, ls, false) == OnAcquire(seq0, ls0, flag, time)
    ensures SeqOk(seq0) ==> SeqOk(s) && Conserved(Acquire(flag), seq0, ls0, s, ls, time)
  {
    s, ls := seq0, ls0;
    match s.state {
      case UNINITIALIZED | RELEASED =>
        if flag == 0 {
          s := s.(state := ACQUIRING);
        } else {
          if TryLock(flag) { ls := ls.(nrTrylock := Next(ls.nrTrylock)); }
          if ReadLock(flag) { ls := ls.(nrReadlock := Next(ls.nrReadlock)); }
          s := s.(state := READ_ACQUIRED, readCount := 1);
          ls := ls.(nrAcquired := Next(ls.nrAcquired));
        }
      case READ_ACQUIRED =>
        if ReadLock(flag) {
          s := s.(readCount := s.readCount + 1);
          ls := ls.(nrAcquired := Next(ls.nrAcquired));
          return;
        }
        return NewSeq, ls.(broken := true);
      case ACQUIRED | ACQUIRING | CONTENDED =>
        return NewSeq, ls.(broken := true);
    }
    ls := ls.(nrAcquire := Next(ls.nrAcquire));
    s := s.(prevEventTime := time);
  }

  /** `report_lock_acquired_event`. */
  method ReportAcquired(seq0: Seq, ls0: LockStat, time: nat) returns (s: Seq, ls: LockStat)
    ensures Outcome(s, ls, false) == OnAcquired(seq0, ls0, time)
    ensures SeqOk(seq0) ==> SeqOk(s) && Conserved(Acquired, seq0, ls0, s, ls, time)
  {
    s, ls := seq0, ls0;
    match s.state {
      case UNINITIALIZED => return;
      case ACQUIRING =>
      case CONTENDED => ls := AddWait(ls, Term(s, time));
      case RELEASED | ACQUIRED | READ_ACQUIRED => return NewSeq, ls.(broken := true);
    }
    s := s.(state := ACQUIRED, prevEventTime := time);
    ls := ls.(nrAcquired := Next(ls.nrAcquired));
  }

  /** `report_lock_contended_event`. */
  method ReportContended(seq0: Seq, ls0: LockStat, time: nat) returns (s: Seq, ls: LockStat)
    ensures Outcome(s, ls, false) == OnContended(seq0, ls0, time)
    ensures SeqOk(seq0) ==> SeqOk(s) && Conserved(Contended, seq0, ls0, s, ls, time)
  {
    s, ls := seq0, ls0;
    match s.state {
      case UNINITIALIZED => return;
      case ACQUIRING =>
      case RELEASED | ACQUIRED | READ_ACQUIRED | CONTENDED => return NewSeq, ls.(broken := true);
    }
    s := s.(state := CONTENDED, prevEventTime := time);
    ls := ls.(nrContended := Next(ls.nrContended));
  }

  /** `report_lock_release_event`; the assertion is its `BUG_ON`. */
  method ReportRelease(seq0: Seq, ls0: LockStat) returns (s: Seq, ls: LockStat)
    requires SeqOk(seq0)
    ensures Outcome(s, ls, false) == OnRelease(seq0, ls0)
    ensures SeqOk(s) && Conserved(Release, seq0, ls0, s, ls, 0)
  {
    s, ls := seq0, ls0;
    match s.state {
      case UNINITIALIZED => return;
      case ACQUIRED =>
      case READ_ACQUIRED =>
        s := s.(readCount := s.readCount - 1);
        assert s.readCount >= 0;
        if s.readCount != 0 {
          ls := ls.(nrRelease := Next(ls.nrRelease));
          return;
        }
      case ACQUIRING | CONTENDED => return NewSeq, ls.(broken := true);
    }
    ls := ls.(nrRelease := Next(ls.nrRelease));
    s := NewSeq;
  }

  /** `report_lock_contention_begin_event`. */
  method ReportContentionBegin(seq0: Seq, ls0: LockStat, time: nat) returns (s: Seq, ls: LockStat)
    ensures Outcome(s, ls, false) == OnContentionBegin(seq0, ls0, time)
    ensures SeqOk(seq0) ==> SeqOk(s) && Conserved(ContentionBegin, seq0, ls0, s, ls, time)
  {
    s, ls := seq0, ls0;
    match s.state {
      case UNINITIALIZED | ACQUIRED =>
      case CONTENDED => return;
      case ACQUIRING | READ_ACQUIRED | RELEASED => return NewSeq, ls.(broken := true);
    }
    s := s.(state := CONTENDED, prevEventTime := time);
    ls := ls.(nrContended := Next(ls.nrContended));
  }

  /** `report_lock_contention_end_event`. */
  method ReportContentionEnd(seq0: Seq, ls0: LockStat, time: nat) returns (s: Seq, ls: LockStat)
    ensures Outcome(s, ls, false) == OnContentionEnd(seq0, ls0, time)
    ensures SeqOk(seq0) ==> SeqOk(s) && Conserved(ContentionEnd, seq0, ls0, s, ls, time)
  {
    s, ls := seq0, ls0;
    match s.state {
      case UNINITIALIZED => return;
      case CONTENDED => ls := AddWait(ls, Term(s, time));
      case ACQUIRING | ACQUIRED | READ_ACQUIRED | RELEASED => return NewSeq, ls.(broken := true);
    }
    s := s.(state := ACQUIRED);
    ls := ls.(nrAcquired := Next(ls.nrAcquired));
  }

  class Tables {
    const mode: Aggregation
    var seqs: map<SeqKey, Seq>
    var stats: map<nat, LockStat>

    function View(): Books
      reads this
    {
      Books(seqs, stats)
    }

    constructor (m: Aggregation)
      ensures mode == m && View() == NoBooks
    {
      mode, seqs, stats := m, map[], map[];
    }

    /** `lock_stat_findnew`. */
    method FindStat(key: nat) returns (l: LockStat)
      modifies this`stats
      ensures l == StatAt(old(stats), key) && stats == old(stats)[key := l]
    {
      if key !in stats {
        stats := stats[key := NewStat];
      }
      l := stats[key];
    }

    /**
     * One event of a task and a lock. A sequence that is freed is as good as
     * one never seen, so it is stored as a new one.
     */
    method Report(s: Sample)
      requires SeqsOk(mode, View())
      modifies this
      ensures SeqsOk(mode, View()) && View() == Apply(mode, old(View()), s)
    {
      hide SeqsOk, SeqOk, Conserved, OnAcquire, OnAcquired, OnContended, OnRelease, OnContentionBegin, OnContentionEnd;
      ApplyOk(mode, View(), s);
      var key := KeyOf(mode, s.key);
      if s.event.ContentionEnd? && key !in stats {
        return;
      }
      var ls := FindStat(key);
      if s.event.ContentionBegin? && !s.matches {
        return;
      }
      var q := SeqAt(seqs, s.key);
      match s.event {
        case Acquire(flag) => q, ls := ReportAcquire(q, ls, flag, s.time);
        case Acquired => q, ls := ReportAcquired(q, ls, s.time);
        case Contended => q, ls := ReportContended(q, ls, s.time);
        case Release => q, ls := ReportRelease(q, ls);
        case ContentionBegin => q, ls := ReportContentionBegin(q, ls, s.time);
        case ContentionEnd => q, ls := ReportContentionEnd(q, ls, s.time);
      }
      seqs := seqs[s.key := q];
      stats := stats[key := ls];
      assert stats == old(stats)[key := ls];
    }
  }

  /** All samples in turn; no `BUG_ON` fires on the way. */
  method Process(t: Tables, samples: seq<Sample>)
    requires t.View() == NoBooks
    modifies t
    ensures t.View() == Replay(t.mode, samples)
  {
    hide Apply, SeqsOk;
    NoBooksOk(t.mode);
    for i := 0 to |samples|
      invariant SeqsOk(t.mode, t.View()) && t.View() == Replay(t.mode, samples[..i])
    {
      assert samples[..i + 1][..i] == samples[..i];
      t.Report(samples[i]);
    }
    assert samples[..|samples|] == samples;
  }
}
