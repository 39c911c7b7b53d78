/** The slab statistics of `perf kmem`: one index by pointer, one by call site. */
module Kmem {
  import opened Common

  const U16 := 0x1_0000

  datatype AllocStat = AllocStat(callSite: nat, bytesReq: nat, bytesAlloc: nat, lastAlloc: nat, hit: nat, pingpong: nat,
      allocCpu: int)

  /** The columns that are added up. */
  datatype Column = HIT | REQ | ALLOC | PINGPONG

  function Value(s: AllocStat, c: Column): nat {
    match c
    case HIT => s.hit
    case REQ => s.bytesReq
    case ALLOC => s.bytesAlloc
    case PINGPONG => s.pingpong
  }

  /** Counters have 32 bits, byte sums 64. */
  function Width(c: Column): (w: nat)
    ensures w > 0
  {
    if c == HIT || c == PINGPONG then U32 else U64
  }

  /** Conversion to a signed 16-bit number. */
  function Short(cpu: int): int {
    var r := cpu % U16;
    if r < U16 / 2 then r else r - U16
  }

  /** Processors below 2^15 are stored as they are, so different ones stay different; -1 stands for none of them. */
  lemma {:induction false} ShortExactIff(cpu: int)
    ensures Short(cpu) == cpu <==> -U16 / 2 <= cpu < U16 / 2
    ensures -U16 / 2 <= Short(cpu) < U16 / 2
  {
  }

  lemma {:induction false} ProcessorsApart(a: nat, b: nat)
    requires a < U16 / 2 && b < U16 / 2
    ensures (Short(a) == Short(b) <==> a == b) && Short(a) != -1
  {
    ShortExactIff(a); ShortExactIff(b);
  }

  // ----- adding up an index

  ghost function Sum(m: map<nat, AllocStat>, c: Column): nat
    decreases m.Keys
  {
    if m == map[] then 0
    else
      var k :| k in m;
      Value(m[k], c) + Sum(m - {k}, c)
  }

  lemma {:induction false} SumPick(m: map<nat, AllocStat>, c: Column, k: nat)
    requires k in m
    ensures Sum(m, c) == Value(m[k], c) + Sum(m - {k}, c)
    decreases m.Keys
  {
    var j :| j in m && Sum(m, c) == Value(m[j], c) + Sum(m - {j}, c);
    if j != k {
      SumPick(m - {j}, c, k);
      SumPick(m - {k}, c, j);
      assert m - {j} - {k} == m - {k} - {j};
    }
  }

  lemma {:induction false} SumUpdate(m: map<nat, AllocStat>, c: Column, k: nat, s: AllocStat)
    ensures Sum(m[k := s], c) == Sum(m, c) - (if k in m then Value(m[k], c) else 0) + Value(s, c)
  {
    SumPick(m[k := s], c, k);
    if k in m {
      SumPick(m, c, k);
      assert m[k := s] - {k} == m - {k};
    } else {
      assert m[k := s] - {k} == m;
    }
  }

  /** Equal up to a multiple of the width. */
  predicate Same(x: int, y: int, w: nat)
    requires w > 0
  {
    (x - y) % w == 0
  }

  lemma {:induction false} Multiples(x: int, w: nat, k: int)
    requires w > 0
    ensures (x + k * w) % w == x % w
    decreases if k < 0 then -k else k
  {
    if k > 0 {
      Multiples(x, w, k - 1);
      assert x + k * w == (x + (k - 1) * w) + w;
      OneMore(x + (k - 1) * w, w);
    } else if k < 0 {
      Multiples(x, w, k + 1);
      assert x + (k + 1) * w == (x + k * w) + w;
      OneMore(x + k * w, w);
    }
  }

  lemma {:induction false} OneMore(x: int, w: nat)
    requires w > 0
    ensures (x + w) % w == x % w
  {
    var q, r := x / w, x % w;
    assert x == q * w + r;
    assert x + w == (q + 1) * w + r;
    Unique(x + w, w, q + 1, r);
  }

  lemma {:induction false} Unique(x: int, w: nat, q: int, r: int)
    requires w > 0 && x == q * w + r && 0 <= r < w
    ensures x % w == r
  {
    var p, t := x / w, x % w;
    assert x == p * w + t;
    Scale(p, q, w, r - t);
  }

  lemma {:induction false} Scale(p: int, q: int, w: nat, d: int)
    requires w > 0 && p * w - q * w == d && d + w > 0 && d < w
    ensures p == q && d == 0
  {
    if p > q {
      assert p * w == (p - 1) * w + w;
      Monotone(q, p - 1, w);
    } else if p < q {
      assert q * w == (q - 1) * w + w;
      Monotone(p, q - 1, w);
    }
  }

  lemma {:induction false} Monotone(p: int, q: int, w: nat)
    requires p <= q
    ensures p * w <= q * w
  {
  }

  /** Replacing one value and the total by wrapped sums keeps them the same. */
  lemma {:induction false} SameStep(sum: int, total: int, was: nat, delta: int, w: nat)
    requires w > 0 && Same(sum, total, w)
    ensures Same(sum - was + (was + delta) % w, (total + delta) % w, w)
    ensures Same(sum - was + (was + delta) % w, total + delta, w)
  {
    var q, p := (was + delta) / w, (total + delta) / w;
    assert (was + delta) % w == was + delta - q * w;
    assert (total + delta) % w == total + delta - p * w;
    Multiples(sum - total, w, p - q);
    Multiples(sum - total, w, -q);
    assert (p - q) * w == p * w - q * w && (-q) * w == -(q * w);
  }

  // ----- the two indexes

  /** `data->hit++` and the byte sums, for a known key; a new record otherwise. */
  function Hit(m: map<nat, AllocStat>, k: nat, req: int, alloc: int): AllocStat {
    if k in m then m[k].(hit := (m[k].hit + 1) % U32, bytesReq := (m[k].bytesReq + req) % U64,
        bytesAlloc := (m[k].bytesAlloc + alloc) % U64)
    else AllocStat(0, req % U64, alloc % U64, 0, 1, 0, 0)
  }

  function Pong(s: AllocStat): AllocStat {
    s.(pingpong := (s.pingpong + 1) % U32)
  }

  lemma {:induction false} HitSum(m: map<nat, AllocStat>, k: nat, req: int, alloc: int, s: AllocStat, c: Column,
                                  total: int)
    requires c != PINGPONG && Same(Sum(m, c), total, Width(c)) && Value(s, c) == Value(Hit(m, k, req, alloc), c)
    ensures var d := if c == HIT then 1 else if c == REQ then req else alloc;
      Same(Sum(m[k := s], c), total + d, Width(c)) && Same(Sum(m[k := s], c), (total + d) % Width(c), Width(c))
  {
    hide Sum, Same;
    SumUpdate(m, c, k, s);
    SameStep(Sum(m, c), total, if k in m then Value(m[k], c) else 0,
        if c == HIT then 1 else if c == REQ then req else alloc, Width(c));
  }

  /** A size that can be added without being cut. */
  predicate Room(total: nat, size: int) {
    0 <= size && total + size < U64
  }

  /** One more hit and its bytes are in the sums over the index; the pingpongs and all other records stay. */
  ghost predicate Inserted(was: map<nat, AllocStat>, now: map<nat, AllocStat>, k: nat, req: int, alloc: int) {
    && now.Keys == was.Keys + {k} && (forall j :: j in was && j != k ==> now[j] == was[j])
    && Same(Sum(now, HIT), Sum(was, HIT) + 1, U32)
    && Same(Sum(now, REQ), Sum(was, REQ) + req, U64) && Same(Sum(now, ALLOC), Sum(was, ALLOC) + alloc, U64)
    && Sum(now, PINGPONG) == Sum(was, PINGPONG)
  }

  lemma {:induction false} HitInserts(m: map<nat, AllocStat>, k: nat, req: int, alloc: int, s: AllocStat)
    requires var h := Hit(m, k, req, alloc);
      s.hit == h.hit && s.bytesReq == h.bytesReq && s.bytesAlloc == h.bytesAlloc && s.pingpong == h.pingpong
    ensures Inserted(m, m[k := s], k, req, alloc)
  {
    SameSelf(Sum(m, HIT), U32); SameSelf(Sum(m, REQ), U64); SameSelf(Sum(m, ALLOC), U64);
    hide Sum, Same;
    HitSum(m, k, req, alloc, s, HIT, Sum(m, HIT));
    HitSum(m, k, req, alloc, s, REQ, Sum(m, REQ));
    HitSum(m, k, req, alloc, s, ALLOC, Sum(m, ALLOC));
    SumUpdate(m, PINGPONG, k, s);
  }

  lemma {:induction false} SameSelf(x: int, w: nat)
    requires w > 0
    ensures Same(x, x, w)
  {
  }

  class SlabStats {
    var allocs: map<nat, AllocStat>
    var callers: map<nat, AllocStat>
    var totalRequested: nat
    var totalAllocated: nat
    var totalFreed: nat
    var nrAllocs: nat

    /** What the two indexes and the global counters agree on. */
    ghost predicate Valid()
      reads this
    {
      && Same(Sum(allocs, HIT), nrAllocs, U32) && Same(Sum(callers, HIT), nrAllocs, U32)
      && Same(Sum(allocs, REQ), totalRequested, U64) && Same(Sum(callers, REQ), totalRequested, U64)
      && Same(Sum(allocs, ALLOC), totalAllocated, U64) && Same(Sum(callers, ALLOC), totalAllocated, U64)
      && Same(Sum(allocs, PINGPONG), Sum(callers, PINGPONG), U32)
      && (nrAllocs < U32 ==> Sum(allocs, HIT) == nrAllocs && Sum(callers, HIT) == nrAllocs)
      && forall p :: p in allocs ==> allocs[p].callSite in callers
    }

    /** The bytes over both indexes are those of the counters, with nothing cut off. */
    ghost predicate ExactBytes()
      reads this
    {
      && Sum(allocs, REQ) == totalRequested && Sum(callers, REQ) == totalRequested
      && Sum(allocs, ALLOC) == totalAllocated && Sum(callers, ALLOC) == totalAllocated
    }

    /** The pingpongs over both indexes are the same, and at most `n`. */
    ghost predicate ExactPongs(n: nat)
      reads this
    {
      Sum(allocs, PINGPONG) == Sum(callers, PINGPONG) <= n
    }

    ghost predicate Unused()
      reads this
    {
      ExactBytes() && ExactPongs(0) && totalRequested == 0 && totalAllocated == 0
    }

    constructor ()
      ensures Valid() && Unused() && allocs == map[] && callers == map[] && nrAllocs == 0
    {
      allocs, callers := map[], map[];
      totalRequested, totalAllocated, totalFreed, nrAllocs := 0, 0, 0, 0;
    }

    /** `insert_alloc_stat`: the newest call site and processor of a pointer replace the older ones. */
    method InsertAllocStat(callSite: nat, ptr: nat, req: int, alloc: int, cpu: int)
      modifies this`allocs
      ensures allocs == old(allocs)[ptr := Hit(old(allocs), ptr, req, alloc).(callSite := callSite,
        allocCpu := Short(cpu), lastAlloc := alloc % U64)]
      ensures Inserted(old(allocs), allocs, ptr, req, alloc)
    {
      hide Inserted;
      var data;
      if ptr in allocs {
        data := allocs[ptr];
        data := data.(hit := (data.hit + 1) % U32, bytesReq := (data.bytesReq + req) % U64,
            bytesAlloc := (data.bytesAlloc + alloc) % U64);
      } else {
        data := AllocStat(0, req % U64, alloc % U64, 0, 1, 0, 0);
      }
      HitInserts(allocs, ptr, req, alloc,
          data.(callSite := callSite, allocCpu := Short(cpu), lastAlloc := alloc % U64));
      allocs := allocs[ptr := data.(callSite := callSite, allocCpu := Short(cpu), lastAlloc := alloc % U64)];
    }

    /** `insert_caller_stat`. */
    method InsertCallerStat(callSite: nat, req: int, alloc: int)
      modifies this`callers
      ensures callers == old(callers)[callSite := Hit(old(callers), callSite, req, alloc).(callSite := callSite)]
      ensures Inserted(old(callers), callers, callSite, req, alloc)
    {
      hide Inserted;
      var data;
      if callSite in callers {
        data := callers[callSite];
        data := data.(hit := (data.hit + 1) % U32, bytesReq := (data.bytesReq + req) % U64,
            bytesAlloc := (data.bytesAlloc + alloc) % U64);
      } else {
        data := AllocStat(0, req % U64, alloc % U64, 0, 1, 0, 0);
      }
      HitInserts(callers, callSite, req, alloc, data.(callSite := callSite));
      callers := callers[callSite := data.(callSite := callSite)];
    }

    /** `evsel__process_alloc_event`, when no allocation of the tool itself fails. */
    method ProcessAlloc(ptr: nat, callSite: nat, req: int, alloc: int, cpu: int)
      requires Valid()
      modifies this
      ensures Valid()
      ensures allocs == old(allocs)[ptr := Hit(old(allocs), ptr, req, alloc).(callSite := callSite,
        allocCpu := Short(cpu), lastAlloc := alloc % U64)]
      ensures callers == old(callers)[callSite := Hit(old(callers), callSite, req, alloc).(callSite := callSite)]
      ensures nrAllocs == old(nrAllocs) + 1 && totalFreed == old(totalFreed)
      ensures totalRequested == (old(totalRequested) + req) % U64
      ensures totalAllocated == (old(totalAllocated) + alloc) % U64
      ensures old(ExactBytes()) && Room(old(totalRequested), req) && Room(old(totalAllocated), alloc) ==> ExactBytes()
      ensures forall n: nat :: old(ExactPongs(n)) ==> ExactPongs(n)
    {
      hide Sum, Same, Hit, Short, Inserted;
      InsertAllocStat(callSite, ptr, req, alloc, cpu);
      InsertCallerStat(callSite, req, alloc);
      AllocSums(old(allocs), ptr, req, alloc, allocs[ptr], nrAllocs, totalRequested, totalAllocated);
      AllocSums(old(callers), callSite, req, alloc, callers[callSite], nrAllocs, totalRequested, totalAllocated);
      totalRequested := (totalRequested + req) % U64;
      totalAllocated := (totalAllocated + alloc) % U64;
      nrAllocs := nrAllocs + 1;
    }

    /**
     * `evsel__process_free_event`. The result is never an error: the caller
     * of a known pointer is always found.
     */
    method ProcessFree(ptr: nat, cpu: int) returns (ok: bool)
      requires Valid()
      modifies this
      ensures Valid() && ok
      ensures ptr !in old(allocs) ==> allocs == old(allocs) && callers == old(callers) && totalFreed == old(totalFreed)
      ensures ptr in old(allocs) ==> totalFreed == (old(totalFreed) + old(allocs)[ptr].lastAlloc) % U64
      ensures ptr in old(allocs) && Short(cpu) == old(allocs)[ptr].allocCpu ==>
        allocs == old(allocs)[ptr := old(allocs)[ptr].(allocCpu := -1)] && callers == old(callers)
      ensures ptr in old(allocs) && Short(cpu) != old(allocs)[ptr].allocCpu ==>
        var s := old(allocs)[ptr];
        s.callSite in old(callers) && allocs == old(allocs)[ptr := Pong(s).(allocCpu := -1)]
            && callers == old(callers)[s.callSite := Pong(old(callers)[s.callSite])]
      ensures nrAllocs == old(nrAllocs) && totalRequested == old(totalRequested)
      ensures totalAllocated == old(totalAllocated)
      ensures old(ExactBytes()) ==> ExactBytes()
      ensures forall n: nat :: old(ExactPongs(n)) && n + 1 < U32 ==> ExactPongs(n + 1)
    {
      hide Sum, Same, Short;
      ok := true;
      if ptr !in allocs {
        return;
      }
      var data := allocs[ptr];
      totalFreed := (totalFreed + data.lastAlloc) % U64;
      if Short(cpu) != data.allocCpu {
        data := data.(pingpong := (data.pingpong + 1) % U32);
        if data.callSite !in callers {
          return false;
        }
        var caller := callers[data.callSite];
        callers := callers[data.callSite := caller.(pingpong := (caller.pingpong + 1) % U32)];
        SumPick(allocs, PINGPONG, ptr);
        SumPick(old(callers), PINGPONG, data.callSite);
        BothPong(Sum(allocs, PINGPONG), Sum(old(callers), PINGPONG), allocs[ptr].pingpong, caller.pingpong);
        OtherSums(old(callers), data.callSite, callers[data.callSite]);
      }
      OtherSums(allocs, ptr, data.(allocCpu := -1));
      allocs := allocs[ptr := data.(allocCpu := -1)];
    }
  }

  lemma {:induction false} ExactSum(m: map<nat, AllocStat>, c: Column, k: nat, s: AllocStat, size: int)
    requires Room(Sum(m, c), size) && Value(s, c) == ((if k in m then Value(m[k], c) else 0) + size) % U64
    ensures Sum(m[k := s], c) == (Sum(m, c) + size) % U64
  {
    hide Sum, Value;
    SumUpdate(m, c, k, s);
    if k in m { SumPick(m, c, k); }
  }

  lemma {:induction false} AllocSums(m: map<nat, AllocStat>, k: nat, req: int, alloc: int, s: AllocStat, nr: nat,
                                     totalReq: nat, totalAlloc: nat)
    requires Same(Sum(m, HIT), nr, U32) && Same(Sum(m, REQ), totalReq, U64) && Same(Sum(m, ALLOC), totalAlloc, U64)
    requires var h := Hit(m, k, req, alloc);
      s.hit == h.hit && s.bytesReq == h.bytesReq && s.bytesAlloc == h.bytesAlloc && s.pingpong == h.pingpong
    ensures Same(Sum(m[k := s], HIT), nr + 1, U32)
    ensures Same(Sum(m[k := s], REQ), (totalReq + req) % U64, U64)
    ensures Same(Sum(m[k := s], ALLOC), (totalAlloc + alloc) % U64, U64)
    ensures Sum(m[k := s], PINGPONG) == Sum(m, PINGPONG)
    ensures Sum(m, HIT) == nr && nr + 1 < U32 ==> Sum(m[k := s], HIT) == nr + 1
    ensures Sum(m, REQ) == totalReq && Room(totalReq, req) ==> Sum(m[k := s], REQ) == (totalReq + req) % U64
    ensures Sum(m, ALLOC) == totalAlloc && Room(totalAlloc, alloc) ==>
      Sum(m[k := s], ALLOC) == (totalAlloc + alloc) % U64
  {
    hide Sum, Same;
    if Sum(m, REQ) == totalReq && Room(totalReq, req) { ExactSum(m, REQ, k, s, req); }
    if Sum(m, ALLOC) == totalAlloc && Room(totalAlloc, alloc) { ExactSum(m, ALLOC, k, s, alloc); }
    if k in m { SumPick(m, HIT, k); }
    SumUpdate(m, HIT, k, s);
    HitSum(m, k, req, alloc, s, HIT, nr);
    HitSum(m, k, req, alloc, s, REQ, totalReq);
    HitSum(m, k, req, alloc, s, ALLOC, totalAlloc);
    SumUpdate(m, PINGPONG, k, s);
  }

  /** A record that keeps its hits and bytes changes only the pingpong sum. */
  lemma {:induction false} OtherSums(m: map<nat, AllocStat>, k: nat, s: AllocStat)
    requires k in m && s.hit == m[k].hit && s.bytesReq == m[k].bytesReq && s.bytesAlloc == m[k].bytesAlloc
    ensures Sum(m[k := s], HIT) == Sum(m, HIT) && Sum(m[k := s], REQ) == Sum(m, REQ)
    ensures Sum(m[k := s], ALLOC) == Sum(m, ALLOC)
    ensures Sum(m[k := s], PINGPONG) == Sum(m, PINGPONG) - m[k].pingpong + s.pingpong
  {
    hide Sum;
    SumUpdate(m, HIT, k, s); SumUpdate(m, REQ, k, s); SumUpdate(m, ALLOC, k, s); SumUpdate(m, PINGPONG, k, s);
  }

  lemma {:induction false} BothPong(x: int, y: int, a: nat, b: nat)
    requires Same(x, y, U32)
    ensures Same(x - a + (a + 1) % U32, y - b + (b + 1) % U32, U32)
  {
    var q, p := (a + 1) / U32, (b + 1) / U32;
    assert (a + 1) % U32 == a + 1 - q * U32 && (b + 1) % U32 == b + 1 - p * U32;
    Multiples(x - y, U32, p - q);
  }

  // ----- every run

  datatype Event = Alloc(ptr: nat, callSite: nat, req: int, alloc: int, cpu: int) | Free(ptr: nat, cpu: int)

  function Allocations(events: seq<Event>): nat {
    if events == [] then 0 else Allocations(events[..|events| - 1]) + if events[|events| - 1].Alloc? then 1 else 0
  }

  /** The bytes asked for. */
  function Requested(events: seq<Event>): int {
    if events == [] then 0
    else Requested(events[..|events| - 1]) + if events[|events| - 1].Alloc? then events[|events| - 1].req else 0
  }

  function Allocated(events: seq<Event>): int {
    if events == [] then 0
    else Allocated(events[..|events| - 1]) + if events[|events| - 1].Alloc? then events[|events| - 1].alloc else 0
  }

  predicate Sized(events: seq<Event>) {
    forall i :: 0 <= i < |events| && events[i].Alloc? ==> events[i].req >= 0 && events[i].alloc >= 0
  }

  lemma {:induction false} Steps(events: seq<Event>, i: nat)
    requires i < |events|
    ensures Allocations(events[..i + 1]) == Allocations(events[..i]) + if events[i].Alloc? then 1 else 0
    ensures Requested(events[..i + 1]) == Requested(events[..i]) + if events[i].Alloc? then events[i].req else 0
    ensures Allocated(events[..i + 1]) == Allocated(events[..i]) + if events[i].Alloc? then events[i].alloc else 0
  {
    assert events[..i + 1][..i] == events[..i];
  }

  lemma {:induction false} PrefixSums(events: seq<Event>, i: nat, j: nat)
    requires Sized(events) && i <= j <= |events|
    ensures 0 <= Requested(events[..i]) <= Requested(events[..j])
    ensures 0 <= Allocated(events[..i]) <= Allocated(events[..j])
    decreases j
  {
    if j > 0 {
      Steps(events, j - 1);
      PrefixSums(events, if i < j then i else i - 1, j - 1);
    }
  }

  /** No byte count of the events is cut. */
  predicate Small(events: seq<Event>) {
    Sized(events) && Requested(events) < U64 && Allocated(events) < U64
  }

  lemma {:induction false} SmallHasRoom(events: seq<Event>, i: nat)
    requires Small(events) && i < |events| && events[i].Alloc?
    ensures 0 <= Requested(events[..i]) && Room(Requested(events[..i]), events[i].req)
    ensures 0 <= Allocated(events[..i]) && Room(Allocated(events[..i]), events[i].alloc)
  {
    assert events[..|events|] == events;
    PrefixSums(events, i, i + 1);
    PrefixSums(events, i + 1, |events|);
    Steps(events, i);
  }

  /**
   * Over any sequence of events the indexes and counters stay in agreement,
   * and no event is an error. From the start, bytes agree exactly if the sizes
   * are not negative and add up to less than 2^64, pingpongs below 2^32 events.
   */
  method Process(stats: SlabStats, events: seq<Event>) returns (ok: bool)
    requires stats.Valid()
    modifies stats
    ensures stats.Valid() && ok && stats.nrAllocs == old(stats.nrAllocs) + Allocations(events)
    ensures old(stats.Unused()) && Small(events) ==>
      stats.ExactBytes() && stats.totalRequested == Requested(events) && stats.totalAllocated == Allocated(events)
    ensures old(stats.Unused()) && |events| < U32 ==> stats.ExactPongs(|events|)
  {
    hide Sum, Same, Small, Requested, Allocated, Allocations;
    ok := true;
    NoneYet(events);
    for i := 0 to |events|
      invariant stats.Valid() && ok && stats.nrAllocs == old(stats.nrAllocs) + Allocations(events[..i])
      invariant old(stats.Unused()) && Small(events) ==>
        stats.ExactBytes() && stats.totalRequested == Requested(events[..i])
            && stats.totalAllocated == Allocated(events[..i])
      invariant old(stats.Unused()) && i < U32 ==> stats.ExactPongs(i)
    {
      Steps(events, i);
      match events[i] {
        case Alloc(ptr, callSite, req, alloc, cpu) =>
          if Small(events) { SmallHasRoom(events, i); }
          stats.ProcessAlloc(ptr, callSite, req, alloc, cpu);
        case Free(ptr, cpu) => ok := stats.ProcessFree(ptr, cpu);
      }
    }
    assert events[..|events|] == events;
  }

  lemma {:induction false} NoneYet(events: seq<Event>)
    ensures Allocations(events[..0]) == 0 && Requested(events[..0]) == 0 && Allocated(events[..0]) == 0
  {
  }
}
