/** The handlers of `perf kwork` on the atoms and the works. */
module Kwork {
  import opened Common
  import opened KworkAtoms

  /** The figures of one work. */
  datatype Figures = Figures(nrAtoms: nat, maxRuntime: nat, maxStart: nat, maxEnd: nat, totalRuntime: nat,
                             maxLatency: nat, maxLatencyStart: nat, maxLatencyEnd: nat, totalLatency: nat)

  const NoFigures := Figures(0, 0, 0, 0, 0, 0, 0, 0, 0)

  /** From one event to another. */
  datatype Time = Time(from: nat, to: nat)

  function Length(t: Time): nat {
    if t.from <= t.to then t.to - t.from else 0
  }

  /** What was measured of a work: runs, waits, and how many runs were only shown. */
  datatype Log = Log(runs: seq<Time>, waits: seq<Time>, shown: nat)

  const NoLog := Log([], [], 0)

  function Total(times: seq<Time>): nat {
    if times == [] then 0 else Total(times[..|times| - 1]) + Length(times[|times| - 1])
  }

  /** The longest of the times with its two ends, and 0 if there are none. */
  ghost predicate Greatest(max: nat, start: nat, end: nat, times: seq<Time>) {
    && (forall i :: 0 <= i < |times| ==> Length(times[i]) <= max)
    && (if times == [] then max == start == end == 0 else Time(start, end) in times && max == Length(Time(start, end)))
  }

  /** Number, totals and maxima are those of the times measured, number and totals in 64 bits. */
  ghost predicate Sound(f: Figures, g: Log) {
    && f.nrAtoms == (|g.runs| + |g.waits| + g.shown) % U64
    && f.totalRuntime == Total(g.runs) % U64 && Greatest(f.maxRuntime, f.maxStart, f.maxEnd, g.runs)
    && f.totalLatency == Total(g.waits) % U64
    && Greatest(f.maxLatency, f.maxLatencyStart, f.maxLatencyEnd, g.waits)
  }

  /** `report_update_exit_event`. */
  function Ran(f: Figures, entry: nat, exit: nat): Figures {
    if entry == 0 || exit < entry then f
    else
      var delta := exit - entry;
      var g := if delta > f.maxRuntime || f.maxRuntime == 0 then
          f.(maxRuntime := delta, maxStart := entry, maxEnd := exit) else f;
      g.(totalRuntime := (g.totalRuntime + delta) % U64, nrAtoms := (g.nrAtoms + 1) % U64)
  }

  /** `latency_update_entry_event`. */
  function Waited(f: Figures, raised: nat, entry: nat): Figures {
    if raised == 0 || entry < raised then f
    else
      var delta := entry - raised;
      var g := if delta > f.maxLatency || f.maxLatency == 0 then
          f.(maxLatency := delta, maxLatencyStart := raised, maxLatencyEnd := entry) else f;
      g.(totalLatency := (g.totalLatency + delta) % U64, nrAtoms := (g.nrAtoms + 1) % U64)
  }

  /** What `timehist_exit_event` keeps. */
  function Shown(f: Figures): Figures {
    f.(nrAtoms := (f.nrAtoms + 1) % U64)
  }

  function RanLog(g: Log, entry: nat, exit: nat): Log {
    if entry == 0 || exit < entry then g else g.(runs := g.runs + [Time(entry, exit)])
  }

  function WaitedLog(g: Log, raised: nat, entry: nat): Log {
    if raised == 0 || entry < raised then g else g.(waits := g.waits + [Time(raised, entry)])
  }

  function ShownLog(g: Log): Log {
    g.(shown := g.shown + 1)
  }

  lemma {:induction false} TimesGrow(total: nat, max: nat, start: nat, end: nat, times: seq<Time>, t: Time)
    requires total == Total(times) % U64 && Greatest(max, start, end, times) && t.from <= t.to
    ensures (total + (t.to - t.from)) % U64 == Total(times + [t]) % U64
    ensures var d := t.to - t.from;
      if d > max || max == 0 then Greatest(d, t.from, t.to, times + [t]) else Greatest(max, start, end, times + [t])
  {
    var ts := times + [t];
    assert ts[..|times|] == times && ts[|times|] == t && t in ts;
    assert forall i :: 0 <= i < |times| ==> ts[i] == times[i];
    Wrapped(Total(times), Length(t));
  }

  lemma {:induction false} Wrapped(x: nat, y: nat)
    ensures (x % U64 + y) % U64 == (x + y) % U64
  {
  }

  /** Every update measures one time more, or none. */
  lemma {:induction false} SoundKept(f: Figures, g: Log, from: nat, to: nat)
    requires Sound(f, g)
    ensures Sound(Ran(f, from, to), RanLog(g, from, to)) && Sound(Waited(f, from, to), WaitedLog(g, from, to))
    ensures Sound(Shown(f), ShownLog(g))
  {
    hide Total, Greatest;
    Wrapped(|g.runs| + |g.waits| + g.shown, 1);
    if from <= to {
      TimesGrow(f.totalRuntime, f.maxRuntime, f.maxStart, f.maxEnd, g.runs, Time(from, to));
      TimesGrow(f.totalLatency, f.maxLatency, f.maxLatencyStart, f.maxLatencyEnd, g.waits, Time(from, to));
    }
  }

  lemma {:induction false} TotalBounds(max: nat, times: seq<Time>)
    requires forall i :: 0 <= i < |times| ==> Length(times[i]) <= max
    ensures Total(times) <= |times| * max && forall i :: 0 <= i < |times| ==> Length(times[i]) <= Total(times)
    decreases |times|
  {
    if times != [] {
      var n := |times| - 1;
      TotalBounds(max, times[..n]);
      assert (n + 1) * max == n * max + max;
      assert forall i :: 0 <= i < n ==> times[..n][i] == times[i];
    }
  }

  /**
   * A total fits its maximum and the number of times if they add up to less than
   * 2^64, which is when it is the true one.
   */
  lemma {:induction false} TimesFit(total: nat, max: nat, start: nat, end: nat, times: seq<Time>)
    requires total == Total(times) % U64 && Greatest(max, start, end, times)
    ensures total == Total(times) <==> Total(times) < U64
    ensures Total(times) < U64 ==> max <= total <= |times| * max
  {
    hide Total;
    TotalBounds(max, times);
  }

  /**
   * Run times and waits: the totals are the true ones if and only if these are
   * below 2^64, and then fit their maxima.
   */
  lemma {:induction false} FiguresBounds(f: Figures, g: Log)
    requires Sound(f, g)
    ensures Fits(f, g)
  {
    hide Total, Greatest;
    TimesFit(f.totalRuntime, f.maxRuntime, f.maxStart, f.maxEnd, g.runs);
    TimesFit(f.totalLatency, f.maxLatency, f.maxLatencyStart, f.maxLatencyEnd, g.waits);
  }

  /** Two runs of 2^63 ns: the total shown is 0, below the maximum. */
  lemma {:induction false} RunsWrap()
    ensures var f := Ran(Ran(NoFigures, 1, 1 + U64 / 2), 1, 1 + U64 / 2); f.totalRuntime == 0 && f.maxRuntime == U64 / 2
  {
    var once := Ran(NoFigures, 1, 1 + U64 / 2);
    assert once.totalRuntime == U64 / 2;
  }

  /** Two waits of 2^63 ns, likewise. */
  lemma {:induction false} WaitsWrap()
    ensures var f := Waited(Waited(NoFigures, 1, 1 + U64 / 2), 1, 1 + U64 / 2);
      f.totalLatency == 0 && f.maxLatency == U64 / 2
  {
    var once := Waited(NoFigures, 1, 1 + U64 / 2);
    assert once.totalLatency == U64 / 2;
  }

  ghost predicate AllSound(works: map<nat, Figures>, logs: map<nat, Log>) {
    works.Keys == logs.Keys && forall w :: w in works ==> Sound(works[w], logs[w])
  }

  lemma {:induction false} AllSoundUpdate(works: map<nat, Figures>, logs: map<nat, Log>, work: nat, f: Figures, g: Log)
    requires AllSound(works, logs) && Sound(f, g)
    ensures AllSound(works[work := f], logs[work := g])
  {
    hide Sound;
  }

  lemma {:induction false} AllSoundAt(works: map<nat, Figures>, logs: map<nat, Log>, work: nat)
    requires AllSound(works, logs) && work in works
    ensures work in logs && Sound(works[work], logs[work])
  {
  }

  /**
   * The maxima are those of the longest run and wait, and the totals fit them if
   * the times add up to less than 2^64.
   */
  ghost predicate Fits(f: Figures, g: Log) {
    && Greatest(f.maxRuntime, f.maxStart, f.maxEnd, g.runs)
    && Greatest(f.maxLatency, f.maxLatencyStart, f.maxLatencyEnd, g.waits)
    && f.nrAtoms == (|g.runs| + |g.waits| + g.shown) % U64
    && (f.totalRuntime == Total(g.runs) <==> Total(g.runs) < U64)
    && (f.totalLatency == Total(g.waits) <==> Total(g.waits) < U64)
    && (Total(g.runs) < U64 ==> f.maxRuntime <= f.totalRuntime <= |g.runs| * f.maxRuntime)
    && (Total(g.waits) < U64 ==> f.maxLatency <= f.totalLatency <= |g.waits| * f.maxLatency)
  }

  lemma {:induction false} AllFit(works: map<nat, Figures>, logs: map<nat, Log>, work: nat)
    requires AllSound(works, logs)
    ensures Fits(FiguresOf(works, work), LogOf(logs, work))
  {
    hide Sound, Total;
    NothingSound();
    FiguresBounds(FiguresOf(works, work), LogOf(logs, work));
  }

  lemma {:induction false} NothingSound()
    ensures Sound(NoFigures, NoLog)
  {
    hide Total, Greatest;
    NoTimes();
  }

  lemma {:induction false} NoTimes()
    ensures Total([]) == 0 && Greatest(0, 0, 0, []) && 0 % U64 == 0
  {
  }

  /** `find_first_zero_bit`. */
  method FirstZero(page: seq<bool>) returns (i: nat)
    ensures i <= |page| && (forall j :: 0 <= j < i ==> page[j]) && (i < |page| ==> !page[i])
  {
    i := 0;
    while i < |page| && page[i]
      invariant i <= |page| && forall j :: 0 <= j < i ==> page[j]
    {
      i := i + 1;
    }
  }

  class PerfKwork {
    var pages: Pages
    var atoms: map<Slot, Atom>
    var lists: map<Key, seq<Slot>>
    var works: map<nat, Figures>
    ghost var owners: Owners
    ghost var logs: map<nat, Log>

    ghost function View(): Heap
      reads this
    {
      Heap(pages, atoms, lists)
    }

    ghost predicate Consistent()
      reads this
    {
      Valid(View(), owners) && AllSound(works, logs)
    }

    constructor ()
      ensures Consistent() && works == map[] && logs == map[] && lists == map[] && owners.loose == {}
    {
      pages, atoms, lists, works := [], map[], map[], map[];
      owners, logs := Owners(map[], map[], {}), map[];
    }

    /** `atom_new`: the first slot that nothing uses, from a new page if all are full. */
    method AtomNew(time: nat) returns (s: Slot)
      requires Consistent()
      modifies this`pages, this`atoms, this`owners
      ensures Consistent()
      ensures !old(Used(pages, s)) && s !in old(owners).loose && !Hangs(old(owners), s)
      ensures forall x :: InPages(old(pages), x) && (x.page < s.page || (x.page == s.page && x.bit < s.bit)) ==>
        old(Used(pages, x))
      ensures forall x :: Used(pages, x) <==> x == s || old(Used(pages, x))
      ensures atoms == old(atoms)[s := Atom(time, None)] && owners == old(owners).(loose := old(owners).loose + {s})
    {
      var p, i := 0, 0;
      while p < |pages|
        invariant p <= |pages| && forall x :: InPages(pages, x) && x.page < p ==> Used(pages, x)
        modifies {}
        decreases |pages| - p
      {
        i := FirstZero(pages[p]);
        if i < |pages[p]| {
          break;
        }
        p := p + 1;
      }
      ghost var full := pages;
      assert forall x :: InPages(full, x) && (x.page < p || (x.page == p && x.bit < i)) ==> Used(full, x);
      if p < |pages| {
        s := Slot(p, i);
        Take(pages, s, time);
      } else {
        s := Slot(|pages|, 0);
        var blank := seq(NR_ATOM_PER_PAGE, _ => false);
        Take(pages + [blank], s, time);
      }
    }

    method Take(newPages: Pages, s: Slot, time: nat)
      requires Consistent() && InPages(newPages, s) && !Used(pages, s)
      requires (forall p :: 0 <= p < |newPages| ==> |newPages[p]| == NR_ATOM_PER_PAGE)
      requires forall x :: Used(newPages, x) <==> Used(pages, x)
      modifies this`pages, this`atoms, this`owners
      ensures Consistent()
      ensures s !in old(owners).loose && !Hangs(old(owners), s)
      ensures forall x :: Used(pages, x) <==> x == s || old(Used(pages, x))
      ensures atoms == old(atoms)[s := Atom(time, None)] && owners == old(owners).(loose := old(owners).loose + {s})
    {
      hide Valid, Hangs, AllSound;
      TakeValid(View(), owners, newPages, s, time);
      forall x
        ensures Used(SetBit(newPages, s, true), x) <==> x == s || Used(pages, x)
      {
        SetBitIs(newPages, s, true, x);
      }
      pages := newPages[s.page := newPages[s.page][s.bit := true]];
      atoms := atoms[s := Atom(time, None)];
      owners := owners.(loose := owners.loose + {s});
    }

    /** `atom_free`: follows `prev` to the end and clears the bits on the way back. */
    method AtomFree(s: Slot, ghost c: seq<Slot>)
      requires Chain(atoms, s, c) && forall x :: x in c ==> InPages(pages, x)
      modifies this`pages
      ensures pages == Cleared(old(pages), c)
      decreases |c|
    {
      hide Cleared;
      ChainTail(atoms, s, c);
      var prev := atoms[s].prev;
      if prev.Some? {
        AtomFree(prev.value, c[1..]);
      }
      ClearedStep(old(pages), c);
      pages := pages[s.page := pages[s.page][s.bit := false]];
    }

    /** `work_findnew`, for the figures of a work. */
    method FindWork(work: nat)
      requires Consistent()
      modifies this`works, this`logs
      ensures Consistent()
      ensures works == old(works)[work := FiguresOf(old(works), work)]
      ensures logs == old(logs)[work := LogOf(old(logs), work)]
    {
      hide Valid, Sound;
      if work !in works {
        NothingSound();
        works := works[work := NoFigures];
        logs := logs[work := NoLog];
      }
    }

    method Enlist(k: Key, s: Slot, prev: Maybe<Slot>, ghost c: seq<Slot>)
      requires Consistent() && s in owners.loose && s in atoms && Free(View(), owners, c) && s !in c && prev == Head(c)
      modifies this`atoms, this`lists, this`owners
      ensures Consistent()
      ensures atoms == old(atoms)[s := old(atoms)[s].(prev := prev)]
      ensures lists == old(lists)[k := ListOf(old(lists), k) + [s]]
      ensures owners == ListedOwners(old(owners), k, s, c)
    {
      hide Valid, Free, AllSound;
      ListValid(View(), owners, k, s, c);
      atoms := atoms[s := atoms[s].(prev := prev)];
      lists := lists[k := ListOf(lists, k) + [s]];
      owners := ListedOwners(owners, k, s, c);
    }

    method Delist(k: Key) returns (s: Slot)
      requires Consistent() && ListOf(lists, k) != []
      modifies this`lists, this`owners
      ensures Consistent() && s == Last(ListOf(old(lists), k)) && s in old(owners).chains
      ensures lists == old(lists)[k := Front(ListOf(old(lists), k))] && owners == UnlistedOwners(old(owners), s)
      ensures forall x :: x in old(owners).loose ==> x in owners.loose
      ensures Free(View(), owners, old(owners).chains[s])
    {
      hide Valid, Free, AllSound;
      UnlistValid(View(), owners, k);
      var l := ListOf(lists, k);
      s := l[|l| - 1];
      lists := lists[k := l[..|l| - 1]];
      owners := UnlistedOwners(owners, s);
    }

    /**
     * `work_push_atom`: a new atom at the end of the source list; the last
     * atom of the destination list, if there is one, moves behind it. An
     * event that does not match leaves its slot set and unlisted.
     */
    method WorkPushAtom(work: nat, src: Trace, dst: Maybe<Trace>, time: nat, matches: bool) returns (s: Slot)
      requires Consistent()
      modifies this
      ensures Consistent() && works == old(works)[work := FiguresOf(old(works), work)]
      ensures logs == old(logs)[work := LogOf(old(logs), work)] && Kept(old(View()), View())
      ensures !old(Used(pages, s)) && forall x :: Used(pages, x) <==> x == s || old(Used(pages, x))
      ensures !matches ==>
        lists == old(lists) && owners == old(owners).(loose := old(owners).loose + {s}) && s !in old(owners).loose
      ensures matches ==> owners.loose == old(owners).loose && s in atoms && atoms[s].time == time
      ensures matches ==> lists == PushedLists(old(lists), work, src, dst, s)
      ensures matches ==>
        owners.chains == Pushed(old(View()), old(owners), s, work, dst) && s in owners.home
        && owners.home[s] == Key(work, src)
    {
      hide Valid, Used, Free, Hangs, AllSound, UnlistedOwners, ListedOwners, Kept;
      s := AtomNew(time);
      FindWork(work);
      NewKept(old(View()), old(owners), s, time);
      if !matches {
        return;
      }
      ghost var start := owners;
      if dst.Some? && ListOf(lists, Key(work, dst.value)) != [] {
        var d := Delist(Key(work, dst.value));
        ghost var c := old(owners).chains[d];
        NewNotIn(old(owners), s, d);
        FreshChain(old(View()), old(owners), d);
        Enlist(Key(work, src), s, Some(d), c);
        TimesKept(old(View()), old(owners), s, View());
        LooseAgain(old(owners), Key(work, src), s, d);
      } else {
        NothingFree(View(), owners);
        Enlist(Key(work, src), s, None, []);
        TimesKept(old(View()), old(owners), s, View());
        LooseOne(old(owners), Key(work, src), s);
      }
    }

    /**
     * `work_pop_atom`: the last atom of the destination list, which stays
     * listed; without one the event itself is listed.
     */
    method WorkPopAtom(work: nat, src: Trace, dst: Trace, time: nat, matches: bool)
      returns (r: Maybe<Slot>, ghost s: Slot)
      requires Consistent()
      modifies this
      ensures Consistent() && works == old(works)[work := FiguresOf(old(works), work)]
      ensures logs == old(logs)[work := LogOf(old(logs), work)] && Kept(old(View()), View())
      ensures var l := ListOf(old(lists), Key(work, dst)); r == if matches && l != [] then Some(Last(l)) else None
      ensures r.Some? || !matches ==>
        pages == old(pages) && atoms == old(atoms) && lists == old(lists) && owners == old(owners)
      ensures r.None? && matches ==>
        && lists == old(lists)[Key(work, src) := ListOf(old(lists), Key(work, src)) + [s]] && !old(Used(pages, s))
        && s in atoms && atoms[s].time == time
      ensures owners.loose == old(owners).loose
    {
      hide Valid, Used, Free, Hangs, AllSound, UnlistedOwners, ListedOwners, Kept;
      FindWork(work);
      r, s := None, Slot(0, 0);
      SameKept(View(), owners);
      if !matches {
        return;
      }
      var l := ListOf(lists, Key(work, dst));
      if l != [] {
        r := Some(l[|l| - 1]);
        return;
      }
      var a := AtomNew(time);
      s := a;
      NothingFree(View(), owners);
      Enlist(Key(work, src), a, None, []);
      TimesKept(old(View()), old(owners), a, View());
      LooseOne(old(owners), Key(work, src), s);
    }

    /** `atom_del` on the last atom of a list: its chain is freed, and nothing else. */
    method AtomDel(k: Key)
      requires Consistent() && ListOf(lists, k) != []
      modifies this
      ensures Consistent() && works == old(works) && logs == old(logs) && atoms == old(atoms)
      ensures lists == old(lists)[k := Front(ListOf(old(lists), k))]
      ensures var s := Last(ListOf(old(lists), k));
        && s in old(owners).chains && owners.chains == old(owners).chains - {s} && owners.loose == old(owners).loose
        && forall x :: Used(pages, x) <==> old(Used(pages, x)) && x !in old(owners).chains[s]
    {
      hide Valid, Used, Free, Cleared, AllSound, UnlistedOwners, FreedOwners;
      ghost var before := View();
      var s := Delist(k);
      ghost var c := old(owners).chains[s];
      FreshChain(before, old(owners), s);
      FreeBits(View(), owners, c);
      FreeValid(View(), owners, c);
      AtomFree(s, c);
      owners := FreedOwners(owners, c);
      FreedAgain(before, old(owners), s);
      forall x
        ensures Used(pages, x) <==> old(Used(pages, x)) && x !in c
      {
        ClearedIs(old(pages), c, x);
      }
    }

    // ----- events

    method ReportEntry(work: nat, time: nat, matches: bool) returns (ghost s: Slot)
      requires Consistent()
      modifies this
      ensures Consistent() && works == old(works)[work := FiguresOf(old(works), work)]
      ensures logs == old(logs)[work := LogOf(old(logs), work)] && Kept(old(View()), View())
      ensures matches ==> lists == PushedLists(old(lists), work, ENTRY, None, s) && s in atoms && atoms[s].time == time
      ensures matches ==>
        owners.loose == old(owners).loose && owners.chains == Pushed(old(View()), old(owners), s, work, None)
      ensures !matches ==>
        lists == old(lists) && owners == old(owners).(loose := old(owners).loose + {s}) && s !in old(owners).loose
    {
      hide Valid, Used, Pushed, PushedLists, AllSound, Kept;
      var a := WorkPushAtom(work, ENTRY, None, time, matches);
      s := a;
    }

    /** The run ends that was entered last; its length goes into the figures. */
    method ReportExit(work: nat, time: nat, matches: bool) returns (ghost s: Slot)
      requires Consistent()
      modifies this
      ensures Consistent()
      ensures var l, f := ListOf(old(lists), Key(work, ENTRY)), FiguresOf(old(works), work);
        var ends := matches && l != [] && Last(l) in old(atoms);
        works == old(works)[work := if ends then Ran(f, old(atoms)[Last(l)].time, time) else f]
      ensures var l, g := ListOf(old(lists), Key(work, ENTRY)), LogOf(old(logs), work);
        var ends := matches && l != [] && Last(l) in old(atoms);
        logs == old(logs)[work := if ends then RanLog(g, old(atoms)[Last(l)].time, time) else g]
      ensures var l := ListOf(old(lists), Key(work, ENTRY));
        matches && l != [] ==> lists == old(lists)[Key(work, ENTRY) := Front(l)]
      ensures owners.loose == old(owners).loose && (!matches ==> lists == old(lists) && pages == old(pages))
      ensures var k := Key(work, EXIT);
        && Kept(old(View()), View())
        && (matches && ListOf(old(lists), Key(work, ENTRY)) == [] ==>
          lists == old(lists)[k := ListOf(old(lists), k) + [s]] && s in atoms && atoms[s].time == time)
    {
      hide Valid, Used, AllSound, Sound, Ran, Waited, Shown, RanLog, WaitedLog, ShownLog, Kept;
      ghost var a;
      var atom;
      atom, a := WorkPopAtom(work, EXIT, ENTRY, time, matches);
      s := a;
      ghost var h := View();
      if atom.Some? {
        ListedInMemory(View(), owners, Key(work, ENTRY));
        AllSoundAt(works, logs, work);
        SoundKept(works[work], logs[work], atoms[atom.value].time, time);
        AllSoundUpdate(works, logs, work, Ran(works[work], atoms[atom.value].time, time),
            RanLog(logs[work], atoms[atom.value].time, time));
        logs := logs[work := RanLog(logs[work], atoms[atom.value].time, time)];
        works := works[work := Ran(works[work], atoms[atom.value].time, time)];
        AtomDel(Key(work, ENTRY));
        KeptAtoms(old(View()), h, View());
      }
    }

    method LatencyRaise(work: nat, time: nat, matches: bool) returns (ghost s: Slot)
      requires Consistent()
      modifies this
      ensures Consistent() && works == old(works)[work := FiguresOf(old(works), work)]
      ensures logs == old(logs)[work := LogOf(old(logs), work)] && Kept(old(View()), View())
      ensures matches ==> lists == PushedLists(old(lists), work, RAISE, None, s) && s in atoms && atoms[s].time == time
      ensures matches ==>
        owners.loose == old(owners).loose && owners.chains == Pushed(old(View()), old(owners), s, work, None)
      ensures !matches ==>
        lists == old(lists) && owners == old(owners).(loose := old(owners).loose + {s}) && s !in old(owners).loose
    {
      hide Valid, Used, Pushed, PushedLists, AllSound, Kept;
      var a := WorkPushAtom(work, RAISE, None, time, matches);
      s := a;
    }

    /** The wait ends that was raised last; its length goes into the figures. */
    method LatencyEntry(work: nat, time: nat, matches: bool) returns (ghost s: Slot)
      requires Consistent()
      modifies this
      ensures Consistent()
      ensures var l, f := ListOf(old(lists), Key(work, RAISE)), FiguresOf(old(works), work);
        var ends := matches && l != [] && Last(l) in old(atoms);
        works == old(works)[work := if ends then Waited(f, old(atoms)[Last(l)].time, time) else f]
      ensures var l, g := ListOf(old(lists), Key(work, RAISE)), LogOf(old(logs), work);
        var ends := matches && l != [] && Last(l) in old(atoms);
        logs == old(logs)[work := if ends then WaitedLog(g, old(atoms)[Last(l)].time, time) else g]
      ensures var l := ListOf(old(lists), Key(work, RAISE));
        matches && l != [] ==> lists == old(lists)[Key(work, RAISE) := Front(l)]
      ensures owners.loose == old(owners).loose && (!matches ==> lists == old(lists) && pages == old(pages))
      ensures var k := Key(work, ENTRY);
        && Kept(old(View()), View())
        && (matches && ListOf(old(lists), Key(work, RAISE)) == [] ==>
          lists == old(lists)[k := ListOf(old(lists), k) + [s]] && s in atoms && atoms[s].time == time)
    {
      hide Valid, Used, AllSound, Sound, Ran, Waited, Shown, RanLog, WaitedLog, ShownLog, Kept;
      ghost var a;
      var atom;
      atom, a := WorkPopAtom(work, ENTRY, RAISE, time, matches);
      s := a;
      ghost var h := View();
      if atom.Some? {
        ListedInMemory(View(), owners, Key(work, RAISE));
        AllSoundAt(works, logs, work);
        SoundKept(works[work], logs[work], atoms[atom.value].time, time);
        AllSoundUpdate(works, logs, work, Waited(works[work], atoms[atom.value].time, time),
            WaitedLog(logs[work], atoms[atom.value].time, time));
        logs := logs[work := WaitedLog(logs[work], atoms[atom.value].time, time)];
        works := works[work := Waited(works[work], atoms[atom.value].time, time)];
        AtomDel(Key(work, RAISE));
        KeptAtoms(old(View()), h, View());
      }
    }

    method TimehistEntry(work: nat, time: nat, matches: bool) returns (ghost s: Slot)
      requires Consistent()
      modifies this
      ensures Consistent() && works == old(works)[work := FiguresOf(old(works), work)]
      ensures logs == old(logs)[work := LogOf(old(logs), work)] && Kept(old(View()), View())
      ensures matches ==>
        lists == PushedLists(old(lists), work, ENTRY, Some(RAISE), s) && s in atoms && atoms[s].time == time
      ensures matches ==>
        owners.loose == old(owners).loose && owners.chains == Pushed(old(View()), old(owners), s, work, Some(RAISE))
      ensures !matches ==>
        lists == old(lists) && owners == old(owners).(loose := old(owners).loose + {s}) && s !in old(owners).loose
    {
      hide Valid, Used, Pushed, PushedLists, AllSound, Kept;
      var a := WorkPushAtom(work, ENTRY, Some(RAISE), time, matches);
      s := a;
    }

    method TimehistExit(work: nat, time: nat, matches: bool) returns (ghost s: Slot)
      requires Consistent()
      modifies this
      ensures Consistent()
      ensures var l, f := ListOf(old(lists), Key(work, ENTRY)), FiguresOf(old(works), work);
        works == old(works)[work := if matches && l != [] then Shown(f) else f]
      ensures var l, g := ListOf(old(lists), Key(work, ENTRY)), LogOf(old(logs), work);
        logs == old(logs)[work := if matches && l != [] then ShownLog(g) else g]
      ensures var l := ListOf(old(lists), Key(work, ENTRY));
        matches && l != [] ==> lists == old(lists)[Key(work, ENTRY) := Front(l)]
      ensures owners.loose == old(owners).loose && (!matches ==> lists == old(lists) && pages == old(pages))
      ensures var k := Key(work, EXIT);
        && Kept(old(View()), View())
        && (matches && ListOf(old(lists), Key(work, ENTRY)) == [] ==>
          lists == old(lists)[k := ListOf(old(lists), k) + [s]] && s in atoms && atoms[s].time == time)
    {
      hide Valid, Used, AllSound, Sound, Ran, Waited, Shown, RanLog, WaitedLog, ShownLog, Kept;
      ghost var a;
      var atom;
      atom, a := WorkPopAtom(work, EXIT, ENTRY, time, matches);
      s := a;
      ghost var h := View();
      if atom.Some? {
        AllSoundAt(works, logs, work);
        SoundKept(works[work], logs[work], 0, 0);
        AllSoundUpdate(works, logs, work, Shown(works[work]), ShownLog(logs[work]));
        logs := logs[work := ShownLog(logs[work])];
        works := works[work := Shown(works[work])];
        AtomDel(Key(work, ENTRY));
        KeptAtoms(old(View()), h, View());
      }
    }
  }

  function PushedLists(lists: map<Key, seq<Slot>>, work: nat, src: Trace, dst: Maybe<Trace>,
                       s: Slot): map<Key, seq<Slot>> {
    var m := if dst.Some? && ListOf(lists, Key(work, dst.value)) != []
             then lists[Key(work, dst.value) := Front(ListOf(lists, Key(work, dst.value)))] else lists;
    m[Key(work, src) := ListOf(m, Key(work, src)) + [s]]
  }

  /** The chains after a push: the chain of the last destination atom now hangs from the new one. */
  ghost function Pushed(h: Heap, o: Owners, s: Slot, work: nat, dst: Maybe<Trace>): map<Slot, seq<Slot>> {
    if dst.Some? && ListOf(h.lists, Key(work, dst.value)) != []
        && Last(ListOf(h.lists, Key(work, dst.value))) in o.chains then
      var d := Last(ListOf(h.lists, Key(work, dst.value)));
      (o.chains - {d})[s := [s] + o.chains[d]]
    else o.chains[s := [s]]
  }

  function LogOf(logs: map<nat, Log>, work: nat): Log {
    if work in logs then logs[work] else NoLog
  }

  function FiguresOf(works: map<nat, Figures>, work: nat): Figures {
    if work in works then works[work] else NoFigures
  }

  function Last(l: seq<Slot>): Slot
    requires l != []
  {
    l[|l| - 1]
  }

  function Front(l: seq<Slot>): seq<Slot>
    requires l != []
  {
    l[..|l| - 1]
  }

  // ----- every run

  datatype Mode = RUNTIME | LATENCY | TIMEHIST

  datatype Event = Event(trace: Trace, work: nat, time: nat, matches: bool)

  /** The events for which a mode has a handler that pushes an atom. */
  predicate Pushes(mode: Mode, e: Event) {
    match mode
    case RUNTIME => e.trace == ENTRY
    case LATENCY => e.trace == RAISE
    case TIMEHIST => e.trace == RAISE || e.trace == ENTRY
  }

  /** The events for which a mode has a handler that pops one. */
  predicate Pops(mode: Mode, e: Event) {
    match mode
    case RUNTIME => e.trace == EXIT
    case LATENCY => e.trace == ENTRY
    case TIMEHIST => e.trace == EXIT
  }

  /** How many pushes the profile rejects. */
  function Rejected(mode: Mode, events: seq<Event>): nat {
    if events == [] then 0
    else
      var e := events[|events| - 1];
      Rejected(mode, events[..|events| - 1]) + if Pushes(mode, e) && !e.matches then 1 else 0
  }

  /** An accepted pop of a work. */
  function EndOf(mode: Mode, e: Event, work: nat): nat {
    if Pops(mode, e) && e.matches && e.work == work then 1 else 0
  }

  function Ends(mode: Mode, events: seq<Event>, work: nat): nat {
    if events == [] then 0 else Ends(mode, events[..|events| - 1], work) + EndOf(mode, events[|events| - 1], work)
  }

  /** How many times were measured or shown. */
  function Measured(g: Log): nat {
    |g.runs| + |g.waits| + g.shown
  }

  /** The times of the events waiting to be matched, per work and trace type, and what was measured. */
  datatype Books = Books(pending: map<Key, seq<nat>>, logs: map<nat, Log>)

  const NoBooks := Books(map[], map[])

  function PendingOf(pending: map<Key, seq<nat>>, k: Key): seq<nat> {
    if k in pending then pending[k] else []
  }

  /** What an event takes from the end of a list when it is pushed. */
  function Absorbs(mode: Mode, e: Event): Maybe<Trace> {
    if mode == TIMEHIST && e.trace == ENTRY then Some(RAISE) else None
  }

  /** The trace type an event that pops looks for. */
  function Wants(mode: Mode): Trace {
    if mode == LATENCY then RAISE else ENTRY
  }

  function PushedTimes(pending: map<Key, seq<nat>>, k: Key, d: Maybe<Key>, time: nat): map<Key, seq<nat>> {
    var l := if d.Some? then PendingOf(pending, d.value) else [];
    var p := if l != [] then pending[d.value := l[..|l| - 1]] else pending;
    p[k := PendingOf(p, k) + [time]]
  }

  function Ended(mode: Mode, g: Log, from: nat, to: nat): Log {
    match mode
    case RUNTIME => RanLog(g, from, to)
    case LATENCY => WaitedLog(g, from, to)
    case TIMEHIST => ShownLog(g)
  }

  function Apply(mode: Mode, b: Books, e: Event): Books {
    var g := LogOf(b.logs, e.work);
    if Pushes(mode, e) then
      var d := Absorbs(mode, e);
      var dst := if d.Some? then Some(Key(e.work, d.value)) else None;
      Books(if e.matches then PushedTimes(b.pending, Key(e.work, e.trace), dst, e.time) else b.pending,
          b.logs[e.work := g])
    else if Pops(mode, e) then
      var k := Key(e.work, Wants(mode));
      var l := PendingOf(b.pending, k);
      if !e.matches then b.(logs := b.logs[e.work := g])
      else if l == [] then Books(PushedTimes(b.pending, Key(e.work, e.trace), None, e.time), b.logs[e.work := g])
      else Books(b.pending[k := l[..|l| - 1]], b.logs[e.work := Ended(mode, g, l[|l| - 1], e.time)])
    else b
  }

  /** Every end is matched with the last beginning of its work that is still open. */
  function Replay(mode: Mode, events: seq<Event>): Books {
    if events == [] then NoBooks else Apply(mode, Replay(mode, events[..|events| - 1]), events[|events| - 1])
  }

  ghost function TimesIn(atoms: map<Slot, Atom>, l: seq<Slot>): (t: seq<nat>)
    ensures |t| == |l|
  {
    seq(|l|, i requires 0 <= i < |l| => if l[i] in atoms then atoms[l[i]].time else 0)
  }

  /** The lists hold the pending times. */
  ghost predicate Agree(h: Heap, pending: map<Key, seq<nat>>) {
    forall k :: TimesIn(h.atoms, ListOf(h.lists, k)) == PendingOf(pending, k)
  }

  lemma {:induction false} TimesSame(h: Heap, h': Heap, k: Key)
    requires Kept(h, h')
    ensures TimesIn(h'.atoms, ListOf(h.lists, k)) == TimesIn(h.atoms, ListOf(h.lists, k))
  {
    var l := ListOf(h.lists, k);
    forall i | 0 <= i < |l|
      ensures TimesIn(h'.atoms, l)[i] == TimesIn(h.atoms, l)[i]
    {
      assert l[i] in ListOf(h.lists, k);
    }
  }

  lemma {:induction false} TimesNext(atoms: map<Slot, Atom>, l: seq<Slot>, s: Slot)
    requires s in atoms
    ensures TimesIn(atoms, l + [s]) == TimesIn(atoms, l) + [atoms[s].time]
  {
  }

  lemma {:induction false} TimesFront(atoms: map<Slot, Atom>, l: seq<Slot>)
    requires l != []
    ensures TimesIn(atoms, l[..|l| - 1]) == TimesIn(atoms, l)[..|l| - 1]
  {
  }

  lemma {:induction false} AgreeSame(h: Heap, h': Heap, p: map<Key, seq<nat>>)
    requires Agree(h, p) && Kept(h, h') && h'.lists == h.lists
    ensures Agree(h', p)
  {
    hide Kept, TimesIn;
    forall k
      ensures TimesIn(h'.atoms, ListOf(h'.lists, k)) == PendingOf(p, k)
    {
      TimesSame(h, h', k);
    }
  }

  lemma {:induction false} AgreePop(h: Heap, h': Heap, p: map<Key, seq<nat>>, d: Key)
    requires Agree(h, p) && Kept(h, h') && ListOf(h.lists, d) != []
    requires h'.lists == h.lists[d := Front(ListOf(h.lists, d))]
    ensures var l := PendingOf(p, d);
      l != [] && Agree(h', p[d := l[..|l| - 1]]) && Last(ListOf(h.lists, d)) in h.atoms
      && l[|l| - 1] == h.atoms[Last(ListOf(h.lists, d))].time
  {
    hide Kept, TimesIn;
    var l := ListOf(h.lists, d);
    LastTime(h, h', d);
    forall k
      ensures TimesIn(h'.atoms, ListOf(h'.lists, k)) == PendingOf(p[d := PendingOf(p, d)[..|l| - 1]], k)
    {
      TimesSame(h, h', k);
      TimesFront(h'.atoms, l);
      assert TimesIn(h.atoms, ListOf(h.lists, k)) == PendingOf(p, k);
    }
  }

  lemma {:induction false} LastTime(h: Heap, h': Heap, d: Key)
    requires Kept(h, h') && ListOf(h.lists, d) != []
    ensures var l := ListOf(h.lists, d); Last(l) in h.atoms && TimesIn(h.atoms, l)[|l| - 1] == h.atoms[Last(l)].time
  {
    assert Last(ListOf(h.lists, d)) in ListOf(h.lists, d);
  }

  lemma {:induction false} AgreePush(h: Heap, h': Heap, p: map<Key, seq<nat>>, k: Key, s: Slot, time: nat)
    requires Agree(h, p) && Kept(h, h') && s in h'.atoms && h'.atoms[s].time == time
    requires h'.lists == h.lists[k := ListOf(h.lists, k) + [s]]
    ensures Agree(h', p[k := PendingOf(p, k) + [time]])
  {
    hide Kept, TimesIn;
    forall j
      ensures TimesIn(h'.atoms, ListOf(h'.lists, j)) == PendingOf(p[k := PendingOf(p, k) + [time]], j)
    {
      TimesSame(h, h', j);
      TimesNext(h'.atoms, ListOf(h.lists, j), s);
      assert TimesIn(h.atoms, ListOf(h.lists, j)) == PendingOf(p, j);
    }
  }

  lemma {:induction false} KeptFront(h: Heap, h': Heap, d: Key)
    requires Kept(h, h') && ListOf(h.lists, d) != []
    ensures var h1 := h.(lists := h.lists[d := Front(ListOf(h.lists, d))]); Kept(h, h1) && Kept(h1, h')
  {
    var l := ListOf(h.lists, d);
    var h1 := h.(lists := h.lists[d := Front(l)]);
    assert forall x :: x in Front(l) ==> x in l;
    forall k, x | x in ListOf(h1.lists, k)
      ensures x in ListOf(h.lists, k)
    {
    }
  }

  lemma {:induction false} AgreePushed(h: Heap, h': Heap, p: map<Key, seq<nat>>, work: nat, src: Trace,
                                       dst: Maybe<Trace>, s: Slot, time: nat)
    requires Agree(h, p) && Kept(h, h') && s in h'.atoms && h'.atoms[s].time == time
    requires h'.lists == PushedLists(h.lists, work, src, dst, s)
    ensures Agree(h', PushedTimes(p, Key(work, src), if dst.Some? then Some(Key(work, dst.value)) else None, time))
  {
    hide Kept, Agree;
    if dst.Some? {
      SameLength(h, p, Key(work, dst.value));
    }
    if dst.Some? && ListOf(h.lists, Key(work, dst.value)) != [] {
      var d := Key(work, dst.value);
      var h1 := h.(lists := h.lists[d := Front(ListOf(h.lists, d))]);
      KeptFront(h, h', d);
      AgreePop(h, h1, p, d);
      var l := PendingOf(p, d);
      AgreePush(h1, h', p[d := l[..|l| - 1]], Key(work, src), s, time);
    } else {
      AgreePush(h, h', p, Key(work, src), s, time);
    }
  }

  lemma {:induction false} SameLength(h: Heap, p: map<Key, seq<nat>>, k: Key)
    requires Agree(h, p)
    ensures |PendingOf(p, k)| == |ListOf(h.lists, k)|
  {
    assert TimesIn(h.atoms, ListOf(h.lists, k)) == PendingOf(p, k);
  }

  /** An object stands where the books of the events do. */
  ghost predicate Stands(kwork: PerfKwork, b: Books)
    reads kwork
  {
    kwork.Consistent() && Agree(kwork.View(), b.pending) && kwork.logs == b.logs
  }

  /** The handlers that push. */
  method HandlePush(kwork: PerfKwork, mode: Mode, e: Event, ghost b: Books)
    requires Stands(kwork, b) && Pushes(mode, e)
    modifies kwork
    ensures Stands(kwork, Apply(mode, b, e))
    ensures |kwork.owners.loose| == |old(kwork.owners).loose| + if e.matches then 0 else 1
  {
    hide Valid, AllSound, Pushed, PushedLists, Kept, Agree, PushedTimes;
    ghost var s;
    if mode == RUNTIME {
      s := kwork.ReportEntry(e.work, e.time, e.matches);
    } else if e.trace == RAISE {
      s := kwork.LatencyRaise(e.work, e.time, e.matches);
    } else {
      s := kwork.TimehistEntry(e.work, e.time, e.matches);
    }
    if e.matches {
      AgreePushed(old(kwork.View()), kwork.View(), b.pending, e.work, e.trace, Absorbs(mode, e), s, e.time);
    } else {
      AgreeSame(old(kwork.View()), kwork.View(), b.pending);
    }
  }

  /** The handlers that pop. */
  method HandlePop(kwork: PerfKwork, mode: Mode, e: Event, ghost b: Books)
    requires Stands(kwork, b) && Pops(mode, e)
    modifies kwork
    ensures Stands(kwork, Apply(mode, b, e)) && kwork.owners.loose == old(kwork.owners).loose
  {
    hide Valid, AllSound, Kept, Agree, Ran, Waited, Shown, RanLog, WaitedLog, ShownLog;
    ghost var k := Key(e.work, Wants(mode));
    ghost var s;
    SameLength(kwork.View(), b.pending, k);
    match mode {
      case RUNTIME => s := kwork.ReportExit(e.work, e.time, e.matches);
      case LATENCY => s := kwork.LatencyEntry(e.work, e.time, e.matches);
      case TIMEHIST => s := kwork.TimehistExit(e.work, e.time, e.matches);
    }
    if !e.matches {
      AgreeSame(old(kwork.View()), kwork.View(), b.pending);
    } else if ListOf(old(kwork.lists), k) == [] {
      AgreePush(old(kwork.View()), kwork.View(), b.pending, Key(e.work, e.trace), s, e.time);
    } else {
      AgreePop(old(kwork.View()), kwork.View(), b.pending, k);
    }
  }

  /** The tables of handlers: a mode passes over the events it has none for. */
  method Handle(kwork: PerfKwork, mode: Mode, e: Event, ghost b: Books)
    requires Stands(kwork, b)
    modifies kwork
    ensures Stands(kwork, Apply(mode, b, e))
    ensures |kwork.owners.loose| == |old(kwork.owners).loose| + if Pushes(mode, e) && !e.matches then 1 else 0
  {
    hide Stands, PushedTimes, Ended;
    match mode {
      case RUNTIME =>
        if e.trace == ENTRY {
          HandlePush(kwork, mode, e, b);
        } else if e.trace == EXIT {
          HandlePop(kwork, mode, e, b);
        }
      case LATENCY =>
        if e.trace == RAISE {
          HandlePush(kwork, mode, e, b);
        } else if e.trace == ENTRY {
          HandlePop(kwork, mode, e, b);
        }
      case TIMEHIST =>
        if e.trace == RAISE || e.trace == ENTRY {
          HandlePush(kwork, mode, e, b);
        } else {
          HandlePop(kwork, mode, e, b);
        }
    }
  }

  lemma {:induction false} MeasuredBelow(mode: Mode, events: seq<Event>, work: nat)
    ensures Measured(LogOf(Replay(mode, events).logs, work)) <= Ends(mode, events, work)
    decreases |events|
  {
    hide PushedTimes;
    if events != [] {
      MeasuredBelow(mode, events[..|events| - 1], work);
    }
  }

  lemma {:induction false} NothingStands(kwork: PerfKwork)
    requires kwork.Consistent() && kwork.lists == map[] && kwork.logs == map[]
    ensures Stands(kwork, NoBooks)
  {
  }

  /**
   * Over every sequence of events, in every mode, lists, chains and bits stay
   * consistent, and the slots that belong to nobody are those of the rejected
   * pushes. The times measured are those of matching every end with the last
   * open beginning of its work, at most one for each end; the figures are
   * theirs, and fit together as long as they add up to less than 2^64.
   */
  method Process(kwork: PerfKwork, mode: Mode, events: seq<Event>)
    requires kwork.Consistent() && kwork.lists == map[] && kwork.logs == map[] && kwork.owners.loose == {}
    modifies kwork
    ensures Stands(kwork, Replay(mode, events)) && |kwork.owners.loose| == Rejected(mode, events)
    ensures forall w :: Fits(FiguresOf(kwork.works, w), LogOf(Replay(mode, events).logs, w))
    ensures forall w :: FiguresOf(kwork.works, w).nrAtoms <= Ends(mode, events, w)
  {
    hide Valid, AllSound, Pushes, Pops, Stands, Apply, Fits;
    NothingStands(kwork);
    for i := 0 to |events|
      invariant Stands(kwork, Replay(mode, events[..i])) && |kwork.owners.loose| == Rejected(mode, events[..i])
    {
      assert events[..i + 1][..i] == events[..i];
      Handle(kwork, mode, events[i], Replay(mode, events[..i]));
    }
    assert events[..|events|] == events;
    forall w
      ensures Fits(FiguresOf(kwork.works, w), LogOf(kwork.logs, w)) && kwork.logs == Replay(mode, events).logs
      ensures FiguresOf(kwork.works, w).nrAtoms <= Ends(mode, events, w)
    {
      Shows(kwork, Replay(mode, events), w);
      MeasuredBelow(mode, events, w);
    }
  }

  lemma {:induction false} Shows(kwork: PerfKwork, b: Books, w: nat)
    requires Stands(kwork, b)
    ensures kwork.logs == b.logs && Fits(FiguresOf(kwork.works, w), LogOf(kwork.logs, w))
    ensures FiguresOf(kwork.works, w).nrAtoms <= Measured(LogOf(b.logs, w))
  {
    hide Valid, AllSound, Agree;
    AllFit(kwork.works, kwork.logs, w);
  }

  // ----- facts the methods need

  /** Listed atoms are in memory, and keep their times. */
  ghost predicate Kept(h: Heap, h': Heap) {
    forall k, x :: x in ListOf(h.lists, k) ==> x in h.atoms && x in h'.atoms && h'.atoms[x].time == h.atoms[x].time
  }

  lemma {:induction false} KeptAtoms(h: Heap, h1: Heap, h2: Heap)
    requires Kept(h, h1) && h1.atoms == h2.atoms
    ensures Kept(h, h2)
  {
  }

  lemma {:induction false} Listed(h: Heap, o: Owners, k: Key, x: Slot)
    requires Valid(h, o) && x in ListOf(h.lists, k)
    ensures x in h.atoms && Hangs(o, x)
  {
    assert Chain(h.atoms, x, o.chains[x]);
    assert LinkedAt(h.atoms, o.chains[x], 0) && x in o.chains[x];
  }

  /** A slot that hangs nowhere is not listed, so its atom may change. */
  lemma {:induction false} TimesKept(h: Heap, o: Owners, s: Slot, h': Heap)
    requires Valid(h, o) && !Hangs(o, s) && s in h'.atoms && h'.atoms == h.atoms[s := h'.atoms[s]]
    ensures Kept(h, h')
  {
    hide Valid, Hangs;
    forall k, x | x in ListOf(h.lists, k)
      ensures x in h.atoms && x != s
    {
      Listed(h, o, k, x);
    }
  }

  lemma {:induction false} NewKept(h: Heap, o: Owners, s: Slot, time: nat)
    requires Valid(h, o) && !Hangs(o, s)
    ensures forall h': Heap :: h'.atoms == h.atoms[s := Atom(time, None)] ==> Kept(h, h')
  {
    hide Valid, Hangs, Kept;
    forall h': Heap | h'.atoms == h.atoms[s := Atom(time, None)]
      ensures Kept(h, h')
    {
      TimesKept(h, o, s, h');
    }
  }

  lemma {:induction false} SameKept(h: Heap, o: Owners)
    requires Valid(h, o)
    ensures Kept(h, h)
  {
    hide Valid, Hangs;
    forall k, x | x in ListOf(h.lists, k)
      ensures x in h.atoms
    {
      Listed(h, o, k, x);
    }
  }

  lemma {:induction false} NothingFree(h: Heap, o: Owners)
    ensures Free(h, o, [])
  {
  }

  lemma {:induction false} NewNotIn(o: Owners, s: Slot, d: Slot)
    requires !Hangs(o, s) && d in o.chains
    ensures s !in o.chains[d]
  {
  }

  lemma {:induction false} FreshChain(h: Heap, o: Owners, d: Slot)
    requires Valid(h, o) && d in o.chains
    ensures Chain(h.atoms, d, o.chains[d]) && Head(o.chains[d]) == Some(d)
    ensures forall x :: x in o.chains[d] ==> x !in o.loose
  {
  }

  lemma {:induction false} FreeBits(h: Heap, o: Owners, c: seq<Slot>)
    requires Valid(h, o) && Free(h, o, c)
    ensures forall x :: x in c ==> InPages(h.pages, x)
  {
    FreeInPages(h, o, c);
  }

  lemma {:induction false} ListedInMemory(h: Heap, o: Owners, k: Key)
    requires Valid(h, o) && ListOf(h.lists, k) != []
    ensures Last(ListOf(h.lists, k)) in h.atoms
  {
    var s := Last(ListOf(h.lists, k));
    assert s in ListOf(h.lists, k);
    assert Chain(h.atoms, s, o.chains[s]);
    assert LinkedAt(h.atoms, o.chains[s], 0);
  }

  lemma {:induction false} LooseOne(o: Owners, k: Key, s: Slot)
    requires s !in o.loose
    ensures ListedOwners(o.(loose := o.loose + {s}), k, s, []) == Owners(o.chains[s := [s]], o.home[s := k], o.loose)
  {
    assert [s] + [] == [s];
  }

  lemma {:induction false} LooseAgain(o: Owners, k: Key, s: Slot, d: Slot)
    requires s !in o.loose && d in o.chains && forall x :: x in o.chains[d] ==> x !in o.loose
    ensures ListedOwners(UnlistedOwners(o.(loose := o.loose + {s}), d), k, s, o.chains[d]) ==
      Owners((o.chains - {d})[s := [s] + o.chains[d]], (o.home - {d})[s := k], o.loose)
  {
  }

  lemma {:induction false} FreedAgain(h: Heap, o: Owners, s: Slot)
    requires Valid(h, o) && s in o.chains
    ensures FreedOwners(UnlistedOwners(o, s), o.chains[s]) == Owners(o.chains - {s}, o.home - {s}, o.loose)
  {
    var loose := o.loose + (set x | x in o.chains[s]) - (set x | x in o.chains[s]);
    assert loose == o.loose;
  }

  lemma {:induction false} ChainTail(atoms: map<Slot, Atom>, s: Slot, c: seq<Slot>)
    requires Chain(atoms, s, c)
    ensures s in atoms && atoms[s].prev == Head(c[1..])
    ensures c[1..] != [] ==> Chain(atoms, c[1], c[1..])
  {
    assert LinkedAt(atoms, c, 0);
    forall i | 0 <= i < |c| - 1
      ensures LinkedAt(atoms, c[1..], i)
    {
      assert LinkedAt(atoms, c, i + 1);
    }
  }

  lemma {:induction false} ClearedStep(pages: Pages, c: seq<Slot>)
    requires c != [] && forall x :: x in c ==> InPages(pages, x)
    ensures c[1..] == [] ==> Cleared(pages, c[1..]) == pages
    ensures InPages(Cleared(pages, c[1..]), c[0]) && Cleared(pages, c) == SetBit(Cleared(pages, c[1..]), c[0], false)
  {
    assert c[0] in c && InPages(pages, c[0]);
  }
}
