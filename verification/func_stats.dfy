/** `Bucket`, `LatencyChild` and `FuncStat`: where the analyser keeps its results. */
module FuncStats {
  import opened Common
  import Histogram

  function Add64(x: int, y: int): nat {
    (x + y) % U64
  }

  function Sub64(x: int, y: int): nat {
    (x - y) % U64
  }

  // ----- strings built by the analyser

  function Decimal(n: nat): string {
    (if n < 10 then [] else Decimal(n / 10)) + [['0', '1', '2', '3', '4', '5', '6', '7', '8', '9'][n % 10]]
  }

  /** `funcname_add_addr`. */
  function WithAddr(name: string, addr: nat): string {
    name + "!" + Decimal(addr)
  }

  const TARGET_SELF := "*self"
  const UNKNOWN_CALLER := "unknown"

  // ----- buckets

  datatype Element = Element(count: nat, total: nat)

  type Bucket = map<string, Element>

  function Get(b: Bucket, key: string): Element {
    if key in b then b[key] else Element(0, 0)
  }

  /** `Bucket::add_val`. */
  function AddVal(b: Bucket, key: string, val: nat): Bucket {
    b[key := Element(Get(b, key).count + 1, Add64(Get(b, key).total, val))]
  }

  /** `Bucket::add_bucket`. */
  function AddBucket(b: Bucket, d: Bucket): Bucket {
    map key | key in b.Keys + d.Keys ::
      Element(Get(b, key).count + Get(d, key).count, Add64(Get(b, key).total, Get(d, key).total))
  }

  // ----- children of one call

  datatype Children = Children(target: Bucket, sched: Bucket, targetTotal: nat, schedTotal: nat)

  const NoChildren := Children(map[], map[], 0, 0)

  predicate IsEmpty(c: Children) {
    c.target == map[] && c.sched == map[]
  }

  /** `LatencyChild::add_target` followed by `LatencyChild::add_sched`, which skips zeros. */
  function AddChild(c: Children, name: string, lat: nat, off: nat): Children {
    var c1 := c.(target := AddVal(c.target, name, lat), targetTotal := Add64(c.targetTotal, lat));
    if off == 0 then c1
    else c1.(sched := AddVal(c1.sched, name, off), schedTotal := Add64(c1.schedTotal, off))
  }

  /** `LatencyChild::add_child`: the running totals of the receiver stay as they are. */
  function AddChildren(c: Children, d: Children): Children {
    c.(target := AddBucket(c.target, d.target), sched := AddBucket(c.sched, d.sched))
  }

  // ----- the statistics of a thread

  datatype Latency = Latency(target: Histogram.Dist, sched: Histogram.Dist, unknown: nat)

  const NoLatency := Latency(Histogram.EmptyDist, Histogram.EmptyDist, 0)

  datatype Caller = Caller(latency: Latency, children: Children)

  datatype Stat = Stat(latency: Latency, children: Children, callers: map<string, Caller>, schedCount: nat)

  const NoStat := Stat(NoLatency, NoChildren, map[], 0)

  function CallerOf(s: Stat, name: string): Caller {
    if name in s.callers then s.callers[name] else Caller(NoLatency, NoChildren)
  }

  function Record(l: Latency, lat: nat, off: nat): Latency {
    var l1 := l.(target := Histogram.Assign(l.target, lat));
    if off == 0 then l1 else l1.(sched := Histogram.Assign(l1.sched, off))
  }

  /** `FuncStat::add_latency`. */
  function AddLatency(s: Stat, lat: nat, off: nat, caller: string): Stat {
    var c := CallerOf(s, caller);
    s.(latency := Record(s.latency, lat, off),
       callers := s.callers[caller := c.(latency := Record(c.latency, lat, off))])
  }

  /** `FuncStat::add_child_latency`. */
  function AddChildLatency(s: Stat, child: Children, caller: string, gather: bool): Stat {
    var c := CallerOf(s, caller);
    s.(children := if gather then AddChildren(s.children, child) else s.children,
       callers := s.callers[caller := c.(children := AddChildren(c.children, child))])
  }

  /** `FuncStat::add_unknown_latency`. */
  function AddUnknown(s: Stat, child: Children, caller: string): Stat {
    var gather := caller != UNKNOWN_CALLER;
    var s1 := AddChildLatency(s, child, caller, gather);
    if gather then s1.(latency := s1.latency.(unknown := s1.latency.unknown + 1)) else s1
  }

  datatype Option = Option(callLine: bool, codeBlock: bool, ipFiltering: bool,
                           minLatency: nat, maxLatency: nat, minTime: nat, maxTime: nat)

  /** The intervals a call must fall into to be recorded. */
  predicate Wanted(opt: Option, start: nat, lat: nat) {
    opt.minLatency <= lat <= opt.maxLatency && opt.minTime <= start <= opt.maxTime
  }

  function Excess(x: nat, y: nat): nat {
    if x > y then x - y else 0
  }

  /** What `FuncStat::add` does with a finished call, timeline mode aside. */
  function AddCall(opt: Option, s: Stat, start: nat, end: nat, caller: string, off: nat, child: Children): Stat {
    var lat := Sub64(end, start);
    if !Wanted(opt, start, lat) then s
    else
      var s1 := AddLatency(s, lat, off, caller);
      var c := if opt.codeBlock then child
               else AddChild(child, TARGET_SELF, Excess(lat, child.targetTotal), Excess(off, child.schedTotal));
      AddChildLatency(s1, c, caller, true)
  }

  function MergeLatency(l: Latency, m: Latency): Latency {
    Latency(Histogram.Merge(l.target, m.target), Histogram.Merge(l.sched, m.sched), l.unknown + m.unknown)
  }

  function MergeCaller(m: map<string, Caller>, n: map<string, Caller>, name: string): Caller
    requires name in n
  {
    var c := if name in m then m[name] else Caller(NoLatency, NoChildren);
    Caller(MergeLatency(c.latency, n[name].latency), AddChildren(c.children, n[name].children))
  }

  function MergeCallers(m: map<string, Caller>, n: map<string, Caller>): map<string, Caller> {
    map name | name in m.Keys + n.Keys :: if name in n then MergeCaller(m, n, name) else m[name]
  }

  /** `FuncStat::merge`: how the results of the threads are combined. */
  function MergeStat(s: Stat, t: Stat): Stat {
    Stat(MergeLatency(s.latency, t.latency), AddChildren(s.children, t.children),
         MergeCallers(s.callers, t.callers),
         s.schedCount + t.schedCount)
  }

  /** All callers but those still to do are merged. */
  ghost predicate Joining(m: map<string, Caller>, n: map<string, Caller>, r: map<string, Caller>, left: set<string>) {
    && left <= n.Keys && r.Keys == m.Keys + (n.Keys - left)
    && forall name :: name in r ==> r[name] == if name in n && name !in left then MergeCaller(m, n, name) else m[name]
  }

  lemma {:induction false} JoinStart(m: map<string, Caller>, n: map<string, Caller>)
    ensures Joining(m, n, m, n.Keys)
  {
  }

  lemma {:induction false} JoinNext(m: map<string, Caller>, n: map<string, Caller>, r: map<string, Caller>,
                                    left: set<string>, name: string)
    requires Joining(m, n, r, left) && name in left
    ensures name in n && Joining(m, n, r[name := MergeCaller(r, n, name)], left - {name})
  {
    assert MergeCaller(r, n, name) == MergeCaller(m, n, name);
    hide MergeCaller;
  }

  lemma {:induction false} JoinDone(m: map<string, Caller>, n: map<string, Caller>, r: map<string, Caller>)
    requires Joining(m, n, r, {})
    ensures r == MergeCallers(m, n)
  {
    hide MergeCaller;
  }

  // ----- the object

  class FuncStat {
    var latency: Latency
    var children: Children
    var callers: map<string, Caller>
    var schedCount: nat

    function View(): Stat
      reads this
    {
      Stat(latency, children, callers, schedCount)
    }

    constructor ()
      ensures View() == NoStat
    {
      latency, children, callers, schedCount := NoLatency, NoChildren, map[], 0;
    }

    /** `add_latency`. */
    method RecordLatency(lat: nat, off: nat, caller: string)
      modifies this
      ensures View() == AddLatency(old(View()), lat, off, caller)
    {
      latency := latency.(target := Histogram.Assign(latency.target, lat));
      var c := if caller in callers then callers[caller] else Caller(NoLatency, NoChildren);
      c := c.(latency := c.latency.(target := Histogram.Assign(c.latency.target, lat)));
      if off != 0 {
        latency := latency.(sched := Histogram.Assign(latency.sched, off));
        c := c.(latency := c.latency.(sched := Histogram.Assign(c.latency.sched, off)));
      }
      callers := callers[caller := c];
    }

    /** `add_child_latency`. */
    method RecordChild(child: Children, caller: string, gather: bool)
      modifies this
      ensures View() == AddChildLatency(old(View()), child, caller, gather)
    {
      if gather {
        children := AddChildren(children, child);
      }
      var c := if caller in callers then callers[caller] else Caller(NoLatency, NoChildren);
      callers := callers[caller := c.(children := AddChildren(c.children, child))];
    }

    /** `add_unknown_latency`. */
    method AddUnknownLatency(child: Children, caller: string)
      modifies this
      ensures View() == AddUnknown(old(View()), child, caller)
    {
      var gather := caller != UNKNOWN_CALLER;
      RecordChild(child, caller, gather);
      if gather {
        latency := latency.(unknown := latency.unknown + 1);
      }
    }

    /** `add`, timeline mode aside. */
    method Add(opt: Option, start: nat, end: nat, caller: string, off: nat, child: Children)
      modifies this
      ensures View() == AddCall(opt, old(View()), start, end, caller, off, child)
    {
      var lat := Sub64(end, start);
      if lat < opt.minLatency || lat > opt.maxLatency || start < opt.minTime || start > opt.maxTime {
        return;
      }
      RecordLatency(lat, off, caller);
      var c := child;
      if !opt.codeBlock {
        var selfTime := if lat > child.targetTotal then lat - child.targetTotal else 0;
        var selfOff := if off > child.schedTotal then off - child.schedTotal else 0;
        c := AddChild(child, TARGET_SELF, selfTime, selfOff);
      }
      RecordChild(c, caller, true);
    }

    /** The loop of `merge`, over the callers in any order. */
    static method JoinCallers(m: map<string, Caller>, n: map<string, Caller>) returns (r: map<string, Caller>)
      ensures r == MergeCallers(m, n)
    {
      hide MergeCaller, MergeCallers, Joining;
      r := m;
      var left := n.Keys;
      JoinStart(m, n);
      while left != {}
        invariant Joining(m, n, r, left)
        decreases |left|
      {
        var name :| name in left;
        JoinNext(m, n, r, left, name);
        r := r[name := MergeCaller(r, n, name)];
        left := left - {name};
      }
      JoinDone(m, n, r);
    }

    /** `merge`. */
    method Merge(stat: FuncStat)
      modifies this
      ensures View() == MergeStat(old(View()), old(stat.View()))
    {
      latency := MergeLatency(latency, stat.latency);
      children := AddChildren(children, stat.children);
      callers := JoinCallers(callers, stat.callers);
      schedCount := schedCount + stat.schedCount;
    }
  }
}
