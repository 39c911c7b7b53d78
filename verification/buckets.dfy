/** What a bucket of children holds, counted and added up without the functions that fill it. */
module Buckets {
  import opened Common
  import opened FuncStats

  /** Under one name: how many children and how long, and the same for the time off the CPU. */
  datatype Cell = Cell(count: nat, time: nat, offCount: nat, off: nat)

  const Nothing := Cell(0, 0, 0, 0)

  /** One child; it counts as off the CPU only if it was. */
  function Once(time: nat, off: nat): Cell {
    Cell(1, time, if off > 0 then 1 else 0, off)
  }

  function Both(x: Cell, y: Cell): Cell {
    Cell(x.count + y.count, x.time + y.time, x.offCount + y.offCount, x.off + y.off)
  }

  lemma {:induction false} BothAssoc(x: Cell, y: Cell, z: Cell)
    ensures Both(Both(x, y), z) == Both(x, Both(y, z))
  {
  }

  lemma {:induction false} BothSwap(a: Cell, b: Cell, c: Cell, d: Cell)
    ensures Both(Both(a, b), Both(c, d)) == Both(Both(a, c), Both(b, d))
  {
  }

  lemma {:induction false} BothNothing(x: Cell)
    ensures Both(x, Nothing) == x == Both(Nothing, x)
  {
  }

  /** The element of a name: an exact count and a total in 64 bits. */
  ghost predicate Holds(b: Bucket, name: string, count: nat, total: nat) {
    && (name in b ==> b[name].count == count && b[name].total == total % 0x1_0000_0000_0000_0000)
    && (name !in b ==> count == 0 && total % 0x1_0000_0000_0000_0000 == 0)
  }

  ghost predicate Shows(c: Children, name: string, x: Cell) {
    Holds(c.target, name, x.count, x.time) && Holds(c.sched, name, x.offCount, x.off)
  }

  /** A name is listed exactly if something was counted under it. */
  ghost predicate Listed(c: Children, name: string, x: Cell) {
    (name in c.target <==> x.count > 0) && (name in c.sched <==> x.offCount > 0)
  }

  lemma {:induction false} WrappedSum(x: nat, y: nat)
    ensures Add64(x % U64, y) == (x + y) % U64 && Add64(x % U64, y % U64) == (x + y) % U64
  {
  }

  lemma {:induction false} AddValHolds(b: Bucket, key: string, val: nat, name: string, count: nat, total: nat)
    requires Holds(b, name, count, total)
    ensures Holds(AddVal(b, key, val), name, count + if name == key then 1 else 0,
      total + if name == key then val else 0)
  {
    hide Add64;
    WrappedSum(total, val);
  }

  lemma {:induction false} AddBucketHolds(b: Bucket, d: Bucket, name: string, m: nat, s: nat, n: nat, t: nat)
    requires Holds(b, name, m, s) && Holds(d, name, n, t)
    ensures Holds(AddBucket(b, d), name, m + n, s + t)
  {
    hide Add64;
    WrappedSum(s, t);
    WrappedSum(0, 0);
    assert Get(b, name) == Element(m, s % U64) && Get(d, name) == Element(n, t % U64);
    assert name !in AddBucket(b, d) ==> (s + t) % U64 == 0 by {
      hide AddBucket;
      ZeroSum(s, t);
    }
  }

  lemma {:induction false} ZeroSum(s: nat, t: nat)
    ensures s % U64 == 0 && t % U64 == 0 ==> (s + t) % U64 == 0
  {
  }

  lemma {:induction false} AddChildShows(c: Children, key: string, lat: nat, off: nat, name: string, x: Cell)
    requires Shows(c, name, x)
    ensures Shows(AddChild(c, key, lat, off), name, Both(x, if name == key then Once(lat, off) else Nothing))
  {
    hide AddVal, Add64, Holds;
    AddValHolds(c.target, key, lat, name, x.count, x.time);
    AddValHolds(c.sched, key, off, name, x.offCount, x.off);
  }

  lemma {:induction false} AddChildListed(c: Children, key: string, lat: nat, off: nat, name: string, x: Cell)
    requires Listed(c, name, x)
    ensures Listed(AddChild(c, key, lat, off), name, Both(x, if name == key then Once(lat, off) else Nothing))
  {
    hide Add64;
  }

  lemma {:induction false} AddChildrenShows(c: Children, d: Children, name: string, x: Cell, y: Cell)
    requires Shows(c, name, x) && Shows(d, name, y)
    ensures Shows(AddChildren(c, d), name, Both(x, y))
    ensures Listed(c, name, x) && Listed(d, name, y) ==> Listed(AddChildren(c, d), name, Both(x, y))
  {
    AddBucketHolds(c.target, d.target, name, x.count, x.time, y.count, y.time);
    AddBucketHolds(c.sched, d.sched, name, x.offCount, x.off, y.offCount, y.off);
    hide Holds, Add64;
  }

  lemma {:induction false} NoneShown(name: string)
    ensures Shows(NoChildren, name, Nothing) && Listed(NoChildren, name, Nothing)
  {
  }

  // ----- the figures of one caller, or of all

  function Part(s: Stat, who: Maybe<string>): Caller {
    if who.None? then Caller(s.latency, s.children) else CallerOf(s, who.value)
  }

  /** A call is recorded for all and for its caller. */
  predicate Concerns(who: Maybe<string>, caller: string) {
    who.None? || who.value == caller
  }

  lemma {:induction false} LatencyPart(s: Stat, lat: nat, off: nat, caller: string, who: Maybe<string>)
    ensures var p, q := Part(s, who), Part(AddLatency(s, lat, off, caller), who);
      && q.children == p.children
      && q.latency == if Concerns(who, caller) then Record(p.latency, lat, off) else p.latency
  {
    hide Record;
  }

  lemma {:induction false} ChildPart(s: Stat, child: Children, caller: string, gather: bool, who: Maybe<string>)
    ensures var p, q := Part(s, who), Part(AddChildLatency(s, child, caller, gather), who);
      && q.latency == p.latency
      && q.children == if Concerns(who, caller)
           && (who.None? ==> gather) then AddChildren(p.children, child) else p.children
  {
    hide AddChildren;
  }
}
