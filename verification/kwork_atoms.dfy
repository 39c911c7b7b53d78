/**
 * The atoms of `perf kwork`: slots handed out from pages with a bitmap,
 * listed per work and trace type, and chained through `prev`.
 */
module KworkAtoms {
  import opened Common

  const NR_ATOM_PER_PAGE := 128

  datatype Slot = Slot(page: nat, bit: nat)

  /** The contents of a slot. */
  datatype Atom = Atom(time: nat, prev: Maybe<Slot>)

  datatype Trace = RAISE | ENTRY | EXIT

  /** One of the three atom lists of a work. */
  datatype Key = Key(work: nat, trace: Trace)

  type Pages = seq<seq<bool>>

  /** Memory as the handlers see it. */
  datatype Heap = Heap(pages: Pages, atoms: map<Slot, Atom>, lists: map<Key, seq<Slot>>)

  /**
   * Which slots hang together: `chains` from each listed atom along `prev`,
   * `home` the list it is in, `loose` the set bits that no list leads to.
   */
  datatype Owners = Owners(chains: map<Slot, seq<Slot>>, home: map<Slot, Key>, loose: set<Slot>)

  predicate Used(pages: Pages, s: Slot) {
    s.page < |pages| && s.bit < |pages[s.page]| && pages[s.page][s.bit]
  }

  predicate InPages(pages: Pages, s: Slot) {
    s.page < |pages| && s.bit < |pages[s.page]|
  }

  function SetBit(pages: Pages, s: Slot, b: bool): Pages
    requires InPages(pages, s)
  {
    pages[s.page := pages[s.page][s.bit := b]]
  }

  function ListOf(lists: map<Key, seq<Slot>>, k: Key): seq<Slot> {
    if k in lists then lists[k] else []
  }

  /** The atoms of `c` are linked by `prev`, first to last. */
  ghost predicate Linked(atoms: map<Slot, Atom>, c: seq<Slot>) {
    forall i :: 0 <= i < |c| ==> LinkedAt(atoms, c, i)
  }

  ghost predicate LinkedAt(atoms: map<Slot, Atom>, c: seq<Slot>, i: int)
    requires 0 <= i < |c|
  {
    c[i] in atoms && atoms[c[i]].prev == if i + 1 < |c| then Some(c[i + 1]) else None
  }

  ghost predicate PagesOk(h: Heap) {
    forall p :: 0 <= p < |h.pages| ==> |h.pages[p]| == NR_ATOM_PER_PAGE
  }

  /** Every listed atom is listed once and heads a chain; nothing else does. */
  ghost predicate ListsOk(lists: map<Key, seq<Slot>>, home: map<Slot, Key>) {
    && (forall k, s :: s in ListOf(lists, k) <==> s in home && home[s] == k)
    && (forall k :: Distinct(ListOf(lists, k)))
  }

  /** Chains are linked, without repetition, and share no slot. */
  ghost predicate ChainsOk(h: Heap, o: Owners) {
    && (forall s :: s in o.chains ==> Chain(h.atoms, s, o.chains[s]))
    && (forall s, t, x :: s in o.chains && t in o.chains && x in o.chains[s] && x in o.chains[t] ==> s == t)
    && (forall s, x :: s in o.chains && x in o.chains[s] ==> x !in o.loose)
  }

  ghost predicate Chain(atoms: map<Slot, Atom>, s: Slot, c: seq<Slot>) {
    c != [] && c[0] == s && Linked(atoms, c) && Distinct(c)
  }

  ghost predicate Hangs(o: Owners, x: Slot) {
    exists s :: s in o.chains && x in o.chains[s]
  }

  /** A bit is set exactly for the slots of chains and the loose ones. */
  ghost predicate BitsOk(h: Heap, o: Owners) {
    forall x :: Used(h.pages, x) <==> x in o.loose || Hangs(o, x)
  }

  ghost predicate Valid(h: Heap, o: Owners) {
    PagesOk(h) && o.home.Keys == o.chains.Keys && ListsOk(h.lists, o.home) && ChainsOk(h, o) && BitsOk(h, o)
  }

  // ----- the changes a handler is made of

  lemma {:induction false} SetBitIs(pages: Pages, s: Slot, b: bool, x: Slot)
    requires InPages(pages, s)
    ensures Used(SetBit(pages, s, b), x) <==> if x == s then b else Used(pages, x)
  {
  }

  function Taken(h: Heap, pages: Pages, s: Slot, time: nat): Heap
    requires InPages(pages, s)
  {
    h.(pages := SetBit(pages, s, true), atoms := h.atoms[s := Atom(time, None)])
  }

  /** Taking a free slot, on the old pages or with a new one added. */
  lemma {:induction false} TakeValid(h: Heap, o: Owners, pages: Pages, s: Slot, time: nat)
    requires Valid(h, o) && InPages(pages, s) && !Used(h.pages, s)
    requires (forall p :: 0 <= p < |pages| ==> |pages[p]| == NR_ATOM_PER_PAGE)
    requires forall x :: Used(pages, x) <==> Used(h.pages, x)
    ensures s !in o.loose && !Hangs(o, s)
    ensures Valid(Taken(h, pages, s, time), o.(loose := o.loose + {s}))
  {
    hide Linked, Distinct;
    var h', o' := Taken(h, pages, s, time), o.(loose := o.loose + {s});
    forall t | t in o.chains
      ensures Chain(h'.atoms, t, o.chains[t])
    {
      assert !Hangs(o, s);
      Relinked(h.atoms, s, Atom(time, None), o.chains[t]);
    }
    forall x
      ensures Used(h'.pages, x) <==> x in o'.loose || Hangs(o', x)
    {
      SetBitIs(pages, s, true, x);
      assert Hangs(o', x) <==> Hangs(o, x);
    }
  }

  /** An unlisted chain: linked, without repetition, and loose. */
  ghost predicate Free(h: Heap, o: Owners, c: seq<Slot>) {
    Linked(h.atoms, c) && Distinct(c) && forall x :: x in c ==> x in o.loose
  }

  function Head(c: seq<Slot>): Maybe<Slot> {
    if c == [] then None else Some(c[0])
  }

  function Listed(h: Heap, k: Key, s: Slot, prev: Maybe<Slot>): Heap
    requires s in h.atoms
  {
    h.(atoms := h.atoms[s := h.atoms[s].(prev := prev)], lists := h.lists[k := ListOf(h.lists, k) + [s]])
  }

  ghost function ListedOwners(o: Owners, k: Key, s: Slot, c: seq<Slot>): Owners {
    Owners(o.chains[s := [s] + c], o.home[s := k], o.loose - (set x | x in [s] + c))
  }

  /** Listing a loose atom with a loose chain behind it. */
  lemma {:induction false} ListValid(h: Heap, o: Owners, k: Key, s: Slot, c: seq<Slot>)
    requires Valid(h, o) && s in o.loose && s in h.atoms && Free(h, o, c) && s !in c
    ensures Valid(Listed(h, k, s, Head(c)), ListedOwners(o, k, s, c))
  {
    hide ListsOk, ChainsOk, BitsOk, Free;
    LooseNotListed(h, o, s);
    ListLists(h.lists, o.home, k, s);
    ListChains(h, o, k, s, c);
    ListBits(h, o, k, s, c);
  }

  lemma {:induction false} LooseNotListed(h: Heap, o: Owners, s: Slot)
    requires ChainsOk(h, o) && s in o.loose
    ensures s !in o.chains
  {
  }

  lemma {:induction false} ListLists(lists: map<Key, seq<Slot>>, home: map<Slot, Key>, k: Key, s: Slot)
    requires ListsOk(lists, home) && s !in home
    ensures ListsOk(lists[k := ListOf(lists, k) + [s]], home[s := k])
  {
    var m, n := lists[k := ListOf(lists, k) + [s]], home[s := k];
    assert s !in ListOf(lists, k);
    DistinctSnoc(ListOf(lists, k), s);
    forall l
      ensures Distinct(ListOf(m, l)) && forall t :: t in ListOf(m, l) <==> t in n && n[t] == l
    {
      assert Distinct(ListOf(lists, l));
      assert s !in ListOf(lists, l);
    }
  }

  lemma {:induction false} DistinctSnoc(c: seq<Slot>, s: Slot)
    requires Distinct(c) && s !in c
    ensures Distinct(c + [s])
  {
  }

  lemma {:induction false} DistinctInit(c: seq<Slot>)
    requires Distinct(c) && c != []
    ensures Distinct(c[..|c| - 1]) && forall x :: x in c[..|c| - 1] <==> x in c && x != c[|c| - 1]
  {
    assert c == c[..|c| - 1] + [c[|c| - 1]];
  }

  lemma {:induction false} Relinked(atoms: map<Slot, Atom>, s: Slot, a: Atom, c: seq<Slot>)
    requires Linked(atoms, c) && s !in c
    ensures Linked(atoms[s := a], c)
  {
    var m := atoms[s := a];
    forall i | 0 <= i < |c|
      ensures LinkedAt(m, c, i)
    {
      assert LinkedAt(atoms, c, i);
    }
  }

  lemma {:induction false} ConsLinked(atoms: map<Slot, Atom>, s: Slot, a: Atom, c: seq<Slot>)
    requires Linked(atoms, c) && Distinct(c) && s !in c && a.prev == Head(c)
    ensures Chain(atoms[s := a], s, [s] + c)
  {
    var d, m := [s] + c, atoms[s := a];
    forall i | 0 <= i < |d|
      ensures LinkedAt(m, d, i)
    {
      if i > 0 {
        assert d[i] == c[i - 1] && c[i - 1] in c;
        assert LinkedAt(atoms, c, i - 1);
      }
    }
  }

  lemma {:induction false} ListChains(h: Heap, o: Owners, k: Key, s: Slot, c: seq<Slot>)
    requires ChainsOk(h, o) && s in o.loose && s in h.atoms && Free(h, o, c) && s !in c
    ensures ChainsOk(Listed(h, k, s, Head(c)), ListedOwners(o, k, s, c))
  {
    hide Linked, Distinct;
    LooseNotListed(h, o, s);
    var h', o' := Listed(h, k, s, Head(c)), ListedOwners(o, k, s, c);
    ConsLinked(h.atoms, s, h'.atoms[s], c);
    forall t | t in o'.chains && t != s
      ensures Chain(h'.atoms, t, o'.chains[t])
    {
      assert s !in o.chains[t];
      Relinked(h.atoms, s, h'.atoms[s], o.chains[t]);
    }
  }

  lemma {:induction false} ListBits(h: Heap, o: Owners, k: Key, s: Slot, c: seq<Slot>)
    requires BitsOk(h, o) && ChainsOk(h, o) && s in o.loose && s in h.atoms && Free(h, o, c) && s !in c
    ensures BitsOk(Listed(h, k, s, Head(c)), ListedOwners(o, k, s, c))
  {
    hide Linked, Distinct;
    LooseNotListed(h, o, s);
    var o' := ListedOwners(o, k, s, c);
    forall x
      ensures x in o.loose || Hangs(o, x) <==> x in o'.loose || Hangs(o', x)
    {
      if x in [s] + c { assert x in o'.chains[s]; }
      if t :| t in o.chains && x in o.chains[t] { assert x in o'.chains[t]; }
      if t :| t in o'.chains && x in o'.chains[t] && t != s { assert x in o.chains[t]; }
    }
  }

  function Unlisted(h: Heap, k: Key): Heap
    requires ListOf(h.lists, k) != []
  {
    h.(lists := h.lists[k := ListOf(h.lists, k)[..|ListOf(h.lists, k)| - 1]])
  }

  function LastOf(h: Heap, k: Key): Slot
    requires ListOf(h.lists, k) != []
  {
    ListOf(h.lists, k)[|ListOf(h.lists, k)| - 1]
  }

  ghost function UnlistedOwners(o: Owners, s: Slot): Owners
    requires s in o.chains
  {
    Owners(o.chains - {s}, o.home - {s}, o.loose + (set x | x in o.chains[s]))
  }

  /** Taking the last atom off a list leaves its chain loose. */
  lemma {:induction false} UnlistValid(h: Heap, o: Owners, k: Key)
    requires Valid(h, o) && ListOf(h.lists, k) != []
    ensures LastOf(h, k) in o.chains && Valid(Unlisted(h, k), UnlistedOwners(o, LastOf(h, k)))
    ensures Free(Unlisted(h, k), UnlistedOwners(o, LastOf(h, k)), o.chains[LastOf(h, k)])
  {
    hide Linked, Distinct;
    var s := LastOf(h, k);
    UnlistLists(h.lists, o.home, k);
    var h', o' := Unlisted(h, k), UnlistedOwners(o, s);
    forall x
      ensures x in o.loose || Hangs(o, x) <==> x in o'.loose || Hangs(o', x)
    {
      if t :| t in o.chains && x in o.chains[t] && t != s { assert x in o'.chains[t]; }
      if t :| t in o'.chains && x in o'.chains[t] { assert x in o.chains[t]; }
    }
  }

  lemma {:induction false} UnlistLists(lists: map<Key, seq<Slot>>, home: map<Slot, Key>, k: Key)
    requires ListsOk(lists, home) && ListOf(lists, k) != []
    ensures var l := ListOf(lists, k); var s := l[|l| - 1];
      s in home && home[s] == k && ListsOk(lists[k := l[..|l| - 1]], home - {s})
  {
    var l := ListOf(lists, k);
    var s := l[|l| - 1];
    assert s in l;
    DistinctInit(l);
    var m, n := lists[k := l[..|l| - 1]], home - {s};
    forall j
      ensures Distinct(ListOf(m, j)) && forall t :: t in ListOf(m, j) <==> t in n && n[t] == j
    {
      assert Distinct(ListOf(lists, j));
    }
  }

  // ----- freeing

  ghost function Cleared(pages: Pages, c: seq<Slot>): (r: Pages)
    requires forall x :: x in c ==> InPages(pages, x)
    ensures |r| == |pages| && forall p :: 0 <= p < |r| ==> |r[p]| == |pages[p]|
    decreases |c|
  {
    if c == [] then pages
    else
      var r := Cleared(pages, c[1..]);
      assert c[0] in c && InPages(pages, c[0]);
      assert |r| == |pages| && |r[c[0].page]| == |pages[c[0].page]|;
      SetBit(r, c[0], false)
  }

  lemma {:induction false} ClearedIs(pages: Pages, c: seq<Slot>, x: Slot)
    requires forall y :: y in c ==> InPages(pages, y)
    ensures Used(Cleared(pages, c), x) <==> Used(pages, x) && x !in c
    decreases |c|
  {
    if c != [] {
      assert c[0] in c;
      ClearedIs(pages, c[1..], x);
      SetBitIs(Cleared(pages, c[1..]), c[0], false, x);
    }
  }

  ghost function FreedOwners(o: Owners, c: seq<Slot>): Owners {
    o.(loose := o.loose - (set x | x in c))
  }

  lemma {:induction false} FreeInPages(h: Heap, o: Owners, c: seq<Slot>)
    requires BitsOk(h, o) && Free(h, o, c)
    ensures forall x :: x in c ==> InPages(h.pages, x)
  {
    forall x | x in c
      ensures InPages(h.pages, x)
    {
      assert Used(h.pages, x);
    }
  }

  /** Clearing the bits of a loose chain, and no others. */
  lemma {:induction false} FreeValid(h: Heap, o: Owners, c: seq<Slot>)
    requires Valid(h, o) && Free(h, o, c) && forall x :: x in c ==> InPages(h.pages, x)
    ensures Valid(h.(pages := Cleared(h.pages, c)), FreedOwners(o, c))
  {
    hide Linked, Distinct, Cleared;
    var h', o' := h.(pages := Cleared(h.pages, c)), FreedOwners(o, c);
    forall x
      ensures Used(h'.pages, x) <==> x in o'.loose || Hangs(o', x)
    {
      ClearedIs(h.pages, c, x);
      assert Hangs(o', x) <==> Hangs(o, x);
    }
    FreePages(h, c);
  }

  lemma {:induction false} FreePages(h: Heap, c: seq<Slot>)
    requires PagesOk(h) && forall x :: x in c ==> InPages(h.pages, x)
    ensures PagesOk(h.(pages := Cleared(h.pages, c)))
  {
  }
}
