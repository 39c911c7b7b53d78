/** `find_bit.c` and `bitmap.c`: bitmaps stored in words of 64 bits, against the set of bits they stand for. */
module Bitmaps {
  import opened Hweight

  const BITS_PER_LONG := 64

  /** An `unsigned long` by its bits, the lowest first. */
  type Word = w: seq<bool> | |w| == BITS_PER_LONG witness seq(BITS_PER_LONG, _ => false)

  function Zero(): Word {
    seq(BITS_PER_LONG, _ => false)
  }

  function And(x: Word, y: Word): Word {
    seq(BITS_PER_LONG, i requires 0 <= i < BITS_PER_LONG => x[i] && y[i])
  }

  function Or(x: Word, y: Word): Word {
    seq(BITS_PER_LONG, i requires 0 <= i < BITS_PER_LONG => x[i] || y[i])
  }

  function Xor(x: Word, y: Word): Word {
    seq(BITS_PER_LONG, i requires 0 <= i < BITS_PER_LONG => x[i] != y[i])
  }

  function Not(x: Word): Word {
    seq(BITS_PER_LONG, i requires 0 <= i < BITS_PER_LONG => !x[i])
  }

  /** `BITMAP_FIRST_WORD_MASK`: from the bit of `start` on. */
  function FirstWordMask(start: nat): Word {
    seq(BITS_PER_LONG, i => i >= start % BITS_PER_LONG)
  }

  /** `BITMAP_LAST_WORD_MASK`: up to the last of `bits` bits. */
  function LastWordMask(bits: nat): Word {
    seq(BITS_PER_LONG, i => bits % BITS_PER_LONG == 0 || i < bits % BITS_PER_LONG)
  }

  /** `__ffs`, the lowest set bit. */
  method Ffs(w: Word) returns (i: nat)
    requires w != Zero()
    ensures i < BITS_PER_LONG && w[i] && forall j :: 0 <= j < i ==> !w[j]
  {
    ghost var k := SetBit(w);
    i := 0;
    while !w[i]
      invariant i <= k && forall j :: 0 <= j < i ==> !w[j]
      decreases BITS_PER_LONG - i
    {
      i := i + 1;
    }
  }

  lemma {:induction false} SetBit(w: Word) returns (k: nat)
    requires w != Zero()
    ensures k < BITS_PER_LONG && w[k]
  {
    k :| 0 <= k < BITS_PER_LONG && w[k] != Zero()[k];
  }

  /** Bit `i` of a bitmap given word by word. */
  predicate Bit(fetch: nat -> Word, i: nat) {
    fetch(i / BITS_PER_LONG)[i % BITS_PER_LONG]
  }

  /** The least set bit from `start` on, or the size. */
  ghost predicate IsNext(fetch: nat -> Word, size: nat, start: nat, r: nat) {
    && r <= size && (r < size ==> start <= r && Bit(fetch, r))
    && forall i :: start <= i < r ==> !Bit(fetch, i)
  }

  lemma {:induction false} Split(idx: nat, j: nat)
    requires j < BITS_PER_LONG
    ensures (idx * BITS_PER_LONG + j) / BITS_PER_LONG == idx && (idx * BITS_PER_LONG + j) % BITS_PER_LONG == j
  {
  }

  /** A word without the bits below `lo` in it says nothing is set from there to its end. */
  lemma {:induction false} EmptyWord(fetch: nat -> Word, idx: nat, lo: nat)
    requires forall j :: lo % BITS_PER_LONG <= j < BITS_PER_LONG ==> !fetch(idx)[j]
    requires lo / BITS_PER_LONG == idx
    ensures forall i :: lo <= i < (idx + 1) * BITS_PER_LONG ==> !Bit(fetch, i)
  {
    forall i | lo <= i < (idx + 1) * BITS_PER_LONG
      ensures !Bit(fetch, i)
    {
      assert i / BITS_PER_LONG == idx && i % BITS_PER_LONG >= lo % BITS_PER_LONG;
    }
  }

  lemma {:induction false} FoundInWord(fetch: nat -> Word, idx: nat, lo: nat, k: nat, size: nat)
    requires lo / BITS_PER_LONG == idx && lo < size && lo % BITS_PER_LONG <= k < BITS_PER_LONG && fetch(idx)[k]
    requires forall j :: lo % BITS_PER_LONG <= j < k ==> !fetch(idx)[j]
    ensures var r := idx * BITS_PER_LONG + k; IsNext(fetch, size, lo, if r < size then r else size)
  {
    var r := idx * BITS_PER_LONG + k;
    Split(idx, k);
    forall i | lo <= i < r
      ensures !Bit(fetch, i)
    {
      assert i / BITS_PER_LONG == idx && lo % BITS_PER_LONG <= i % BITS_PER_LONG < k;
    }
  }

  lemma {:induction false} NextFrom(fetch: nat -> Word, size: nat, lo: nat, mid: nat, r: nat)
    requires lo <= mid && IsNext(fetch, size, mid, r) && forall i :: lo <= i < mid ==> !Bit(fetch, i)
    ensures IsNext(fetch, size, lo, r)
  {
  }

  /** `FIND_FIRST_BIT`. */
  method FindFirst(fetch: nat -> Word, size: nat) returns (r: nat)
    ensures IsNext(fetch, size, 0, r)
  {
    var idx := 0;
    while idx * BITS_PER_LONG < size
      invariant forall i :: 0 <= i < idx * BITS_PER_LONG ==> !Bit(fetch, i)
      decreases size - idx * BITS_PER_LONG
    {
      var val := fetch(idx);
      ghost var lo := idx * BITS_PER_LONG;
      Split(idx, 0);
      if val != Zero() {
        var k := Ffs(val);
        FoundInWord(fetch, idx, lo, k, size);
        r := if idx * BITS_PER_LONG + k < size then idx * BITS_PER_LONG + k else size;
        NextFrom(fetch, size, 0, lo, r);
        return;
      }
      EmptyWord(fetch, idx, lo);
      idx := idx + 1;
    }
    r := size;
  }

  /** `FIND_NEXT_BIT`. */
  method FindNext(fetch: nat -> Word, size: nat, start: nat) returns (r: nat)
    ensures start < size ==> IsNext(fetch, size, start, r)
    ensures start >= size ==> r == size
  {
    if start >= size {
      return size;
    }
    var mask := FirstWordMask(start);
    var idx := start / BITS_PER_LONG;
    var tmp := And(fetch(idx), mask);
    ghost var lo: nat := start;
    while tmp == Zero()
      invariant start <= lo < size && lo / BITS_PER_LONG == idx && forall i :: start <= i < lo ==> !Bit(fetch, i)
      invariant forall j :: 0 <= j < BITS_PER_LONG ==> tmp[j] == (fetch(idx)[j] && j >= lo % BITS_PER_LONG)
      decreases size - idx * BITS_PER_LONG
    {
      assert forall j :: 0 <= j < BITS_PER_LONG ==> !tmp[j];
      EmptyWord(fetch, idx, lo);
      if (idx + 1) * BITS_PER_LONG >= size {
        return size;
      }
      idx := idx + 1;
      lo := idx * BITS_PER_LONG;
      Split(idx, 0);
      tmp := fetch(idx);
    }
    var k := Ffs(tmp);
    FoundInWord(fetch, idx, lo, k, size);
    r := if idx * BITS_PER_LONG + k < size then idx * BITS_PER_LONG + k else size;
    NextFrom(fetch, size, start, lo, r);
  }

  // ----- whole bitmaps

  type Bitmap = seq<Word>

  /** The words of a bitmap, and zeros beyond. */
  function WordAt(b: Bitmap, i: nat): Word {
    if i < |b| then b[i] else Zero()
  }

  function Words(b: Bitmap): nat -> Word {
    (i: nat) => WordAt(b, i)
  }

  predicate Test(b: Bitmap, i: nat) {
    Bit(Words(b), i)
  }

  /** `find_first_bit` and `find_next_bit`. */
  method FindFirstBit(b: Bitmap, size: nat) returns (r: nat)
    requires size <= |b| * BITS_PER_LONG
    ensures IsNext(Words(b), size, 0, r)
  {
    r := FindFirst(Words(b), size);
  }

  method FindNextBit(b: Bitmap, size: nat, start: nat) returns (r: nat)
    requires size <= |b| * BITS_PER_LONG
    ensures start < size ==> IsNext(Words(b), size, start, r)
    ensures start >= size ==> r == size
  {
    r := FindNext(Words(b), size, start);
  }

  /** `find_next_and_bit`: the next common bit. */
  method FindNextAndBit(b: Bitmap, c: Bitmap, size: nat, start: nat) returns (r: nat)
    requires size <= |b| * BITS_PER_LONG && size <= |c| * BITS_PER_LONG
    ensures r <= size && (r < size ==> start <= r && Test(b, r) && Test(c, r))
    ensures forall i :: start <= i < r ==> !(Test(b, i) && Test(c, i))
  {
    var both := (i: nat) => And(Words(b)(i), Words(c)(i));
    r := FindNext(both, size, start);
    assert forall i: nat :: Bit(both, i) <==> Test(b, i) && Test(c, i);
  }

  /** `find_next_zero_bit`: the next clear bit. */
  method FindNextZeroBit(b: Bitmap, size: nat, start: nat) returns (r: nat)
    requires size <= |b| * BITS_PER_LONG
    ensures r <= size && (r < size ==> start <= r && !Test(b, r))
    ensures forall i :: start <= i < r ==> Test(b, i)
  {
    var inverse := (i: nat) => Not(Words(b)(i));
    r := FindNext(inverse, size, start);
    assert forall i: nat :: Bit(inverse, i) <==> !Test(b, i);
  }

  /** The set bits among the first `n`. */
  ghost function Elements(b: Bitmap, n: nat): set<nat> {
    set i: nat | i < n && Test(b, i)
  }

  lemma {:induction false} WeightSnoc(s: seq<bool>, b: bool)
    ensures Weight(s + [b]) == Weight(s) + if b then 1 else 0
    decreases |s|
  {
    if s == [] {
      assert [b][1..] == [];
    } else {
      assert (s + [b])[1..] == s[1..] + [b];
      WeightSnoc(s[1..], b);
    }
  }

  lemma {:induction false} WeightWord(b: Bitmap, k: nat, w: Word, n: nat)
    requires n <= BITS_PER_LONG && w == WordAt(b, k)
    ensures |Elements(b, k * BITS_PER_LONG + n)| == |Elements(b, k * BITS_PER_LONG)| + Weight(w[..n])
    decreases n
  {
    if n > 0 {
      hide Test;
      WeightWord(b, k, w, n - 1);
      ElementsStep(b, k, n - 1);
      assert w[..n] == w[..n - 1] + [w[n - 1]];
      WeightSnoc(w[..n - 1], w[n - 1]);
    } else {
      assert w[..0] == [];
    }
  }

  lemma {:induction false} ElementsStep(b: Bitmap, k: nat, j: nat)
    requires j < BITS_PER_LONG
    ensures |Elements(b, k * BITS_PER_LONG + j + 1)| ==
      |Elements(b, k * BITS_PER_LONG + j)| + if WordAt(b, k)[j] then 1 else 0
  {
    Split(k, j);
    ElementsNext(b, k * BITS_PER_LONG + j);
  }

  lemma {:induction false} ElementsNext(b: Bitmap, i: nat)
    ensures |Elements(b, i + 1)| == |Elements(b, i)| + if Test(b, i) then 1 else 0
  {
    hide Test;
    if Test(b, i) {
      assert Elements(b, i + 1) == Elements(b, i) + {i};
    } else {
      assert Elements(b, i + 1) == Elements(b, i);
    }
  }

  lemma {:induction false} WeightMasked(w: seq<bool>, m: seq<bool>, n: nat)
    requires n <= |w| == |m| && forall j :: 0 <= j < |w| ==> (m[j] <==> w[j] && j < n)
    ensures Weight(m) == Weight(w[..n])
    decreases |w| - n
  {
    if n == |w| {
      assert m == w[..n];
    } else {
      var w', m' := w[..|w| - 1], m[..|m| - 1];
      assert m == m' + [false] && w'[..n] == w[..n];
      WeightSnoc(m', false);
      WeightMasked(w', m', n);
    }
  }

  /** `hweight_long`. */
  function HweightLong(v: bv64): nat {
    Nat(SwHweight64(v))
  }

  /** The bitmap that words of memory stand for. */
  function Unpacked(words: seq<bv64>): Bitmap {
    seq(|words|, k requires 0 <= k < |words| => BitsOf(words[k], BITS_PER_LONG))
  }

  lemma {:induction false} HweightLongIs(v: bv64)
    ensures HweightLong(v) == Weight(BitsOf(v, BITS_PER_LONG))
  {
    SwHweight64Counts(v);
    WeightIsOnes(v, BITS_PER_LONG);
  }

  /** `BITMAP_LAST_WORD_MASK`, all ones shifted down by what the last word leaves over. */
  function LastWordBits(bits: nat): bv64 {
    OnesFrom((BITS_PER_LONG - bits % BITS_PER_LONG) % BITS_PER_LONG)
  }

  lemma {:induction false} LastWeight(v: bv64, bits: nat)
    requires bits % BITS_PER_LONG != 0
    ensures HweightLong(Both(v, LastWordBits(bits))) == Weight(BitsOf(v, BITS_PER_LONG)[..bits % BITS_PER_LONG])
  {
    hide Both, OnesFrom, BitsOf, HweightLong, Weight;
    var m, k := Both(v, LastWordBits(bits)), BITS_PER_LONG - bits % BITS_PER_LONG;
    HweightLongIs(m);
    forall j | 0 <= j < BITS_PER_LONG
      ensures BitsOf(m, BITS_PER_LONG)[j] <==> BitsOf(v, BITS_PER_LONG)[j] && j < bits % BITS_PER_LONG
    {
      MaskedBits(v, k, BITS_PER_LONG, j);
    }
    WeightMasked(BitsOf(v, BITS_PER_LONG), BitsOf(m, BITS_PER_LONG), bits % BITS_PER_LONG);
  }

  /** `__bitmap_weight`: the number of set bits, word by word. */
  method BitmapWeight(bitmap: seq<bv64>, bits: nat) returns (w: nat)
    requires bits <= |bitmap| * BITS_PER_LONG
    ensures w == |Elements(Unpacked(bitmap), bits)|
  {
    hide BitsOf, HweightLong, Weight, Elements;
    ghost var b := Unpacked(bitmap);
    var k, lim := 0, bits / BITS_PER_LONG;
    w := 0;
    NoElements(b);
    while k < lim
      invariant k <= lim && w == |Elements(b, k * BITS_PER_LONG)|
    {
      WeightWord(b, k, b[k], BITS_PER_LONG);
      assert b[k][..BITS_PER_LONG] == b[k];
      HweightLongIs(bitmap[k]);
      w := w + HweightLong(bitmap[k]);
      k := k + 1;
    }
    if bits % BITS_PER_LONG != 0 {
      WeightWord(b, k, b[k], bits % BITS_PER_LONG);
      LastWeight(bitmap[k], bits);
      w := w + HweightLong(Both(bitmap[k], LastWordBits(bits)));
    }
  }

  lemma {:induction false} NoElements(b: Bitmap)
    ensures Elements(b, 0) == {}
  {
  }

  // ----- set operations

  ghost predicate Any(fetch: nat -> Word, n: nat) {
    exists i: nat :: i < n && Bit(fetch, i)
  }

  ghost predicate AnyIn(w: Word, n: nat)
    requires n <= BITS_PER_LONG
  {
    exists j :: 0 <= j < n && w[j]
  }

  lemma {:induction false} AnyWord(fetch: nat -> Word, k: nat, n: nat)
    requires n <= BITS_PER_LONG
    ensures Any(fetch, k * BITS_PER_LONG + n) <==> Any(fetch, k * BITS_PER_LONG) || AnyIn(fetch(k), n)
  {
    var lo := k * BITS_PER_LONG;
    if Any(fetch, lo + n) {
      var i: nat :| i < lo + n && Bit(fetch, i);
      if i >= lo {
        assert i / BITS_PER_LONG == k && 0 <= i % BITS_PER_LONG < n;
      }
    }
    if AnyIn(fetch(k), n) {
      var j :| 0 <= j < n && fetch(k)[j];
      Split(k, j);
      assert Bit(fetch, lo + j);
    }
  }

  lemma {:induction false} NonZero(w: Word)
    ensures w != Zero() <==> AnyIn(w, BITS_PER_LONG)
  {
    if w != Zero() {
      var k := SetBit(w);
    }
  }

  lemma {:induction false} Masked(w: Word, bits: nat)
    requires bits % BITS_PER_LONG != 0
    ensures And(w, LastWordMask(bits)) != Zero() <==> AnyIn(w, bits % BITS_PER_LONG)
  {
    NonZero(And(w, LastWordMask(bits)));
    if AnyIn(w, bits % BITS_PER_LONG) {
      var j :| 0 <= j < bits % BITS_PER_LONG && w[j];
      assert And(w, LastWordMask(bits))[j];
    }
  }

  function Common(b: Bitmap, c: Bitmap): nat -> Word {
    (i: nat) => And(WordAt(b, i), WordAt(c, i))
  }

  function Different(b: Bitmap, c: Bitmap): nat -> Word {
    (i: nat) => Xor(WordAt(b, i), WordAt(c, i))
  }

  /** `__bitmap_intersects`. */
  method BitmapIntersects(b: Bitmap, c: Bitmap, bits: nat) returns (any: bool)
    requires bits <= |b| * BITS_PER_LONG && bits <= |c| * BITS_PER_LONG
    ensures any <==> exists i: nat :: i < bits && Test(b, i) && Test(c, i)
  {
    ghost var both := Common(b, c);
    CommonIs(b, c, bits);
    var k, lim := 0, bits / BITS_PER_LONG;
    while k < lim
      invariant k <= lim && !Any(both, k * BITS_PER_LONG)
    {
      AnyWord(both, k, BITS_PER_LONG);
      NonZero(both(k));
      if And(b[k], c[k]) != Zero() {
        AnyMore(both, (k + 1) * BITS_PER_LONG, bits);
        return true;
      }
      k := k + 1;
    }
    AnyWord(both, k, bits % BITS_PER_LONG);
    if bits % BITS_PER_LONG != 0 {
      Masked(both(k), bits);
      if And(And(b[k], c[k]), LastWordMask(bits)) != Zero() {
        return true;
      }
    }
    return false;
  }

  lemma {:induction false} NoneYet(fetch: nat -> Word)
    ensures !Any(fetch, 0) && !AnyIn(fetch(0), 0)
  {
  }

  lemma {:induction false} AnyMore(fetch: nat -> Word, m: nat, n: nat)
    requires Any(fetch, m) && m <= n
    ensures Any(fetch, n)
  {
  }

  lemma {:induction false} CommonBit(b: Bitmap, c: Bitmap, i: nat)
    ensures Bit(Common(b, c), i) <==> Test(b, i) && Test(c, i)
    ensures Bit(Different(b, c), i) <==> Test(b, i) != Test(c, i)
  {
  }

  lemma {:induction false} CommonIs(b: Bitmap, c: Bitmap, n: nat)
    ensures Any(Common(b, c), n) <==> exists i: nat :: i < n && Test(b, i) && Test(c, i)
  {
    hide Bit, Test;
    forall i: nat
      ensures Bit(Common(b, c), i) <==> Test(b, i) && Test(c, i)
    {
      CommonBit(b, c, i);
    }
    if Any(Common(b, c), n) {
      var i: nat :| i < n && Bit(Common(b, c), i);
      assert Test(b, i) && Test(c, i);
    }
    if i: nat :| i < n && Test(b, i) && Test(c, i) {
      assert Bit(Common(b, c), i);
    }
  }

  lemma {:induction false} DifferentIs(b: Bitmap, c: Bitmap, n: nat)
    ensures !Any(Different(b, c), n) <==> forall i: nat :: i < n ==> Test(b, i) == Test(c, i)
  {
    hide Bit, Test;
    if !Any(Different(b, c), n) {
      forall i: nat | i < n
        ensures Test(b, i) == Test(c, i)
      {
        CommonBit(b, c, i);
      }
    } else {
      var i: nat :| i < n && Bit(Different(b, c), i);
      CommonBit(b, c, i);
    }
  }

  /** `__bitmap_equal`. */
  method BitmapEqual(b: Bitmap, c: Bitmap, bits: nat) returns (same: bool)
    requires bits <= |b| * BITS_PER_LONG && bits <= |c| * BITS_PER_LONG
    ensures same <==> forall i: nat :: i < bits ==> Test(b, i) == Test(c, i)
  {
    ghost var diff := Different(b, c);
    DifferentIs(b, c, bits);
    var k, lim := 0, bits / BITS_PER_LONG;
    while k < lim
      invariant k <= lim && !Any(diff, k * BITS_PER_LONG)
    {
      AnyWord(diff, k, BITS_PER_LONG);
      XorZero(b[k], c[k]);
      if b[k] != c[k] {
        AnyMore(diff, (k + 1) * BITS_PER_LONG, bits);
        return false;
      }
      k := k + 1;
    }
    AnyWord(diff, k, bits % BITS_PER_LONG);
    if bits % BITS_PER_LONG != 0 {
      Masked(diff(k), bits);
      if And(Xor(b[k], c[k]), LastWordMask(bits)) != Zero() {
        return false;
      }
    }
    return true;
  }

  lemma {:induction false} XorZero(x: Word, y: Word)
    ensures x != y <==> AnyIn(Xor(x, y), BITS_PER_LONG)
  {
    if x != y {
      var k :| 0 <= k < BITS_PER_LONG && x[k] != y[k];
      assert Xor(x, y)[k];
    }
  }

  /** `__bitmap_or`, which writes whole words. */
  method BitmapOr(dst: array<Word>, b: Bitmap, c: Bitmap, bits: nat)
    requires bits <= |b| * BITS_PER_LONG && bits <= |c| * BITS_PER_LONG && bits <= dst.Length * BITS_PER_LONG
    modifies dst
    ensures forall i: nat :: i < bits ==> (Test(dst[..], i) <==> Test(b, i) || Test(c, i))
  {
    var nr := (bits + BITS_PER_LONG - 1) / BITS_PER_LONG;
    for k := 0 to nr
      invariant forall j :: 0 <= j < k ==> dst[j] == Or(b[j], c[j])
    {
      dst[k] := Or(b[k], c[k]);
    }
    forall i: nat | i < bits
      ensures Test(dst[..], i) <==> Test(b, i) || Test(c, i)
    {
      assert dst[..][i / BITS_PER_LONG] == Or(b[i / BITS_PER_LONG], c[i / BITS_PER_LONG]);
    }
  }

  /** `__bitmap_and`: the intersection, and whether there is any. */
  method BitmapAnd(dst: array<Word>, b: Bitmap, c: Bitmap, bits: nat) returns (any: bool)
    requires bits <= |b| * BITS_PER_LONG && bits <= |c| * BITS_PER_LONG && bits <= dst.Length * BITS_PER_LONG
    modifies dst
    ensures forall i: nat :: i < bits ==> (Test(dst[..], i) <==> Test(b, i) && Test(c, i))
    ensures any <==> exists i: nat :: i < bits && Test(b, i) && Test(c, i)
  {
    hide Any, AnyIn;
    ghost var both := Common(b, c);
    NoneYet(both);
    CommonIs(b, c, bits);
    var k, lim := 0, bits / BITS_PER_LONG;
    any := false;
    while k < lim
      invariant k <= lim && forall j :: 0 <= j < k ==> dst[j] == And(b[j], c[j])
      invariant any <==> Any(both, k * BITS_PER_LONG)
    {
      AnyWord(both, k, BITS_PER_LONG);
      NonZero(both(k));
      dst[k] := And(b[k], c[k]);
      any := any || dst[k] != Zero();
      k := k + 1;
    }
    AnyWord(both, k, bits % BITS_PER_LONG);
    if bits % BITS_PER_LONG != 0 {
      Masked(both(k), bits);
      dst[k] := And(And(b[k], c[k]), LastWordMask(bits));
      any := any || dst[k] != Zero();
    }
    forall i: nat | i < bits
      ensures Test(dst[..], i) <==> Test(b, i) && Test(c, i)
    {
      assert dst[..][i / BITS_PER_LONG] == dst[i / BITS_PER_LONG];
    }
  }

  // ----- ranges

  datatype Range = Range(bot: nat, top: nat)

  predicate InRange(r: Range, i: nat) {
    r.bot <= i <= r.top
  }

  ghost predicate Covered(rs: seq<Range>, i: nat) {
    exists k :: 0 <= k < |rs| && InRange(rs[k], i)
  }

  /** Ascending, and with a clear bit between any two: disjoint and maximal. */
  ghost predicate Apart(rs: seq<Range>) {
    && (forall k :: 0 <= k < |rs| ==> rs[k].bot <= rs[k].top)
    && (forall k :: 0 <= k < |rs| - 1 ==> rs[k].top + 1 < rs[k + 1].bot)
  }

  /** `bitmap_scnprintf`, given a buffer that is large enough: the ranges it prints. */
  method BitmapRanges(b: Bitmap, nbits: nat) returns (rs: seq<Range>)
    requires nbits <= |b| * BITS_PER_LONG
    ensures Apart(rs) && forall i: nat :: Covered(rs, i) <==> i < nbits && Test(b, i)
  {
    hide Bit, Covered;
    rs := [];
    NothingCovered();
    var cur: nat := FindFirstBit(b, nbits);
    var rbot: nat := cur;
    while cur < nbits
      invariant rbot <= cur <= nbits && Apart(rs)
      invariant cur < nbits ==> Test(b, cur)
      invariant forall i: nat :: rbot <= i < cur ==> Test(b, i)
      invariant cur == nbits ==> rbot == nbits
      invariant cur < nbits && rs != [] ==> rs[|rs| - 1].top + 1 < rbot
      invariant forall i: nat :: i < rbot ==> (Covered(rs, i) <==> Test(b, i))
      invariant forall i: nat :: i >= rbot ==> !Covered(rs, i)
      decreases nbits - cur
    {
      var rtop: nat := cur;
      cur := FindNextBit(b, nbits, cur + 1);
      if cur < nbits && cur <= rtop + 1 {
        continue;
      }
      CoveredNext(rs, Range(rbot, rtop));
      rs := rs + [Range(rbot, rtop)];
      rbot := cur;
    }
  }

  lemma {:induction false} NothingCovered()
    ensures forall i: nat :: !Covered([], i)
  {
  }

  lemma {:induction false} CoveredNext(rs: seq<Range>, r: Range)
    ensures forall i: nat :: Covered(rs + [r], i) <==> Covered(rs, i) || InRange(r, i)
  {
    var t := rs + [r];
    forall i: nat
      ensures Covered(t, i) <==> Covered(rs, i) || InRange(r, i)
    {
      if Covered(rs, i) {
        var k :| 0 <= k < |rs| && InRange(rs[k], i);
        assert InRange(t[k], i);
      }
      if InRange(r, i) {
        assert InRange(t[|rs|], i);
      }
      if Covered(t, i) {
        var k :| 0 <= k < |t| && InRange(t[k], i);
        if k < |rs| { assert InRange(rs[k], i); }
      }
    }
  }
}
