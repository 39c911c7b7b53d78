/**
 * The sizes of the pending sublists of `list_sort`, as a function of `count`
 * alone, and what one round of the loop does to them.
 */
module ListSortSizes {
  import opened Common

  function Repeat(x: nat, times: nat): (s: seq<nat>)
    ensures |s| == times && forall i :: 0 <= i < times ==> s[i] == x
  {
    if times == 0 then [] else [x] + Repeat(x, times - 1)
  }

  /**
   * Sizes from 2^k upwards when the bits of `count` from bit k on are `n` and
   * bit k-1 is `carry`: 1 - bit k + bit (k-1) sublists of size 2^k each.
   */
  function Sizes(n: nat, k: nat, carry: nat): seq<nat>
    requires carry <= 1
  {
    if n == 0 then [] else Repeat(Pow2(k), 1 - n % 2 + carry) + Sizes(n / 2, k + 1, n % 2)
  }

  /** The sizes of the pending sublists, newest first, when `count` elements are pending. */
  function Pending(count: nat): seq<nat> {
    Sizes(count, 0, 1)
  }

  /** The number of trailing one bits: how far the loop follows `prev` links. */
  function Ones(n: nat): nat {
    if n % 2 == 1 then 1 + Ones(n / 2) else 0
  }

  /** What is left of `count` after shifting those bits out. */
  function Rest(n: nat): nat {
    if n % 2 == 1 then Rest(n / 2) else n
  }

  lemma {:induction false} CarryAddsOne(n: nat, k: nat)
    requires n > 0
    ensures Sizes(n, k, 1) == [Pow2(k)] + Sizes(n, k, 0)
  {
    var m := 1 - n % 2;
    assert Repeat(Pow2(k), m + 1) == [Pow2(k)] + Repeat(Pow2(k), m);
  }

  /** `s` with the entries at `j` and `j + 1` added together. */
  function MergeAt(s: seq<nat>, j: nat): seq<nat>
    requires j + 1 < |s|
  {
    s[..j] + [s[j] + s[j + 1]] + s[j + 2..]
  }

  lemma {:induction false} MergeAtCons(x: nat, s: seq<nat>, j: nat)
    requires j + 1 < |s|
    ensures MergeAt([x] + s, j + 1) == [x] + MergeAt(s, j)
  {
    assert ([x] + s)[..j + 1] == [x] + s[..j];
    assert ([x] + s)[j + 3..] == s[j + 2..];
  }

  lemma {:induction false} SizesOdd(n: nat, k: nat)
    requires n % 2 == 1
    ensures Sizes(n, k, 1) == [Pow2(k)] + Sizes(n / 2, k + 1, 1)
    ensures Sizes(n + 1, k, 0) == [Pow2(k)] + Sizes(n / 2 + 1, k + 1, 0)
  {
    assert Repeat(Pow2(k), 1) == [Pow2(k)];
    assert (n + 1) / 2 == n / 2 + 1 && (n + 1) % 2 == 0;
  }

  lemma {:induction false} SizesEven(n: nat, k: nat)
    requires n % 2 == 0 && n > 0
    ensures Sizes(n, k, 1) == [Pow2(k), Pow2(k)] + Sizes(n / 2, k + 1, 0)
    ensures Sizes(n + 1, k, 0) == [2 * Pow2(k)] + Sizes(n / 2, k + 1, 0)
  {
    assert Repeat(Pow2(k), 2) == [Pow2(k), Pow2(k)];
    assert (n + 1) / 2 == n / 2;
    assert Sizes(n + 1, k, 0) == Sizes(n / 2, k + 1, 1);
    CarryAddsOne(n / 2, k + 1);
  }

  /** One round: the two sublists after the first Ones(n) have equal size and become one. */
  lemma {:induction false} Round(n: nat, k: nat)
    ensures var s, j := Sizes(n, k, 1), Ones(n);
      && (Rest(n) != 0 ==>
            && j + 1 < |s| && s[j] == s[j + 1] == Pow2(k + j)
            && Sizes(n + 1, k, 0) == MergeAt(s, j))
      && (Rest(n) == 0 ==> |s| == j && Sizes(n + 1, k, 0) == s)
    decreases n
  {
    hide Sizes, MergeAt, Pow2;
    if n == 0 {
      SizesZero(k);
    } else if n % 2 == 1 {
      Round(n / 2, k + 1);
      SizesOdd(n, k);
      if Rest(n) != 0 {
        MergeAtCons(Pow2(k), Sizes(n / 2, k + 1, 1), Ones(n / 2));
      }
    } else {
      SizesEven(n, k);
      MergeAtZero(Pow2(k), Sizes(n / 2, k + 1, 0));
    }
  }

  lemma {:induction false} SizesZero(k: nat)
    ensures Sizes(0, k, 1) == [] && Sizes(1, k, 0) == []
  {
    assert Sizes(1, k, 0) == Repeat(Pow2(k), 0) + Sizes(0, k + 1, 1);
  }

  lemma {:induction false} MergeAtZero(x: nat, s: seq<nat>)
    ensures MergeAt([x, x] + s, 0) == [2 * x] + s
  {
    assert ([x, x] + s)[2..] == s;
  }

  /** The sizes after one round of the loop: the merge chosen by `count`, then a new singleton. */
  lemma {:induction false} NextPending(n: nat)
    ensures var s, j := Pending(n), Ones(n);
      && (Rest(n) != 0 ==> j + 1 < |s| && s[j] == s[j + 1] == Pow2(j) && Pending(n + 1) == [1] + MergeAt(s, j))
      && (Rest(n) == 0 ==> |s| == j && Pending(n + 1) == [1] + s)
  {
    hide Sizes, MergeAt, Pow2;
    Pow2Small();
    Round(n, 0);
    CarryAddsOne(n + 1, 0);
  }

  // ----- how many sublists of each size there are

  /** `n >> k`. */
  function Shift(n: nat, k: nat): nat {
    if k == 0 then n else Shift(n / 2, k - 1)
  }

  lemma {:induction false} Pow2Grows(i: nat, k: nat)
    requires i < k
    ensures Pow2(i) < Pow2(k)
    decreases k
  {
    if i + 1 < k {
      Pow2Grows(i, k - 1);
    }
  }

  lemma {:induction false} RepeatCount(x: nat, times: nat, y: nat)
    ensures multiset(Repeat(x, times))[y] == if x == y then times else 0
    decreases times
  {
    if times > 0 {
      RepeatCount(x, times - 1, y);
      assert multiset(Repeat(x, times)) == multiset{x} + multiset(Repeat(x, times - 1));
    }
  }

  lemma {:induction false} SizesUnfold(n: nat, i: nat, carry: nat, y: nat)
    requires carry <= 1 && n > 0
    ensures multiset(Sizes(n, i, carry))[y] ==
      (if Pow2(i) == y then 1 - n % 2 + carry else 0) + multiset(Sizes(n / 2, i + 1, n % 2))[y]
  {
    var r, t := Repeat(Pow2(i), 1 - n % 2 + carry), Sizes(n / 2, i + 1, n % 2);
    RepeatCount(Pow2(i), 1 - n % 2 + carry, y);
    assert multiset(r + t) == multiset(r) + multiset(t);
  }

  lemma SizesNil(i: nat, carry: nat)
    requires carry <= 1
    ensures Sizes(0, i, carry) == []
  {
  }

  lemma {:induction false} NoSmaller(n: nat, i: nat, carry: nat, k: nat)
    requires carry <= 1 && k < i
    ensures multiset(Sizes(n, i, carry))[Pow2(k)] == 0
    decreases n
  {
    hide Sizes, Pow2;
    if n == 0 {
      SizesNil(i, carry);
    } else {
      SizesUnfold(n, i, carry, Pow2(k));
      Pow2Grows(k, i);
      NoSmaller(n / 2, i + 1, n % 2, k);
    }
  }

  lemma {:induction false} SizesCount(n: nat, i: nat, carry: nat, k: nat)
    requires carry <= 1 && i <= k
    ensures multiset(Sizes(n, i, carry))[Pow2(k)] ==
      if Shift(n, k - i) == 0 then 0
      else 1 - Shift(n, k - i) % 2 + if k == i then carry else Shift(n, k - i - 1) % 2
    decreases k - i
  {
    hide Sizes, Pow2;
    if n == 0 {
      SizesNil(i, carry);
      ShiftZero(k - i);
    } else {
      SizesUnfold(n, i, carry, Pow2(k));
      if k == i {
        NoSmaller(n / 2, i + 1, n % 2, k);
      } else {
        Pow2Grows(i, k);
        SizesCount(n / 2, i + 1, n % 2, k);
      }
    }
  }

  lemma {:induction false} ShiftZero(k: nat)
    ensures Shift(0, k) == 0
    decreases k
  {
    if k > 0 {
      ShiftZero(k - 1);
    }
  }

  /** The elements in sublists smaller than `bound`. */
  function Smaller(s: seq<nat>, bound: nat): nat {
    if s == [] then 0 else (if s[0] < bound then s[0] else 0) + Smaller(s[1..], bound)
  }

  /** The lowest `k` bits. */
  function LowBits(n: nat, k: nat): nat {
    if k == 0 then 0 else n % 2 + 2 * LowBits(n / 2, k - 1)
  }

  lemma {:induction false} SmallerConcat(s: seq<nat>, t: seq<nat>, bound: nat)
    ensures Smaller(s + t, bound) == Smaller(s, bound) + Smaller(t, bound)
    decreases |s|
  {
    if s == [] {
      assert s + t == t;
    } else {
      assert (s + t)[1..] == s[1..] + t;
      SmallerConcat(s[1..], t, bound);
    }
  }

  lemma {:induction false} SmallerNone(s: seq<nat>, bound: nat)
    requires forall i :: 0 <= i < |s| ==> bound <= s[i]
    ensures Smaller(s, bound) == 0
    decreases |s|
  {
    if s != [] {
      SmallerNone(s[1..], bound);
    }
  }

  lemma {:induction false} SmallerRepeat(x: nat, times: nat, bound: nat)
    requires x < bound
    ensures Smaller(Repeat(x, times), bound) == times * x
    decreases times
  {
    if times > 0 {
      SmallerRepeat(x, times - 1, bound);
      assert Repeat(x, times)[1..] == Repeat(x, times - 1);
      assert times * x == (times - 1) * x + x;
    }
  }

  /** In units of 2^i: the elements in sublists of sizes 2^i up to 2^(i+j), exclusive. */
  function Units(n: nat, carry: nat, j: nat): nat
    requires carry <= 1
  {
    if n == 0 || j == 0 then 0 else 1 - n % 2 + carry + 2 * Units(n / 2, n % 2, j - 1)
  }

  lemma {:induction false} SizesSmaller(n: nat, i: nat, carry: nat, k: nat)
    requires carry <= 1 && i <= k
    ensures Smaller(Sizes(n, i, carry), Pow2(k)) == Units(n, carry, k - i) * Pow2(i)
    decreases k - i
  {
    hide Smaller, Repeat;
    if n == 0 {
      SmallerNone([], Pow2(k));
    } else if i == k {
      SizesShape(n, k, carry);
      SmallerNone(Sizes(n, k, carry), Pow2(k));
    } else {
      var t := 1 - n % 2 + carry;
      Pow2Grows(i, k);
      SmallerConcat(Repeat(Pow2(i), t), Sizes(n / 2, i + 1, n % 2), Pow2(k));
      SmallerRepeat(Pow2(i), t, Pow2(k));
      SizesSmaller(n / 2, i + 1, n % 2, k);
      Regroup(t, Units(n / 2, n % 2, k - i - 1), Pow2(i));
    }
  }

  lemma {:induction false} Regroup(t: nat, u: nat, p: nat)
    ensures t * p + u * (2 * p) == (t + 2 * u) * p
  {
  }

  lemma {:induction false} UnitsAre(n: nat, carry: nat, j: nat)
    requires carry <= 1 && n > 0 && j > 0
    ensures Units(n, carry, j) == if Shift(n, j) == 0 then n - 1 + carry
                                  else LowBits(n, j) + carry - 1 + if Shift(n, j - 1) % 2 == 0 then Pow2(j) else 0
    decreases j
  {
    if n / 2 == 0 {
      ShiftZero(j - 1);
    } else if j > 1 {
      UnitsAre(n / 2, n % 2, j - 1);
    } else {
      assert LowBits(n / 2, 0) == 0 && Pow2(1) == 2;
    }
  }

  /**
   * The table of six states. Of size 2^k there is no sublist while the bits
   * from k up are zero, otherwise 0, 1 or 2 by bits k and k-1 (bit -1 counts as
   * set). In smaller sublists there are as many elements as the bits below k
   * say, and 2^k more if bit k-1 is clear and a higher one set.
   */
  lemma {:induction false} PendingTable(count: nat, k: nat)
    ensures multiset(Pending(count))[Pow2(k)] ==
      if Shift(count, k) == 0 then 0
      else 1 - Shift(count, k) % 2 + if k == 0 then 1 else Shift(count, k - 1) % 2
    ensures Smaller(Pending(count), Pow2(k)) ==
      LowBits(count, k) + if k > 0 && Shift(count, k) != 0 && Shift(count, k - 1) % 2 == 0 then Pow2(k) else 0
  {
    hide Smaller, Sizes;
    SizesCount(count, 0, 1, k);
    SizesSmaller(count, 0, 1, k);
    if Shift(count, k) == 0 {
      AllLow(count, k);
    }
    if count > 0 && k > 0 {
      UnitsAre(count, 1, k);
    } else {
      ShiftZero(k);
    }
  }

  lemma {:induction false} AllLow(n: nat, k: nat)
    requires Shift(n, k) == 0
    ensures LowBits(n, k) == n
    decreases k
  {
    if k > 0 {
      AllLow(n / 2, k - 1);
    }
  }

  ghost predicate Ascending(s: seq<nat>) {
    forall i, j :: 0 <= i < j < |s| ==> s[i] <= s[j]
  }

  ghost predicate PowersFrom(s: seq<nat>, k: nat) {
    forall i :: 0 <= i < |s| ==> exists e: nat :: e >= k && s[i] == Pow2(e)
  }

  lemma {:induction false} SizesShape(n: nat, k: nat, carry: nat)
    requires carry <= 1
    ensures PowersFrom(Sizes(n, k, carry), k) && Ascending(Sizes(n, k, carry))
    ensures forall i :: 0 <= i < |Sizes(n, k, carry)| ==> Pow2(k) <= Sizes(n, k, carry)[i]
    decreases n
  {
    if n > 0 {
      SizesShape(n / 2, k + 1, n % 2);
      Pow2Grows(k, k + 1);
    }
  }

  /** Every pending size is a power of two, and they ascend from the newest sublist to the oldest. */
  lemma {:induction false} PendingShape(count: nat)
    ensures PowersFrom(Pending(count), 0) && Ascending(Pending(count))
  {
    SizesShape(count, 0, 1);
  }

  lemma {:induction false} PendingAtLeastTwo(count: nat)
    requires count >= 2
    ensures |Pending(count)| >= 2
  {
    if count % 2 == 1 {
      SizesOdd(count, 0);
      CarryAddsOne(count / 2, 1);
    } else {
      SizesEven(count, 0);
    }
  }

  // ----- the final merges

  /** Merging `s` one by one into `acc` elements, each merge is at worst 2:1. */
  ghost predicate TwoToOne(s: seq<nat>, acc: nat) {
    s == [] || (s[0] <= 2 * acc && acc < 2 * s[0] && TwoToOne(s[1..], acc + s[0]))
  }

  lemma TwoToOneCons(x: nat, s: seq<nat>, acc: nat)
    requires x <= 2 * acc && acc < 2 * x && TwoToOne(s, acc + x)
    ensures TwoToOne([x] + s, acc)
  {
    assert ([x] + s)[1..] == s;
  }

  lemma {:induction false} SizesTwoToOne(n: nat, k: nat, carry: nat, acc: nat)
    requires carry <= 1
    requires carry == 1 ==> Pow2(k) <= 2 * acc < 2 * Pow2(k)
    requires carry == 0 ==> 2 * Pow2(k) <= 2 * acc < 3 * Pow2(k)
    ensures TwoToOne(Sizes(n, k, carry), acc)
    decreases n
  {
    hide Sizes, Pow2;
    Pow2Step(k);
    if n == 0 {
      SizesNil(k, carry);
      EmptyTwoToOne(acc);
    } else {
      hide TwoToOne;
      var p, t := Pow2(k), Sizes(n / 2, k + 1, n % 2);
      if carry == 1 && n % 2 == 0 {
        SizesEven(n, k);
        SizesTwoToOne(n / 2, k + 1, 0, acc + p + p);
        TwoToOneCons(p, t, acc + p);
        TwoToOneCons(p, [p] + t, acc);
        assert [p] + ([p] + t) == [p, p] + t;
      } else if carry == 1 {
        SizesOdd(n, k);
        SizesTwoToOne(n / 2, k + 1, 1, acc + p);
        TwoToOneCons(p, t, acc);
      } else {
        SizesNoCarry(n, k);
        if n % 2 == 0 {
          SizesTwoToOne(n / 2, k + 1, 0, acc + p);
          TwoToOneCons(p, t, acc);
        } else {
          SizesTwoToOne(n / 2, k + 1, 1, acc);
          assert [] + t == t;
        }
      }
    }
  }

  lemma EmptyTwoToOne(acc: nat)
    ensures TwoToOne([], acc)
  {
  }

  lemma Pow2Small()
    ensures Pow2(0) == 1 && Pow2(1) == 2
  {
  }

  lemma Pow2Step(k: nat)
    ensures Pow2(k + 1) == 2 * Pow2(k)
  {
  }

  lemma {:induction false} SizesNoCarry(n: nat, k: nat)
    requires n > 0
    ensures Sizes(n, k, 0) == (if n % 2 == 0 then [Pow2(k)] else []) + Sizes(n / 2, k + 1, n % 2)
  {
    assert Repeat(Pow2(k), 1) == [Pow2(k)];
  }

  /** At the end of the input every merge joins 2^(k-1) to 2^(k+1)-1 elements to a sublist of size 2^k. */
  lemma {:induction false} FinalMergesBalanced(count: nat)
    requires count >= 1
    ensures var s := Pending(count); s != [] && s[0] == 1 && TwoToOne(s[1..], s[0])
  {
    hide Sizes, Pow2, TwoToOne;
    Pow2Small();
    if count % 2 == 1 {
      SizesOdd(count, 0);
      SizesTwoToOne(count / 2, 1, 1, 1);
    } else {
      SizesEven(count, 0);
      SizesTwoToOne(count / 2, 1, 0, 2);
      TwoToOneCons(1, Sizes(count / 2, 1, 0), 1);
      assert Pending(count)[1..] == [1] + Sizes(count / 2, 1, 0);
    }
  }
}
