/** `hweight.c`: the number of set bits, counted in fields of the word that are added in place. */
module Hweight {
  // ----- the functions

  /** Every two, four and eight bits hold the count of their own bits. */
  function Pairs(w: bv64): bv64 {
    w - ((w >> 1) & 0x5555_5555_5555_5555)
  }

  function Nibbles(a: bv64): bv64 {
    (a & 0x3333_3333_3333_3333) + ((a >> 2) & 0x3333_3333_3333_3333)
  }

  function Bytes(b: bv64): bv64 {
    (b + (b >> 4)) & 0x0F0F_0F0F_0F0F_0F0F
  }

  function Fold8(c: bv64): bv64 {
    c + (c >> 8)
  }

  function Fold16(c: bv64): bv64 {
    c + (c >> 16)
  }

  function Fold32(c: bv64): bv64 {
    (c + (c >> 32)) & 0xFF
  }

  /** `__sw_hweight64`. */
  function SwHweight64(w: bv64): bv64 {
    Fold32(Fold16(Fold8(Bytes(Nibbles(Pairs(w))))))
  }

  function Bytes32(w: bv32): bv32 {
    var a := w - ((w >> 1) & 0x5555_5555);
    var b := (a & 0x3333_3333) + ((a >> 2) & 0x3333_3333);
    (b + (b >> 4)) & 0x0F0F_0F0F
  }

  function Sum32(c: bv32): bv32 {
    var d := c + (c >> 8);
    (d + (d >> 16)) & 0xFF
  }

  /** `__sw_hweight32`. */
  function SwHweight32(w: bv32): bv32 {
    Sum32(Bytes32(w))
  }

  function Bytes16(w: bv32): bv32 {
    var a := w - ((w >> 1) & 0x5555);
    var b := (a & 0x3333) + ((a >> 2) & 0x3333);
    (b + (b >> 4)) & 0x0F0F
  }

  function Sum16(c: bv32): bv32 {
    (c + (c >> 8)) & 0xFF
  }

  /** `__sw_hweight16`. */
  function SwHweight16(w: bv32): bv32 {
    Sum16(Bytes16(w))
  }

  /** `__sw_hweight8`. */
  function SwHweight8(w: bv32): bv32 {
    var a := w - ((w >> 1) & 0x55);
    var b := (a & 0x33) + ((a >> 2) & 0x33);
    (b + (b >> 4)) & 0x0F
  }

  // ----- counting one by one

  function Low(v: bv64): bv64 {
    v & 1
  }

  function Half(v: bv64): bv64 {
    v >> 1
  }

  function Plus(x: bv64, y: bv64): bv64 {
    x + y
  }

  function Nat(x: bv64): nat {
    x as nat
  }

  function BitValue(v: bv64): nat {
    if Low(v) == 1 then 1 else 0
  }

  /** The number of set bits among the lowest `n`. */
  function Ones(v: bv64, n: nat): nat {
    if n == 0 then 0 else BitValue(v) + Ones(Half(v), n - 1)
  }

  lemma {:induction false} Small(x: bv64)
    requires Nat(x) <= 64
    ensures x <= 64
  {
  }

  lemma {:induction false} Increment(x: bv64)
    requires x <= 64
    ensures Nat(x + 1) == Nat(x) + 1
  {
  }

  lemma {:induction false} NatZero()
    ensures Nat(0) == 0
  {
  }

  lemma {:induction false} AddLow(x: bv64, v: bv64)
    requires Nat(x) <= 64
    ensures Nat(Plus(x, Low(v))) == Nat(x) + BitValue(v)
  {
    Small(x);
    Increment(x);
  }

  /** Adds the four lowest bits one after the other. */
  function Add4(x: bv64, v: bv64): bv64 {
    Plus(Plus(Plus(Plus(x, Low(v)), Low(Half(v))), Low(Half(Half(v)))), Low(Half(Half(Half(v)))))
  }

  function Skip4(v: bv64): bv64 {
    Half(Half(Half(Half(v))))
  }

  /** The word from bit `i` on. */
  function From(v: bv64, i: bv64): bv64
    requires i < 64
  {
    v >> i
  }

  lemma {:induction false} OnesStep(v: bv64, n: nat)
    requires n > 0
    ensures Ones(v, n) == BitValue(v) + Ones(Half(v), n - 1) && BitValue(v) <= 1
  {
    hide Low, Half, Nat;
  }

  lemma {:induction false} OnesFour(x: bv64, v: bv64, n: nat)
    requires Nat(x) <= 60
    ensures Nat(Add4(x, v)) + Ones(Skip4(v), n) == Nat(x) + Ones(v, n + 4) && Nat(Add4(x, v)) <= Nat(x) + 4
  {
    hide Low, Half, Plus, BitValue, Ones, Nat;
    var h := Half(v);
    var i := Half(h);
    var j := Half(i);
    OnesStep(v, n + 4); OnesStep(h, n + 3); OnesStep(i, n + 2); OnesStep(j, n + 1);
    AddLow(x, v);
    AddLow(Plus(x, Low(v)), h);
    AddLow(Plus(Plus(x, Low(v)), Low(h)), i);
    AddLow(Plus(Plus(Plus(x, Low(v)), Low(h)), Low(i)), j);
  }

  /** The set bits of the lowest byte. */
  function ByteOnes(v: bv64): bv64 {
    (v & 1) + ((v >> 1) & 1) + ((v >> 2) & 1) + ((v >> 3) & 1) + ((v >> 4) & 1) + ((v >> 5) & 1) + ((v >> 6) & 1)
        + ((v >> 7) & 1)
  }

  lemma {:induction false} ByteOnesIs(v: bv64)
    ensures ByteOnes(v) == Add4(Add4(0, v), Skip4(v))
  {
  }

  lemma {:induction false} SkipByte(v: bv64)
    ensures Skip4(Skip4(v)) == From(v, 8)
  {
  }

  lemma {:induction false} OnesByte(v: bv64, n: nat)
    ensures Ones(v, n + 8) == Nat(ByteOnes(v)) + Ones(From(v, 8), n) && Nat(ByteOnes(v)) <= 8
  {
    hide Add4, Skip4, From, ByteOnes, Ones, Nat;
    NatZero();
    ByteOnesIs(v);
    SkipByte(v);
    OnesFour(0, v, n + 4);
    OnesFour(Add4(0, v), Skip4(v), n);
  }

  // ----- adding small numbers

  function Pred(y: bv64): bv64 {
    y - 1
  }

  lemma {:induction false} PlusPred(x: bv64, y: bv64)
    requires x <= 64 && 0 < y <= 64
    ensures Plus(x, y) == Plus(Plus(x, Pred(y)), 1)
  {
  }

  lemma {:induction false} PredIs(x: bv64, y: bv64)
    requires y != 0 && Nat(x) <= 64 && Nat(y) <= 64
    ensures Nat(Pred(y)) == Nat(y) - 1 && Plus(x, y) == Plus(Plus(x, Pred(y)), 1)
  {
    Small(x);
    Small(y);
    Increment(y - 1);
    PlusPred(x, y);
  }

  lemma {:induction false} PlusSmall(x: bv64)
    ensures Plus(x, 0) == x && (Nat(x) <= 64 ==> Nat(Plus(x, 1)) == Nat(x) + 1)
  {
    if Nat(x) <= 64 {
      Small(x);
      Increment(x);
    }
  }

  lemma {:induction false} AddNat(x: bv64, y: bv64)
    requires Nat(x) + Nat(y) <= 64
    ensures Nat(Plus(x, y)) == Nat(x) + Nat(y)
    decreases Nat(y)
  {
    hide Plus, Pred, Nat;
    NatZero();
    PlusSmall(x);
    if y != 0 {
      PredIs(x, y);
      AddNat(x, Pred(y));
      PlusSmall(Plus(x, Pred(y)));
    }
  }

  /** Four small numbers, pair by pair. */
  lemma {:induction false} AddFour(a: bv64, b: bv64, c: bv64, d: bv64)
    requires Nat(a) + Nat(b) + Nat(c) + Nat(d) <= 64
    ensures Nat(Plus(Plus(a, b), Plus(c, d))) == Nat(a) + Nat(b) + Nat(c) + Nat(d)
  {
    hide Plus, Nat;
    AddNat(a, b);
    AddNat(c, d);
    AddNat(Plus(a, b), Plus(c, d));
  }

  lemma {:induction false} FromZero(v: bv64)
    ensures From(v, 0) == v
  {
  }

  lemma {:induction false} FromLow(v: bv64)
    ensures From(From(v, 8), 8) == From(v, 16) && From(From(v, 16), 8) == From(v, 24)
  {
  }

  lemma {:induction false} FromMiddle(v: bv64)
    ensures From(From(v, 24), 8) == From(v, 32) && From(From(v, 32), 8) == From(v, 40)
  {
  }

  lemma {:induction false} FromHigh(v: bv64)
    ensures From(From(v, 32), 16) == From(v, 48) && From(From(v, 32), 24) == From(v, 56)
  {
  }

  /** The bytes of `v` in turn. */
  lemma {:induction false} OnesBytes(v: bv64, n: nat)
    ensures Ones(v, n + 32) ==
      Nat(ByteOnes(v)) + Nat(ByteOnes(From(v, 8))) + Nat(ByteOnes(From(v, 16))) + Nat(ByteOnes(From(v, 24)))
      + Ones(From(v, 32), n)
    ensures Nat(ByteOnes(v)) <= 8 && Nat(ByteOnes(From(v, 8))) <= 8 && Nat(ByteOnes(From(v, 16))) <= 8
    ensures Nat(ByteOnes(From(v, 24))) <= 8
  {
    hide ByteOnes, From, Ones, Nat;
    FromLow(v); FromMiddle(v);
    OnesByte(v, n + 24); OnesByte(From(v, 8), n + 16); OnesByte(From(v, 16), n + 8); OnesByte(From(v, 24), n);
  }

  /** The counts of the four lowest bytes, pair by pair. */
  function FourBytes(v: bv64): bv64 {
    Plus(Plus(ByteOnes(v), ByteOnes(From(v, 8))), Plus(ByteOnes(From(v, 16)), ByteOnes(From(v, 24))))
  }

  lemma {:induction false} OnesFourBytes(v: bv64, n: nat)
    ensures Ones(v, n + 32) == Nat(FourBytes(v)) + Ones(From(v, 32), n) && Nat(FourBytes(v)) <= 32
  {
    hide ByteOnes, From, Plus, Nat, Ones;
    OnesBytes(v, n);
    AddFour(ByteOnes(v), ByteOnes(From(v, 8)), ByteOnes(From(v, 16)), ByteOnes(From(v, 24)));
  }

  // ----- 64 bits

  /** Byte `i / 8` of a word. */
  function ByteAt(c: bv64, i: bv64): bv64
    requires i < 64
  {
    (c >> i) & 0xFF
  }

  function Counts(w: bv64): bv64 {
    Bytes(Nibbles(Pairs(w)))
  }

  lemma {:induction false} Counts0(w: bv64)
    ensures ByteAt(Counts(w), 0) == ByteOnes(From(w, 0)) && ByteAt(Counts(w), 8) == ByteOnes(From(w, 8))
  {
  }

  lemma {:induction false} Counts16(w: bv64)
    ensures ByteAt(Counts(w), 16) == ByteOnes(From(w, 16)) && ByteAt(Counts(w), 24) == ByteOnes(From(w, 24))
  {
  }

  lemma {:induction false} Counts32(w: bv64)
    ensures ByteAt(Counts(w), 32) == ByteOnes(From(w, 32)) && ByteAt(Counts(w), 40) == ByteOnes(From(w, 40))
  {
  }

  lemma {:induction false} Counts48(w: bv64)
    ensures ByteAt(Counts(w), 48) == ByteOnes(From(w, 48)) && ByteAt(Counts(w), 56) == ByteOnes(From(w, 56))
  {
  }

  /** After three stages each byte holds the count of its own bits. */
  lemma {:induction false} CountsAre(w: bv64)
    ensures ByteAt(Counts(w), 0) == ByteOnes(w) && ByteAt(Counts(w), 8) == ByteOnes(From(w, 8))
    ensures ByteAt(Counts(w), 16) == ByteOnes(From(w, 16)) && ByteAt(Counts(w), 24) == ByteOnes(From(w, 24))
    ensures ByteAt(Counts(w), 32) == ByteOnes(From(w, 32)) && ByteAt(Counts(w), 40) == ByteOnes(From(w, 40))
    ensures ByteAt(Counts(w), 48) == ByteOnes(From(w, 48)) && ByteAt(Counts(w), 56) == ByteOnes(From(w, 56))
  {
    hide Counts, ByteAt, ByteOnes, From;
    FromZero(w);
    Counts0(w); Counts16(w); Counts32(w); Counts48(w);
  }

  predicate Below(c: bv64, mask: bv64) {
    c & mask == 0
  }

  const M16: bv64 := 0xF0F0_F0F0_F0F0_F0F0
  const M32: bv64 := 0xE0E0_E0E0_E0E0_E0E0
  const M64: bv64 := 0xC0C0_C0C0_C0C0_C0C0

  lemma {:induction false} CountsSmall(w: bv64)
    ensures Below(Counts(w), M16)
  {
  }

  lemma {:induction false} Fold8Is(c: bv64)
    requires Below(c, M16)
    ensures Below(Fold8(c), M32)
    ensures ByteAt(Fold8(c), 0) == Plus(ByteAt(c, 0), ByteAt(c, 8))
    ensures ByteAt(Fold8(c), 16) == Plus(ByteAt(c, 16), ByteAt(c, 24))
    ensures ByteAt(Fold8(c), 32) == Plus(ByteAt(c, 32), ByteAt(c, 40))
    ensures ByteAt(Fold8(c), 48) == Plus(ByteAt(c, 48), ByteAt(c, 56))
  {
  }

  lemma {:induction false} Fold16Is(d: bv64)
    requires Below(d, M32)
    ensures Below(Fold16(d), M64)
    ensures ByteAt(Fold16(d), 0) == Plus(ByteAt(d, 0), ByteAt(d, 16))
    ensures ByteAt(Fold16(d), 32) == Plus(ByteAt(d, 32), ByteAt(d, 48))
  {
  }

  lemma {:induction false} Fold32Is(e: bv64)
    requires Below(e, M64)
    ensures Fold32(e) == Plus(ByteAt(e, 0), ByteAt(e, 32))
  {
  }

  /** The eight bytes, added pair by pair. */
  function ByteSum(c: bv64): bv64 {
    Plus(Plus(Plus(ByteAt(c, 0), ByteAt(c, 8)), Plus(ByteAt(c, 16), ByteAt(c, 24))),
         Plus(Plus(ByteAt(c, 32), ByteAt(c, 40)), Plus(ByteAt(c, 48), ByteAt(c, 56))))
  }

  lemma {:induction false} FoldIs(w: bv64)
    ensures SwHweight64(w) == ByteSum(Counts(w))
  {
    hide Pairs, Nibbles, Bytes, Fold8, Fold16, Fold32, ByteAt, Plus, Below;
    var c := Counts(w);
    CountsSmall(w);
    Fold8Is(c);
    Fold16Is(Fold8(c));
    Fold32Is(Fold16(Fold8(c)));
  }

  lemma {:induction false} ByteSumHalves(w: bv64)
    ensures ByteSum(Counts(w)) == Plus(FourBytes(w), FourBytes(From(w, 32)))
  {
    hide Counts, ByteAt, Plus, ByteOnes, From;
    CountsAre(w);
    FromMiddle(w); FromHigh(w);
  }

  lemma {:induction false} ByteSumIs(w: bv64)
    ensures Nat(ByteSum(Counts(w))) == Ones(w, 64)
  {
    hide *;
    ByteSumHalves(w);
    var h := From(w, 32);
    OnesFourBytes(w, 32);
    OnesFourBytes(h, 0);
    NoOnes(From(h, 32));
    AddNat(FourBytes(w), FourBytes(h));
  }

  lemma {:induction false} NoOnes(v: bv64)
    ensures Ones(v, 0) == 0
  {
  }

  /** `__sw_hweight64` is the number of set bits. */
  lemma {:induction false} SwHweight64Counts(w: bv64)
    ensures Nat(SwHweight64(w)) == Ones(w, 64)
  {
    hide *;
    FoldIs(w);
    ByteSumIs(w);
  }

  // ----- 32, 16 and 8 bits

  lemma {:induction false} Counts32Low(w: bv32)
    ensures ByteAt(Bytes32(w) as bv64, 0) == ByteOnes(w as bv64)
    ensures ByteAt(Bytes32(w) as bv64, 8) == ByteOnes(From(w as bv64, 8))
  {
  }

  lemma {:induction false} Counts32High(w: bv32)
    ensures ByteAt(Bytes32(w) as bv64, 16) == ByteOnes(From(w as bv64, 16))
    ensures ByteAt(Bytes32(w) as bv64, 24) == ByteOnes(From(w as bv64, 24))
  {
  }

  lemma {:induction false} Bytes32Small(w: bv32)
    ensures Bytes32(w) & 0xF0F0_F0F0 == 0 && Bytes16(w) & 0xFFFF_F0F0 == 0
  {
  }

  lemma {:induction false} Sum32Wide(c: bv32)
    requires c & 0xF0F0_F0F0 == 0
    ensures Below(c as bv64, M16) && Sum32(c) as bv64 == ByteAt(Fold16(Fold8(c as bv64)), 0)
  {
  }

  lemma {:induction false} Sum32Is(c: bv32)
    requires c & 0xF0F0_F0F0 == 0
    ensures Sum32(c) as bv64 ==
      Plus(Plus(ByteAt(c as bv64, 0), ByteAt(c as bv64, 8)), Plus(ByteAt(c as bv64, 16), ByteAt(c as bv64, 24)))
  {
    hide *;
    Sum32Wide(c);
    Fold8Is(c as bv64);
    Fold16Is(Fold8(c as bv64));
  }

  lemma {:induction false} Sum32Bytes(w: bv32)
    ensures SwHweight32(w) as bv64 == FourBytes(w as bv64)
  {
    hide Bytes32, Sum32, ByteAt, ByteOnes, From, Plus;
    Bytes32Small(w);
    Sum32Is(Bytes32(w));
    Counts32Low(w); Counts32High(w);
  }

  /** `__sw_hweight32` is the number of set bits of its 32. */
  lemma {:induction false} SwHweight32Counts(w: bv32)
    ensures Nat(SwHweight32(w) as bv64) == Ones(w as bv64, 32)
  {
    hide Nat, Ones, SwHweight32, FourBytes, From;
    Sum32Bytes(w);
    OnesFourBytes(w as bv64, 0);
    NoOnes(From(w as bv64, 32));
  }

  lemma {:induction false} Counts16Low(w: bv32)
    ensures ByteAt(Bytes16(w) as bv64, 0) == ByteOnes(w as bv64)
  {
  }

  lemma {:induction false} Counts16High(w: bv32)
    ensures ByteAt(Bytes16(w) as bv64, 8) == ByteOnes(From(w as bv64, 8))
  {
  }

  lemma {:induction false} Sum16Is(c: bv32)
    requires c & 0xFFFF_F0F0 == 0
    ensures Sum16(c) as bv64 == Plus(ByteAt(c as bv64, 0), ByteAt(c as bv64, 8))
  {
  }

  lemma {:induction false} Sum16Bytes(w: bv32)
    ensures SwHweight16(w) as bv64 == Plus(ByteOnes(w as bv64), ByteOnes(From(w as bv64, 8)))
  {
    hide Bytes16, Sum16, ByteAt, ByteOnes, From, Plus;
    Bytes32Small(w);
    Sum16Is(Bytes16(w));
    Counts16Low(w); Counts16High(w);
  }

  /** `__sw_hweight16` is the number of set bits of the lowest 16. */
  lemma {:induction false} SwHweight16Counts(w: bv32)
    ensures Nat(SwHweight16(w) as bv64) == Ones(w as bv64, 16)
  {
    hide SwHweight16, ByteOnes, From, Plus, Nat, Ones;
    var v := w as bv64;
    Sum16Bytes(w);
    OnesByte(v, 8);
    OnesByte(From(v, 8), 0);
    NoOnes(From(From(v, 8), 8));
    AddNat(ByteOnes(v), ByteOnes(From(v, 8)));
  }

  lemma {:induction false} Counts8Are(w: bv32)
    ensures SwHweight8(w) as bv64 == ByteOnes(w as bv64)
  {
  }

  /** `__sw_hweight8` is the number of set bits of the lowest 8. */
  lemma {:induction false} SwHweight8Counts(w: bv32)
    ensures Nat(SwHweight8(w) as bv64) == Ones(w as bv64, 8)
  {
    hide SwHweight8, ByteOnes, From, Nat, Ones;
    Counts8Are(w);
    OnesByte(w as bv64, 0);
    NoOnes(From(w as bv64, 8));
  }

  // ----- words and their bits

  /** The lowest `n` bits, the lowest first. */
  function BitsOf(v: bv64, n: nat): (s: seq<bool>)
    ensures |s| == n
  {
    if n == 0 then [] else [Low(v) == 1] + BitsOf(Half(v), n - 1)
  }

  function Weight(s: seq<bool>): nat {
    if s == [] then 0 else (if s[0] then 1 else 0) + Weight(s[1..])
  }

  lemma {:induction false} WeightIsOnes(v: bv64, n: nat)
    ensures Weight(BitsOf(v, n)) == Ones(v, n)
    decreases n
  {
    hide Low, Half;
    if n > 0 {
      WeightIsOnes(Half(v), n - 1);
      assert BitsOf(v, n)[1..] == BitsOf(Half(v), n - 1);
    }
  }

  /** All ones, shifted down `k` times. */
  function OnesFrom(k: nat): bv64 {
    if k == 0 then 0xFFFF_FFFF_FFFF_FFFF else Half(OnesFrom(k - 1))
  }

  function Both(x: bv64, y: bv64): bv64 {
    x & y
  }

  lemma {:induction false} HalfBoth(x: bv64, y: bv64)
    ensures Half(Both(x, y)) == Both(Half(x), Half(y)) && Low(Both(x, y)) == Both(Low(x), Low(y))
  {
  }

  lemma {:induction false} BothOnes(y: bv64)
    ensures Both(0xFFFF_FFFF_FFFF_FFFF, y) == y
  {
  }

  lemma {:induction false} Nested(j: nat, k: nat)
    requires j <= k
    ensures Both(OnesFrom(j), OnesFrom(k)) == OnesFrom(k)
    decreases j
  {
    hide Both, Half, Low;
    if j == 0 {
      BothOnes(OnesFrom(k));
    } else {
      Nested(j - 1, k - 1);
      HalfBoth(OnesFrom(j - 1), OnesFrom(k - 1));
    }
  }

  lemma {:induction false} Halves7(x: bv64)
    ensures Half(Half(Half(Half(Half(Half(Half(x))))))) == x >> 7
  {
  }

  lemma {:induction false} OnesFrom7(k: nat)
    ensures OnesFrom(k + 7) == OnesFrom(k) >> 7
  {
    hide Half, OnesFrom;
    Halves7(OnesFrom(k));
    OnesFromNext(k); OnesFromNext(k + 1); OnesFromNext(k + 2); OnesFromNext(k + 3); OnesFromNext(k + 4);
    OnesFromNext(k + 5); OnesFromNext(k + 6);
  }

  lemma {:induction false} OnesFromNext(k: nat)
    ensures OnesFrom(k + 1) == Half(OnesFrom(k)) && OnesFrom(0) == 0xFFFF_FFFF_FFFF_FFFF
  {
    hide Half;
  }

  lemma {:induction false} OnesFrom63()
    ensures OnesFrom(63) == 1
  {
    hide OnesFrom;
    OnesFromNext(0);
    OnesFrom7(0); OnesFrom7(7); OnesFrom7(14); OnesFrom7(21); OnesFrom7(28); OnesFrom7(35); OnesFrom7(42);
    OnesFrom7(49); OnesFrom7(56);
  }

  lemma {:induction false} OnesFromEnd(k: nat)
    requires k >= 64
    ensures OnesFrom(k) == 0
    decreases k
  {
    if k == 64 {
      OnesFrom63();
    } else {
      OnesFromEnd(k - 1);
    }
  }

  lemma {:induction false} OneIsLow(x: bv64)
    ensures Both(x, 1) == 1 ==> Low(x) == 1
    ensures Low(0) == 0
  {
  }

  lemma {:induction false} OnesFromLow(k: nat)
    ensures Low(OnesFrom(k)) == if k < 64 then 1 else 0
  {
    hide Both, Low, OnesFrom;
    OneIsLow(OnesFrom(k));
    if k < 64 {
      OnesFrom63();
      Nested(k, 63);
    } else {
      OnesFromEnd(k);
    }
  }

  lemma {:induction false} LowBoth(v: bv64)
    ensures Both(Low(v), 1) == Low(v) && Both(Low(v), 0) == 0
  {
  }

  lemma {:induction false} BitsStep(v: bv64, n: nat, i: nat)
    requires i < n
    ensures BitsOf(v, n)[i] <==> if i == 0 then Low(v) == 1 else BitsOf(Half(v), n - 1)[i - 1]
  {
    hide Low, Half;
  }

  /** Masking with `OnesFrom(k)` keeps the bits below 64 - k. */
  lemma {:induction false} MaskedBits(v: bv64, k: nat, n: nat, i: nat)
    requires i < n
    ensures BitsOf(Both(v, OnesFrom(k)), n)[i] <==> BitsOf(v, n)[i] && i < 64 - k
    decreases n
  {
    hide Both, Low, Half, OnesFrom, BitsOf;
    HalfBoth(v, OnesFrom(k));
    BitsStep(v, n, i);
    BitsStep(Both(v, OnesFrom(k)), n, i);
    if i == 0 {
      OnesFromLow(k);
      LowBoth(v);
      ZeroIsNotOne();
    } else {
      OnesFromNext(k);
      MaskedBits(Half(v), k + 1, n - 1, i - 1);
    }
  }

  lemma {:induction false} ZeroIsNotOne()
    ensures 0 as bv64 != 1
  {
  }
}
