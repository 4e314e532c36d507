/** The bit expressions of the timing wheel, against the digit arithmetic of TimerPlacement. */
module WordBits {
  import opened TimerPlacement

  /** The number that the last n bits of a word write in binary. */
  ghost function Bits(a: bv32, n: nat): (v: nat)
    decreases n
  {
    if n == 0 then 0 else (if a & 1 == 1 then 1 else 0) + 2 * Bits(a >> 1, n - 1)
  }

  ghost function Pow2(n: nat): (p: nat)
    ensures p > 0
  {
    if n == 0 then 1 else 2 * Pow2(n - 1)
  }

  ghost function Shifted(a: bv32, k: nat): bv32
    decreases k
  {
    if k == 0 then a else Shifted(a >> 1, k - 1)
  }

  // The three word operations the wheel uses, named so that proofs can treat them as wholes.
  ghost function Or(a: bv32, m: bv32): bv32 { a | m }
  ghost function And(a: bv32, m: bv32): bv32 { a & m }
  ghost function Shr(a: bv32, k: nat): bv32
    requires k <= 32
  {
    a >> k
  }

  /** `m` is k ones. */
  ghost predicate Ones(m: bv32, k: nat)
    decreases k
  {
    if k == 0 then m == 0 else m & 1 == 1 && Ones(m >> 1, k - 1)
  }

  ghost function Value(a: bv32): uint32
  {
    ValueIsWord(a);
    Bits(a, 32)
  }

  lemma ValueIsWord(a: bv32)
    ensures Bits(a, 32) < WORD
  {
    BitsBound(a, 32);
    Pow2Values();
  }

  lemma Pow2Values()
    ensures Pow2(6) == 64 && Pow2(8) == 0x100 && Pow2(14) == 0x4000 && Pow2(20) == 0x10_0000
    ensures Pow2(26) == 0x400_0000 && Pow2(32) == WORD
  {
    assert Pow2(4) == 16;
    assert Pow2(8) == 256;
    assert Pow2(12) == 4096;
    assert Pow2(16) == 65536;
    assert Pow2(20) == 1048576;
    assert Pow2(24) == 16777216;
    assert Pow2(28) == 268435456;
  }

  lemma {:induction false} BitsBound(a: bv32, n: nat)
    ensures Bits(a, n) < Pow2(n)
    decreases n
  {
    if n == 0 {
    } else {
      BitsBound(a >> 1, n - 1);
    }
  }

  lemma Double(p: nat, h: nat)
    ensures 2 * (p * h) == (2 * p) * h
  {
  }

  lemma {:induction false} Split(a: bv32, n: nat, k: nat)
    requires k <= n
    ensures Bits(a, n) == Bits(a, k) + Pow2(k) * Bits(Shifted(a, k), n - k)
    decreases k
  {
    if k == 0 {
    } else {
      Split(a >> 1, n - 1, k - 1);
      Double(Pow2(k - 1), Bits(Shifted(a, k), n - k));
    }
  }

  lemma {:induction false} ShiftedTwice(a: bv32, j: nat, k: nat)
    ensures Shifted(a, j + k) == Shifted(Shifted(a, j), k)
    decreases j
  {
    if j == 0 {
    } else {
      ShiftedTwice(a >> 1, j - 1, k);
    }
  }

  lemma ShiftedSix(a: bv32)
    ensures Shifted(a, 6) == Shr(a, 6)
  {
    assert Shifted(a, 6) == Shifted(a >> 1 >> 1 >> 1, 3);
  }

  lemma ShiftedEight(a: bv32)
    ensures Shifted(a, 8) == Shr(Shr(a, 6), 2)
  {
    ShiftedTwice(a, 6, 2);
    ShiftedSix(a);
  }

  lemma ShrIs(a: bv32)
    ensures Shr(a, 2) == a >> 2 && Shr(a, 6) == a >> 6 && Shr(a, 8) == a >> 8
    ensures Shr(a, 14) == a >> 14 && Shr(a, 20) == a >> 20 && Shr(a, 26) == a >> 26
  {
  }

  lemma Shr6Then2(a: bv32)
    ensures Shr(Shr(a, 6), 2) == Shr(a, 8)
  {
    hide Shr;
    assert a >> 6 >> 2 == a >> 8;
    ShrIs(a);
    ShrIs(a >> 6);
  }

  lemma Shr8Then6(a: bv32)
    ensures Shr(Shr(a, 8), 6) == Shr(a, 14)
  {
    hide Shr;
    assert a >> 8 >> 6 == a >> 14;
    ShrIs(a);
    ShrIs(a >> 8);
  }

  lemma Shr14Then6(a: bv32)
    ensures Shr(Shr(a, 14), 6) == Shr(a, 20)
  {
    hide Shr;
    assert a >> 14 >> 6 == a >> 20;
    ShrIs(a);
    ShrIs(a >> 14);
  }

  lemma Shr20Then6(a: bv32)
    ensures Shr(Shr(a, 20), 6) == Shr(a, 26)
  {
    hide Shr;
    assert a >> 20 >> 6 == a >> 26;
    ShrIs(a);
    ShrIs(a >> 20);
  }

  lemma Shr26Then6(a: bv32)
    ensures Shr(Shr(a, 26), 6) == 0
  {
    hide Shr;
    assert a >> 26 >> 6 == 0;
    ShrIs(a);
    ShrIs(a >> 26);
  }

  lemma ShiftedValues(a: bv32)
    ensures Shifted(a, 8) == Shr(a, 8) && Shifted(a, 14) == Shr(a, 14) && Shifted(a, 20) == Shr(a, 20)
    ensures Shifted(a, 26) == Shr(a, 26) && Shifted(a, 32) == 0
  {
    hide Shifted, Shr;
    Shr6Then2(a);
    Shr8Then6(a);
    Shr14Then6(a);
    Shr20Then6(a);
    Shr26Then6(a);
    ShiftedEight(a);
    ShiftedTwice(a, 8, 6);
    ShiftedSix(Shr(a, 8));
    ShiftedTwice(a, 14, 6);
    ShiftedSix(Shr(a, 14));
    ShiftedTwice(a, 20, 6);
    ShiftedSix(Shr(a, 20));
    ShiftedTwice(a, 26, 6);
    ShiftedSix(Shr(a, 26));
  }

  lemma {:induction false} ZeroBits(n: nat)
    ensures Bits(0, n) == 0
  {
    if n == 0 {
    } else {
      ZeroBits(n - 1);
    }
  }

  /** A right shift drops digits. */
  lemma ShiftSplits(a: bv32, k: nat)
    requires k <= 32
    ensures Value(a) == Bits(a, k) + Pow2(k) * Value(Shifted(a, k))
    ensures Bits(a, k) < Pow2(k)
  {
    hide Bits, Pow2, Shifted;
    ShiftedValues(a);
    Split(a, 32 + k, 32);
    ZeroBits(k);
    var top := Bits(Shifted(a, 32), 32 + k - 32);
    assert top == 0;
    assert Pow2(32) * top == 0;
    Split(a, 32 + k, k);
    BitsBound(a, k);
  }

  lemma ShiftDivides(a: bv32, k: nat)
    requires k <= 32
    ensures Value(Shifted(a, k)) == Value(a) / Pow2(k)
    ensures Value(a) % Pow2(k) == Bits(a, k)
  {
    ShiftSplits(a, k);
    QuotientRemainder(Value(a), Pow2(k), Value(Shifted(a, k)), Bits(a, k));
  }

  lemma SmallMultiple(p: int, z: int)
    requires p > 0 && -p < p * z < p
    ensures z == 0
  {
    if z >= 1 {
      MultipleGrows(p, z);
    } else if z <= -1 {
      MultipleGrows(p, -z);
    }
  }

  lemma MultipleGrows(p: int, z: int)
    requires p > 0 && z >= 1
    ensures p * z >= p
  {
  }

  lemma QuotientRemainder(x: int, p: int, q: int, r: int)
    requires x == r + p * q && 0 <= r < p
    ensures x / p == q && x % p == r
  {
    assert x == p * (x / p) + x % p;
    assert p * (q - x / p) == p * q - p * (x / p);
    SmallMultiple(p, q - x / p);
  }

  lemma MaskBits(a: bv32, m: bv32)
    requires m & 1 == 1
    ensures (a & m) >> 1 == (a >> 1) & (m >> 1) && (a & m) & 1 == a & 1
    ensures (a | m) >> 1 == (a >> 1) | (m >> 1) && (a | m) & 1 == 1
    ensures a & 1 == 0 || a & 1 == 1
  {
  }

  /** A mask of k ones keeps the last k binary digits. */
  lemma {:induction false} MaskKeeps(a: bv32, m: bv32, n: nat, k: nat)
    requires k <= n && Ones(m, k)
    ensures Bits(a & m, n) == Bits(a, k)
    decreases k
  {
    if k == 0 {
      ZeroBits(n);
    } else {
      MaskBits(a, m);
      MaskKeeps(a >> 1, m >> 1, n - 1, k - 1);
    }
  }

  lemma OrStep(a: bv32, m: bv32, n: nat)
    requires n > 0 && m & 1 == 1
    ensures Bits(Or(a, m), n) == 1 + 2 * Bits(Or(a >> 1, m >> 1), n - 1)
  {
    MaskBits(a, m);
  }

  lemma NoMask(a: bv32, m: bv32)
    requires m == 0
    ensures Or(a, m) == a
  {
  }

  lemma BitsStep(a: bv32, n: nat)
    requires n > 0
    ensures Bits(a, n) == (if a & 1 == 1 then 1 else 0) + 2 * Bits(a >> 1, n - 1)
  {
  }

  /** Setting the last k binary digits to one. */
  lemma {:induction false} OrFills(a: bv32, m: bv32, n: nat, k: nat)
    requires k <= n && Ones(m, k)
    ensures Bits(Or(a, m), n) + Bits(a, k) == Bits(a, n) + Pow2(k) - 1
    decreases k
  {
    if k == 0 {
      NoMask(a, m);
    } else {
      OrFills(a >> 1, m >> 1, n - 1, k - 1);
      hide Bits, Or;
      OrStep(a, m, n);
      BitsStep(a, n);
      BitsStep(a, k);
    }
  }

  lemma {:induction false} SameBits(a: bv32, b: bv32, n: nat)
    requires Bits(a, n) == Bits(b, n) && Shifted(a, n) == Shifted(b, n)
    ensures a == b
    decreases n
  {
    if n == 0 {
    } else {
      SameBits(a >> 1, b >> 1, n - 1);
      assert a & 1 == b & 1;
    }
  }

  lemma SameValue(a: bv32, b: bv32)
    ensures Value(a) == Value(b) <==> a == b
  {
    if Value(a) == Value(b) {
      ShiftedValues(a);
      ShiftedValues(b);
      SameBits(a, b, 32);
    }
  }

  lemma MaskValues()
    ensures Ones(63, 6) && Ones(0xFF, 8) && Ones(0x3FFF, 14) && Ones(0xF_FFFF, 20) && Ones(0x3FF_FFFF, 26)
  {
    assert Ones(0, 0) && Ones(3, 2) && Ones(15, 4) && Ones(63, 6) && Ones(255, 8);
    assert Ones(0x3FF, 10) && Ones(0xFFF, 12) && Ones(0x3FFF, 14) && Ones(0xFFFF, 16);
    assert Ones(0x3_FFFF, 18) && Ones(0xF_FFFF, 20) && Ones(0x3F_FFFF, 22) && Ones(0xFF_FFFF, 24);
  }

  lemma OrMeaning(a: bv32, m: bv32, k: nat)
    requires k <= 32 && Ones(m, k)
    ensures Value(Or(a, m)) == OrLow(Value(a), Pow2(k))
  {
    OrFills(a, m, 32, k);
    ShiftSplits(a, k);
    ShiftDivides(a, k);
    FillLow(Value(a), Pow2(k), Value(Shifted(a, k)), Bits(a, k));
  }

  lemma FillLow(x: uint32, p: nat, q: nat, r: nat)
    requires p > 0 && x == r + p * q && q == x / p
    ensures OrLow(x, p) == x - r + p - 1
  {
    assert x / p * p == p * q;
  }

  lemma AndMeaning(a: bv32, m: bv32, k: nat)
    requires k <= 32 && Ones(m, k)
    ensures Value(And(a, m)) == Value(a) % Pow2(k)
  {
    MaskKeeps(a, m, 32, k);
    ShiftDivides(a, k);
  }

  /** The level chosen by the bit tests of `_AddTimerNode`. */
  ghost function BitLevel(t: bv32, c: bv32): nat
  {
    if Or(t, 0xFF) == Or(c, 0xFF) then 0
    else if Or(t, 0x3FFF) == Or(c, 0x3FFF) then 1
    else if Or(t, 0xF_FFFF) == Or(c, 0xF_FFFF) then 2
    else if Or(t, 0x3FF_FFFF) == Or(c, 0x3FF_FFFF) then 3
    else 4
  }

  /** The slot index computed with shifts and masks. */
  ghost function BitSlot(t: bv32, level: nat): bv32
  {
    match level
    case 0 => And(t, 0xFF)
    case 1 => And(Shr(t, 8), 63)
    case 2 => And(Shr(t, 14), 63)
    case 3 => And(Shr(t, 20), 63)
    case _ => And(Shr(t, 26), 63)
  }

  lemma SamePrefix(t: bv32, c: bv32, m: bv32, k: nat, p: nat)
    requires k <= 32 && Ones(m, k) && p == Pow2(k)
    ensures Or(t, m) == Or(c, m) <==> Value(t) / p == Value(c) / p
  {
    OrMeaning(t, m, k);
    OrMeaning(c, m, k);
    SameValue(Or(t, m), Or(c, m));
    SameFilled(Value(t), Value(c), Pow2(k));
  }

  lemma SameFilled(a: uint32, b: uint32, p: nat)
    requires p > 0
    ensures OrLow(a, p) == OrLow(b, p) <==> a / p == b / p
  {
    if OrLow(a, p) == OrLow(b, p) {
      assert p * (a / p - b / p) == a / p * p - b / p * p;
      SmallMultiple(p, a / p - b / p);
    }
  }

  lemma PrefixBits(t: bv32, c: bv32)
    ensures Or(t, 0xFF) == Or(c, 0xFF) <==> Value(t) / 0x100 == Value(c) / 0x100
    ensures Or(t, 0x3FFF) == Or(c, 0x3FFF) <==> Value(t) / 0x4000 == Value(c) / 0x4000
    ensures Or(t, 0xF_FFFF) == Or(c, 0xF_FFFF) <==> Value(t) / 0x10_0000 == Value(c) / 0x10_0000
    ensures Or(t, 0x3FF_FFFF) == Or(c, 0x3FF_FFFF) <==> Value(t) / 0x400_0000 == Value(c) / 0x400_0000
  {
    hide Or, And, Shr, Bits, Pow2, Ones, Shifted, Value;
    MaskValues();
    Pow2Values();
    SamePrefix(t, c, 0xFF, 8, 0x100);
    SamePrefix(t, c, 0x3FFF, 14, 0x4000);
    SamePrefix(t, c, 0xF_FFFF, 20, 0x10_0000);
    SamePrefix(t, c, 0x3FF_FFFF, 26, 0x400_0000);
  }

  lemma SlotBits(t: bv32)
    ensures Value(And(Shr(t, 8), 63)) == Slot(Value(t), 1) && Value(And(Shr(t, 14), 63)) == Slot(Value(t), 2)
    ensures Value(And(Shr(t, 20), 63)) == Slot(Value(t), 3) && Value(And(Shr(t, 26), 63)) == Slot(Value(t), 4)
  {
    hide Or, And, Shr, Bits, Pow2, Ones, Shifted, Value;
    Pow2Values();
    MaskValues();
    ShiftedValues(t);
    ShiftDivides(t, 8);
    ShiftDivides(t, 14);
    ShiftDivides(t, 20);
    ShiftDivides(t, 26);
    AndMeaning(Shr(t, 8), 63, 6);
    AndMeaning(Shr(t, 14), 63, 6);
    AndMeaning(Shr(t, 20), 63, 6);
    AndMeaning(Shr(t, 26), 63, 6);
  }

  lemma BitSlotIs(t: bv32, level: nat)
    requires level <= 4
    ensures Value(BitSlot(t, level)) == Slot(Value(t), level)
  {
    hide Or, And, Shr, Bits, Pow2, Ones, Shifted, Value;
    SlotBits(t);
    if level == 0 {
      MaskValues();
      Pow2Values();
      AndMeaning(t, 0xFF, 8);
      assert Value(t) / Unit(0) == Value(t);
    }
  }

  lemma BitLevelIs(t: bv32, c: bv32)
    ensures BitLevel(t, c) == Level(Value(t), Value(c))
  {
    hide Or, And, Shr, Bits, Pow2, Ones, Shifted, Value;
    PrefixBits(t, c);
  }

  /** For every pair of words, the bit tests choose the place that the digit arithmetic chooses. */
  lemma PlacementBits(t: bv32, c: bv32)
    ensures BitLevel(t, c) == Level(Value(t), Value(c))
    ensures Value(BitSlot(t, BitLevel(t, c))) == Slot(Value(t), BitLevel(t, c))
  {
    hide BitLevel, BitSlot, Value, Level, Slot;
    BitLevelIs(t, c);
    BitSlotIs(t, BitLevel(t, c));
  }

  /** `_Shift`'s test of the low bits is divisibility by the mask. */
  lemma LowBitsClear(ct: bv32, m: bv32, k: nat)
    requires k <= 32 && Ones(m, k)
    ensures And(ct, m) == 0 <==> Value(ct) % Pow2(k) == 0
  {
    AndMeaning(ct, m, k);
    SameValue(And(ct, m), 0);
    ZeroBits(32);
  }
}
