/** Bitwise AND on unsigned words, the power-of-two ring index, and 32-bit wrap-around. */
module BitMask {
  import opened Arithmetic

  const TWO_TO_THE_31: int := 0x8000_0000
  const TWO_TO_THE_32: int := 0x1_0000_0000

  function Pow2(k: nat): (p: nat)
    ensures p > 0
  {
    if k == 0 then 1 else 2 * Pow2(k - 1)
  }

  /** The C operator & on the binary representations of x and y. */
  function BitAnd(x: nat, y: nat): (r: nat)
    ensures r <= x && r <= y
  {
    if x == 0 then 0 else (x % 2) * (y % 2) + 2 * BitAnd(x / 2, y / 2)
  }

  predicate Bit(x: nat, i: nat) {
    if i == 0 then x % 2 == 1 else Bit(x / 2, i - 1)
  }

  /** BitAnd is the operator it names: bit i of the result is the conjunction of the two bits i. */
  lemma {:induction false} BitAndIsBitwise(x: nat, y: nat, i: nat)
    ensures Bit(BitAnd(x, y), i) <==> Bit(x, i) && Bit(y, i)
  {
    if x == 0 {
      ZeroHasNoBits(i);
    } else if i > 0 {
      assert BitAnd(x, y) / 2 == BitAnd(x / 2, y / 2) by { assert (x % 2) * (y % 2) <= 1; }
      BitAndIsBitwise(x / 2, y / 2, i - 1);
    } else {
      assert BitAnd(x, y) % 2 == (x % 2) * (y % 2) by { assert (x % 2) * (y % 2) <= 1; }
    }
  }

  lemma {:induction false} ZeroHasNoBits(i: nat)
    ensures !Bit(0, i)
  {
    if i == 0 {
    } else {
      ZeroHasNoBits(i - 1);
    }
  }

  lemma MaskOdd(x: nat, m: nat)
    ensures BitAnd(x, 2 * m + 1) == x % 2 + 2 * BitAnd(x / 2, m)
  {
    assert (2 * m + 1) / 2 == m && (2 * m + 1) % 2 == 1;
    assert x == 0 ==> x / 2 == 0 && BitAnd(0, m) == 0;
  }

  lemma {:induction false} MaskZero(x: nat)
    ensures BitAnd(x, 0) == 0
  {
    if x == 0 {
    } else {
      MaskZero(x / 2);
    }
  }

  lemma MaskBase(x: nat, q: nat)
    requires q == 1
    ensures BitAnd(x, q - 1) == x % q
  {
    MaskZero(x);
  }

  /** Masking with one bit more doubles the modulus. */
  lemma MaskStep(x: nat, p: nat, q: nat)
    requires p > 0 && q == 2 * p && BitAnd(x / 2, p - 1) == x / 2 % p
    ensures BitAnd(x, q - 1) == x % q
  {
    HalvedDivision(x, p);
    MaskOdd(x, p - 1);
    assert 2 * (p - 1) + 1 == q - 1;
  }

  /** Masking with p - 1 takes the remainder modulo p. */
  ghost predicate MasksModulo(p: nat)
    requires p > 0
  {
    forall x: nat :: BitAnd(x, p - 1) == x % p
  }

  lemma MaskDoubles(p: nat, q: nat)
    requires p > 0 && q == 2 * p && MasksModulo(p)
    ensures MasksModulo(q)
  {
    forall x: nat ensures BitAnd(x, q - 1) == x % q { MaskStep(x, p, q); }
  }

  lemma {:induction false} PowersMask(k: nat)
    ensures MasksModulo(Pow2(k))
  {
    if k == 0 {
      forall x: nat ensures BitAnd(x, Pow2(0) - 1) == x % Pow2(0) { MaskBase(x, Pow2(0)); }
    } else {
      PowersMask(k - 1);
      MaskDoubles(Pow2(k - 1), Pow2(k));
    }
  }

  /** idx & (cap - 1) == idx % cap whenever cap is a power of two. */
  lemma MaskIsModulo(idx: nat, k: nat)
    ensures BitAnd(idx, Pow2(k) - 1) == idx % Pow2(k)
  {
    PowersMask(k);
  }

  lemma BitSquared(b: nat)
    requires b < 2
    ensures b * b == b
  {
  }

  lemma {:induction false} MaskSelf(x: nat)
    ensures BitAnd(x, x) == x
  {
    if x == 0 {
    } else {
      MaskSelf(x / 2);
      BitSquared(x % 2);
    }
  }

  ghost predicate IsPowerOfTwo(cap: nat) {
    exists k: nat :: Pow2(k) == cap
  }

  /** The only capacities whose own index masks to zero are the powers of two. */
  lemma {:induction false} MaskOfItselfIsZero(cap: nat)
    requires cap > 0 && BitAnd(cap, cap - 1) == 0
    ensures IsPowerOfTwo(cap)
  {
    if cap == 1 {
      assert Pow2(0) == 1;
    } else if cap % 2 == 1 {
      assert (cap - 1) / 2 == cap / 2;
      MaskSelf(cap / 2);
    } else {
      assert (cap - 1) / 2 == cap / 2 - 1;
      MaskOfItselfIsZero(cap / 2);
      var k: nat :| Pow2(k) == cap / 2;
      assert Pow2(k + 1) == cap;
    }
  }

  /** Masking agrees with modulo on every index exactly for power-of-two capacities. */
  lemma MaskIsModuloIffPowerOfTwo(cap: nat)
    requires cap > 0
    ensures (forall idx: nat :: BitAnd(idx, cap - 1) == idx % cap) <==> IsPowerOfTwo(cap)
  {
    if IsPowerOfTwo(cap) {
      var k: nat :| Pow2(k) == cap;
      PowersMask(k);
    } else {
      DivModUnique(cap, cap, 1, 0);
      if BitAnd(cap, cap - 1) == 0 { MaskOfItselfIsZero(cap); }
      assert BitAnd(cap, cap - 1) != cap % cap;
    }
  }

  /** The value a 32-bit two's-complement int holds for the true value x. */
  function Wrap32(x: int): (w: int)
    ensures -TWO_TO_THE_31 <= w < TWO_TO_THE_31
  {
    (x + TWO_TO_THE_31) % TWO_TO_THE_32 - TWO_TO_THE_31
  }

  /** The bit pattern of a 32-bit int, read as an unsigned number. */
  function Bits32(w: int): (b: nat)
    ensures b < TWO_TO_THE_32
  {
    w % TWO_TO_THE_32
  }

  /** Comparing wrapped values decides equality of true values less than 2^32 apart. */
  lemma WrappedEquality(x: int, y: int)
    requires -TWO_TO_THE_32 < x - y < TWO_TO_THE_32
    ensures Wrap32(x) == Wrap32(y) <==> x == y
  {
  }

  lemma WrappedIncrement(x: int)
    ensures Wrap32(Wrap32(x) + 1) == Wrap32(x + 1)
  {
  }

  lemma WrappedDecrement(x: int)
    ensures Wrap32(Wrap32(x) - 1) == Wrap32(x - 1)
  {
  }

  lemma DoubledProduct(x: nat, y: nat)
    ensures (2 * x) * y == 2 * (x * y)
  {
  }

  lemma {:induction false} Pow2Product(a: nat, b: nat)
    ensures Pow2(a + b) == Pow2(a) * Pow2(b)
  {
    if a == 0 {
    } else {
      Pow2Product(a - 1, b);
      DoubledProduct(Pow2(a - 1), Pow2(b));
    }
  }

  lemma Pow2Nibble(k: nat)
    ensures Pow2(k + 4) == 16 * Pow2(k)
  {
    assert Pow2(k + 4) == 2 * Pow2(k + 3);
    assert Pow2(k + 2) == 2 * Pow2(k + 1);
  }

  lemma Pow2Byte(k: nat)
    ensures Pow2(k + 8) == 256 * Pow2(k)
  {
    Pow2Nibble(k);
    Pow2Nibble(k + 4);
  }

  /** Masking the wrapped ticket selects the slot of the true ticket. */
  lemma WrappedSlot(x: int, k: nat)
    requires k <= 32
    ensures BitAnd(Bits32(Wrap32(x)), Pow2(k) - 1) == x % Pow2(k)
  {
    var w := Bits32(Wrap32(x));
    MaskIsModulo(w, k);
    WrappedBits(x);
    WordSplit(k);
    NestedModulo(x, Pow2(k), Pow2(32 - k), TWO_TO_THE_32);
  }

  lemma WordSplit(k: nat)
    requires k <= 32
    ensures Pow2(k) * Pow2(32 - k) == TWO_TO_THE_32
  {
    Pow2Product(k, 32 - k);
    Pow2Of32();
  }

  lemma Pow2Of32()
    ensures Pow2(32) == TWO_TO_THE_32
  {
    assert Pow2(0) == 1;
    Pow2Byte(0);
    Pow2Byte(8);
    Pow2Byte(16);
    Pow2Byte(24);
  }

  lemma WrappedBits(x: int)
    ensures Bits32(Wrap32(x)) == x % TWO_TO_THE_32
  {
  }
}
