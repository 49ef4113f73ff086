/**
 Which quantiles are read one position early.  A position computed in double precision is given here by
 integer arithmetic alone, so that a caller can tell before the report is written.
 */
module QuantileExact {
  import opened Arithmetic
  import opened BitMask
  import opened Quantile

  /** The number of doublings after which v/100 is a 53-bit number. */
  function Doublings(v: nat): (n: nat)
    requires 0 < v < 900719925474099200
    ensures 450359962737049600 <= v * Pow2(n) < 900719925474099200
    decreases 900719925474099200 - v
  {
    if v >= 450359962737049600 then assert Pow2(0) == 1; 0
    else
      var n := Doublings(2 * v);
      assert (2 * v) * Pow2(n) == v * Pow2(n + 1);
      n + 1
  }

  /** The significand of the double nearest to i/100. */
  function Significand(i: nat): nat
    requires 0 < i < 100
  {
    (i * Pow2(Doublings(i)) + 50) / 100
  }

  /** By how much that double lies below i/100, in units of 1/(100 * 2^Doublings(i)). */
  function Shortfall(i: nat): int
    requires 0 < i < 100
  {
    i * Pow2(Doublings(i)) - 100 * Significand(i)
  }

  /** The least m with q <= 2^m. */
  function CeilLog2(q: nat): (m: nat)
    requires q >= 1
    ensures q <= Pow2(m) && (m > 0 ==> Pow2(m - 1) < q)
  {
    if q == 1 then 0 else 1 + CeilLog2((q + 1) / 2)
  }

  /**
   The quotient i*cnt/100 is an integer, and the double nearest to i/100 falls short by more than half the
   spacing of doubles just below that quotient.
   */
  predicate ReadsOneLess(i: nat, cnt: nat)
    requires i < 100
  {
    && i * cnt > 0 && (i * cnt) % 100 == 0
    && i > 0
    && Shortfall(i) * cnt * 18014398509481984 > 100 * Pow2(Doublings(i)) * Pow2(CeilLog2(i * cnt / 100))
  }

  // ----- The rounded fraction

  lemma Halfway(v: nat, f: int)
    ensures 4 * v != 100 * f + 50
  {
  }

  /** Rounding i/100 gives its significand; the scaled fraction never lies halfway between two integers. */
  lemma NearestFraction(v: nat)
    requires v % 4 == 0
    ensures NearestInteger(v as real / 100.0) == (v + 50) / 100
  {
    var y := v as real / 100.0;
    assert 100.0 * y == v as real;
    var n := NearestInteger(y);
    Halfway(v / 4, n);
    Halfway(v / 4, n - 1);
    assert 100 * n - 50 < v < 100 * n + 50 by {
      assert -50.0 <= 100.0 * n as real - v as real <= 50.0;
    }
  }

  lemma ScaledFraction(i: nat, n: nat)
    ensures Times(i as real / 100.0, n as real) == (i * n) as real / 100.0
  {
    var x, r := i as real / 100.0, n as real;
    assert 100.0 * x == i as real;
    assert (100.0 * x) * r == 100.0 * (x * r);
    assert i as real * r == (i * n) as real;
  }

  lemma FourDivides(i: nat, n: nat)
    requires n >= 2
    ensures (i * Pow2(n)) % 4 == 0
  {
    var h := Pow2(n - 2);
    assert Pow2(n - 1) == 2 * h;
    assert i * (4 * h) == 4 * (i * h);
  }

  lemma FractionScaled(i: nat)
    requires 0 < i < 100
    ensures Times(RoundDouble(i as real / 100.0), Pow2(Doublings(i)) as real) == Significand(i) as real
  {
    var n := Doublings(i);
    var v := i * Pow2(n);
    assert n >= 2 by { assert Pow2(0) == 1 && Pow2(1) == 2; }
    FourDivides(i, n);
    ScaledFraction(i, Pow2(n));
    RoundAt(i as real / 100.0, n, Pow2(n) as real, v as real / 100.0);
    NearestFraction(v);
  }

  // ----- The rounded product

  /** Rounding does not fall below an integer that was not above. */
  lemma {:induction false} RoundKeepsAbove(y: real, q: nat)
    requires 0.0 < y < 9007199254740992.0 && q as real <= y
    ensures q as real <= RoundSmall(y)
    decreases (4503599627370496.0 / y).Floor
  {
    if y < 4503599627370496.0 {
      HalvesFloor(y);
      RoundKeepsAbove(2.0 * y, 2 * q);
    } else {
      assert q <= NearestInteger(y);
    }
  }

  /** An even integer is reached by rounding from half below on. */
  lemma NearestReaches(y: real, q: int)
    requires q % 2 == 0
    ensures NearestInteger(y) >= q <==> y >= q as real - 0.5
  {
  }

  lemma {:induction false} Pow2Monotone(a: nat, b: nat)
    requires a <= b
    ensures Pow2(a) <= Pow2(b)
  {
    if a == b {
    } else {
      Pow2Monotone(a, b - 1);
    }
  }

  lemma LogBelow(q: nat)
    requires 1 <= q <= MAX_COUNT
    ensures CeilLog2(q) <= 45
  {
    var m := CeilLog2(q);
    if m > 45 {
      Pow2Monotone(45, m - 1);
      SmallPowers();
    }
  }

  lemma SmallPowers()
    ensures Pow2(45) == MAX_COUNT && Pow2(53) == 9007199254740992 && Pow2(54) == 18014398509481984
  {
    assert Pow2(5) == 32;
    Pow2Byte(5);
    Pow2Byte(13);
    Pow2Byte(21);
    Pow2Byte(29);
    Pow2Byte(37);
    Pow2Byte(45);
    assert Pow2(54) == 2 * Pow2(53);
  }

  lemma Strictly(a: real, b: real)
    requires a > 0.0 && b > 0.0
    ensures a * b > 0.0
  {
  }

  /** A real p in the upper half of (0, pm), scaled into the binade of 53-bit integers. */
  lemma ScaledBinade(p: real, pm: real, pk: real)
    requires pm <= 2.0 * p && p < pm && pk > 0.0 && pm * pk == 9007199254740992.0
    ensures 4503599627370496.0 <= Times(p, pk) < 9007199254740992.0
  {
    LowerHalf(p, pm, pk);
    UpperHalf(p, pm, pk);
  }

  lemma LowerHalf(p: real, pm: real, pk: real)
    requires pm <= 2.0 * p && pk > 0.0
    ensures 2.0 * Times(p, pk) >= pm * pk
  {
    ProductNonNegative(2.0 * p - pm, pk);
  }

  lemma UpperHalf(p: real, pm: real, pk: real)
    requires p < pm && pk > 0.0
    ensures Times(p, pk) < pm * pk
  {
    Strictly(pm - p, pk);
  }

  /** The powers of two around q, and the one that brings reals just below q to 53-bit numbers. */
  lemma PowersAround(q: nat)
    requires 1 <= q <= MAX_COUNT
    ensures var m := CeilLog2(q);
      && m <= 45 && q <= Pow2(m) && Pow2(m) < 2 * q
      && Pow2(m) * Pow2(53 - m) == 9007199254740992
      && Pow2(53 - m) % 2 == 0
  {
    LogBelow(q);
    SplitPower(CeilLog2(q));
    EvenPower(53 - CeilLog2(q));
    PowerBelowDouble(q);
  }

  lemma SplitPower(m: nat)
    requires m <= 45
    ensures Pow2(m) * Pow2(53 - m) == 9007199254740992
  {
    Pow2Product(m, 53 - m);
    SmallPowers();
  }

  lemma Even(x: nat, half: nat)
    requires x == 2 * half
    ensures x % 2 == 0
  {
  }

  lemma EvenPower(n: nat)
    requires n > 0
    ensures Pow2(n) % 2 == 0
  {
    Even(Pow2(n), Pow2(n - 1));
  }

  lemma PowerBelowDouble(q: nat)
    requires q >= 1
    ensures Pow2(CeilLog2(q)) < 2 * q
  {
    if CeilLog2(q) == 0 { assert Pow2(0) == 1; }
  }

  lemma EvenTimes(q: nat, k: nat)
    requires k % 2 == 0
    ensures (q * k) % 2 == 0
  {
    assert q * (2 * (k / 2)) == 2 * (q * (k / 2));
  }

  /** Rounding from below reaches q exactly from half the spacing of the doubles below q on. */
  lemma RoundReachesFromBelow(p: real, q: nat)
    requires 1 <= q <= MAX_COUNT && q as real - 0.5 <= p < q as real
    ensures RoundDouble(p) >= q as real
       <==> (q as real - p) * 18014398509481984.0 <= Pow2(CeilLog2(q)) as real
  {
    PowersAround(q);
    var m := CeilLog2(q);
    RoundScaled(p, Pow2(m), 53 - m);
    ReachesScaled(RoundDouble(p), p, q, Pow2(m), Pow2(53 - m));
  }

  lemma RoundScaled(p: real, pm: nat, n: nat)
    requires n > 0 && pm * Pow2(n) == 9007199254740992 && pm as real <= 2.0 * p && p < pm as real
    ensures Times(RoundDouble(p), Pow2(n) as real) == NearestInteger(Times(p, Pow2(n) as real)) as real
  {
    var pk := Pow2(n);
    assert pm as real * pk as real == (pm * pk) as real;
    ScaledBinade(p, pm as real, pk as real);
    RoundAt(p, n, pk as real, Times(p, pk as real));
  }

  /** The same for the rounding r of p, both scaled to 53-bit numbers. */
  lemma ReachesScaled(r: real, p: real, q: nat, pm: nat, pk: nat)
    requires pm * pk == 9007199254740992 && pk % 2 == 0 && pm > 0 && pk > 0
    requires Times(r, pk as real) == NearestInteger(Times(p, pk as real)) as real
    ensures r >= q as real <==> (q as real - p) * 18014398509481984.0 <= pm as real
  {
    var k := pk as real;
    EvenTimes(q, pk);
    NearestReaches(Times(p, k), q * pk);
    assert (q * pk) as real == Times(q as real, k);
    CompareScaled(r, q as real, k);
    assert pm as real * k == 9007199254740992.0;
    HalfSpacing(p, q as real, pm as real, k);
  }

  lemma CompareScaled(a: real, b: real, k: real)
    requires k > 0.0
    ensures a >= b <==> Times(a, k) >= Times(b, k)
  {
    if a >= b { ProductNonNegative(a - b, k); } else { Strictly(b - a, k); }
  }

  lemma HalfSpacing(p: real, q: real, pm: real, pk: real)
    requires pm > 0.0 && pk > 0.0 && pm * pk == 9007199254740992.0
    ensures Times(p, pk) >= Times(q, pk) - 0.5 <==> (q - p) * 18014398509481984.0 <= pm
  {
    var gap := (q - p) * pk;
    assert gap == q * pk - p * pk;
    assert pm * gap == (q - p) * 9007199254740992.0 by {
      assert pm * ((q - p) * pk) == (q - p) * (pm * pk);
    }
    if gap <= 0.5 { ProductNonNegative(0.5 - gap, pm); } else { Strictly(gap - 0.5, pm); }
  }

  lemma NearWhole(i: nat, cnt: nat, q: nat, f: real, p: real)
    requires i < 100 && cnt <= MAX_COUNT && i * cnt == 100 * q && p == Times(f, cnt as real)
    requires var x := i as real / 100.0; -x <= (f - x) * 9007199254740992.0 <= x
    ensures q as real - 0.5 <= p <= q as real + 0.5
  {
    SampleProduct(i, cnt);
    ScaleError(f, i as real / 100.0, cnt as real, p, q as real);
  }

  lemma GapScaled(i: nat, cnt: nat, q: nat, f: real, n: nat, s: nat, p: real)
    requires i * cnt == 100 * q && p == Times(f, cnt as real) && Times(f, n as real) == s as real
    ensures (q as real - p) * (100.0 * n as real) == ((i * n - 100 * s) * cnt) as real
  {
    var c, r := cnt as real, n as real;
    Swap(f, c, r);
    assert p * r == (s * cnt) as real;
    assert q as real * r == (q * n) as real;
    assert (q as real - p) * (100.0 * r) == 100.0 * (q as real * r) - 100.0 * (p * r);
    assert 100 * (q * n) == (i * n) * cnt by {
      assert (100 * q) * n == (i * cnt) * n == (i * n) * cnt;
    }
    assert (i * n - 100 * s) * cnt == (i * n) * cnt - 100 * (s * cnt);
  }

  lemma Swap(a: real, b: real, c: real)
    ensures (a * b) * c == (a * c) * b
  {
  }

  lemma ComparedShortfall(gap: real, d: int, n: nat, m: nat)
    requires n > 0 && gap * (100.0 * n as real) == d as real
    ensures gap * 18014398509481984.0 <= m as real <==> d * 18014398509481984 <= 100 * n * m
  {
    var k := 100.0 * n as real;
    assert (gap * 18014398509481984.0) * k == (gap * k) * 18014398509481984.0;
    assert m as real * k == (100 * n * m) as real by {
      assert m as real * n as real == (m * n) as real;
      assert 100 * n * m == 100 * (m * n);
    }
    CompareScaled(m as real, gap * 18014398509481984.0, k);
  }

  lemma RoundReaches(p: real, q: nat)
    requires 1 <= q <= MAX_COUNT && q as real - 0.5 <= p <= q as real + 0.5
    ensures RoundDouble(p) >= q as real
       <==> (q as real - p) * 18014398509481984.0 <= Pow2(CeilLog2(q)) as real
  {
    if p < q as real {
      RoundReachesFromBelow(p, q);
    } else {
      RoundKeepsAbove(p, q);
    }
  }

  /** The gap between the quotient and the product, compared in integers. */
  lemma GapCompared(i: nat, cnt: nat, q: nat, f: real, n: nat, s: nat, p: real, m: nat)
    requires i * cnt == 100 * q && p == Times(f, cnt as real) && Times(f, n as real) == s as real && n > 0
    ensures (q as real - p) * 18014398509481984.0 <= m as real
       <==> (i * n - 100 * s) * cnt * 18014398509481984 <= 100 * n * m
  {
    GapScaled(i, cnt, q, f, n, s, p);
    ComparedShortfall(q as real - p, (i * n - 100 * s) * cnt, n, m);
  }

  /** The product of the rounded fraction f and cnt is close to the quotient, and reaches it or not. */
  lemma ProductReaches(i: nat, cnt: nat, q: nat, f: real, p: real)
    requires 0 < i < 100 && 1 <= cnt <= MAX_COUNT && i * cnt == 100 * q && 1 <= q <= MAX_COUNT
    requires f == RoundDouble(i as real / 100.0) && p == Times(f, cnt as real)
    ensures p >= 0.0
    ensures RoundDouble(p) >= q as real
       <==> Shortfall(i) * cnt * 18014398509481984 <= 100 * Pow2(Doublings(i)) * Pow2(CeilLog2(q))
  {
    NearWhole(i, cnt, q, f, p);
    RoundReaches(p, q);
    FractionScaled(i);
    GapCompared(i, cnt, q, f, Pow2(Doublings(i)), Significand(i), p, Pow2(CeilLog2(q)));
  }

  lemma RoundsBackIffClose(i: nat, cnt: nat, q: nat)
    requires 0 < i < 100 && 1 <= cnt <= MAX_COUNT && i * cnt == 100 * q && 1 <= q <= MAX_COUNT
    ensures RoundDouble(Multiple(RoundDouble(i as real / 100.0), cnt)) >= q as real
       <==> Shortfall(i) * cnt * 18014398509481984 <= 100 * Pow2(Doublings(i)) * Pow2(CeilLog2(q))
  {
    var f := RoundDouble(i as real / 100.0);
    MultipleIsProduct(f, cnt);
    ProductReaches(i, cnt, q, f, Multiple(f, cnt));
  }

  /**
   The position is a valid index, and in integer arithmetic it is the quotient i*cnt/100, rounded down, and
   one less exactly when ReadsOneLess says so.
   */
  lemma PositionFormula(i: nat, cnt: nat)
    requires i < 100 && 1 <= cnt <= MAX_COUNT
    ensures QuantilePos(i, cnt) < cnt
    ensures QuantilePos(i, cnt) == (i * cnt) / 100 - (if ReadsOneLess(i, cnt) then 1 else 0)
  {
    PositionNearQuotient(i, cnt);
    if (i * cnt) % 100 == 0 && i > 0 {
      MulMonotone(1, i, cnt);
      MulMonotone(i, 99, cnt);
      RoundsBackIffClose(i, cnt, (i * cnt) / 100);
    }
  }

  /** The 29th percentile of 100 records is read at position 28, not 29. */
  lemma OneLessOccurs()
    ensures ReadsOneLess(29, 100) && QuantilePos(29, 100) == 28
  {
    SmallPowers();
    DoublingsUnique(29, 54);
    assert Shortfall(29) == 36;
    LogUnique(29, 5);
    assert Pow2(5) == 32;
    PositionFormula(29, 100);
  }

  lemma DoublingsUnique(v: nat, n: nat)
    requires 0 < v < 900719925474099200
    requires 450359962737049600 <= v * Pow2(n) < 900719925474099200
    ensures Doublings(v) == n
  {
    var k := Doublings(v);
    if k < n { DoubledAtLeast(v, k, n); } else if n < k { DoubledAtLeast(v, n, k); }
  }

  lemma DoubledAtLeast(v: nat, k: nat, n: nat)
    requires k < n
    ensures v * Pow2(n) >= 2 * (v * Pow2(k))
  {
    Pow2Monotone(k + 1, n);
    MulMonotone(2 * Pow2(k), Pow2(n), v);
  }

  lemma LogUnique(q: nat, m: nat)
    requires q >= 1 && q <= Pow2(m) && (m > 0 ==> Pow2(m - 1) < q)
    ensures CeilLog2(q) == m
  {
    var k := CeilLog2(q);
    if k < m { Pow2Monotone(k, m - 1); } else if m < k { Pow2Monotone(m, k - 1); }
  }
}
