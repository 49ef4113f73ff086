/**
 The position of a quantile in a report, computed in double precision and truncated.  Doubles are reals
 rounded to nearest, ties to even, with a 53-bit significand (binary64, section 4.3.1 of IEEE 754-2019)
 and an unbounded exponent, which suffices for the values that occur here.
 */
module Quantile {
  import opened Arithmetic
  import opened BitMask

  /** 2^45 records; the error bound below needs no more than this many. */
  const MAX_COUNT: int := 35184372088832

  /** The nearest integer, ties to even. */
  function NearestInteger(y: real): (n: int)
    ensures -0.5 <= n as real - y <= 0.5
  {
    var f := y.Floor;
    var d := y - f as real;
    if d < 0.5 || (d == 0.5 && f % 2 == 0) then f else f + 1
  }

  /** Rounding below the binade of 53-bit integers: scale up by two, round, scale down. */
  function RoundSmall(y: real): (r: real)
    requires 0.0 < y < 9007199254740992.0
    ensures -y <= (r - y) * 9007199254740992.0 <= y
    decreases (4503599627370496.0 / y).Floor
  {
    if y < 4503599627370496.0 then
      HalvesFloor(y);
      RoundSmall(2.0 * y) / 2.0
    else NearestInteger(y) as real
  }

  lemma HalvesFloor(y: real)
    requires 0.0 < y < 4503599627370496.0
    ensures 0 <= (4503599627370496.0 / (2.0 * y)).Floor < (4503599627370496.0 / y).Floor
  {
    var q := 4503599627370496.0 / y;
    assert q * y == 4503599627370496.0;
    QuotientAboveOne(q, y);
    var h := 4503599627370496.0 / (2.0 * y);
    assert h * (2.0 * y) == 4503599627370496.0;
    assert (2.0 * h) * y == q * y;
    assert 2.0 * h == q;
  }

  lemma QuotientAboveOne(q: real, y: real)
    requires 0.0 < y < q * y
    ensures q > 1.0
  {
  }

  /** Rounding above it: scale down by two, round, scale up. */
  function RoundLarge(y: real): (r: real)
    requires y >= 4503599627370496.0
    ensures -y <= (r - y) * 9007199254740992.0 <= y
    decreases y.Floor
  {
    if y >= 9007199254740992.0 then 2.0 * RoundLarge(y / 2.0) else NearestInteger(y) as real
  }

  /** The double nearest to a nonnegative real, with its relative error. */
  function RoundDouble(x: real): (r: real)
    requires x >= 0.0
    ensures -x <= (r - x) * 9007199254740992.0 <= x
  {
    if x == 0.0 then 0.0 else if x < 9007199254740992.0 then RoundSmall(x) else RoundLarge(x)
  }

  /** The integer part of a nonnegative real: the cast to int. */
  function Truncate(x: real): (n: int)
    requires x >= 0.0
    ensures 0 <= n && n as real <= x < n as real + 1.0
  {
    x.Floor
  }

  function Times(a: real, b: real): (p: real)
    ensures a >= 0.0 && b >= 0.0 ==> p >= 0.0
  {
    a * b
  }

  /** a * n as n-fold addition, which keeps products of variables out of every proof about reports. */
  function Multiple(a: real, n: nat): (p: real)
    ensures a >= 0.0 ==> p >= 0.0
  {
    if n == 0 then 0.0 else a + Multiple(a, n - 1)
  }

  lemma {:induction false} MultipleIsProduct(a: real, n: nat)
    ensures Multiple(a, n) == Times(a, n as real)
  {
    if n == 0 {
      assert a * 0.0 == 0.0;
    } else {
      MultipleIsProduct(a, n - 1);
      assert a * n as real == a + a * (n - 1) as real;
    }
  }

  /** (int)((i / 100.0) * cnt): two operations, each rounded once; i and cnt are exact as doubles. */
  function QuantilePos(i: nat, cnt: nat): (pos: nat)
  {
    Truncate(RoundDouble(Multiple(RoundDouble(i as real / 100.0), cnt)))
  }

  /** The rounded product differs from i*cnt/100 by less than 1/100. */
  lemma ProductError(i: nat, cnt: nat)
    requires i < 100 && 1 <= cnt <= MAX_COUNT
    ensures var product := Multiple(RoundDouble(i as real / 100.0), cnt);
      && product >= 0.0
      && -1.0 < 100.0 * RoundDouble(product) - (i * cnt) as real < 1.0
      && (i == 0 ==> RoundDouble(product) == 0.0)
  {
    TwoRoundings(i as real / 100.0, cnt as real);
    MultipleIsProduct(RoundDouble(i as real / 100.0), cnt);
    SampleProduct(i, cnt);
  }

  lemma TwoRoundings(x: real, c: real)
    requires 0.0 <= x <= 0.99 && 0.0 <= c <= 35184372088832.0
    ensures var product := Times(RoundDouble(x), c);
      && product >= 0.0
      && -1.0 < 100.0 * RoundDouble(product) - 100.0 * Times(x, c) < 1.0
      && (x == 0.0 ==> RoundDouble(product) == 0.0)
  {
    var f := RoundDouble(x);
    var exact, p := Times(x, c), Times(f, c);
    assert 0.0 <= f <= 1.0;
    ScaleError(f, x, c, p, exact);
    ScaleBounds(f, c, p);
    ErrorSum(exact, p, RoundDouble(p), c);
  }

  lemma SampleProduct(i: nat, cnt: nat)
    ensures 100.0 * Times(i as real / 100.0, cnt as real) == (i * cnt) as real
  {
    var x, c := i as real / 100.0, cnt as real;
    assert 100.0 * x == i as real;
    assert 100.0 * (x * c) == (100.0 * x) * c;
    assert i as real * c == (i * cnt) as real;
  }

  lemma ErrorSum(exact: real, p: real, r: real, c: real)
    requires 0.0 <= p <= c <= 35184372088832.0
    requires -c <= (p - exact) * 9007199254740992.0 <= c
    requires -p <= (r - p) * 9007199254740992.0 <= p
    ensures -1.0 < 100.0 * (r - exact) < 1.0
  {
  }

  lemma ScaleError(f: real, x: real, c: real, p: real, exact: real)
    requires 0.0 <= x <= 1.0 && c >= 0.0 && p == f * c && exact == x * c
    requires -x <= (f - x) * 9007199254740992.0 <= x
    ensures -c <= (p - exact) * 9007199254740992.0 <= c
  {
    var d := (f - x) * 9007199254740992.0;
    assert (p - exact) * 9007199254740992.0 == d * c;
    ProductNonNegative(1.0 - d, c);
    ProductNonNegative(1.0 + d, c);
  }

  lemma ScaleBounds(f: real, c: real, p: real)
    requires 0.0 <= f <= 1.0 && c >= 0.0 && p == f * c
    ensures 0.0 <= p <= c
  {
    ProductNonNegative(f, c);
    ProductNonNegative(1.0 - f, c);
  }

  lemma ProductNonNegative(a: real, b: real)
    requires a >= 0.0 && b >= 0.0
    ensures a * b >= 0.0
  {
  }

  /**
   The position is the exact quotient i*cnt/100, rounded down, whenever 100 does not divide i*cnt; and
   when it does, the position is that quotient or one less (QuantileExact tells which).  It is always a valid
   index.
   */
  lemma PositionNearQuotient(i: nat, cnt: nat)
    requires i < 100 && 1 <= cnt <= MAX_COUNT
    ensures QuantilePos(i, cnt) < cnt
    ensures (i * cnt) % 100 != 0 ==> QuantilePos(i, cnt) == (i * cnt) / 100
    ensures (i * cnt) % 100 == 0 ==>
      QuantilePos(i, cnt) == (i * cnt) / 100 || (i > 0 && QuantilePos(i, cnt) == (i * cnt) / 100 - 1)
  {
    ProductError(i, cnt);
    MulMonotone(i, 99, cnt);
    assert i == 0 ==> i * cnt == 0;
    var r := RoundDouble(Multiple(RoundDouble(i as real / 100.0), cnt));
    PositionFromError(i * cnt, r, QuantilePos(i, cnt));
    PositionBelowCount(i * cnt, r, QuantilePos(i, cnt), cnt);
  }

  lemma PositionBelowCount(n: nat, r: real, pos: nat, cnt: nat)
    requires -1.0 < 100.0 * r - n as real < 1.0 && n <= 99 * cnt && cnt >= 1
    requires pos as real <= r < pos as real + 1.0
    ensures pos < cnt
  {
  }

  lemma PositionFromError(n: nat, r: real, pos: nat)
    requires -1.0 < 100.0 * r - n as real < 1.0
    requires pos as real <= r < pos as real + 1.0
    ensures n % 100 != 0 ==> pos == n / 100
    ensures n % 100 == 0 ==> pos == n / 100 || pos == n / 100 - 1
  {
    var q, m := n / 100, n % 100;
    assert n == 100 * q + m;
    assert 100 * pos < n + 1;
    assert n < 100 * pos + 101;
  }

  /** Later quantiles never come from earlier positions. */
  lemma PositionsIncrease(i: nat, j: nat, cnt: nat)
    requires i <= j < 100 && 1 <= cnt <= MAX_COUNT
    ensures QuantilePos(i, cnt) <= QuantilePos(j, cnt)
  {
    PositionNearQuotient(i, cnt);
    PositionNearQuotient(j, cnt);
    if i < j {
      assert j * cnt == i * cnt + (j - i) * cnt;
      MulMonotone(1, j - i, cnt);
    }
  }

  // ----- Rounding as rounding of a scaled significand

  function Doubled(y: real, n: nat): real
    decreases n
  {
    if n == 0 then y else Doubled(2.0 * y, n - 1)
  }

  lemma {:induction false} DoubledIsProduct(y: real, n: nat)
    ensures Doubled(y, n) == Times(y, Pow2(n) as real)
    decreases n
  {
    if n == 0 {
    } else {
      DoubledIsProduct(2.0 * y, n - 1);
      var p := Pow2(n - 1) as real;
      assert Pow2(n) as real == 2.0 * p;
      assert (2.0 * y) * p == y * (2.0 * p);
    }
  }

  /** Rounding commutes with doubling as long as the significand has room. */
  lemma {:induction false} RoundDoubled(y: real, n: nat)
    requires 0.0 < y && (n > 0 ==> Doubled(y, n - 1) < 4503599627370496.0) && y < 9007199254740992.0
    ensures 0.0 < Doubled(y, n) < 9007199254740992.0
    ensures Doubled(RoundSmall(y), n) == RoundSmall(Doubled(y, n))
    decreases n
  {
    if n == 0 {
    } else {
      DoubledGrows(y, n - 1);
      assert RoundSmall(y) == RoundSmall(2.0 * y) / 2.0;
      RoundDoubled(2.0 * y, n - 1);
    }
  }

  lemma {:induction false} DoubledGrows(y: real, n: nat)
    requires 0.0 < y
    ensures Doubled(y, n) >= y
    decreases n
  {
    if n == 0 {
    } else {
      DoubledGrows(2.0 * y, n - 1);
    }
  }

  /** Rounding y, whose 2^n-fold t lies in the binade of 53-bit integers. */
  lemma RoundAt(y: real, n: nat, pn: real, t: real)
    requires 0.0 < y && n > 0 && pn == Pow2(n) as real && t == Times(y, pn)
    requires 4503599627370496.0 <= t < 9007199254740992.0
    ensures Times(RoundDouble(y), pn) == NearestInteger(t) as real
  {
    DoubledIsProduct(y, n);
    DoubledLast(y, n);
    DoubledGrows(y, n - 1);
    RoundDoubled(y, n);
    DoubledIsProduct(RoundSmall(y), n);
  }

  lemma {:induction false} DoubledLast(y: real, n: nat)
    requires n > 0
    ensures Doubled(y, n) == 2.0 * Doubled(y, n - 1)
    decreases n
  {
    if n == 1 {
    } else {
      DoubledLast(2.0 * y, n - 1);
    }
  }
}
