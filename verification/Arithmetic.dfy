/** Facts about division and multiplication that the solver does not find by itself. */
module Arithmetic {

  lemma MultipleTooSmall(d: int, e: int)
    requires -d < d * e < d
    ensures e == 0
  {
  }

  /** Euclidean division is determined by its defining equation. */
  lemma DivModUnique(x: int, d: int, q: int, r: int)
    requires d > 0 && 0 <= r < d && x == d * q + r
    ensures x / d == q && x % d == r
  {
    var q', r' := x / d, x % d;
    assert x == d * q' + r' && 0 <= r' < d;
    assert d * (q - q') == d * q - d * q';
    MultipleTooSmall(d, q - q');
  }

  /** The defining equation itself. */
  lemma DivModEquation(x: nat, d: nat)
    requires d > 0
    ensures x == x / d * d + x % d && x % d < d
  {
  }

  /** Halving both sides of a division by an even modulus. */
  lemma HalvedDivision(x: nat, p: nat)
    requires p > 0
    ensures x % (2 * p) == 2 * (x / 2 % p) + x % 2
  {
    var h := x / 2;
    var q, r := h / p, h % p;
    assert h == p * q + r;
    assert (2 * p) * q == 2 * (p * q);
    DivModUnique(x, 2 * p, q, 2 * r + x % 2);
  }

  /** Reducing modulo a multiple of a first does not change the remainder modulo a. */
  lemma NestedModulo(x: int, a: nat, b: nat, n: nat)
    requires a > 0 && b > 0 && n > 0 && n == a * b
    ensures (x % n) % a == x % a
  {
    var q, w := x / n, x % n;
    assert x == n * q + w;
    var q', r := w / a, w % a;
    assert w == a * q' + r;
    assert n * q == a * (b * q);
    assert a * (b * q + q') == a * (b * q) + a * q';
    DivModUnique(x, a, b * q + q', r);
  }

  lemma MulMonotone(a: int, b: int, d: nat)
    requires a <= b
    ensures a * d <= b * d
  {
    assert (b - a) * d >= 0;
  }

  /** The numbers in [0, n*d) are those whose quotient by d is in [0, n). */
  lemma QuotientRange(v: int, n: nat, d: nat)
    requires d > 0
    ensures 0 <= v < n * d <==> 0 <= v / d < n
  {
    var q, r := v / d, v % d;
    assert v == q * d + r;
    if q < 0 { MulMonotone(q, -1, d); } else { MulMonotone(0, q, d); }
    if q >= n { MulMonotone(n, q, d); } else { MulMonotone(q, n - 1, d); assert (n - 1) * d == n * d - d; }
  }
}
