/** Quotients and powers of two, as far as address blocks need them. */
module Arithmetic {
  function Pow2(n: nat): (p: nat)
    ensures p > 0
  {
    if n == 0 then 1 else 2 * Pow2(n - 1)
  }

  lemma {:induction false} Pow2Sum(a: nat, b: nat)
    ensures Pow2(a + b) == Pow2(a) * Pow2(b)
  {
    if b > 0 {
      Pow2Sum(a, b - 1);
      assert Pow2(a) * Pow2(b) == 2 * (Pow2(a) * Pow2(b - 1));
    }
  }

  lemma ProductIsNat(a: nat, b: nat)
    ensures a * b >= 0
  {
  }

  /** Where the block of length `d` that holds `x` begins. */
  function BlockStart(x: nat, d: nat): nat
    requires d > 0
  {
    ProductIsNat(x / d, d);
    (x / d) * d
  }

  lemma SmallMultiple(k: int, d: nat)
    requires -(d as int) < k * d < d
    ensures k == 0
  {
    if k >= 1 {
      assert k * d == (k - 1) * d + d;
      ProductIsNat(k - 1, d);
    } else if k <= -1 {
      assert k * d == -((-k) * d) && (-k) * d == (-k - 1) * d + d;
      ProductIsNat(-k - 1, d);
    }
  }

  lemma QuotientIs(x: nat, d: nat, q: nat, r: nat)
    requires 0 <= r < d && x == q * d + r
    ensures x / d == q && x % d == r
  {
    assert x == (x / d) * d + x % d;
    assert (q - x / d) * d == x % d - r;
    SmallMultiple(q - x / d, d);
  }

  lemma QuotientOfQuotient(x: nat, s: nat, t: nat)
    requires s > 0 && t > 0
    ensures s * t > 0 && x / s / t == x / (s * t)
  {
    var q, r := x / s, x % s;
    var p, r2 := q / t, q % t;
    assert x == q * s + r && q == p * t + r2;
    assert q * s == (p * t) * s + r2 * s;
    assert (p * t) * s == p * (s * t);
    Remainder(r2, r, s, t);
    QuotientIs(x, s * t, p, r2 * s + r);
  }

  lemma Remainder(r2: nat, r: nat, s: nat, t: nat)
    requires r2 < t && r < s
    ensures 0 <= r2 * s + r < s * t
  {
    ProductIsNat(r2, s);
    ProductIsNat(t - 1 - r2, s);
    assert s * t == r2 * s + (t - 1 - r2) * s + s;
  }

  /** A number lies in exactly one of the blocks of length `d`. */
  lemma BlockOf(x: nat, y: nat, d: nat)
    requires d > 0
    ensures x / d == y / d <==> BlockStart(y, d) <= x < BlockStart(y, d) + d
  {
    assert x == (x / d) * d + x % d;
    if (y / d) * d <= x < (y / d) * d + d {
      QuotientIs(x, d, y / d, x - (y / d) * d);
    }
  }
}
