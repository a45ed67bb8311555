/**
 * Facts about products, quotients and powers of naturals that the fixed-point
 * code of the scheduler relies on.
 */
module Arithmetic {

  const TWO32: nat := 0x1_0000_0000
  const TWO63: int := 0x8000_0000_0000_0000
  const TWO64: int := 0x1_0000_0000_0000_0000

  /** The value an unsigned 32-bit field holds after x is stored in it. */
  function U32(x: int): (r: nat)
    ensures r < TWO32
    ensures 0 <= x < TWO32 ==> r == x
  {
    x % TWO32
  }

  function Min(a: int, b: int): int {
    if a <= b then a else b
  }

  function Max(a: int, b: int): int {
    if a <= b then b else a
  }

  function Pow(b: nat, e: nat): nat {
    if e == 0 then 1 else b * Pow(b, e - 1)
  }

  /** The C expression v >> k for an unsigned v. */
  function Shr(v: nat, k: nat): nat {
    if k == 0 then v else Shr(v / 2, k - 1)
  }

  // -------------------------------------------------------------- products

  lemma MulMonotone(a: nat, b: nat, c: nat, d: nat)
    requires a <= b && c <= d
    ensures a * c <= b * d
  {
    assert a * c <= b * c by { assert (b - a) * c >= 0; }
    assert b * c <= b * d by { assert b * (d - c) >= 0; }
  }

  lemma MulCancel(a: nat, b: nat, c: nat)
    requires c > 0
    requires a * c <= b * c
    ensures a <= b
  {
    if a > b {
      assert (a - b) * c >= c by { MulMonotone(1, a - b, c, c); }
      assert false;
    }
  }

  lemma Distribute(a: nat, b: nat, c: nat)
    ensures (a + b) * c == a * c + b * c
  {
  }

  lemma Associate(a: nat, b: nat, c: nat)
    ensures a * b * c == a * (b * c)
    ensures a * b * c == a * c * b
  {
  }

  lemma Interchange(a: nat, b: nat, p: nat, q: nat)
    ensures a * b * (p * q) == (a * p) * (b * q)
  {
    assert a * b * (p * q) == a * (b * (p * q));
    assert b * (p * q) == p * (b * q);
    assert a * (p * (b * q)) == a * p * (b * q);
  }

  // ------------------------------------------------------------- quotients

  /** q is the quotient of x by d. */
  ghost predicate IsQuotient(q: nat, x: nat, d: nat) {
    var p := q * d;
    p <= x < p + d
  }

  lemma DivQuotient(x: nat, d: nat)
    requires d > 0
    ensures IsQuotient(x / d, x, d)
  {
    assert x == x / d * d + x % d;
  }

  lemma QuotientOrder(p: nat, q: nat, d: nat, x: nat, y: nat)
    requires p * d <= x <= y < q * d + d
    ensures p <= q
  {
    Distribute(q, 1, d);
    if q < p {
      MulMonotone(q + 1, p, d, d);
      assert false;
    }
  }

  lemma DivMonotone(x: nat, y: nat, d: nat)
    requires d > 0
    requires x <= y
    ensures x / d <= y / d
  {
    DivQuotient(x, d);
    DivQuotient(y, d);
    QuotientOrder(x / d, y / d, d, x, y);
  }

  lemma DivAtLeast(x: nat, d: nat, q: nat)
    requires d > 0
    requires q * d <= x
    ensures q <= x / d
  {
    DivQuotient(x, d);
    QuotientOrder(q, x / d, d, x, x);
  }

  lemma DivAtMost(x: nat, d: nat, q: nat)
    requires d > 0
    requires x < q * d + d
    ensures x / d <= q
  {
    DivQuotient(x, d);
    QuotientOrder(x / d, q, d, x, x);
  }

  // ---------------------------------------------------------------- powers

  lemma {:induction false} PowPositive(b: nat, e: nat)
    requires b > 0
    ensures Pow(b, e) > 0
  {
    if e > 0 {
      PowPositive(b, e - 1);
      MulMonotone(1, b, 1, Pow(b, e - 1));
    }
  }

  lemma {:induction false} PowMonotone(a: nat, b: nat, e: nat)
    requires a <= b
    ensures Pow(a, e) <= Pow(b, e)
  {
    if e > 0 {
      PowMonotone(a, b, e - 1);
      MulMonotone(a, b, Pow(a, e - 1), Pow(b, e - 1));
    }
  }

  lemma {:induction false} PowProduct(a: nat, b: nat, e: nat)
    ensures Pow(a * b, e) == Pow(a, e) * Pow(b, e)
  {
    if e > 0 {
      PowProduct(a, b, e - 1);
      Interchange(a, b, Pow(a, e - 1), Pow(b, e - 1));
    }
  }

  lemma {:induction false} PowSum(b: nat, m: nat, n: nat)
    ensures Pow(b, m + n) == Pow(b, m) * Pow(b, n)
  {
    if m > 0 {
      PowSum(b, m - 1, n);
      assert Pow(b, m + n) == b * Pow(b, m - 1 + n);
      Associate(b, Pow(b, m - 1), Pow(b, n));
    }
  }

  lemma {:induction false} PowPow(b: nat, m: nat, n: nat)
    ensures Pow(Pow(b, m), n) == Pow(b, m * n)
  {
    if n == 0 {
      assert m * n == 0;
    } else {
      PowPow(b, m, n - 1);
      assert m * n == m + m * (n - 1);
      PowSum(b, m, m * (n - 1));
    }
  }

  lemma PowTwo32()
    ensures Pow(2, 32) == TWO32
  {
    assert Pow(2, 8) == 256;
    PowSum(2, 8, 8);
    PowSum(2, 16, 16);
  }

  // ---------------------------------------------------------------- shifts

  lemma {:induction false} ShrAbove(v: nat, k: nat)
    ensures v < (Shr(v, k) + 1) * Pow(2, k)
  {
    if k > 0 {
      ShrAbove(v / 2, k - 1);
      HalvedAbove(v, Shr(v / 2, k - 1) + 1, Pow(2, k - 1));
    }
  }

  lemma HalvedAbove(v: nat, s: nat, p: nat)
    requires v / 2 < s * p
    ensures v < s * (2 * p)
  {
    Associate(s, 2, p);
    assert s * p * 2 > v;
  }

  lemma {:induction false} ShrHalves(v: nat, k: nat)
    ensures Shr(v, k) <= v && (k > 0 ==> 2 * Shr(v, k) <= v)
  {
    if k > 0 {
      ShrHalves(v / 2, k - 1);
    }
  }

  lemma {:induction false} ShrBelow(v: nat, k: nat)
    ensures Shr(v, k) * Pow(2, k) <= v
  {
    if k > 0 {
      ShrBelow(v / 2, k - 1);
      HalvedBelow(v, Shr(v / 2, k - 1), Pow(2, k - 1));
    }
  }

  lemma HalvedBelow(v: nat, s: nat, p: nat)
    requires s * p <= v / 2
    ensures s * (2 * p) <= v
  {
    Associate(s, 2, p);
    assert s * p * 2 <= v;
  }

  lemma {:induction false} ShrMonotone(v: nat, w: nat, k: nat)
    requires v <= w
    ensures Shr(v, k) <= Shr(w, k)
  {
    if k > 0 {
      ShrMonotone(v / 2, w / 2, k - 1);
    }
  }

  lemma {:induction false} ShrAgain(v: nat, k: nat)
    ensures Shr(v, k + 1) == Shr(v, k) / 2
  {
    if k > 0 {
      ShrAgain(v / 2, k - 1);
    }
  }

  /** Shifting two parts apart loses at most one unit. */
  lemma {:induction false} ShrSum(v: nat, w: nat, e: nat, k: nat)
    requires e <= 1
    ensures Shr(v, k) + Shr(w, k) <= Shr(v + w + e, k) <= Shr(v, k) + Shr(w, k) + 1
  {
    if k > 0 {
      var e' := (v + w + e) / 2 - v / 2 - w / 2;
      ShrSum(v / 2, w / 2, e', k - 1);
    }
  }
}
