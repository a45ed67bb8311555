/**
 * Fractional powers of one half, in fixed point: what lies below and above
 * 2^(-j/32), shown by squaring down to whole powers.
 */
module Roots {
  import opened Arithmetic

  /** x over unit is at most 2^(-q/e). */
  ghost predicate AtMostRoot(x: nat, unit: nat, e: nat, q: nat) {
    Pow(x, e) * Pow(2, q) <= Pow(unit, e)
  }

  /** x over unit is at least 2^(-q/e). */
  ghost predicate AtLeastRoot(x: nat, unit: nat, e: nat, q: nat) {
    Pow(unit, e) <= Pow(x, e) * Pow(2, q)
  }

  function TwoTo(b: nat): nat
    requires b < 2
  {
    if b == 0 then 1 else 2
  }

  lemma TwoToThe(b: nat, e: nat)
    requires b < 2
    ensures Pow(TwoTo(b), e) == Pow(2, b * e)
  {
    assert Pow(2, 0) == 1 && Pow(2, 1) == 2;
    PowPow(2, b, e);
  }

  /** Both sides of x * x * 2^b * t and z * u * u to the power of e, and times 2^q. */
  lemma SquaredPowers(x: nat, b: nat, t: nat, z: nat, u: nat, e: nat, q: nat)
    requires b < 2
    ensures Pow(x * x * (TwoTo(b) * t), e) * Pow(2, q) == Pow(x, 2 * e) * Pow(2, b * e + q) * Pow(t, e)
    ensures Pow(z * (u * u), e) * Pow(2, q) == Pow(z, e) * Pow(2, q) * Pow(u, 2 * e)
  {
    PowProduct(x * x, TwoTo(b) * t, e);
    PowProduct(x, x, e);
    PowProduct(TwoTo(b), t, e);
    TwoToThe(b, e);
    PowSum(x, e, e);
    PowProduct(z, u * u, e);
    PowProduct(u, u, e);
    PowSum(u, e, e);
    PowSum(2, b * e, q);
    hide Pow;
    Reorder(Pow(x, 2 * e), Pow(2, b * e), Pow(t, e), Pow(2, q));
    Associate(Pow(z, e), Pow(u, 2 * e), Pow(2, q));
  }

  lemma Reorder(x: nat, b: nat, t: nat, q: nat)
    ensures x * (b * t) * q == x * (b * q) * t
  {
    Associate(x, b, t);
    Associate(x, b, q);
    Associate(x * b, t, q);
  }

  /** If the square of x, doubled b times, is at most z, then x is below the root of half of what z is below. */
  lemma RootBelow(x: nat, u: nat, z: nat, t: nat, b: nat, e: nat, q: nat)
    requires b < 2 && t > 0 && x * x * (TwoTo(b) * t) <= z * (u * u) && AtMostRoot(z, t, e, q)
    ensures AtMostRoot(x, u, 2 * e, b * e + q)
  {
    hide Pow;
    PowMonotone(x * x * (TwoTo(b) * t), z * (u * u), e);
    SquaredPowers(x, b, t, z, u, e, q);
    PowPositive(t, e);
    var X, Z, T, U, Q := Pow(x, 2 * e) * Pow(2, b * e + q), Pow(z, e) * Pow(2, q), Pow(t, e), Pow(u, 2 * e), Pow(2, q);
    MulMonotone(Pow(x * x * (TwoTo(b) * t), e), Pow(z * (u * u), e), Q, Q);
    MulMonotone(Z, T, U, U);
    assert X * T <= U * T;
    MulCancel(X, U, T);
  }

  lemma RootAbove(x: nat, u: nat, z: nat, t: nat, b: nat, e: nat, q: nat)
    requires b < 2 && t > 0 && z * (u * u) <= x * x * (TwoTo(b) * t) && AtLeastRoot(z, t, e, q)
    ensures AtLeastRoot(x, u, 2 * e, b * e + q)
  {
    hide Pow;
    PowMonotone(z * (u * u), x * x * (TwoTo(b) * t), e);
    SquaredPowers(x, b, t, z, u, e, q);
    PowPositive(t, e);
    var X, Z, T, U, Q := Pow(x, 2 * e) * Pow(2, b * e + q), Pow(z, e) * Pow(2, q), Pow(t, e), Pow(u, 2 * e), Pow(2, q);
    MulMonotone(Pow(z * (u * u), e), Pow(x * x * (TwoTo(b) * t), e), Q, Q);
    MulMonotone(T, Z, U, U);
    assert U * T <= X * T;
    MulCancel(U, X, T);
  }

  // ---------------------------------------------------------- 64-bit roots

  const UNIT: nat := 0x1_0000_0000_0000_0000

  /** 2^64 * y^j, rounded down, for y^32 = 1/2 and even j. */
  function Fine(j: nat): nat
    requires j < 32 && j % 2 == 0
  {
    match j
    case 0 => 0x1_0000_0000_0000_0000
    case 2 => 0xf525_7d15_2486_cc2c case 4 => 0xeac0_c6e7_dd24_392e case 6 => 0xe0cc_deec_2a94_e111
    case 8 => 0xd744_fcca_d69d_6af4 case 10 => 0xce24_8c15_1f84_80e3 case 12 => 0xc567_2a11_5506_dadd
    case 14 => 0xbd08_a39f_580c_36be case 16 => 0xb504_f333_f9de_6484 case 18 => 0xad58_3eea_42a1_4ac6
    case 20 => 0xa5fe_d6a9_b151_38ea case 22 => 0x9ef5_3260_91a1_11ad case 24 => 0x9837_f051_8db8_a96f
    case 26 => 0x91c3_d373_ab11_c336 case 28 => 0x8b95_c1e3_ea8b_d6e6 case _ => 0x85aa_c367_cc48_7b14
  }

  function Low(j: nat): nat
    requires j < 32 && j % 2 == 0
  {
    if j == 0 then UNIT else Fine(j) - 4
  }

  function High(j: nat): nat
    requires j < 32 && j % 2 == 0
  {
    if j == 0 then UNIT else Fine(j) + 4
  }

  /** The square of an entry is next to the entry twice as far on, halved when that is past the end. */
  lemma FineDoubles(j: nat)
    requires j < 32 && j % 2 == 0
    ensures Low(j) * Low(j) * TwoTo(2 * j / 32) <= Low(2 * j % 32) * UNIT
    ensures High(2 * j % 32) * UNIT <= High(j) * High(j) * TwoTo(2 * j / 32)
  {
  }

  /** e is the power of two at which the root of j becomes whole. */
  lemma {:induction false} FineRoot(j: nat, e: nat, q: nat)
    requires j < 32 && j % 2 == 0 && e in {1, 2, 4, 8, 16} && e * j == 32 * q
    ensures AtMostRoot(Low(j), UNIT, e, q) && AtLeastRoot(High(j), UNIT, e, q)
    decreases e
  {
    if e == 1 {
      WholeRoot(j, q);
    } else {
      hide Low, High, AtMostRoot, AtLeastRoot, TwoTo;
      var b, k, f := 2 * j / 32, 2 * j % 32, e / 2;
      var r := Halves(j, f, q);
      FineRoot(k, f, r);
      FineDoubles(j);
      FineStep(j, b, k, f, r);
    }
  }

  lemma WholeRoot(j: nat, q: nat)
    requires j < 32 && j % 2 == 0 && j == 32 * q
    ensures AtMostRoot(Low(j), UNIT, 1, q) && AtLeastRoot(High(j), UNIT, 1, q)
  {
    assert Pow(2, 0) == 1;
  }

  lemma Halves(j: nat, f: nat, q: nat) returns (r: nat)
    requires j < 32 && 2 * f * j == 32 * q
    ensures q == 2 * j / 32 * f + r && f * (2 * j % 32) == 32 * r
  {
    r := q - 2 * j / 32 * f;
  }

  lemma FineStep(j: nat, b: nat, k: nat, f: nat, r: nat)
    requires j < 32 && j % 2 == 0 && k < 32 && k % 2 == 0 && b < 2
    requires Low(j) * Low(j) * TwoTo(b) <= Low(k) * UNIT && High(k) * UNIT <= High(j) * High(j) * TwoTo(b)
    requires AtMostRoot(Low(k), UNIT, f, r) && AtLeastRoot(High(k), UNIT, f, r)
    ensures AtMostRoot(Low(j), UNIT, 2 * f, b * f + r) && AtLeastRoot(High(j), UNIT, 2 * f, b * f + r)
  {
    hide Low, High, AtMostRoot, AtLeastRoot, TwoTo;
    TimesUnit(Low(j), b, Low(k));
    TimesUnit(High(j), b, High(k));
    RootBelow(Low(j), UNIT, Low(k), UNIT, b, f, r);
    RootAbove(High(j), UNIT, High(k), UNIT, b, f, r);
  }

  lemma TimesUnit(x: nat, b: nat, z: nat)
    requires b < 2
    ensures x * x * TwoTo(b) <= z * UNIT ==> x * x * (TwoTo(b) * UNIT) <= z * (UNIT * UNIT)
    ensures z * UNIT <= x * x * TwoTo(b) ==> z * (UNIT * UNIT) <= x * x * (TwoTo(b) * UNIT)
  {
    Associate(x * x, TwoTo(b), UNIT);
    Associate(z, UNIT, UNIT);
  }

  /** A 32-bit root from its square: at most m is below it, and n above. */
  lemma RootOf(i: nat, m: nat, n: nat, period: nat)
    requires i < 32 && period == 32
    requires m * m * TwoTo(2 * i / 32) <= Low(2 * i % 32) && High(2 * i % 32) <= n * n * TwoTo(2 * i / 32)
    ensures AtMostRoot(m, TWO32, period, i) && AtLeastRoot(n, TWO32, period, i)
  {
    hide Low, High, AtMostRoot, AtLeastRoot, TwoTo;
    var b, k := 2 * i / 32, 2 * i % 32;
    var q := Halves(i, 16, i);
    FineRoot(k, 16, q);
    SquareUnit(m, b, Low(k));
    SquareUnit(n, b, High(k));
    RootBelow(m, TWO32, Low(k), UNIT, b, 16, q);
    RootAbove(n, TWO32, High(k), UNIT, b, 16, q);
  }

  lemma SquareUnit(x: nat, b: nat, z: nat)
    requires b < 2
    ensures x * x * TwoTo(b) <= z ==> x * x * (TwoTo(b) * UNIT) <= z * (TWO32 * TWO32)
    ensures z <= x * x * TwoTo(b) ==> z * (TWO32 * TWO32) <= x * x * (TwoTo(b) * UNIT)
  {
    Associate(x * x, TwoTo(b), UNIT);
  }
}
