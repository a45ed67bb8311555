/**
 * Geometric decay of load sums: the lookup tables, decay_load and
 * decay_fast_load, and the laws the load tracking relies on.
 */
module Decay {
  import opened Arithmetic
  import opened Roots

  const LOAD_AVG_PERIOD: nat := 32
  const LOAD_AVG_FAST_PERIOD: nat := 3

  /** runnable_avg_yN_inv: 2^32 * y^i where y^32 = 1/2. */
  function YnInv(i: nat): nat
    requires i < LOAD_AVG_PERIOD
  {
    match i
    case 0 => 0xffffffff case 1 => 0xfa83b2da case 2 => 0xf5257d14 case 3 => 0xefe4b99a
    case 4 => 0xeac0c6e6 case 5 => 0xe5b906e6 case 6 => 0xe0ccdeeb case 7 => 0xdbfbb796
    case 8 => 0xd744fcc9 case 9 => 0xd2a81d91 case 10 => 0xce248c14 case 11 => 0xc9b9bd85
    case 12 => 0xc5672a10 case 13 => 0xc12c4cc9 case 14 => 0xbd08a39e case 15 => 0xb8fbaf46
    case 16 => 0xb504f333 case 17 => 0xb123f581 case 18 => 0xad583ee9 case 19 => 0xa9a15ab4
    case 20 => 0xa5fed6a9 case 21 => 0xa2704302 case 22 => 0x9ef5325f case 23 => 0x9b8d39b9
    case 24 => 0x9837f050 case 25 => 0x94f4efa8 case 26 => 0x91c3d373 case 27 => 0x8ea4398a
    case 28 => 0x8b95c1e3 case 29 => 0x88980e80 case 30 => 0x85aac367 case _ => 0x82cd8698
  }

  /** runnable_avg_fast_yN_inv: the same with y^3 = 1/2. */
  function FastYnInv(i: nat): nat
    requires i < LOAD_AVG_FAST_PERIOD
  {
    match i
    case 0 => 0xffffffff case 1 => 0xcb2ff529 case _ => 0xa14517cb
  }

  /** mul_u64_u32_shr(val, inv, 32): the product is formed in 128 bits. */
  function Scale32(val: nat, inv: nat): nat {
    val * inv / TWO32
  }

  function DecayLoad(val: nat, n: nat): nat {
    if n == 0 then val
    else if n > LOAD_AVG_PERIOD * 63 then 0
    else
      var shifted := if n >= LOAD_AVG_PERIOD then Shr(val, n / LOAD_AVG_PERIOD) else val;
      Scale32(shifted, YnInv(n % LOAD_AVG_PERIOD))
  }

  function DecayFastLoad(val: nat, n: nat): nat {
    if n == 0 then val
    else if n > LOAD_AVG_FAST_PERIOD * 63 then 0
    else
      var shifted := if n >= LOAD_AVG_FAST_PERIOD then Shr(val, n / LOAD_AVG_FAST_PERIOD) else val;
      Scale32(shifted, FastYnInv(n % LOAD_AVG_FAST_PERIOD))
  }

  // ---------------------------------------------- one shift and one product

  lemma ScaleMonotone(v: nat, w: nat, p: nat, q: nat)
    requires v <= w && p <= q
    ensures Scale32(v, p) <= Scale32(w, q)
  {
    MulMonotone(v, w, p, q);
  }

  lemma ScaleSum(v: nat, w: nat, e: nat, m: nat)
    requires e <= 1 && m < TWO32
    ensures Scale32(v, m) + Scale32(w, m) <= Scale32(v + w + e, m) <= Scale32(v, m) + Scale32(w, m) + 2
  {
    Distribute(v + w, e, m);
    Distribute(v, w, m);
    assert 0 <= e * m < TWO32 by { assert e == 0 || e == 1; }
  }

  lemma ShiftScaleSum(v: nat, w: nat, k: nat, m: nat)
    requires m < TWO32
    ensures Scale32(Shr(v, k), m) + Scale32(Shr(w, k), m)
         <= Scale32(Shr(v + w, k), m)
         <= Scale32(Shr(v, k), m) + Scale32(Shr(w, k), m) + 2
  {
    ShrSum(v, w, 0, k);
    ScaleSum(Shr(v, k), Shr(w, k), Shr(v + w, k) - Shr(v, k) - Shr(w, k), m);
  }

  /** A shift by k and a product with m stay below v * 2^-k * root, where root^period = 2^-i. */
  lemma ShiftScaleRoot(v: nat, k: nat, m: nat, period: nat, i: nat)
    requires Pow(m, period) * Pow(2, i) <= Pow(TWO32, period)
    ensures Pow(Scale32(Shr(v, k), m), period) * Pow(2, k * period + i) <= Pow(v, period)
  {
    var w := Shr(v, k);
    var d := Scale32(w, m);
    var D, T, W, M, S := Pow(d, period), Pow(TWO32, period), Pow(w, period), Pow(m, period), Pow(2, i);
    assert D * T <= W * M by {
      PowMonotone(d * TWO32, w * m, period);
      PowProduct(d, TWO32, period);
      PowProduct(w, m, period);
    }
    assert D * S <= W by {
      MulMonotone(D * T, W * M, S, S);
      MulMonotone(W, W, M * S, T);
      Associate(W, M, S);
      Associate(D, T, S);
      PowPositive(TWO32, period);
      MulCancel(D * S, W, T);
    }
    var K := Pow(2, k * period);
    assert W * K <= Pow(v, period) by {
      ShrBelow(v, k);
      PowMonotone(w * Pow(2, k), v, period);
      PowProduct(w, Pow(2, k), period);
      PowPow(2, k, period);
    }
    PowSum(2, k * period, i);
    MulMonotone(D * S, W, K, K);
    Associate(D, S, K);
    assert D * (S * K) == D * (K * S);
  }

  /** The other way round: if u * 2^k covers v, and x what u and the next but one root make, x is at least v * 2^-k * root. */
  lemma ShiftScaleAbove(v: nat, u: nat, k: nat, m: nat, period: nat, i: nat, x: nat)
    requires Pow(TWO32, period) <= Pow(m + 2, period) * Pow(2, i)
    requires v <= u * Pow(2, k) && u * (m + 2) <= x * TWO32
    ensures Pow(v, period) <= Pow(x, period) * Pow(2, k * period + i)
  {
    var V, U, X, K := Pow(v, period), Pow(u, period), Pow(x, period), Pow(2, k * period);
    var T, M, S := Pow(TWO32, period), Pow(m + 2, period), Pow(2, i);
    assert V <= U * K by {
      PowMonotone(v, u * Pow(2, k), period);
      PowProduct(u, Pow(2, k), period);
      PowPow(2, k, period);
    }
    assert U * M <= X * T by {
      PowMonotone(u * (m + 2), x * TWO32, period);
      PowProduct(u, m + 2, period);
      PowProduct(x, TWO32, period);
    }
    PowPositive(TWO32, period);
    PowSum(2, k * period, i);
    hide Pow;
    ChainAbove(V, U, K, T, M, S, X);
  }

  lemma ChainAbove(V: nat, U: nat, K: nat, T: nat, M: nat, S: nat, X: nat)
    requires V <= U * K && T <= M * S && U * M <= X * T && T > 0
    ensures V <= X * (K * S)
  {
    calc {
      V * T;
    <=  { MulMonotone(V, U * K, T, M * S); }
      U * K * (M * S);
    ==  { Interchange(U, K, M, S); }
      U * M * (K * S);
    <=  { MulMonotone(U * M, X * T, K * S, K * S); }
      X * T * (K * S);
    ==  { Associate(X, T, K * S); }
      X * (K * S) * T;
    }
    MulCancel(V, X * (K * S), T);
  }

  /** What a product loses to rounding and to the table, whose entries are less than two units short. */
  lemma ScaledAbove(u: nat, w: nat, m: nat, x: nat)
    requires m < TWO32 && w <= u <= w + 1
    requires if u == w then 2 * w < (x - Scale32(w, m) - 1) * TWO32 else 2 * w < (x - Scale32(w, m) - 2) * TWO32
    ensures u * (m + 2) <= x * TWO32
  {
    var d := Scale32(w, m);
    DivQuotient(w * m, TWO32);
    assert u * (m + 2) == if u == w then w * m + 2 * w else w * m + 2 * w + m + 2;
  }

  // ------------------------------------------------------------ table facts

  /** Squared, an entry is at most the 64-bit root twice as far on, and two units more are at least that. */
  lemma SlowSquares(i: nat)
    requires i < 32
    ensures YnInv(i) * YnInv(i) * TwoTo(2 * i / 32) <= Low(2 * i % 32)
    ensures High(2 * i % 32) <= (YnInv(i) + 2) * (YnInv(i) + 2) * TwoTo(2 * i / 32)
  {
  }

  lemma SlowRootOf(i: nat, m: nat, period: nat)
    requires i < 32 && m == YnInv(i) && period == LOAD_AVG_PERIOD
    ensures Pow(m, period) * Pow(2, i) <= Pow(TWO32, period) <= Pow(m + 2, period) * Pow(2, i)
  {
    hide Pow, YnInv, Low, High, TwoTo;
    SlowSquares(i);
    RootOf(i, m, m + 2, period);
  }

  lemma SlowTableFalls(i: nat)
    requires i < 31
    ensures YnInv(i + 1) <= YnInv(i) < TWO32
  {
  }

  lemma FastRootAt(i: nat, period: nat)
    requires i < 3 && period == LOAD_AVG_FAST_PERIOD
    ensures Pow(FastYnInv(i), period) * Pow(2, i) <= Pow(TWO32, period) <= Pow(FastYnInv(i) + 2, period) * Pow(2, i)
  {
    Cube(FastYnInv(i), period);
    Cube(FastYnInv(i) + 2, period);
    Cube(TWO32, period);
    assert Pow(2, 0) == 1 && Pow(2, 1) == 2 && Pow(2, 2) == 4;
  }

  lemma Cube(b: nat, e: nat)
    requires e == 3
    ensures Pow(b, e) == b * (b * b)
  {
    assert Pow(b, 1) == b && Pow(b, 2) == b * b;
  }

  // ------------------------------------------------------------------- laws

  /** Decay by n periods stays below v * y^n with y^32 = 1/2: raised to the 32nd power. */
  lemma DecayBelowPower(v: nat, n: nat, period: nat)
    requires period == LOAD_AVG_PERIOD
    ensures Pow(DecayLoad(v, n), period) * Pow(2, n) <= Pow(v, period)
  {
    hide Pow, Shr, YnInv;
    if n > period * 63 {
      PowZero(period);
    } else if n > 0 {
      var k, i := n / LOAD_AVG_PERIOD, n % LOAD_AVG_PERIOD;
      var m := YnInv(i);
      assert DecayLoad(v, n) == Scale32(Shr(v, k), m) by { ShrNone(v); }
      assert n == k * period + i;
      SlowRootOf(i, m, period);
      ShiftScaleRoot(v, k, m, period, i);
    } else {
      PowNone(2);
    }
  }

  lemma FastDecayBelowPower(v: nat, n: nat, period: nat)
    requires period == LOAD_AVG_FAST_PERIOD
    ensures Pow(DecayFastLoad(v, n), period) * Pow(2, n) <= Pow(v, period)
  {
    if n > period * 63 {
      assert Pow(0, period) == 0;
    } else if n > 0 {
      FastRootAt(n % 3, period);
      ShiftScaleRoot(v, n / 3, FastYnInv(n % 3), period, n % 3);
      assert n / 3 * period + n % 3 == n;
    }
  }

  /** The same with the number of periods that halves a value written out. */
  lemma DecayNeverOverestimates(v: nat, n: nat)
    ensures Pow(DecayLoad(v, n), 32) * Pow(2, n) <= Pow(v, 32)
  {
    hide Pow, DecayLoad;
    DecayBelowPower(v, n, 32);
  }

  lemma FastDecayNeverOverestimates(v: nat, n: nat)
    ensures Pow(DecayFastLoad(v, n), 3) * Pow(2, n) <= Pow(v, 3)
  {
    hide Pow, DecayFastLoad;
    FastDecayBelowPower(v, n, 3);
  }

  /** What rounding, a shift and the tables may lose of v at most. */
  function Lost(v: nat): nat {
    3 + v / TWO32 * 2
  }

  /** A whole number of halvings and one product lose no more than Lost. */
  lemma ShiftScaleLoses(v: nat, k: nat, m: nat, period: nat, i: nat)
    requires m < TWO32 && Pow(TWO32, period) <= Pow(m + 2, period) * Pow(2, i)
    ensures Pow(v, period) <= Pow(Scale32(Shr(v, k), m) + Lost(v), period) * Pow(2, k * period + i)
  {
    var w := Shr(v, k);
    var u, x := if k == 0 then v else w + 1, Scale32(w, m) + Lost(v);
    DivQuotient(v, TWO32);
    ShrAbove(v, k);
    ShrHalves(v, k);
    hide Pow;
    ScaledAbove(u, w, m, x);
    ShiftScaleAbove(v, u, k, m, period, i, x);
  }

  /** After that many periods nothing is left, and all there was is lost. */
  lemma AllLost(v: nat, n: nat, period: nat)
    requires n >= 32 * period
    ensures Pow(v, period) <= Pow(Lost(v), period) * Pow(2, n)
  {
    DivQuotient(v, TWO32);
    PowMonotone(v, Lost(v) * TWO32, period);
    PowProduct(Lost(v), TWO32, period);
    PowTwo32();
    PowPow(2, 32, period);
    PowSum(2, 32 * period, n - 32 * period);
    PowPositive(2, n - 32 * period);
    hide Pow, Lost;
    MulMonotone(Pow(2, 32 * period), Pow(2, 32 * period), 1, Pow(2, n - 32 * period));
    MulMonotone(Pow(Lost(v), period), Pow(Lost(v), period), Pow(2, 32 * period), Pow(2, n));
  }

  lemma DecayAbovePower(v: nat, n: nat, period: nat)
    requires period == LOAD_AVG_PERIOD
    ensures Pow(v, period) <= Pow(DecayLoad(v, n) + Lost(v), period) * Pow(2, n)
  {
    hide Pow, Lost, Shr, YnInv;
    if n > period * 63 {
      AllLost(v, n, period);
    } else if n > 0 {
      var k, i := n / LOAD_AVG_PERIOD, n % LOAD_AVG_PERIOD;
      var m := YnInv(i);
      assert DecayLoad(v, n) == Scale32(Shr(v, k), m) by { ShrNone(v); }
      assert n == k * period + i;
      SlowRootOf(i, m, period);
      InvFits(i);
      ShiftScaleLoses(v, k, m, period, i);
    } else {
      NothingLost(v, period);
    }
  }

  lemma FastDecayAbovePower(v: nat, n: nat, period: nat)
    requires period == LOAD_AVG_FAST_PERIOD
    ensures Pow(v, period) <= Pow(DecayFastLoad(v, n) + Lost(v), period) * Pow(2, n)
  {
    hide Pow, Lost, Shr, FastYnInv;
    if n > period * 63 {
      AllLost(v, n, period);
    } else if n > 0 {
      var k, i := n / LOAD_AVG_FAST_PERIOD, n % LOAD_AVG_FAST_PERIOD;
      var m := FastYnInv(i);
      assert DecayFastLoad(v, n) == Scale32(Shr(v, k), m) by { ShrNone(v); }
      assert n == k * period + i;
      FastRootAt(i, period);
      FastInvFits(i);
      ShiftScaleLoses(v, k, m, period, i);
    } else {
      NothingLost(v, period);
    }
  }

  lemma InvFits(i: nat)
    requires i < LOAD_AVG_PERIOD
    ensures YnInv(i) < TWO32
  {
  }

  lemma FastInvFits(i: nat)
    requires i < LOAD_AVG_FAST_PERIOD
    ensures FastYnInv(i) < TWO32
  {
  }

  lemma PowZero(e: nat)
    requires e > 0
    ensures Pow(0, e) == 0
  {
  }

  lemma PowNone(b: nat)
    ensures Pow(b, 0) == 1
  {
  }

  lemma ShrNone(v: nat)
    ensures Shr(v, 0) == v
  {
  }

  lemma NothingLost(v: nat, period: nat)
    ensures Pow(v, period) <= Pow(v + Lost(v), period) * Pow(2, 0)
  {
    PowMonotone(v, v + Lost(v), period);
  }

  /** Nor does it fall short by more than three units, and two for each 2^32 of the value. */
  lemma DecayHardlyUnderestimates(v: nat, n: nat)
    ensures Pow(v, 32) <= Pow(DecayLoad(v, n) + 3 + v / TWO32 * 2, 32) * Pow(2, n)
  {
    hide Pow, DecayLoad;
    DecayAbovePower(v, n, 32);
  }

  lemma FastDecayHardlyUnderestimates(v: nat, n: nat)
    ensures Pow(v, 3) <= Pow(DecayFastLoad(v, n) + 3 + v / TWO32 * 2, 3) * Pow(2, n)
  {
    hide Pow, DecayFastLoad;
    FastDecayAbovePower(v, n, 3);
  }

  lemma DecayMonotone(v: nat, w: nat, n: nat)
    requires v <= w
    ensures DecayLoad(v, n) <= DecayLoad(w, n)
    ensures DecayFastLoad(v, n) <= DecayFastLoad(w, n)
  {
    ShrMonotone(v, w, n / 32);
    ScaleMonotone(v, w, YnInv(n % 32), YnInv(n % 32));
    ScaleMonotone(Shr(v, n / 32), Shr(w, n / 32), YnInv(n % 32), YnInv(n % 32));
    ShrMonotone(v, w, n / 3);
    ScaleMonotone(v, w, FastYnInv(n % 3), FastYnInv(n % 3));
    ScaleMonotone(Shr(v, n / 3), Shr(w, n / 3), FastYnInv(n % 3), FastYnInv(n % 3));
  }

  /** Decaying two parts apart never gains load and loses at most two units. */
  lemma DecaySum(v: nat, w: nat, n: nat)
    ensures DecayLoad(v, n) + DecayLoad(w, n) <= DecayLoad(v + w, n) <= DecayLoad(v, n) + DecayLoad(w, n) + 2
  {
    ScaleSum(v, w, 0, YnInv(n % 32));
    ShiftScaleSum(v, w, n / 32, YnInv(n % 32));
  }

  lemma FastDecaySum(v: nat, w: nat, n: nat)
    ensures DecayFastLoad(v, n) + DecayFastLoad(w, n)
         <= DecayFastLoad(v + w, n)
         <= DecayFastLoad(v, n) + DecayFastLoad(w, n) + 2
  {
    ScaleSum(v, w, 0, FastYnInv(n % 3));
    ShiftScaleSum(v, w, n / 3, FastYnInv(n % 3));
  }

  /** One more halving costs at least as much as the last table entry does. */
  lemma ShiftBoundary(v: nat, k: nat, first: nat, last: nat)
    requires first <= 2 * last
    ensures Scale32(Shr(v, k + 1), first) <= Scale32(Shr(v, k), last)
  {
    ShrAgain(v, k);
    var x := Shr(v, k);
    MulMonotone(x / 2, x / 2, first, 2 * last);
    assert x / 2 * (2 * last) == x / 2 * 2 * last;
    MulMonotone(x / 2 * 2, x, last, last);
  }

  lemma DecayStep(v: nat, n: nat)
    ensures DecayLoad(v, n + 1) <= DecayLoad(v, n)
  {
    if 0 < n < 32 * 63 {
      var k, i := n / 32, n % 32;
      if i < 31 {
        assert (n + 1) / 32 == k && (n + 1) % 32 == i + 1;
        SlowTableFalls(i);
        ScaleMonotone(Shr(v, k), Shr(v, k), YnInv(i + 1), YnInv(i));
      } else {
        assert (n + 1) / 32 == k + 1 && (n + 1) % 32 == 0;
        ShiftBoundary(v, k, YnInv(0), YnInv(31));
      }
    }
  }

  lemma FastDecayStep(v: nat, n: nat)
    ensures DecayFastLoad(v, n + 1) <= DecayFastLoad(v, n)
  {
    if 0 < n < 3 * 63 {
      var k, i := n / 3, n % 3;
      if i < 2 {
        assert (n + 1) / 3 == k && (n + 1) % 3 == i + 1;
        ScaleMonotone(Shr(v, k), Shr(v, k), FastYnInv(i + 1), FastYnInv(i));
      } else {
        assert (n + 1) / 3 == k + 1 && (n + 1) % 3 == 0;
        ShiftBoundary(v, k, FastYnInv(0), FastYnInv(2));
      }
    }
  }

  /** Waiting longer never leaves more load, across every shift boundary. */
  lemma {:induction false} DecayAntitone(v: nat, m: nat, n: nat)
    requires m <= n
    ensures DecayLoad(v, n) <= DecayLoad(v, m)
    ensures DecayFastLoad(v, n) <= DecayFastLoad(v, m)
    decreases n - m
  {
    if m < n {
      DecayAntitone(v, m + 1, n);
      DecayStep(v, m);
      FastDecayStep(v, m);
    }
  }
}
