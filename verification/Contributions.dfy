/**
 * Decay and contributions period by period: decaying by one more period, and
 * running for one more, is the same as doing so afterwards, to within a few
 * units, until the nominal maximum is returned instead.
 */
module Contributions {
  import opened Arithmetic
  import opened Decay
  import opened LoadAverage

  const TWO30: nat := 0x4000_0000

  /** The sum of two products with roots, next to the product with both. */
  lemma RootsCompose(v: nat, a: nat, b: nat, c: nat)
    requires v < TWO30 && a * b <= c * TWO32 <= a * b + 3 * TWO32 && 0 < b < TWO32
    ensures Scale32(Scale32(v, a), b) <= Scale32(v, c) <= Scale32(Scale32(v, a), b) + 2
  {
    var w, q := Scale32(v, a), Scale32(v, c);
    DivQuotient(v * a, TWO32);
    DivQuotient(v * c, TWO32);
    DivQuotient(w * b, TWO32);
    TwiceScaled(v, a, b, w, Scale32(w, b));
    ScaledTogether(v, a * b, c);
    NextToEachOther(Scale32(w, b), q, v * (a * b), v * c, v, b);
  }

  lemma ScaledTogether(v: nat, ab: nat, c: nat)
    requires ab <= c * TWO32 <= ab + 3 * TWO32
    ensures v * ab <= v * c * TWO32 <= v * ab + 3 * v * TWO32
  {
    MulMonotone(v, v, ab, c * TWO32);
    MulMonotone(v, v, c * TWO32, ab + 3 * TWO32);
    Associate(v, c, TWO32);
  }

  lemma NextToEachOther(z: nat, q: nat, x: nat, y: nat, v: nat, b: nat)
    requires z * TWO32 * TWO32 <= x < (z + 1) * TWO32 * TWO32 + b * TWO32 && b < TWO32
    requires IsQuotient(q, y, TWO32) && x <= y * TWO32 <= x + 3 * v * TWO32 && v < TWO30
    ensures z <= q <= z + 2
  {
  }

  /** z is v * a * b scaled down twice, rounded down each time. */
  lemma TwiceScaled(v: nat, a: nat, b: nat, w: nat, z: nat)
    requires IsQuotient(w, v * a, TWO32) && IsQuotient(z, w * b, TWO32) && b > 0
    ensures z * TWO32 * TWO32 <= v * (a * b) < (z + 1) * TWO32 * TWO32 + b * TWO32
  {
    MulMonotone(w * TWO32, v * a, b, b);
    MulMonotone(v * a, w * TWO32 + TWO32, b, b);
    Associate(v, a, b);
    Associate(w, TWO32, b);
    Distribute(w * TWO32, TWO32, b);
    Distribute(z, 1, TWO32);
  }

  /** The same where the next period completes a halving. */
  lemma HalvingComposes(v: nat, a: nat, b: nat, c: nat)
    requires v < TWO30 && 2 * (a * b) <= c * TWO32 <= 2 * (a * b) + 4 * TWO32 && 0 < b < TWO32 && c < TWO32
    ensures Scale32(Scale32(v, a), b) <= Scale32(v / 2, c) + 1
    ensures Scale32(v / 2, c) <= Scale32(Scale32(v, a), b) + 2
  {
    var w, q := Scale32(v, a), Scale32(v / 2, c);
    DivQuotient(v * a, TWO32);
    DivQuotient(v / 2 * c, TWO32);
    DivQuotient(w * b, TWO32);
    TwiceScaled(v, a, b, w, Scale32(w, b));
    HalvedTogether(v, a * b, c);
    NextToTheHalf(Scale32(w, b), q, v * (a * b), v / 2 * c, v, b, c);
  }

  lemma HalvedTogether(v: nat, ab: nat, c: nat)
    requires 2 * ab <= c * TWO32 <= 2 * ab + 4 * TWO32
    ensures 2 * (v * ab) <= 2 * (v / 2 * c * TWO32) + c * TWO32
    ensures v / 2 * c * TWO32 <= v * ab + 2 * v * TWO32
  {
    var y := v / 2;
    MulMonotone(v, 2 * y + 1, 2 * ab, c * TWO32);
    Associate(v, 2, ab);
    assert (2 * y + 1) * (c * TWO32) == 2 * (y * (c * TWO32)) + c * TWO32;
    Associate(y, c, TWO32);
    MulMonotone(y, y, c * TWO32, 2 * ab + 4 * TWO32);
    assert y * (2 * ab + 4 * TWO32) == 2 * y * ab + 4 * y * TWO32;
    MulMonotone(2 * y, v, ab, ab);
  }

  lemma NextToTheHalf(z: nat, q: nat, x: nat, y: nat, v: nat, b: nat, c: nat)
    requires z * TWO32 * TWO32 <= x < (z + 1) * TWO32 * TWO32 + b * TWO32 && b < TWO32 && c < TWO32
    requires IsQuotient(q, y, TWO32) && 2 * x <= 2 * (y * TWO32) + c * TWO32 && y * TWO32 <= x + 2 * v * TWO32 && v < TWO30
    ensures z <= q + 1 && q <= z + 2
  {
  }

  lemma SlowRootsCompose(j: nat)
    requires j < 32
    ensures 0 < YnInv(1) < TWO32
    ensures if j < 31 then YnInv(j) * YnInv(1) <= YnInv(j + 1) * TWO32 <= YnInv(j) * YnInv(1) + 3 * TWO32
            else 2 * (YnInv(j) * YnInv(1)) <= YnInv(0) * TWO32 <= 2 * (YnInv(j) * YnInv(1)) + 4 * TWO32
  {
  }

  lemma FastRootsCompose(j: nat)
    requires j < 3
    ensures 0 < FastYnInv(1) < TWO32
    ensures if j < 2 then FastYnInv(j) * FastYnInv(1) <= FastYnInv(j + 1) * TWO32 <= FastYnInv(j) * FastYnInv(1) + 3 * TWO32
            else 2 * (FastYnInv(j) * FastYnInv(1)) <= FastYnInv(0) * TWO32 <= 2 * (FastYnInv(j) * FastYnInv(1)) + 4 * TWO32
  {
  }

  /** One row of the table of sums is what a period on top of the row before decays to. */
  lemma RowsAddUp(j: nat)
    requires j < 32
    ensures YnSum(j + 1) == DecayLoad(YnSum(j) + SCALE, 1)
  {
  }

  lemma FastRowsAddUp(j: nat)
    requires j < 3
    ensures FastYnSum(j + 1) == DecayFastLoad(FastYnSum(j) + SCALE, 1)
  {
  }

  lemma HalvingsAddUp(k: nat)
    requires k < 11
    ensures AccumulatedSumN32(k + 1) == AccumulatedSumN32(k) / 2 + YnSum(32)
  {
  }

  // ------------------------------------------------- decay period by period

  lemma OnePeriod(v: nat)
    ensures DecayLoad(v, 1) == Scale32(v, YnInv(1)) && DecayFastLoad(v, 1) == Scale32(v, FastYnInv(1))
  {
  }

  lemma ShiftedOut(v: nat)
    requires v < TWO32
    ensures Shr(v, 63) == 0
  {
    var p := Pow(2, 31);
    PowTwo32();
    PowSum(2, 32, 31);
    PowPositive(2, 31);
    hide Pow;
    ShrBelow(v, 63);
    MulMonotone(TWO32, TWO32, 1, p);
    if Shr(v, 63) > 0 {
      MulMonotone(1, Shr(v, 63), TWO32 * p, TWO32 * p);
    }
  }

  lemma ScaledOut(v: nat, m: nat)
    requires v == 0
    ensures Scale32(v, m) == 0
  {
  }

  /** Decaying by one more period is decaying once more, to within two units. */
  lemma DecayByOne(v: nat, n: nat)
    requires v < TWO30
    ensures DecayLoad(DecayLoad(v, n), 1) <= DecayLoad(v, n + 1) + if n % 32 == 31 then 1 else 0
    ensures DecayLoad(v, n + 1) <= DecayLoad(DecayLoad(v, n), 1) + 2
  {
    hide YnInv, Shr, Scale32;
    OnePeriod(DecayLoad(v, n));
    var k, j := n / 32, n % 32;
    if n >= 2016 {
      ShiftedOut(v);
      ScaledOut(Shr(v, 63), YnInv(0));
      ScaledOut(DecayLoad(v, n), YnInv(1));
    } else if n > 0 {
      ShrNone(v);
      var x := Shr(v, k);
      ShrHalves(v, k);
      assert DecayLoad(v, n) == Scale32(x, YnInv(j));
      SlowRootsCompose(j);
      InvFits(0);
      if j < 31 {
        assert (n + 1) / 32 == k && (n + 1) % 32 == j + 1;
        RootsCompose(x, YnInv(j), YnInv(1), YnInv(j + 1));
      } else {
        assert (n + 1) / 32 == k + 1 && (n + 1) % 32 == 0;
        ShrAgain(v, k);
        HalvingComposes(x, YnInv(j), YnInv(1), YnInv(0));
      }
    }
  }

  lemma FastDecayByOne(v: nat, n: nat)
    requires v < TWO30
    ensures DecayFastLoad(DecayFastLoad(v, n), 1) <= DecayFastLoad(v, n + 1) + if n % 3 == 2 then 1 else 0
    ensures DecayFastLoad(v, n + 1) <= DecayFastLoad(DecayFastLoad(v, n), 1) + 2
  {
    hide FastYnInv, Shr, Scale32;
    OnePeriod(DecayFastLoad(v, n));
    var k, j := n / 3, n % 3;
    if n >= 189 {
      ShiftedOut(v);
      ScaledOut(Shr(v, 63), FastYnInv(0));
      ScaledOut(DecayFastLoad(v, n), FastYnInv(1));
    } else if n > 0 {
      ShrNone(v);
      var x := Shr(v, k);
      ShrHalves(v, k);
      assert DecayFastLoad(v, n) == Scale32(x, FastYnInv(j));
      FastRootsCompose(j);
      FastInvFits(0);
      if j < 2 {
        assert (n + 1) / 3 == k && (n + 1) % 3 == j + 1;
        RootsCompose(x, FastYnInv(j), FastYnInv(1), FastYnInv(j + 1));
      } else {
        assert (n + 1) / 3 == k + 1 && (n + 1) % 3 == 0;
        ShrAgain(v, k);
        HalvingComposes(x, FastYnInv(j), FastYnInv(1), FastYnInv(0));
      }
    }
  }

  // ------------------------------------------ contributions period by period

  ghost predicate Near(a: nat, b: nat) {
    a <= b + 3 && b <= a + 3
  }

  /** One more period within a row of the tables, or at its end. */
  lemma RowGrows(k: nat, j: nat)
    requires k < 12 && j < 32 && (j < 31 || k < 11)
    ensures var next := if j < 31 then DecayLoad(AccumulatedSumN32(k), j + 1) + YnSum(j + 1) else AccumulatedSumN32(k + 1);
            Near(next, DecayLoad(DecayLoad(AccumulatedSumN32(k), j) + YnSum(j) + SCALE, 1))
  {
    var a, s := AccumulatedSumN32(k), YnSum(j);
    SumsFit(k, j);
    DecayByOne(a, j);
    DecaySum(DecayLoad(a, j), s + SCALE, 1);
    RowsAddUp(j);
    if j == 31 {
      HalvingsAddUp(k);
      HalvedOnce(a);
    }
  }

  lemma SumsFit(k: nat, j: nat)
    requires k < 12 && j < 32
    ensures AccumulatedSumN32(k) < TWO30
  {
  }

  lemma HalvedOnce(a: nat)
    requires a < TWO30
    ensures DecayLoad(a, 32) <= a / 2 <= DecayLoad(a, 32) + 1
  {
    assert Shr(a, 1) == a / 2;
  }

  lemma RowAfter(n: nat)
    requires n + 1 < LOAD_AVG_MAX_N
    ensures var k, j := n / 32, n % 32;
            && k < 11 && RunnableContrib(n) == DecayLoad(AccumulatedSumN32(k), j) + YnSum(j)
            && RunnableContrib(n + 1) == if j < 31 then DecayLoad(AccumulatedSumN32(k), j + 1) + YnSum(j + 1) else AccumulatedSumN32(k + 1)
  {
    hide RunnableContrib, AccumulatedSumN32, YnSum;
    var k, j := n / 32, n % 32;
    ContribFromRow(n);
    ContribFromRow(n + 1);
    if j < 31 {
      assert (n + 1) / 32 == k && (n + 1) % 32 == j + 1;
    } else {
      assert (n + 1) / 32 == k + 1 && (n + 1) % 32 == 0;
      NoRow();
    }
  }

  lemma NoRow()
    ensures YnSum(0) == 0
  {
  }

  /**
   * Whole periods contribute what the periods one after the other add up to,
   * up to three units, exactly as long as the nominal maximum is not returned.
   */
  lemma ContribGrowsIff(n: nat)
    ensures Near(RunnableContrib(n + 1), DecayLoad(RunnableContrib(n) + SCALE, 1)) <==> n + 1 < LOAD_AVG_MAX_N
  {
    hide RunnableContrib, AccumulatedSumN32, YnSum, DecayLoad;
    if n + 1 < LOAD_AVG_MAX_N {
      RowAfter(n);
      RowGrows(n / 32, n % 32);
    } else {
      LastContrib(n);
    }
  }

  lemma LastContrib(n: nat)
    requires n + 1 >= LOAD_AVG_MAX_N
    ensures RunnableContrib(n + 1) == LOAD_AVG_MAX
    ensures RunnableContrib(n) == if n == 344 then 46714 else LOAD_AVG_MAX
    ensures DecayLoad(46714 + SCALE, 1) == 46715 && DecayLoad(LOAD_AVG_MAX + SCALE, 1) == 47721
  {
    assert DecayLoad(46696, 24) == 27765;
  }

  lemma FastRowGrows(c: nat, n: nat)
    requires c <= 3938 && 0 < n < 3
    ensures Near(FastRolled(c, n + 1), DecayFastLoad(FastRolled(c, n) + SCALE, 1))
  {
    hide DecayFastLoad;
    FastDecayByOne(c, n);
    FastDecaySum(DecayFastLoad(c, n), FastYnSum(n) + SCALE, 1);
    FastRowsAddUp(n);
  }

  lemma FastHalvingGrows(c: nat)
    requires c <= 3938
    ensures Near(FastRolled(c, 4), DecayFastLoad(FastRolled(c, 3) + SCALE, 1))
  {
    var x, y := c / 2 + FastYnSum(3), DecayFastLoad(c, 3) + FastYnSum(3);
    assert FastRolled(c, 4) == DecayFastLoad(x, 1) + 812 by { assert FastRolled(c, 4) == FastRolled(x, 1); }
    FastHalvedOnce(c);
    FastRowsAddUp(0);
    hide DecayFastLoad, FastRolled;
    FastDecaySum(x, SCALE, 1);
    FastDecaySum(y + SCALE, x - y, 1);
    FastUnitDecays(x - y);
  }

  lemma FastHalvedOnce(c: nat)
    requires c < TWO30
    ensures DecayFastLoad(c, 3) <= c / 2 <= DecayFastLoad(c, 3) + 1
    ensures FastRolled(c, 3) == DecayFastLoad(c, 3) + FastYnSum(3)
  {
    assert Shr(c, 1) == c / 2;
  }

  lemma FastUnitDecays(x: nat)
    requires x <= 1
    ensures DecayFastLoad(x, 1) == 0
  {
  }

  lemma {:induction false} FastRolledGrows(c: nat, n: nat)
    requires c <= 3938 && n > 0
    ensures Near(FastRolled(c, n + 1), DecayFastLoad(FastRolled(c, n) + SCALE, 1))
    decreases n
  {
    hide DecayFastLoad, Near;
    if n < 3 {
      FastRowGrows(c, n);
    } else if n == 3 {
      FastHalvingGrows(c);
    } else {
      FastRolledGrows(c / 2 + FastYnSum(3), n - 3);
    }
  }

  lemma FastContribGrowsIff(n: nat)
    ensures Near(RunnableContribFast(n + 1), DecayFastLoad(RunnableContribFast(n) + SCALE, 1)) <==> n + 1 < LOAD_AVG_FAST_MAX_N
  {
    FastFirst();
    if n == 0 {
      FastRowsAddUp(0);
    } else if n + 1 < LOAD_AVG_FAST_MAX_N {
      FastRolledGrows(0, n);
      FastFromRolled(n);
      FastFromRolled(n + 1);
    } else if n + 1 == LOAD_AVG_FAST_MAX_N {
      FastRolledBelow(0, n);
      DecayMonotone(RunnableContribFast(n) + SCALE, 3938 + SCALE, 1);
    }
  }

  lemma FastFirst()
    ensures DecayFastLoad(3938 + SCALE, 1) == 3938 && DecayFastLoad(LOAD_AVG_FAST_MAX + SCALE, 1) == 4748
  {
  }

  lemma FastFromRolled(n: nat)
    requires 0 < n < LOAD_AVG_FAST_MAX_N
    ensures RunnableContribFast(n) == FastRolled(0, n)
  {
    if n <= 3 {
      assert Shr(0, 1) == 0 && DecayFastLoad(0, n) == 0;
    }
  }

  // ----------------------------------------------------- a floor at full speed

  /** What a sum that is fed at full speed for long enough has at least, per unit of capacity. */
  const SUM_FLOOR: nat := 46482

  /** A sum at its floor has two units to spare after any number of periods. */
  lemma {:induction false} FloorKept(n: nat)
    requires n > 0
    ensures DecayLoad(SUM_FLOOR + SCALE, n) + RunnableContrib(n - 1) >= SUM_FLOOR + 2
  {
    hide RunnableContrib, DecayLoad;
    FloorFirst();
    if n > LOAD_AVG_MAX_N {
      LastContrib(n - 1);
    } else if n > 1 {
      FloorKept(n - 1);
      FloorStep(n - 1);
    }
  }

  lemma FloorStep(n: nat)
    requires 0 < n < LOAD_AVG_MAX_N
    requires DecayLoad(SUM_FLOOR + SCALE, n) + RunnableContrib(n - 1) >= SUM_FLOOR + 2
    ensures DecayLoad(SUM_FLOOR + SCALE, n + 1) + RunnableContrib(n) >= SUM_FLOOR + 2
  {
    hide RunnableContrib, DecayLoad;
    FloorFirst();
    var x, contrib := SUM_FLOOR + SCALE, RunnableContrib(n - 1);
    ContribGrowsIff(n - 1);
    DecayByOne(x, n);
    DecaySum(DecayLoad(x, n), contrib + SCALE, 1);
    DecayMonotone(SUM_FLOOR + 2 + SCALE, DecayLoad(x, n) + contrib + SCALE, 1);
  }

  lemma FloorFirst()
    ensures DecayLoad(SUM_FLOOR + SCALE, 1) == 46488 && DecayLoad(SUM_FLOOR + 2 + SCALE, 1) == 46490
    ensures RunnableContrib(0) == 0
  {
  }

  lemma {:induction false} DecayTimes(x: nat, c: nat, n: nat)
    ensures c * DecayLoad(x, n) <= DecayLoad(x * c, n)
    ensures c > 0 ==> DecayLoad(x * c, n) <= c * DecayLoad(x, n) + 2 * (c - 1)
  {
    hide DecayLoad;
    if c > 1 {
      DecayTimes(x, c - 1, n);
      DecaySum(x * (c - 1), x, n);
      assert x * (c - 1) + x == x * c;
      assert (c - 1) * DecayLoad(x, n) + DecayLoad(x, n) == c * DecayLoad(x, n);
    } else if c == 1 {
      assert x * 1 == x;
    }
  }
}
