/**
 * Per-entity load tracking: __update_load_avg with the split of utilisation
 * into a part that scales with the core clock and a part stalled on memory.
 */
module LoadAverage {
  import opened Arithmetic
  import opened Decay

  const LOAD_AVG_MAX: nat := 47742
  const LOAD_AVG_MAX_N: nat := 345
  const LOAD_AVG_FAST_MAX: nat := 4959
  const LOAD_AVG_FAST_MAX_N: nat := 31
  const SCALE: nat := 1024

  /** runnable_avg_yN_sum: the floor of 1024 * (y + ... + y^i). */
  function YnSum(i: nat): nat
    requires i <= LOAD_AVG_PERIOD
  {
    match i
    case 0 => 0 case 1 => 1002 case 2 => 1982 case 3 => 2941 case 4 => 3880 case 5 => 4798
    case 6 => 5697 case 7 => 6576 case 8 => 7437 case 9 => 8279 case 10 => 9103 case 11 => 9909
    case 12 => 10698 case 13 => 11470 case 14 => 12226 case 15 => 12966 case 16 => 13690 case 17 => 14398
    case 18 => 15091 case 19 => 15769 case 20 => 16433 case 21 => 17082 case 22 => 17718 case 23 => 18340
    case 24 => 18949 case 25 => 19545 case 26 => 20128 case 27 => 20698 case 28 => 21256 case 29 => 21802
    case 30 => 22336 case 31 => 22859 case _ => 23371
  }

  function FastYnSum(i: nat): nat
    requires i <= LOAD_AVG_FAST_PERIOD
  {
    match i
    case 0 => 0 case 1 => 812 case 2 => 1457 case _ => 1969
  }

  /** __accumulated_sum_N32: whole multiples of 32 periods, rolled down. */
  function AccumulatedSumN32(i: nat): nat
    requires i < 12
  {
    match i
    case 0 => 0 case 1 => 23371 case 2 => 35056 case 3 => 40899 case 4 => 43820 case 5 => 45281
    case 6 => 46011 case 7 => 46376 case 8 => 46559 case 9 => 46650 case 10 => 46696 case _ => 46719
  }

  // ------------------------------------------- contribution of whole periods

  /** __compute_runnable_contrib. */
  function RunnableContrib(n: nat): nat {
    if n <= LOAD_AVG_PERIOD then YnSum(n)
    else if n >= LOAD_AVG_MAX_N then LOAD_AVG_MAX
    else
      DecayLoad(AccumulatedSumN32(n / LOAD_AVG_PERIOD), n % LOAD_AVG_PERIOD)
      + YnSum(n % LOAD_AVG_PERIOD)
  }

  /** One pass of the loop over whole fast periods. */
  function FastRolled(contrib: nat, n: nat): nat
    decreases n
  {
    if n <= LOAD_AVG_FAST_PERIOD then DecayFastLoad(contrib, n) + FastYnSum(n)
    else FastRolled(contrib / 2 + FastYnSum(LOAD_AVG_FAST_PERIOD), n - LOAD_AVG_FAST_PERIOD)
  }

  function RunnableContribFast(n: nat): nat {
    if n <= LOAD_AVG_FAST_PERIOD then FastYnSum(n)
    else if n >= LOAD_AVG_FAST_MAX_N then LOAD_AVG_FAST_MAX
    else FastRolled(0, n)
  }

  /** __compute_runnable_contrib_fast, with its loop. */
  method ComputeRunnableContribFast(periods: nat) returns (contrib: nat)
    ensures contrib == RunnableContribFast(periods)
  {
    if periods <= LOAD_AVG_FAST_PERIOD {
      return FastYnSum(periods);
    } else if periods >= LOAD_AVG_FAST_MAX_N {
      return LOAD_AVG_FAST_MAX;
    }
    contrib := 0;
    var n: nat := periods;
    while n > LOAD_AVG_FAST_PERIOD
      invariant FastRolled(contrib, n) == RunnableContribFast(periods)
    {
      contrib := contrib / 2 + FastYnSum(LOAD_AVG_FAST_PERIOD);
      n := n - LOAD_AVG_FAST_PERIOD;
    }
    contrib := DecayFastLoad(contrib, n) + FastYnSum(n);
  }

  // ------------------------------------------------------ the period boundary

  /**
   * Ceilings on the slow and the fast sum, per unit of CPU capacity, just
   * after a period boundary. They exceed the nominal maxima because a long gap
   * returns the full maximum and what is left of the old sum is added to it.
   */
  const SUM_CEILING: nat := 47770
  const FAST_SUM_CEILING: nat := 4963

  /** 46742 bounds the sum of all earlier periods; accumulated sums approach it from below. */
  const PAST_PERIODS: nat := 46742

  /** The table entry after j; past the last row the next halving begins. */
  function FullAfter(j: nat, ceiling: nat): nat
    requires j < 32
  {
    if j < 31 then (ceiling + SCALE) * YnInv(j + 1) else ((ceiling + SCALE) * YnInv(0) + 1) / 2
  }

  /** What decay_load(v, j) multiplies v by, times 2^32; zero periods leave v alone. */
  function PastFactor(j: nat): nat
    requires j < 32
  {
    if j == 0 then TWO32 else YnInv(j)
  }

  lemma RowFits(j: nat, ceiling: nat)
    requires j < 32 && ceiling >= LOAD_AVG_MAX
    ensures FullAfter(j, ceiling) + YnSum(j) * TWO32 <= ceiling * TWO32
    ensures PAST_PERIODS * PastFactor(j) + YnSum(j) * TWO32 <= ceiling * TWO32
  {
  }

  lemma AccumulatedBelow(k: nat)
    requires k < 12
    ensures AccumulatedSumN32(k) * Pow(2, k) <= PAST_PERIODS * (Pow(2, k) - 1)
  {
    match k {
      case 0 => case 1 => case 2 => case 3 => case 4 => case 5 => case 6 =>
      case 7 => case 8 => case 9 => case 10 => case _ => assert k == 11;
    }
  }

  /** One row of the tables, with the sum of the earlier periods, keeps room for what is left of a full sum. */
  lemma RowSum(past: nat, s: nat, P: nat, full: nat, m: nat, ceiling: nat)
    requires P >= 1
    requires past * TWO32 * P <= PAST_PERIODS * (P - 1) * m
    requires full + s * TWO32 <= ceiling * TWO32
    requires PAST_PERIODS * m + s * TWO32 <= ceiling * TWO32
    ensures (past + s) * (TWO32 * P) + full <= ceiling * (TWO32 * P)
  {
    var q, row := P - 1, PAST_PERIODS * m + s * TWO32;
    Distribute(past, s, TWO32 * P);
    Associate(past, TWO32, P);
    Associate(s, TWO32, P);
    Distribute(q, 1, s * TWO32);
    Distribute(q, 1, ceiling * TWO32);
    Associate(PAST_PERIODS, q, m);
    Distribute(PAST_PERIODS * m, s * TWO32, q);
    MulMonotone(row, ceiling * TWO32, q, q);
    Associate(ceiling, TWO32, P);
  }

  lemma BoundarySum(left: nat, past: nat, s: nat, c: nat, P: nat, full: nat, m: nat, ceiling: nat)
    requires P >= 1
    requires left * TWO32 * P <= full * c
    requires past * TWO32 * P <= PAST_PERIODS * (P - 1) * m
    requires full + s * TWO32 <= ceiling * TWO32
    requires PAST_PERIODS * m + s * TWO32 <= ceiling * TWO32
    ensures left + (past + s) * c <= ceiling * c
  {
    RowSum(past, s, P, full, m, ceiling);
    Associate(left, TWO32, P);
    ScaleRow(left, past + s, c, full, TWO32 * P, ceiling);
  }

  lemma ScaleRow(left: nat, sum: nat, c: nat, full: nat, L: nat, ceiling: nat)
    requires L > 0 && left * L <= full * c && sum * L + full <= ceiling * L
    ensures left + sum * c <= ceiling * c
  {
    MulMonotone(sum * L + full, ceiling * L, c, c);
    Distribute(sum * L, full, c);
    Associate(sum, L, c);
    Associate(ceiling, L, c);
    Distribute(left, sum * c, L);
    MulCancel(left + sum * c, ceiling * c, L);
  }

  /** What is left of v after a shift and a product, with the shift cleared. */
  lemma ShiftScaleCleared(v: nat, k: nat, m: nat, bound: nat)
    requires v <= bound
    ensures Scale32(Shr(v, k), m) * TWO32 * Pow(2, k) <= bound * m
  {
    var w, P := Shr(v, k), Pow(2, k);
    ShrBelow(v, k);
    MulMonotone(Scale32(w, m) * TWO32, w * m, P, P);
    assert w * m * P == w * P * m;
    MulMonotone(w * P, bound, m, m);
  }

  lemma LeftOfFullSum(sum: nat, k: nat, m: nat, c: nat, ceiling: nat)
    requires sum <= (ceiling + SCALE) * c
    ensures Scale32(Shr(sum, k), m) * TWO32 * Pow(2, k) <= (ceiling + SCALE) * m * c
  {
    ShiftScaleCleared(sum, k, m, (ceiling + SCALE) * c);
    Associate(ceiling + SCALE, c, m);
  }

  lemma HalvedRow(x: nat, P: nat, full: nat, c: nat)
    requires x * (2 * P) <= full * c
    ensures x * P <= (full + 1) / 2 * c
  {
    assert x * (2 * P) == 2 * (x * P);
    MulMonotone(full, 2 * ((full + 1) / 2), c, c);
    Associate(2, (full + 1) / 2, c);
  }

  lemma LeftOfFullSumHalved(sum: nat, k: nat, m: nat, c: nat, ceiling: nat)
    requires sum <= (ceiling + SCALE) * c
    ensures Scale32(Shr(sum, k + 1), m) * TWO32 * Pow(2, k) <= ((ceiling + SCALE) * m + 1) / 2 * c
  {
    LeftOfFullSum(sum, k + 1, m, c, ceiling);
    HalvedRow(Scale32(Shr(sum, k + 1), m) * TWO32, Pow(2, k), (ceiling + SCALE) * m, c);
  }

  lemma LeftOverBoundary(sum: nat, periods: nat, c: nat, ceiling: nat)
    requires sum <= (ceiling + SCALE) * c
    requires periods < LOAD_AVG_MAX_N
    ensures DecayLoad(sum, periods + 1) * TWO32 * Pow(2, periods / 32) <= FullAfter(periods % 32, ceiling) * c
  {
    var k, j, n := periods / 32, periods % 32, periods + 1;
    var left := DecayLoad(sum, n);
    if j < 31 {
      assert n / 32 == k && n % 32 == j + 1;
      assert left == Scale32(Shr(sum, k), YnInv(j + 1));
      LeftOfFullSum(sum, k, YnInv(j + 1), c, ceiling);
    } else {
      assert n / 32 == k + 1 && n % 32 == 0;
      assert left == Scale32(Shr(sum, k + 1), YnInv(0));
      LeftOfFullSumHalved(sum, k, YnInv(0), c, ceiling);
    }
  }

  lemma PastPeriodsDecayed(k: nat, j: nat)
    requires k < 12 && j < 32
    ensures DecayLoad(AccumulatedSumN32(k), j) * TWO32 * Pow(2, k)
         <= PAST_PERIODS * (Pow(2, k) - 1) * PastFactor(j)
  {
    PowPositive(2, k);
    AccumulatedBelow(k);
    PastDecays(AccumulatedSumN32(k), j);
    PastBelow(AccumulatedSumN32(k), Pow(2, k), PastFactor(j), DecayLoad(AccumulatedSumN32(k), j));
  }

  lemma PastDecays(v: nat, j: nat)
    requires j < 32
    ensures DecayLoad(v, j) * TWO32 <= v * PastFactor(j)
  {
    if j > 0 {
      assert DecayLoad(v, j) == Scale32(v, YnInv(j)) by {
        assert j / 32 == 0 && j % 32 == j && Shr(v, 0) == v;
      }
      ScaleBelow(v, YnInv(j));
    }
  }

  lemma ScaleBelow(v: nat, m: nat)
    ensures Scale32(v, m) * TWO32 <= v * m
  {
    DivQuotient(v * m, TWO32);
  }

  lemma PastBelow(v: nat, P: nat, m: nat, past: nat)
    requires P > 0 && past * TWO32 <= v * m && v * P <= PAST_PERIODS * (P - 1)
    ensures past * TWO32 * P <= PAST_PERIODS * (P - 1) * m
  {
    MulMonotone(past * TWO32, v * m, P, P);
    Associate(v, m, P);
    MulMonotone(v * P, PAST_PERIODS * (P - 1), m, m);
  }

  lemma ContribFromRow(periods: nat)
    requires periods < LOAD_AVG_MAX_N
    ensures RunnableContrib(periods)
         == DecayLoad(AccumulatedSumN32(periods / 32), periods % 32) + YnSum(periods % 32)
  {
    if periods < 32 {
      assert periods / 32 == 0 && periods % 32 == periods;
      assert DecayLoad(0, periods) == 0;
    } else if periods == 32 {
      assert DecayLoad(23371, 0) == 23371;
    }
  }

  /**
   * Whatever time passed, a sum below its ceiling is below it after the next
   * boundary. The nominal maximum is such a ceiling for gaps of up to 344
   * periods, and everything from 47770 on is one for all gaps.
   */
  lemma SlowBoundary(sum: nat, periods: nat, c: nat, ceiling: nat)
    requires ceiling >= if periods < LOAD_AVG_MAX_N then LOAD_AVG_MAX else SUM_CEILING
    requires sum <= (ceiling + SCALE) * c
    ensures DecayLoad(sum, periods + 1) + RunnableContrib(periods) * c <= ceiling * c
  {
    if periods < LOAD_AVG_MAX_N {
      var k, j := periods / 32, periods % 32;
      PowPositive(2, k);
      ContribFromRow(periods);
      LeftOverBoundary(sum, periods, c, ceiling);
      PastPeriodsDecayed(k, j);
      RowFits(j, ceiling);
      BoundarySum(DecayLoad(sum, periods + 1), DecayLoad(AccumulatedSumN32(k), j), YnSum(j), c,
                  Pow(2, k), FullAfter(j, ceiling), PastFactor(j), ceiling);
    } else {
      AfterLongGap(sum, periods, c, ceiling);
      Distribute(ceiling - LOAD_AVG_MAX, LOAD_AVG_MAX, c);
    }
  }

  /** What is left of a full sum after 346 and more periods, by which a ceiling has to exceed the nominal maximum. */
  lemma AfterLongGap(sum: nat, periods: nat, c: nat, ceiling: nat)
    requires ceiling >= SUM_CEILING && sum <= (ceiling + SCALE) * c
    requires periods >= LOAD_AVG_MAX_N
    ensures DecayLoad(sum, periods + 1) <= (ceiling - LOAD_AVG_MAX) * c
  {
    DecayAntitone(sum, 346, periods + 1);
    var left, m, spare := DecayLoad(sum, 346), YnInv(26), ceiling - LOAD_AVG_MAX;
    assert Pow(2, 10) == 1024;
    ShiftScaleCleared(sum, 10, m, (ceiling + SCALE) * c);
    Associate(ceiling + SCALE, c, m);
    assert (ceiling + SCALE) * m <= spare * (TWO32 * 1024);
    MulMonotone((ceiling + SCALE) * m, spare * (TWO32 * 1024), c, c);
    Associate(spare, TWO32 * 1024, c);
    Associate(left, TWO32, 1024);
    MulCancel(left, spare * c, TWO32 * 1024);
  }

  /** A sum within the nominal maximum and one period on top is within the nominal maximum after the boundary. */
  ghost predicate NominalKept(sum: nat, periods: nat, c: nat) {
    sum <= (LOAD_AVG_MAX + SCALE) * c ==> DecayLoad(sum, periods + 1) + RunnableContrib(periods) * c <= LOAD_AVG_MAX * c
  }

  /** After periods whole periods nothing of a full sum stands in the way of the nominal maximum. */
  predicate NominalSafe(periods: nat, c: nat) {
    periods < LOAD_AVG_MAX_N || DecayLoad((LOAD_AVG_MAX + SCALE) * c, periods + 1) == 0
  }

  /**
   * The nominal maximum is kept across a boundary exactly for gaps of up to
   * 344 periods, and for those after which nothing is left of a full sum.
   */
  lemma NominalBoundaryIff(periods: nat, c: nat)
    ensures (forall sum: nat :: NominalKept(sum, periods, c)) <==> NominalSafe(periods, c)
  {
    hide DecayLoad;
    if NominalSafe(periods, c) {
      forall sum: nat
        ensures NominalKept(sum, periods, c)
      {
        if sum <= (LOAD_AVG_MAX + SCALE) * c {
          NominalBoundary(sum, periods, c);
        }
      }
    } else {
      assert !NominalKept((LOAD_AVG_MAX + SCALE) * c, periods, c);
    }
  }

  lemma NominalBoundary(sum: nat, periods: nat, c: nat)
    requires NominalSafe(periods, c)
    requires sum <= (LOAD_AVG_MAX + SCALE) * c
    ensures DecayLoad(sum, periods + 1) + RunnableContrib(periods) * c <= LOAD_AVG_MAX * c
  {
    hide DecayLoad;
    if periods < LOAD_AVG_MAX_N {
      SlowBoundary(sum, periods, c, LOAD_AVG_MAX);
    } else {
      DecayMonotone(sum, (LOAD_AVG_MAX + SCALE) * c, periods + 1);
    }
  }

  // --------------------------------------------------- the same, fast sums

  /** 3938 bounds what the loop over whole fast periods can roll up. */
  lemma {:induction false} FastRolledBelow(contrib: nat, n: nat)
    requires contrib <= 3938 && n > 0
    ensures FastRolled(contrib, n) <= 3938
    decreases n
  {
    if n > LOAD_AVG_FAST_PERIOD {
      FastRolledBelow(contrib / 2 + FastYnSum(3), n - LOAD_AVG_FAST_PERIOD);
    } else {
      DecayMonotone(contrib, 3938, n);
      assert DecayFastLoad(3938, 1) + FastYnSum(1) <= 3938;
      assert DecayFastLoad(3938, 2) + FastYnSum(2) <= 3938;
      assert DecayFastLoad(3938, 3) + FastYnSum(3) <= 3938 by { assert Shr(3938, 1) == 1969; }
    }
  }

  lemma FastRowFits(periods: nat)
    requires periods < 7
    ensures var n := periods + 1;
            (FAST_SUM_CEILING + SCALE) * FastYnInv(n % 3) + RunnableContribFast(periods) * TWO32 * Pow(2, n / 3)
            <= FAST_SUM_CEILING * TWO32 * Pow(2, n / 3)
  {
    assert Pow(2, 0) == 1 && Pow(2, 1) == 2 && Pow(2, 2) == 4;
    assert FastRolled(0, 4) == FastRolled(1969, 1) == 2374;
    assert FastRolled(0, 5) == FastRolled(1969, 2) == 2697;
    assert FastRolled(0, 6) == FastRolled(1969, 3) == 2952 by { assert Shr(1969, 1) == 984; }
  }

  lemma LeftOfFullFastSum(sum: nat, k: nat, m: nat, c: nat)
    requires sum <= (FAST_SUM_CEILING + SCALE) * c
    ensures Scale32(Shr(sum, k), m) * TWO32 * Pow(2, k) <= (FAST_SUM_CEILING + SCALE) * m * c
  {
    ShiftScaleCleared(sum, k, m, (FAST_SUM_CEILING + SCALE) * c);
    Associate(FAST_SUM_CEILING + SCALE, c, m);
  }

  lemma FastBoundarySum(left: nat, contrib: nat, c: nat, P: nat, row: nat)
    requires P >= 1
    requires left * TWO32 * P <= row * c
    requires row + contrib * TWO32 * P <= FAST_SUM_CEILING * TWO32 * P
    ensures left + contrib * c <= FAST_SUM_CEILING * c
  {
    var L := TWO32 * P;
    MulMonotone(row + contrib * L, FAST_SUM_CEILING * L, c, c);
    Distribute(row, contrib * L, c);
    Associate(contrib, L, c);
    Associate(FAST_SUM_CEILING, L, c);
    Associate(left, TWO32, P);
    Distribute(left, contrib * c, L);
    MulCancel(left + contrib * c, FAST_SUM_CEILING * c, L);
  }

  lemma FastBoundary(sum: nat, periods: nat, c: nat)
    requires sum <= (FAST_SUM_CEILING + SCALE) * c
    ensures DecayFastLoad(sum, periods + 1) + RunnableContribFast(periods) * c <= FAST_SUM_CEILING * c
  {
    if periods < 7 {
      var n := periods + 1;
      var k, m := n / 3, FastYnInv(n % 3);
      FastRowFits(periods);
      PowPositive(2, k);
      assert DecayFastLoad(sum, n) == Scale32(Shr(sum, k), m);
      LeftOfFullFastSum(sum, k, m, c);
      FastBoundarySum(DecayFastLoad(sum, n), RunnableContribFast(periods), c, Pow(2, k),
                      (FAST_SUM_CEILING + SCALE) * m);
    } else if periods < LOAD_AVG_FAST_MAX_N {
      FastLeftAfter(sum, periods + 1, 2, 1025, c);
      FastRolledBelow(0, periods);
      MulMonotone(RunnableContribFast(periods), 3938, c, c);
      Distribute(1025, 3938, c);
    } else {
      FastLeftAfter(sum, periods + 1, 10, 4, c);
      Distribute(4, LOAD_AVG_FAST_MAX, c);
    }
  }

  /** At least 3k+2 fast periods later, little of a full sum is left. */
  lemma FastLeftAfter(sum: nat, n: nat, k: nat, share: nat, c: nat)
    requires sum <= (FAST_SUM_CEILING + SCALE) * c
    requires 3 * k + 2 <= n && k <= 10
    requires (FAST_SUM_CEILING + SCALE) * FastYnInv(2) <= share * TWO32 * Pow(2, k)
    ensures DecayFastLoad(sum, n) <= share * c
  {
    DecayAntitone(sum, 3 * k + 2, n);
    var left, m, P := DecayFastLoad(sum, 3 * k + 2), FastYnInv(2), Pow(2, k);
    assert (3 * k + 2) / 3 == k && (3 * k + 2) % 3 == 2;
    assert left == Scale32(Shr(sum, k), m);
    LeftOfFullFastSum(sum, k, m, c);
    PowPositive(2, k);
    CancelShare(left, m, P, share, c);
  }

  lemma CancelShare(left: nat, m: nat, P: nat, share: nat, c: nat)
    requires P > 0
    requires left * TWO32 * P <= (FAST_SUM_CEILING + SCALE) * m * c
    requires (FAST_SUM_CEILING + SCALE) * m <= share * TWO32 * P
    ensures left <= share * c
  {
    var L := TWO32 * P;
    MulMonotone((FAST_SUM_CEILING + SCALE) * m, share * L, c, c);
    Associate(share, L, c);
    Associate(left, TWO32, P);
    MulCancel(left, share * c, L);
  }

  // ------------------------------------------------------------ one update

  /** The sum/average pair of one signal, in its slow and its fast version. */
  datatype Signal = Signal(sum: nat, fastSum: nat, avg: nat, fastAvg: nat)

  /** The sums of struct sched_avg and the averages made of them. */
  datatype Sums = Sums(loadSum: nat, loadAvg: nat, util: Signal, core: Signal, memory: Signal)

  /** The part of struct sched_avg that __update_load_avg drives. */
  datatype Avg = Avg(lastUpdateTime: nat, periodContrib: nat, ratio: nat, sums: Sums)

  /** Everything an update reads besides the average itself. */
  datatype Sample = Sample(
    now: nat, scaleFreq: nat, scaleCpu: nat, weight: nat,
    running: bool, pemt: bool, ratio: nat)

  /**
   * How elapsed time falls on 1024us periods: the units that complete the
   * current period, the whole periods after it, and the start of the next one.
   */
  datatype Window = Within(tail: nat) | Crossing(head: nat, periods: nat, tail: nat)

  function Split(contrib: nat, delta: nat): Window
    requires contrib < SCALE
  {
    if delta + contrib < SCALE then Within(delta)
    else
      var rest := delta - (SCALE - contrib);
      Crossing(SCALE - contrib, rest / SCALE, rest % SCALE)
  }

  function CapScale(x: nat, s: nat): nat {
    x * s / SCALE
  }

  /** Units of util_sum, core_util_sum and memory_util_sum for x units of time. */
  function UtilUnits(x: nat, s: Sample): nat {
    if s.running then CapScale(x, s.scaleFreq) * s.scaleCpu else 0
  }

  function CoreUnits(x: nat, s: Sample): nat {
    if s.running then CapScale(x, s.scaleFreq) * s.scaleCpu * U32(SCALE - s.ratio) / SCALE else 0
  }

  function MemoryUnits(x: nat, s: Sample): nat {
    if s.running then x * s.scaleCpu * s.ratio / SCALE else 0
  }

  function LoadUnits(x: nat, s: Sample): nat {
    s.weight * CapScale(x, s.scaleFreq)
  }

  /** Time x (x' on the fast scale) credited to every sum the sample feeds. */
  function Accrued(a: Sums, x: nat, x': nat, s: Sample): Sums {
    a.(loadSum := (a.loadSum + LoadUnits(x, s)) % TWO64,
       util := Credit(a.util, UtilUnits(x, s), UtilUnits(x', s)),
       core := if s.pemt then Credit(a.core, CoreUnits(x, s), CoreUnits(x', s)) else a.core,
       memory := if s.pemt then Credit(a.memory, MemoryUnits(x, s), MemoryUnits(x', s)) else a.memory)
  }

  function Credit(g: Signal, slow: nat, fast: nat): Signal {
    g.(sum := U32(g.sum + slow), fastSum := U32(g.fastSum + fast))
  }

  /** Every sum decayed by n periods. */
  function Decayed(a: Sums, n: nat, s: Sample): Sums {
    a.(loadSum := DecayLoad(a.loadSum, n),
       util := Faded(a.util, n),
       core := if s.pemt then Faded(a.core, n) else a.core,
       memory := if s.pemt then Faded(a.memory, n) else a.memory)
  }

  function Faded(g: Signal, n: nat): Signal {
    g.(sum := DecayLoad(g.sum, n), fastSum := DecayFastLoad(g.fastSum, n))
  }

  /** The averages recomputed from the sums. */
  function Averaged(a: Sums, s: Sample): Sums {
    a.(loadAvg := a.loadSum / LOAD_AVG_MAX,
       util := Mean(a.util),
       core := if s.pemt then Mean(a.core) else a.core,
       memory := if s.pemt then Mean(a.memory) else a.memory)
  }

  function Mean(g: Signal): Signal {
    g.(avg := g.sum / LOAD_AVG_MAX, fastAvg := g.fastSum / LOAD_AVG_FAST_MAX)
  }

  /** The sums after a window of time, before the averages are touched. */
  function Carried(a: Sums, w: Window, s: Sample): Sums {
    match w
    case Within(tail) => Accrued(a, tail, tail, s)
    case Crossing(head, periods, tail) =>
      var completed := Accrued(a, head, head, s);
      var whole := Accrued(Decayed(completed, periods + 1, s), RunnableContrib(periods), RunnableContribFast(periods), s);
      Accrued(whole, tail, tail, s)
  }

  /** now - last in unsigned 64-bit arithmetic; 2^63 and above reads as negative. */
  function Elapsed(now: nat, last: nat): nat {
    (now - last) % TWO64
  }

  /** __update_load_avg as a function of the average before the call. */
  function Updated(a: Avg, s: Sample): (r: Avg)
    requires a.periodContrib < SCALE
    ensures r.periodContrib < SCALE
  {
    var elapsed := Elapsed(s.now, a.lastUpdateTime);
    if elapsed >= TWO63 then a.(lastUpdateTime := s.now)
    else if elapsed / SCALE == 0 then a
    else
      var w := Split(a.periodContrib, elapsed / SCALE);
      var ratio := if s.pemt && s.running then s.ratio else a.ratio;
      var sums := Carried(a.sums, w, s);
      match w
      case Within(tail) => Avg(s.now, a.periodContrib + tail, ratio, sums)
      case Crossing(_, _, tail) => Avg(s.now, tail, ratio, Averaged(sums, s))
  }
}
