/**
 * What the averages say about a run of updates: they follow the sums, running
 * at full speed brings utilisation to its floor and keeps it there, load is
 * weighted utilisation, and the two parts of utilisation are its extremes for
 * a task that never, or always, waits for memory.
 */
module LoadRuns {
  import opened Arithmetic
  import opened Decay
  import opened LoadAverage
  import opened LoadTracking
  import opened UtilSplit
  import opened Contributions

  // ------------------------------------------------ averages follow the sums

  /** avg is the whole part of sum per unit of max. */
  ghost predicate PerUnit(avg: nat, sum: nat, max: nat) {
    avg * max <= sum < (avg + 1) * max
  }

  ghost predicate SignalPerUnit(g: Signal) {
    PerUnit(g.avg, g.sum, LOAD_AVG_MAX) && PerUnit(g.fastAvg, g.fastSum, LOAD_AVG_FAST_MAX)
  }

  ghost predicate SameAverages(g: Signal, h: Signal) {
    g.avg == h.avg && g.fastAvg == h.fastAvg
  }

  /** Averages are brought up to date when a period boundary is crossed, and only then. */
  lemma AveragesFollowSums(a: Avg, s: Sample)
    requires a.periodContrib < SCALE
    ensures var before, after := a.sums, Updated(a, s).sums;
            && (Crosses(a, s) ==>
              && PerUnit(after.loadAvg, after.loadSum, LOAD_AVG_MAX) && SignalPerUnit(after.util)
              && (s.pemt ==> SignalPerUnit(after.core) && SignalPerUnit(after.memory)))
            && (!Crosses(a, s) ==>
              && after.loadAvg == before.loadAvg && SameAverages(after.util, before.util)
              && SameAverages(after.core, before.core) && SameAverages(after.memory, before.memory))
            && (!s.pemt ==> after.core == before.core && after.memory == before.memory)
  {
    hide DecayLoad, DecayFastLoad, RunnableContrib, RunnableContribFast, UtilUnits, CoreUnits, MemoryUnits, LoadUnits;
  }

  // --------------------------------------------- one signal, in plain numbers

  /** The update does something: time has passed, and forwards. */
  ghost predicate Passes(a: Avg, s: Sample) {
    SCALE <= Elapsed(s.now, a.lastUpdateTime) < TWO63
  }

  function WindowOf(a: Avg, s: Sample): Window
    requires a.periodContrib < SCALE
  {
    Split(a.periodContrib, Elapsed(s.now, a.lastUpdateTime) / SCALE)
  }

  /** What x units of time add at frequency f, for a signal that gains c for each of them. */
  function Gain(x: nat, c: nat, f: nat): nat {
    CapScale(x, f) * c
  }

  /** A sum fed like that without any cut. */
  function Fed(v: nat, w: Window, c: nat, f: nat): nat {
    match w
    case Within(tail) => v + Gain(tail, c, f)
    case Crossing(head, periods, tail) =>
      DecayLoad(v + Gain(head, c, f), periods + 1) + Gain(RunnableContrib(periods), c, f) + Gain(tail, c, f)
  }

  function PhaseAfter(pc: nat, w: Window): nat {
    match w
    case Within(tail) => pc + tail
    case Crossing(_, _, tail) => tail
  }

  lemma UtilIsFed(a: Avg, s: Sample, cpu: nat)
    requires Bounded(a, cpu, false) && InRange(s, cpu, false) && s.running && Passes(a, s)
    ensures Updated(a, s).sums.util.sum == Fed(a.sums.util.sum, WindowOf(a, s), cpu, s.scaleFreq)
    ensures Updated(a, s).periodContrib == PhaseAfter(a.periodContrib, WindowOf(a, s))
  {
    hide DecayLoad, DecayFastLoad, RunnableContrib, RunnableContribFast, SumsBounded, Updated;
    UpdateExact(a, s, cpu, false, Util);
    NextPhase(a, s);
  }

  lemma NextPhase(a: Avg, s: Sample)
    requires a.periodContrib < SCALE
    ensures Updated(a, s).periodContrib == if Passes(a, s) then PhaseAfter(a.periodContrib, WindowOf(a, s)) else a.periodContrib
    ensures !Passes(a, s) ==> Updated(a, s).sums == a.sums
    ensures Crosses(a, s) <==> Passes(a, s) && WindowOf(a, s).Crossing?
  {
    hide Carried, Averaged;
  }

  /** The load sum within its ceiling for entities of at most this weight. */
  ghost predicate LoadBounded(a: Avg, weight: nat) {
    a.periodContrib < SCALE && a.sums.loadSum <= (SUM_CEILING + a.periodContrib) * weight
  }

  lemma LoadUnitsBelow(x: nat, s: Sample, weight: nat)
    requires s.scaleFreq <= SCALE && s.weight <= weight
    ensures LoadUnits(x, s) == Gain(x, s.weight, s.scaleFreq) <= x * weight
  {
    MulMonotone(x, x, s.scaleFreq, SCALE);
    MulMonotone(CapScale(x, s.scaleFreq), x, s.weight, weight);
  }

  lemma LoadAccrued(a: Sums, pc: nat, x: nat, x': nat, s: Sample, weight: nat)
    requires a.loadSum <= (SUM_CEILING + pc) * weight && pc + x <= SCALE && weight * (SUM_CEILING + SCALE) < TWO64
    requires s.scaleFreq <= SCALE && s.weight <= weight
    ensures Accrued(a, x, x', s).loadSum == a.loadSum + Gain(x, s.weight, s.scaleFreq) <= (SUM_CEILING + pc + x) * weight
  {
    LoadUnitsBelow(x, s, weight);
    Distribute(SUM_CEILING + pc, x, weight);
    MulMonotone(SUM_CEILING + pc + x, SUM_CEILING + SCALE, weight, weight);
  }

  lemma LoadRolled(a: Sums, periods: nat, s: Sample, weight: nat)
    requires a.loadSum <= (SUM_CEILING + SCALE) * weight && weight * (SUM_CEILING + SCALE) < TWO64
    requires s.scaleFreq <= SCALE && s.weight <= weight
    ensures var x := RunnableContrib(periods);
            Accrued(Decayed(a, periods + 1, s), x, RunnableContribFast(periods), s).loadSum
            == DecayLoad(a.loadSum, periods + 1) + Gain(x, s.weight, s.scaleFreq) <= SUM_CEILING * weight
  {
    hide DecayLoad, RunnableContrib, RunnableContribFast, UtilUnits, CoreUnits, MemoryUnits, Gain;
    LoadUnitsBelow(RunnableContrib(periods), s, weight);
    SlowBoundary(a.loadSum, periods, weight, SUM_CEILING);
    MulMonotone(SUM_CEILING, SUM_CEILING + SCALE, weight, weight);
  }

  /** The load sum does not wrap at 64 bits, and stays within its ceiling. */
  lemma LoadIsFed(a: Avg, s: Sample, weight: nat)
    requires LoadBounded(a, weight) && weight * (SUM_CEILING + SCALE) < TWO64
    requires s.scaleFreq <= SCALE && s.weight <= weight
    ensures Passes(a, s) ==> Updated(a, s).sums.loadSum == Fed(a.sums.loadSum, WindowOf(a, s), s.weight, s.scaleFreq)
    ensures LoadBounded(Updated(a, s), weight)
  {
    hide Accrued, Decayed, DecayLoad, RunnableContrib, RunnableContribFast, Gain, Updated, Passes, WindowOf;
    NextPhase(a, s);
    if Passes(a, s) {
      LoadOf(a, s);
      InWindow(a, s);
      match WindowOf(a, s)
      case Within(tail) =>
        LoadAccrued(a.sums, a.periodContrib, tail, tail, s, weight);
      case Crossing(head, periods, tail) =>
        LoadAccrued(a.sums, a.periodContrib, head, head, s, weight);
        var full := Accrued(a.sums, head, head, s);
        LoadRolled(full, periods, s, weight);
        var whole := Accrued(Decayed(full, periods + 1, s), RunnableContrib(periods), RunnableContribFast(periods), s);
        LoadAccrued(whole, 0, tail, tail, s, weight);
    }
  }

  lemma LoadOf(a: Avg, s: Sample)
    requires a.periodContrib < SCALE && Passes(a, s)
    ensures Updated(a, s).sums.loadSum == Carried(a.sums, WindowOf(a, s), s).loadSum
  {
    hide Carried;
  }

  lemma InWindow(a: Avg, s: Sample)
    requires a.periodContrib < SCALE && Passes(a, s)
    ensures match WindowOf(a, s)
            case Within(tail) => a.periodContrib + tail < SCALE
            case Crossing(head, _, tail) => a.periodContrib + head == SCALE && tail < SCALE
  {
  }

  lemma {:induction false} LoadBoundedAlways(a: Avg, samples: seq<Sample>, weight: nat)
    requires LoadBounded(a, weight) && weight * (SUM_CEILING + SCALE) < TWO64
    requires forall s :: s in samples ==> s.scaleFreq <= SCALE && s.weight <= weight
    ensures LoadBounded(Run(a, samples), weight)
    decreases |samples|
  {
    if samples != [] {
      hide Updated, LoadBounded;
      assert samples[0] in samples;
      LoadIsFed(a, samples[0], weight);
      LoadBoundedAlways(Updated(a, samples[0]), samples[1..], weight);
    }
  }

  // --------------------------------------------------- running at full speed

  ghost predicate FullSpeed(s: Sample, cpu: nat) {
    s.running && s.scaleFreq == SCALE && s.scaleCpu == cpu
  }

  /** By how much the utilisation sum misses its floor. */
  function Shortfall(a: Avg, cpu: nat): nat {
    Max(0, (SUM_FLOOR + a.periodContrib) * cpu - a.sums.util.sum)
  }

  /** How many updates of the run cross a period boundary. */
  ghost function Crossings(a: Avg, samples: seq<Sample>): nat
    requires a.periodContrib < SCALE
    decreases |samples|
  {
    if samples == [] then 0
    else (if Crosses(a, samples[0]) then 1 else 0) + Crossings(Updated(a, samples[0]), samples[1..])
  }

  /** A boundary makes what is missing at full speed decay, however many periods it spans. */
  lemma RolledFloor(v: nat, periods: nat, c: nat, missing: nat)
    requires v + missing >= (SUM_FLOOR + SCALE) * c
    ensures DecayLoad(v, periods + 1) + RunnableContrib(periods) * c + DecayLoad(missing, 1) >= SUM_FLOOR * c
  {
    hide DecayLoad, RunnableContrib;
    var n, x := periods + 1, SUM_FLOOR + SCALE;
    FloorKept(n);
    DecayTimes(x, c, n);
    DecayMonotone(x * c, v + missing, n);
    DecaySum(v, missing, n);
    DecayAntitone(missing, 1, n);
    MulMonotone(SUM_FLOOR + 2, DecayLoad(x, n) + RunnableContrib(periods), c, c);
    Distribute(DecayLoad(x, n), RunnableContrib(periods), c);
    Distribute(SUM_FLOOR, 2, c);
  }

  lemma FullGain(x: nat, c: nat)
    ensures Gain(x, c, SCALE) == x * c
  {
  }

  lemma FedFloor(v: nat, w: Window, pc: nat, c: nat, missing: nat)
    requires v + missing >= (SUM_FLOOR + pc) * c
    requires w.Crossing? ==> pc + w.head == SCALE
    ensures Fed(v, w, c, SCALE) + (if w.Crossing? then DecayLoad(missing, 1) else missing) >= (SUM_FLOOR + PhaseAfter(pc, w)) * c
  {
    hide DecayLoad, RunnableContrib, Gain;
    FullGain(w.tail, c);
    match w
    case Within(tail) =>
      Distribute(SUM_FLOOR + pc, tail, c);
    case Crossing(head, periods, tail) =>
      FullGain(head, c);
      FullGain(RunnableContrib(periods), c);
      Distribute(SUM_FLOOR + pc, head, c);
      RolledFloor(v + head * c, periods, c, missing);
      Distribute(SUM_FLOOR, tail, c);
  }

  /** The update of an average at full speed: what is missing shrinks, and at the floor the average shows it. */
  lemma FullSpeedUpdate(a: Avg, s: Sample, cpu: nat)
    requires Bounded(a, cpu, false) && cpu <= SCALE && FullSpeed(s, cpu) && s.ratio <= SCALE
    ensures Bounded(Updated(a, s), cpu, false)
    ensures Shortfall(Updated(a, s), cpu) <= if Crosses(a, s) then DecayLoad(Shortfall(a, cpu), 1) else Shortfall(a, cpu)
    ensures Crosses(a, s) && Shortfall(Updated(a, s), cpu) == 0 ==> AtFloor(Updated(a, s), cpu)
    ensures !Crosses(a, s) ==> Updated(a, s).sums.util.avg == a.sums.util.avg
  {
    hide DecayLoad, Fed, Updated, Crosses, SumsBounded;
    UpdateBounded(a, s, cpu, false);
    NextPhase(a, s);
    AveragesFollowSums(a, s);
    if Passes(a, s) {
      UtilIsFed(a, s, cpu);
      InWindow(a, s);
      FedFloor(a.sums.util.sum, WindowOf(a, s), a.periodContrib, cpu, Shortfall(a, cpu));
    }
    FloorShows(Updated(a, s), cpu);
  }

  /** The average shows at least the floor: 97 parts of a hundred of the capacity. */
  ghost predicate AtFloor(a: Avg, cpu: nat) {
    SUM_FLOOR * cpu < (a.sums.util.avg + 1) * LOAD_AVG_MAX
  }

  lemma FloorShows(a: Avg, cpu: nat)
    ensures SignalPerUnit(a.sums.util) && Shortfall(a, cpu) == 0 ==> AtFloor(a, cpu)
  {
    Distribute(SUM_FLOOR, a.periodContrib, cpu);
  }

  lemma Decays32nd(v: nat, d: nat, e: nat)
    requires e == 32 && d <= DecayLoad(v, 1)
    ensures Pow(d, e) * 2 <= Pow(v, e)
  {
    hide DecayLoad;
    DecayBelowPower(v, 1, e);
    PowMonotone(d, DecayLoad(v, 1), e);
    assert Pow(2, 1) == 2;
  }

  /** More crossings ahead than what is missing needs, or nothing missing any more. */
  ghost predicate OnTheWay(a: Avg, crossings: nat, cpu: nat, e: nat) {
    (crossings > 0 && Pow(Shortfall(a, cpu), e) < Pow(2, crossings - 1)) || (Shortfall(a, cpu) == 0 && AtFloor(a, cpu))
  }

  lemma StaysOnTheWay(a: Avg, s: Sample, crossings: nat, cpu: nat, e: nat)
    requires Bounded(a, cpu, false) && cpu <= SCALE && FullSpeed(s, cpu) && s.ratio <= SCALE && e == 32
    requires OnTheWay(a, crossings, cpu, e) && (Crosses(a, s) ==> crossings > 0)
    ensures Bounded(Updated(a, s), cpu, false)
    ensures OnTheWay(Updated(a, s), if Crosses(a, s) then crossings - 1 else crossings, cpu, e)
  {
    hide Pow, Shortfall, Updated, Crosses, FullSpeed, SumsBounded, DecayLoad;
    FullSpeedUpdate(a, s, cpu);
    var v, d := Shortfall(a, cpu), Shortfall(Updated(a, s), cpu);
    NothingDecays();
    NothingToThe(v, e);
    if Crosses(a, s) {
      Decays32nd(v, d, e);
      NothingToThe(d, e);
      if crossings > 1 {
        assert Pow(2, crossings - 1) == 2 * Pow(2, crossings - 2) by { PowStep(2, crossings - 1); }
      } else {
        assert Pow(2, 0) == 1 by { PowNone(2); }
      }
    } else {
      PowMonotone(d, v, e);
      SameAtFloor(a, Updated(a, s), cpu);
    }
  }

  lemma SameAtFloor(a: Avg, b: Avg, cpu: nat)
    ensures a.sums.util.avg == b.sums.util.avg ==> (AtFloor(a, cpu) <==> AtFloor(b, cpu))
  {
  }

  lemma NothingDecays()
    ensures DecayLoad(0, 1) == 0
  {
  }

  lemma PowStep(b: nat, e: nat)
    requires e > 0
    ensures Pow(b, e) == b * Pow(b, e - 1)
  {
  }

  lemma NothingToThe(v: nat, e: nat)
    requires e == 32
    ensures Pow(v, e) < 1 <==> v == 0
  {
    PowZero(e);
    if v > 0 {
      PowPositive(v, e);
    }
  }

  lemma {:induction false} FloorByPowers(a: Avg, samples: seq<Sample>, cpu: nat, e: nat)
    requires Bounded(a, cpu, false) && cpu <= SCALE && e == 32
    requires forall s :: s in samples ==> FullSpeed(s, cpu) && s.ratio <= SCALE
    requires OnTheWay(a, Crossings(a, samples), cpu, e)
    ensures var r := Run(a, samples); Shortfall(r, cpu) == 0 && AtFloor(r, cpu)
    decreases |samples|
  {
    hide Shortfall, Updated, Crosses, FullSpeed, AtFloor, SumsBounded;
    if samples != [] {
      hide OnTheWay;
      var s := samples[0];
      assert s in samples;
      StaysOnTheWay(a, s, Crossings(a, samples), cpu, e);
      FloorByPowers(Updated(a, s), samples[1..], cpu, e);
    }
  }

  /**
   * Whatever it did before, a task that runs at full speed throughout has its
   * utilisation at the floor once 834 updates have crossed a boundary.
   */
  lemma FullSpeedReachesFloor(a: Avg, samples: seq<Sample>, cpu: nat)
    requires Bounded(a, cpu, false) && cpu <= SCALE && Crossings(a, samples) >= 834
    requires forall s :: s in samples ==> FullSpeed(s, cpu) && s.ratio <= SCALE
    ensures var r := Run(a, samples);
            && (SUM_FLOOR + r.periodContrib) * cpu <= r.sums.util.sum
            && SUM_FLOOR * cpu < (r.sums.util.avg + 1) * LOAD_AVG_MAX
  {
    hide Crossings, Run, FullSpeed;
    MissingAtMost(a, cpu, Crossings(a, samples), 32);
    FloorByPowers(a, samples, cpu, 32);
  }

  lemma MissingAtMost(a: Avg, cpu: nat, crossings: nat, e: nat)
    requires a.periodContrib < SCALE && cpu <= SCALE && crossings >= 834 && e == 32
    ensures OnTheWay(a, crossings, cpu, e)
  {
    var v, k := Shortfall(a, cpu), crossings - 834;
    MulMonotone(SUM_FLOOR + a.periodContrib, SUM_FLOOR + SCALE, cpu, SCALE);
    hide Shortfall, Pow;
    assert v <= Pow(2, 26) by { PowTwo26(); }
    PowMonotone(v, Pow(2, 26), e);
    PowPow(2, 26, e);
    PowStep(2, 833);
    PowPositive(2, 832);
    PowPositive(2, k);
    PowSum(2, 833, k);
    MulMonotone(Pow(2, 833), Pow(2, 833), 1, Pow(2, k));
  }

  lemma PowTwo26()
    ensures Pow(2, 26) == 0x400_0000
  {
    assert Pow(2, 13) == 0x2000;
    PowSum(2, 13, 13);
  }

  /** One update is enough if it spans 345 whole periods: then even the full capacity shows. */
  lemma LongRunShowsAll(a: Avg, s: Sample, cpu: nat)
    requires Bounded(a, cpu, false) && cpu <= SCALE && FullSpeed(s, cpu) && s.ratio <= SCALE
    requires Passes(a, s) && WindowOf(a, s).Crossing? && WindowOf(a, s).periods >= LOAD_AVG_MAX_N
    ensures Updated(a, s).sums.util.avg >= cpu
  {
    hide DecayLoad, Updated, SumsBounded;
    UtilIsFed(a, s, cpu);
    NextPhase(a, s);
    AveragesFollowSums(a, s);
    FullGain(LOAD_AVG_MAX, cpu);
    var avg := Updated(a, s).sums.util.avg;
    assert LOAD_AVG_MAX * cpu <= Updated(a, s).sums.util.sum;
  }

  // ------------------------------------------------ what time is credited with

  /** Every microsecond that has passed falls into a period: those begun, those gone by and the one that goes on. */
  lemma TimeIsAccounted(a: Avg, s: Sample)
    requires a.periodContrib < SCALE
    ensures var r, now := Updated(a, s), Elapsed(s.now, a.lastUpdateTime) / SCALE;
            && r.periodContrib < SCALE
            && (Passes(a, s) ==>
                  r.lastUpdateTime == s.now && r.ratio == (if s.pemt && s.running then s.ratio else a.ratio)
                  && a.periodContrib + now == r.periodContrib + if Crosses(a, s) then (WindowOf(a, s).periods + 1) * SCALE else 0)
  {
    hide Carried, Averaged;
  }

  /**
   * Time x counts by frequency and capacity, in 1024ths: its core part by what
   * the ratio leaves as well, its memory part by the ratio but not by the
   * frequency. Less than one unit is lost by each rounding.
   */
  lemma UnitsAreParts(x: nat, s: Sample, cpu: nat)
    requires InRange(s, cpu, false) && s.running
    ensures UtilUnits(x, s) * SCALE <= x * s.scaleFreq * cpu < (UtilUnits(x, s) + cpu + 1) * SCALE
    ensures CoreUnits(x, s) * SCALE <= UtilUnits(x, s) * (SCALE - s.ratio) < (CoreUnits(x, s) + 1) * SCALE
    ensures MemoryUnits(x, s) * SCALE <= x * cpu * s.ratio < (MemoryUnits(x, s) + 1) * SCALE
  {
    var y := CapScale(x, s.scaleFreq);
    DivQuotient(x * s.scaleFreq, SCALE);
    MulMonotone(y * SCALE, x * s.scaleFreq, cpu, cpu);
    MulMonotone(x * s.scaleFreq, y * SCALE + SCALE, cpu, cpu);
    Associate(y, SCALE, cpu);
    Distribute(y * SCALE, SCALE, cpu);
    DivQuotient(y * cpu * (SCALE - s.ratio), SCALE);
    DivQuotient(x * cpu * s.ratio, SCALE);
  }

  // -------------------------------------------- load is weighted utilisation

  /** c times l is d times u, up to what rounding has cost either of them. */
  ghost predicate Follows(l: nat, u: nat, c: nat, d: nat) {
    Behind(l, u, c, d) && Behind(u, l, d, c)
  }

  ghost predicate Behind(l: nat, u: nat, c: nat, d: nat) {
    c * l <= d * u + 94 * d
  }

  lemma RoundingDecays(d: nat)
    ensures DecayLoad(94 * d, 1) <= 92 * d
  {
    OnePeriod(94 * d);
  }

  lemma BehindRolled(l: nat, u: nat, c: nat, d: nat, n: nat)
    requires Behind(l, u, c, d) && d > 0 && n > 0
    ensures Behind(DecayLoad(l, n), DecayLoad(u, n), c, d)
  {
    hide DecayLoad;
    DecayTimes(l, c, n);
    DecayTimes(u, d, n);
    DecayMonotone(l * c, u * d + 94 * d, n);
    DecaySum(u * d, 94 * d, n);
    DecayAntitone(94 * d, 1, n);
    RoundingDecays(d);
  }

  lemma BehindGained(l: nat, u: nat, c: nat, d: nat, x: nat, f: nat)
    requires Behind(l, u, c, d)
    ensures Behind(l + Gain(x, d, f), u + Gain(x, c, f), c, d)
  {
    var g := CapScale(x, f);
    Associate(c, g, d);
    Associate(d, g, c);
    Distribute(l, g * d, c);
    Distribute(u, g * c, d);
  }

  lemma BehindFed(l: nat, u: nat, c: nat, d: nat, w: Window, f: nat)
    requires Behind(l, u, c, d) && d > 0
    ensures Behind(Fed(l, w, d, f), Fed(u, w, c, f), c, d)
  {
    hide DecayLoad, RunnableContrib, Gain, Behind;
    match w
    case Within(tail) =>
      BehindGained(l, u, c, d, tail, f);
    case Crossing(head, periods, tail) =>
      BehindGained(l, u, c, d, head, f);
      var l1, u1 := l + Gain(head, d, f), u + Gain(head, c, f);
      BehindRolled(l1, u1, c, d, periods + 1);
      var l2, u2 := DecayLoad(l1, periods + 1), DecayLoad(u1, periods + 1);
      BehindGained(l2, u2, c, d, RunnableContrib(periods), f);
      BehindGained(l2 + Gain(RunnableContrib(periods), d, f), u2 + Gain(RunnableContrib(periods), c, f), c, d, tail, f);
  }

  /** Running throughout, with the same weight. */
  ghost predicate Busy(s: Sample, cpu: nat, weight: nat) {
    InRange(s, cpu, false) && s.running && s.weight == weight
  }

  /** The load sum is the weight times the utilisation sum per unit of capacity, over every run in which the task runs throughout. */
  lemma {:induction false} LoadFollowsUtil(a: Avg, samples: seq<Sample>, cpu: nat, weight: nat)
    requires Bounded(a, cpu, false) && LoadBounded(a, weight) && weight * (SUM_CEILING + SCALE) < TWO64
    requires cpu > 0 && weight > 0 && Follows(a.sums.loadSum, a.sums.util.sum, cpu, weight)
    requires forall s :: s in samples ==> Busy(s, cpu, weight)
    ensures var r := Run(a, samples).sums; Follows(r.loadSum, r.util.sum, cpu, weight)
    decreases |samples|
  {
    hide Updated, LoadBounded, SumsBounded, Follows, Passes;
    if samples != [] {
      var s := samples[0];
      assert s in samples;
      UpdateBounded(a, s, cpu, false);
      LoadIsFed(a, s, weight);
      FollowsUpdated(a, s, cpu, weight);
      LoadFollowsUtil(Updated(a, s), samples[1..], cpu, weight);
    }
  }

  lemma FollowsUpdated(a: Avg, s: Sample, cpu: nat, weight: nat)
    requires Bounded(a, cpu, false) && LoadBounded(a, weight) && weight * (SUM_CEILING + SCALE) < TWO64
    requires cpu > 0 && weight > 0 && Busy(s, cpu, weight) && Follows(a.sums.loadSum, a.sums.util.sum, cpu, weight)
    ensures Follows(Updated(a, s).sums.loadSum, Updated(a, s).sums.util.sum, cpu, weight)
  {
    hide Updated, LoadBounded, SumsBounded, Behind, Passes, Fed;
    NextPhase(a, s);
    if Passes(a, s) {
      LoadIsFed(a, s, weight);
      UtilIsFed(a, s, cpu);
      var l, u, w := a.sums.loadSum, a.sums.util.sum, WindowOf(a, s);
      BehindFed(l, u, cpu, weight, w, s.scaleFreq);
      BehindFed(u, l, weight, cpu, w, s.scaleFreq);
    }
  }

  // ------------------------------------------- never and always stalled

  /** Without stalls the core part is all of the utilisation. */
  ghost predicate AllCore(a: Avg) {
    a.periodContrib < SCALE && a.sums.core == a.sums.util && a.sums.memory == ZERO
  }

  lemma UnstalledUnits(x: nat, s: Sample)
    requires s.ratio == 0
    ensures CoreUnits(x, s) == UtilUnits(x, s) && MemoryUnits(x, s) == 0
  {
  }

  lemma UnstalledAccrued(a: Sums, x: nat, x': nat, s: Sample)
    requires a.core == a.util && a.memory == ZERO && s.ratio == 0 && s.pemt
    ensures var b := Accrued(a, x, x', s); b.core == b.util && b.memory == ZERO
  {
    hide UtilUnits, CoreUnits, MemoryUnits, LoadUnits;
    UnstalledUnits(x, s);
    UnstalledUnits(x', s);
  }

  lemma UnstalledDecayed(a: Sums, n: nat, s: Sample)
    requires a.core == a.util && a.memory == ZERO && s.pemt && n > 0
    ensures var b := Decayed(a, n, s); b.core == b.util && b.memory == ZERO
  {
    DecayAntitone(0, 0, n);
  }

  lemma UnstalledUpdated(a: Avg, s: Sample)
    requires AllCore(a) && s.ratio == 0 && s.pemt
    ensures AllCore(Updated(a, s))
  {
    hide Accrued, Decayed, RunnableContrib, RunnableContribFast, Passes, WindowOf;
    NextPhase(a, s);
    if Passes(a, s) {
      SumsAfter(a, s);
      match WindowOf(a, s)
      case Within(tail) =>
        UnstalledAccrued(a.sums, tail, tail, s);
      case Crossing(head, periods, tail) =>
        var x, x' := RunnableContrib(periods), RunnableContribFast(periods);
        UnstalledAccrued(a.sums, head, head, s);
        var full := Accrued(a.sums, head, head, s);
        UnstalledDecayed(full, periods + 1, s);
        UnstalledAccrued(Decayed(full, periods + 1, s), x, x', s);
        UnstalledAccrued(Accrued(Decayed(full, periods + 1, s), x, x', s), tail, tail, s);
    }
  }

  lemma SumsAfter(a: Avg, s: Sample)
    requires a.periodContrib < SCALE && Passes(a, s)
    ensures var w := WindowOf(a, s);
            Updated(a, s).sums == if w.Crossing? then Averaged(Carried(a.sums, w, s), s) else Carried(a.sums, w, s)
  {
    hide Carried, Averaged;
  }

  lemma {:induction false} NeverStalledIsAllCore(a: Avg, samples: seq<Sample>)
    requires AllCore(a) && forall s :: s in samples ==> s.ratio == 0 && s.pemt
    ensures AllCore(Run(a, samples))
    decreases |samples|
  {
    hide Updated;
    if samples != [] {
      assert samples[0] in samples;
      UnstalledUpdated(a, samples[0]);
      NeverStalledIsAllCore(Updated(a, samples[0]), samples[1..]);
    }
  }

  /** All time stalled: no core part, and the memory part is the utilisation of the same time at full frequency. */
  ghost predicate AllMemory(a: Avg, full: Avg) {
    && a.periodContrib == full.periodContrib < SCALE && a.lastUpdateTime == full.lastUpdateTime
    && AllStalled(a.sums, full.sums)
  }

  ghost predicate AllStalled(a: Sums, full: Sums) {
    a.memory == full.util && a.core == ZERO
  }

  lemma StalledUnits(x: nat, s: Sample)
    requires s.ratio == SCALE
    ensures CoreUnits(x, s) == 0 && MemoryUnits(x, s) == UtilUnits(x, AtFull(s))
  {
    assert CapScale(x, SCALE) == x;
  }

  lemma StalledAccrued(a: Sums, full: Sums, x: nat, x': nat, s: Sample)
    requires AllStalled(a, full) && s.ratio == SCALE && s.pemt
    ensures AllStalled(Accrued(a, x, x', s), Accrued(full, x, x', AtFull(s)))
  {
    hide UtilUnits, CoreUnits, MemoryUnits, LoadUnits;
    StalledUnits(x, s);
    StalledUnits(x', s);
  }

  lemma StalledDecayed(a: Sums, full: Sums, n: nat, s: Sample)
    requires AllStalled(a, full) && s.pemt && n > 0
    ensures AllStalled(Decayed(a, n, s), Decayed(full, n, AtFull(s)))
  {
    DecayAntitone(0, 0, n);
  }

  lemma StalledAveraged(a: Sums, full: Sums, s: Sample)
    requires AllStalled(a, full) && s.pemt
    ensures AllStalled(Averaged(a, s), Averaged(full, AtFull(s)))
  {
  }

  lemma StalledUpdated(a: Avg, full: Avg, s: Sample)
    requires AllMemory(a, full) && s.ratio == SCALE && s.pemt
    ensures AllMemory(Updated(a, s), Updated(full, AtFull(s)))
  {
    hide Accrued, Decayed, Averaged, AllStalled, RunnableContrib, RunnableContribFast;
    NextPhase(a, s);
    NextPhase(full, AtFull(s));
    var t := AtFull(s);
    if Passes(a, s) {
      SumsAfter(a, s);
      SumsAfter(full, t);
      match WindowOf(a, s)
      case Within(tail) =>
        StalledAccrued(a.sums, full.sums, tail, tail, s);
      case Crossing(head, periods, tail) =>
        var n, x, x' := periods + 1, RunnableContrib(periods), RunnableContribFast(periods);
        StalledAccrued(a.sums, full.sums, head, head, s);
        var b, c := Accrued(a.sums, head, head, s), Accrued(full.sums, head, head, t);
        StalledDecayed(b, c, n, s);
        StalledAccrued(Decayed(b, n, s), Decayed(c, n, t), x, x', s);
        var d, e := Accrued(Decayed(b, n, s), x, x', s), Accrued(Decayed(c, n, t), x, x', t);
        StalledAccrued(d, e, tail, tail, s);
        StalledAveraged(Accrued(d, tail, tail, s), Accrued(e, tail, tail, t), s);
    }
  }

  lemma {:induction false} AlwaysStalledIsAllMemory(a: Avg, full: Avg, samples: seq<Sample>)
    requires AllMemory(a, full) && forall s :: s in samples ==> s.ratio == SCALE && s.pemt
    ensures AllMemory(Run(a, samples), Run(full, AllAtFull(samples)))
    decreases |samples|
  {
    hide Updated;
    if samples != [] {
      assert samples[0] in samples;
      assert AllAtFull(samples)[0] == AtFull(samples[0]);
      assert AllAtFull(samples)[1..] == AllAtFull(samples[1..]);
      StalledUpdated(a, full, samples[0]);
      AlwaysStalledIsAllMemory(Updated(a, samples[0]), Updated(full, AtFull(samples[0])), samples[1..]);
    }
  }
}
