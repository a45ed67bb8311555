/**
 * The split of utilisation: core and memory parts together never exceed what
 * the same run would have shown at full frequency, and at full frequency they
 * miss at most three points of it.
 */
module UtilSplit {
  import opened Arithmetic
  import opened Decay
  import opened LoadAverage
  import opened LoadTracking

  /** The same sample taken with the CPU at its highest frequency. */
  function AtFull(s: Sample): Sample {
    s.(scaleFreq := SCALE)
  }

  function AllAtFull(samples: seq<Sample>): seq<Sample> {
    seq(|samples|, i requires 0 <= i < |samples| => AtFull(samples[i]))
  }

  // ----------------------------------------- never above the full-speed sum

  /** The two parts of a fit into the utilisation of full, on both time scales. */
  ghost predicate FitsInto(a: Sums, full: Sums) {
    && a.core.sum + a.memory.sum <= full.util.sum
    && a.core.fastSum + a.memory.fastSum <= full.util.fastSum
    && a.util.sum <= full.util.sum
    && a.util.fastSum <= full.util.fastSum
  }

  lemma UnitsFit(x: nat, s: Sample, cpu: nat)
    requires InRange(s, cpu, true)
    ensures CoreUnits(x, s) + MemoryUnits(x, s) <= UtilUnits(x, AtFull(s))
    ensures UtilUnits(x, s) <= UtilUnits(x, AtFull(s))
  {
    UnitsBelow(x, s, cpu);
    assert CapScale(x, SCALE) == x;
  }

  lemma AccrueFits(a: Sums, full: Sums, b: Sums, bFull: Sums, x: nat, x': nat, s: Sample, cpu: nat)
    requires FitsInto(a, full) && InRange(s, cpu, true)
    requires Gains(a, b, x, x', s, true) && Gains(full, bFull, x, x', AtFull(s), true)
    ensures FitsInto(b, bFull)
  {
    UnitsFit(x, s, cpu);
    UnitsFit(x', s, cpu);
    hide CoreUnits, MemoryUnits, UtilUnits;
  }

  lemma DecayFits(a: Sums, full: Sums, n: nat, s: Sample)
    requires FitsInto(a, full) && s.pemt
    ensures FitsInto(Decayed(a, n, s), Decayed(full, n, AtFull(s)))
  {
    hide DecayLoad, DecayFastLoad;
    DecaySum(a.core.sum, a.memory.sum, n);
    DecayMonotone(a.core.sum + a.memory.sum, full.util.sum, n);
    FastDecaySum(a.core.fastSum, a.memory.fastSum, n);
    DecayMonotone(a.core.fastSum + a.memory.fastSum, full.util.fastSum, n);
    DecayMonotone(a.util.sum, full.util.sum, n);
    DecayMonotone(a.util.fastSum, full.util.fastSum, n);
  }

  lemma CarryFits(a: Sums, full: Sums, pc: nat, delta: nat, s: Sample, cpu: nat)
    requires pc < SCALE && FitsInto(a, full)
    requires SumsBounded(a, pc, cpu, true) && SumsBounded(full, pc, cpu, true)
    requires InRange(s, cpu, true)
    ensures var w := Split(pc, delta);
            FitsInto(Carried(a, w, s), Carried(full, w, AtFull(s)))
  {
    hide Accrued, Decayed, SumsBounded, RunnableContrib, RunnableContribFast, Gains, FitsInto;
    var f := AtFull(s);
    match Split(pc, delta)
    case Within(tail) =>
      AccrueBounded(a, pc, tail, s, cpu, true);
      AccrueBounded(full, pc, tail, f, cpu, true);
      AccrueFits(a, full, Accrued(a, tail, tail, s), Accrued(full, tail, tail, f), tail, tail, s, cpu);
    case Crossing(head, periods, tail) =>
      AccrueBounded(a, pc, head, s, cpu, true);
      AccrueBounded(full, pc, head, f, cpu, true);
      var a1, f1 := Accrued(a, head, head, s), Accrued(full, head, head, f);
      AccrueFits(a, full, a1, f1, head, head, s, cpu);
      DecayFits(a1, f1, periods + 1, s);
      var x, x' := RunnableContrib(periods), RunnableContribFast(periods);
      RolloverBounded(a1, periods, s, cpu, true);
      RolloverBounded(f1, periods, f, cpu, true);
      var a2, f2 := Decayed(a1, periods + 1, s), Decayed(f1, periods + 1, f);
      var a3, f3 := Accrued(a2, x, x', s), Accrued(f2, x, x', f);
      AccrueFits(a2, f2, a3, f3, x, x', s, cpu);
      AccrueBounded(a3, 0, tail, s, cpu, true);
      AccrueBounded(f3, 0, tail, f, cpu, true);
      AccrueFits(a3, f3, Accrued(a3, tail, tail, s), Accrued(f3, tail, tail, f), tail, tail, s, cpu);
  }

  /** Two averages at the same point in time, the first inside the second. */
  ghost predicate Alongside(a: Avg, full: Avg, cpu: nat) {
    && a.lastUpdateTime == full.lastUpdateTime
    && a.periodContrib == full.periodContrib
    && Bounded(a, cpu, true) && Bounded(full, cpu, true)
    && FitsInto(a.sums, full.sums)
  }

  lemma UpdateFits(a: Avg, full: Avg, s: Sample, cpu: nat)
    requires Alongside(a, full, cpu) && InRange(s, cpu, true)
    ensures Alongside(Updated(a, s), Updated(full, AtFull(s)), cpu)
  {
    UpdateBounded(a, s, cpu, true);
    UpdateBounded(full, AtFull(s), cpu, true);
    hide Carried, SumsBounded, InRange;
    var elapsed := Elapsed(s.now, a.lastUpdateTime);
    if SCALE <= elapsed < TWO63 {
      CarryFits(a.sums, full.sums, a.periodContrib, elapsed / SCALE, s, cpu);
    }
  }

  /**
   * Main result on the split: with pemt on throughout, over every run the core
   * and memory sums together stay within the utilisation sum the same run
   * would have at full frequency.
   */
  lemma {:induction false} SplitWithinFullSpeed(a: Avg, full: Avg, samples: seq<Sample>, cpu: nat)
    requires Alongside(a, full, cpu) && AllInRange(samples, cpu, true)
    ensures Alongside(Run(a, samples), Run(full, AllAtFull(samples)), cpu)
    ensures var r, f := Run(a, samples).sums, Run(full, AllAtFull(samples)).sums;
            && r.core.sum + r.memory.sum <= f.util.sum
            && r.core.fastSum + r.memory.fastSum <= f.util.fastSum
    decreases |samples|
  {
    if samples != [] {
      hide Updated, Alongside;
      assert samples[0] in samples;
      assert AllAtFull(samples)[0] == AtFull(samples[0]);
      assert AllAtFull(samples)[1..] == AllAtFull(samples[1..]);
      UpdateFits(a, full, samples[0], cpu);
      assert Updated(a, samples[0]).periodContrib < SCALE;
      SplitWithinFullSpeed(Updated(a, samples[0]), Updated(full, AtFull(samples[0])), samples[1..], cpu);
    }
  }

  // --------------------------------------- close to it when at full frequency

  /** What rounding can withhold from the two parts just after a boundary. */
  const GAP_CEILING: nat := 48000

  /** The parts and the gap g account for the whole utilisation sum. */
  ghost predicate Accounts(a: Sums, g: nat) {
    a.core.sum + a.memory.sum <= a.util.sum <= a.core.sum + a.memory.sum + g
  }

  lemma UnitsAccount(x: nat, s: Sample, cpu: nat)
    requires InRange(s, cpu, true) && s.scaleFreq == SCALE
    ensures CoreUnits(x, s) + MemoryUnits(x, s) <= UtilUnits(x, s)
         <= CoreUnits(x, s) + MemoryUnits(x, s) + Min(x, 1)
  {
    UnitsFit(x, s, cpu);
    assert CapScale(x, SCALE) == x;
    if s.running && x > 0 {
      var u, r := x * cpu, s.ratio;
      Distribute(SCALE - r, r, u);
      assert u * (SCALE - r) / SCALE + u * r / SCALE + 1 >= u;
    }
  }

  lemma AccrueAccounts(a: Sums, b: Sums, x: nat, x': nat, s: Sample, cpu: nat, g: nat)
    requires Accounts(a, g) && InRange(s, cpu, true) && s.scaleFreq == SCALE
    requires Gains(a, b, x, x', s, true)
    ensures Accounts(b, g + Min(x, 1))
  {
    UnitsAccount(x, s, cpu);
    hide CoreUnits, MemoryUnits, UtilUnits;
  }

  /** One decay shrinks the gap by y and can lose four units to rounding. */
  lemma DecayAccounts(a: Sums, n: nat, s: Sample, g: nat)
    requires Accounts(a, g) && s.pemt && g <= GAP_CEILING + SCALE && n > 0
    ensures Accounts(Decayed(a, n, s), GAP_CEILING - 20)
  {
    hide DecayLoad, DecayFastLoad;
    var gap := a.util.sum - a.core.sum - a.memory.sum;
    DecaySum(a.core.sum, a.memory.sum, n);
    DecaySum(a.core.sum + a.memory.sum, gap, n);
    DecayAntitone(gap, 1, n);
    DecayMonotone(gap, GAP_CEILING + SCALE, 1);
    GapDecays();
  }

  lemma GapDecays()
    ensures DecayLoad(GAP_CEILING + SCALE, 1) <= GAP_CEILING - 24
  {
  }

  lemma CarryAccounts(a: Sums, pc: nat, delta: nat, s: Sample, cpu: nat)
    requires pc < SCALE && delta > 0 && Accounts(a, GAP_CEILING + pc)
    requires SumsBounded(a, pc, cpu, true)
    requires InRange(s, cpu, true) && s.scaleFreq == SCALE
    ensures var w := Split(pc, delta);
            Accounts(Carried(a, w, s), GAP_CEILING + if w.Crossing? then w.tail else pc + w.tail)
  {
    hide Accrued, Decayed, SumsBounded, RunnableContrib, RunnableContribFast, Gains;
    match Split(pc, delta)
    case Within(tail) =>
      AccrueBounded(a, pc, tail, s, cpu, true);
      AccrueAccounts(a, Accrued(a, tail, tail, s), tail, tail, s, cpu, GAP_CEILING + pc);
    case Crossing(head, periods, tail) =>
      AccrueBounded(a, pc, head, s, cpu, true);
      var a1 := Accrued(a, head, head, s);
      AccrueAccounts(a, a1, head, head, s, cpu, GAP_CEILING + pc);
      DecayAccounts(a1, periods + 1, s, GAP_CEILING + pc + 1);
      var x, x' := RunnableContrib(periods), RunnableContribFast(periods);
      RolloverBounded(a1, periods, s, cpu, true);
      var a2 := Decayed(a1, periods + 1, s);
      var a3 := Accrued(a2, x, x', s);
      AccrueAccounts(a2, a3, x, x', s, cpu, GAP_CEILING - 20);
      AccrueBounded(a3, 0, tail, s, cpu, true);
      AccrueAccounts(a3, Accrued(a3, tail, tail, s), tail, tail, s, cpu, GAP_CEILING - 19);
  }

  ghost predicate AveragesClose(a: Sums) {
    a.util.avg - 3 <= a.core.avg + a.memory.avg <= a.util.avg
  }

  ghost predicate Close(a: Avg, cpu: nat) {
    && Bounded(a, cpu, true)
    && Accounts(a.sums, GAP_CEILING + a.periodContrib)
    && AveragesClose(a.sums)
  }

  lemma AverageClose(a: Sums, g: nat, s: Sample)
    requires Accounts(a, g) && g < 2 * LOAD_AVG_MAX && s.pemt
    ensures AveragesClose(Averaged(a, s)) && Accounts(Averaged(a, s), g)
  {
  }

  lemma AveragesKept(a: Sums, w: Window, s: Sample)
    requires AveragesClose(a)
    ensures AveragesClose(Carried(a, w, s))
  {
    hide DecayLoad, DecayFastLoad, RunnableContrib, RunnableContribFast, UtilUnits, CoreUnits, MemoryUnits, LoadUnits;
  }

  lemma UpdateClose(a: Avg, s: Sample, cpu: nat)
    requires Close(a, cpu) && InRange(s, cpu, true) && s.scaleFreq == SCALE
    ensures Close(Updated(a, s), cpu)
  {
    UpdateBounded(a, s, cpu, true);
    hide Carried, SumsBounded, Averaged, AveragesClose, Accounts;
    var elapsed := Elapsed(s.now, a.lastUpdateTime);
    if SCALE <= elapsed < TWO63 {
      var delta := elapsed / SCALE;
      var w := Split(a.periodContrib, delta);
      CarryAccounts(a.sums, a.periodContrib, delta, s, cpu);
      AveragesKept(a.sums, w, s);
      if w.Crossing? {
        AverageClose(Carried(a.sums, w, s), GAP_CEILING + w.tail, s);
      }
    }
  }

  lemma {:induction false} RunClose(a: Avg, samples: seq<Sample>, cpu: nat)
    requires Close(a, cpu) && AllInRange(samples, cpu, true)
    requires forall s :: s in samples ==> s.scaleFreq == SCALE
    ensures Close(Run(a, samples), cpu)
    decreases |samples|
  {
    if samples != [] {
      hide Updated, Close;
      assert samples[0] in samples;
      UpdateClose(a, samples[0], cpu);
      assert Updated(a, samples[0]).periodContrib < SCALE by { hide *; }
      RunClose(Updated(a, samples[0]), samples[1..], cpu);
    }
  }

  /**
   * At full frequency, starting from zero, the recomputed averages of the two
   * parts add up to the utilisation average less at most three.
   */
  lemma SplitAveragesAtFullSpeed(a: Avg, samples: seq<Sample>, cpu: nat)
    requires a.sums == Sums(0, 0, ZERO, ZERO, ZERO) && a.periodContrib < SCALE
    requires AllInRange(samples, cpu, true)
    requires forall s :: s in samples ==> s.scaleFreq == SCALE
    ensures var r := Run(a, samples).sums;
            r.util.avg - 3 <= r.core.avg + r.memory.avg <= r.util.avg
  {
    RunClose(a, samples, cpu);
  }
}
