/**
 * struct sched_avg under __update_load_avg, and what holds of its sums and
 * averages over every run of updates.
 */
module LoadTracking {
  import opened Arithmetic
  import opened Decay
  import opened LoadAverage

  /** struct sched_avg; each signal groups its sum and average fields. */
  class SchedAvg {
    var lastUpdateTime: nat
    var periodContrib: nat
    var memoryCycleRatio: nat
    var loadSum: nat
    var loadAvg: nat
    var util: Signal
    var core: Signal
    var memory: Signal

    ghost function SumsView(): Sums
      reads this
    {
      Sums(loadSum, loadAvg, util, core, memory)
    }

    ghost function View(): Avg
      reads this
    {
      Avg(lastUpdateTime, periodContrib, memoryCycleRatio, SumsView())
    }

    /** init_entity_runnable_average for a group entity: nothing attached yet. */
    constructor ()
      ensures View() == Avg(0, 1023, 0, Sums(0, 0, ZERO, ZERO, ZERO))
    {
      lastUpdateTime, periodContrib, memoryCycleRatio := 0, 1023, 0;
      loadSum, loadAvg := 0, 0;
      util, core, memory := ZERO, ZERO, ZERO;
    }

    method Accrue(x: nat, x': nat, s: Sample)
      modifies `loadSum, `loadAvg, `util, `core, `memory
      ensures SumsView() == Accrued(old(SumsView()), x, x', s)
    {
      loadSum := (loadSum + LoadUnits(x, s)) % TWO64;
      util := Credit(util, UtilUnits(x, s), UtilUnits(x', s));
      if s.pemt {
        core := Credit(core, CoreUnits(x, s), CoreUnits(x', s));
        memory := Credit(memory, MemoryUnits(x, s), MemoryUnits(x', s));
      }
    }

    method Decay(n: nat, s: Sample)
      modifies `loadSum, `loadAvg, `util, `core, `memory
      ensures SumsView() == Decayed(old(SumsView()), n, s)
    {
      loadSum := DecayLoad(loadSum, n);
      util := Faded(util, n);
      if s.pemt {
        core := Faded(core, n);
        memory := Faded(memory, n);
      }
    }

    method Average(s: Sample)
      modifies `loadSum, `loadAvg, `util, `core, `memory
      ensures SumsView() == Averaged(old(SumsView()), s)
    {
      loadAvg := loadSum / LOAD_AVG_MAX;
      util := Mean(util);
      if s.pemt {
        core := Mean(core);
        memory := Mean(memory);
      }
    }

    /** The sums credited with delta units of time, over any period boundaries among them. */
    method Carry(delta: nat, s: Sample) returns (decayed: bool)
      requires periodContrib < SCALE
      modifies `periodContrib, `loadSum, `loadAvg, `util, `core, `memory
      ensures var w := Split(old(periodContrib), delta);
              && decayed == w.Crossing?
              && SumsView() == Carried(old(SumsView()), w, s)
              && periodContrib == if decayed then w.tail else old(periodContrib) + w.tail
    {
      hide Accrued, Decayed, RunnableContrib, RunnableContribFast;
      decayed := delta + periodContrib >= SCALE;
      var rest := delta;
      if decayed {
        var deltaW := SCALE - periodContrib;
        periodContrib := 0;
        Accrue(deltaW, deltaW, s);
        rest := rest - deltaW;
        var periods := rest / SCALE;
        rest := rest % SCALE;
        Decay(periods + 1, s);
        var contribFast := ComputeRunnableContribFast(periods);
        Accrue(RunnableContrib(periods), contribFast, s);
      }
      Accrue(rest, rest, s);
      periodContrib := periodContrib + rest;
    }

    /** __update_load_avg: reports whether a period boundary was crossed. */
    method Update(s: Sample) returns (decayed: bool)
      requires periodContrib < SCALE
      modifies this
      ensures View() == Updated(old(View()), s)
      ensures decayed == Crosses(old(View()), s)
    {
      decayed := false;
      var elapsed := Elapsed(s.now, lastUpdateTime);
      if elapsed >= TWO63 {
        lastUpdateTime := s.now;
        return;
      }
      var delta := elapsed / SCALE;
      if delta == 0 {
        return;
      }
      if s.pemt && s.running {
        memoryCycleRatio := s.ratio;
      }
      lastUpdateTime := s.now;
      decayed := Carry(delta, s);
      if decayed {
        Average(s);
      }
    }
  }

  /** The update reaches the end of the current 1024us period. */
  ghost predicate Crosses(a: Avg, s: Sample) {
    var elapsed := Elapsed(s.now, a.lastUpdateTime);
    elapsed < TWO63 && elapsed / SCALE > 0 && elapsed / SCALE + a.periodContrib >= SCALE
  }

  const ZERO: Signal := Signal(0, 0, 0, 0)

  // ------------------------------------------------------------ over a run

  function Run(a: Avg, samples: seq<Sample>): (r: Avg)
    requires a.periodContrib < SCALE
    ensures r.periodContrib < SCALE
    decreases |samples|
  {
    if samples == [] then a else Run(Updated(a, samples[0]), samples[1..])
  }

  /** Scales and ratio in the ranges the architecture and the clamp give them. */
  ghost predicate InRange(s: Sample, cpu: nat, split: bool) {
    s.scaleFreq <= SCALE && s.scaleCpu == cpu <= SCALE && s.ratio <= SCALE && (split ==> s.pemt)
  }

  ghost predicate AllInRange(samples: seq<Sample>, cpu: nat, split: bool) {
    forall s :: s in samples ==> InRange(s, cpu, split)
  }

  /** A signal bounded per unit of CPU capacity, pc units into a period. */
  ghost predicate SignalBounded(g: Signal, pc: nat, cpu: nat) {
    && g.sum <= (SUM_CEILING + pc) * cpu
    && g.fastSum <= (FAST_SUM_CEILING + pc) * cpu
  }

  /** With split, the core and memory signals as well, which are only driven while pemt is on. */
  ghost predicate SumsBounded(a: Sums, pc: nat, cpu: nat, split: bool) {
    && SignalBounded(a.util, pc, cpu)
    && (split ==> SignalBounded(a.core, pc, cpu) && SignalBounded(a.memory, pc, cpu))
  }

  ghost predicate Bounded(a: Avg, cpu: nat, split: bool) {
    a.periodContrib < SCALE && SumsBounded(a.sums, a.periodContrib, cpu, split)
  }

  // No signal gains more than the elapsed time at full capacity.

  lemma UnitsBelow(x: nat, s: Sample, cpu: nat)
    requires InRange(s, cpu, false)
    ensures UtilUnits(x, s) <= x * cpu
    ensures CoreUnits(x, s) + MemoryUnits(x, s) <= x * cpu
    ensures CoreUnits(x, s) <= UtilUnits(x, s)
  {
    var y := CapScale(x, s.scaleFreq);
    assert y <= x by {
      MulMonotone(x, x, s.scaleFreq, SCALE);
    }
    MulMonotone(y, x, cpu, cpu);
    var u, v, r := y * cpu, x * cpu, s.ratio;
    MulMonotone(u, v, SCALE - r, SCALE - r);
    MulMonotone(u, u, SCALE - r, SCALE);
    assert v * (SCALE - r) + v * r == v * SCALE;
    assert u * (SCALE - r) / SCALE <= v * (SCALE - r) / SCALE;
  }

  lemma CreditBounded(g: Signal, pc: nat, x: nat, slow: nat, fast: nat, cpu: nat)
    requires SignalBounded(g, pc, cpu)
    requires slow <= x * cpu && fast <= x * cpu
    requires pc + x <= SCALE && cpu <= SCALE
    ensures SignalBounded(Credit(g, slow, fast), pc + x, cpu)
    ensures Credit(g, slow, fast).sum == g.sum + slow
    ensures Credit(g, slow, fast).fastSum == g.fastSum + fast
  {
    Distribute(SUM_CEILING + pc, x, cpu);
    Distribute(FAST_SUM_CEILING + pc, x, cpu);
    MulMonotone(SUM_CEILING + pc + x, SUM_CEILING + SCALE, cpu, SCALE);
    MulMonotone(FAST_SUM_CEILING + pc + x, FAST_SUM_CEILING + SCALE, cpu, SCALE);
  }

  /** A full period decayed away and the whole periods after it credited. */
  lemma BoundaryBounded(g: Signal, periods: nat, slow: nat, fast: nat, cpu: nat)
    requires SignalBounded(g, SCALE, cpu) && cpu <= SCALE
    requires slow <= RunnableContrib(periods) * cpu
    requires fast <= RunnableContribFast(periods) * cpu
    ensures var d := Faded(g, periods + 1);
            && SignalBounded(Credit(d, slow, fast), 0, cpu)
            && Credit(d, slow, fast).sum == d.sum + slow
            && Credit(d, slow, fast).fastSum == d.fastSum + fast
  {
    SlowBoundary(g.sum, periods, cpu, SUM_CEILING);
    FastBoundary(g.fastSum, periods, cpu);
    MulMonotone(SUM_CEILING, SUM_CEILING, cpu, SCALE);
    MulMonotone(FAST_SUM_CEILING, FAST_SUM_CEILING, cpu, SCALE);
  }

  /** b is a with every tracked sum raised by exactly its units: nothing wrapped. */
  ghost predicate Gains(a: Sums, b: Sums, x: nat, x': nat, s: Sample, split: bool) {
    && b.util.sum == a.util.sum + UtilUnits(x, s)
    && b.util.fastSum == a.util.fastSum + UtilUnits(x', s)
    && (split ==>
      && b.core.sum == a.core.sum + CoreUnits(x, s)
      && b.core.fastSum == a.core.fastSum + CoreUnits(x', s)
      && b.memory.sum == a.memory.sum + MemoryUnits(x, s)
      && b.memory.fastSum == a.memory.fastSum + MemoryUnits(x', s))
  }

  /** Crediting x units of time keeps every signal bounded and no 32-bit field wraps. */
  lemma AccrueBounded(a: Sums, pc: nat, x: nat, s: Sample, cpu: nat, split: bool)
    requires SumsBounded(a, pc, cpu, split) && InRange(s, cpu, split)
    requires pc + x <= SCALE
    ensures SumsBounded(Accrued(a, x, x, s), pc + x, cpu, split)
    ensures Gains(a, Accrued(a, x, x, s), x, x, s, split)
  {
    UnitsBelow(x, s, cpu);
    hide SignalBounded, UtilUnits, CoreUnits, MemoryUnits, LoadUnits, Credit;
    CreditBounded(a.util, pc, x, UtilUnits(x, s), UtilUnits(x, s), cpu);
    if split {
      CreditBounded(a.core, pc, x, CoreUnits(x, s), CoreUnits(x, s), cpu);
      CreditBounded(a.memory, pc, x, MemoryUnits(x, s), MemoryUnits(x, s), cpu);
    }
  }

  /** The period boundary: bounded just before it, bounded just after it. */
  lemma RolloverBounded(a: Sums, periods: nat, s: Sample, cpu: nat, split: bool)
    requires SumsBounded(a, SCALE, cpu, split) && InRange(s, cpu, split)
    ensures var d := Decayed(a, periods + 1, s);
            var x, x' := RunnableContrib(periods), RunnableContribFast(periods);
            && SumsBounded(Accrued(d, x, x', s), 0, cpu, split)
            && Gains(d, Accrued(d, x, x', s), x, x', s, split)
  {
    var x, x' := RunnableContrib(periods), RunnableContribFast(periods);
    UnitsBelow(x, s, cpu);
    UnitsBelow(x', s, cpu);
    hide SignalBounded, UtilUnits, CoreUnits, MemoryUnits, LoadUnits, Credit, Faded, RunnableContrib, RunnableContribFast;
    BoundaryBounded(a.util, periods, UtilUnits(x, s), UtilUnits(x', s), cpu);
    if split {
      BoundaryBounded(a.core, periods, CoreUnits(x, s), CoreUnits(x', s), cpu);
      BoundaryBounded(a.memory, periods, MemoryUnits(x, s), MemoryUnits(x', s), cpu);
    }
  }

  lemma CarryBounded(a: Sums, pc: nat, delta: nat, s: Sample, cpu: nat, split: bool)
    requires pc < SCALE
    requires SumsBounded(a, pc, cpu, split) && InRange(s, cpu, split)
    ensures var w := Split(pc, delta);
            SumsBounded(Carried(a, w, s), if w.Crossing? then w.tail else pc + w.tail, cpu, split)
  {
    hide Accrued, Decayed, SumsBounded, RunnableContrib, RunnableContribFast, Gains;
    match Split(pc, delta)
    case Within(tail) =>
      AccrueBounded(a, pc, tail, s, cpu, split);
    case Crossing(head, periods, tail) =>
      AccrueBounded(a, pc, head, s, cpu, split);
      var completed := Accrued(a, head, head, s);
      RolloverBounded(completed, periods, s, cpu, split);
      AccrueBounded(Accrued(Decayed(completed, periods + 1, s), RunnableContrib(periods), RunnableContribFast(periods), s),
                    0, tail, s, cpu, split);
  }

  lemma AveragedBounded(a: Sums, s: Sample, pc: nat, cpu: nat, split: bool)
    requires SumsBounded(a, pc, cpu, split)
    ensures SumsBounded(Averaged(a, s), pc, cpu, split)
  {
  }

  lemma UpdateBounded(a: Avg, s: Sample, cpu: nat, split: bool)
    requires Bounded(a, cpu, split) && InRange(s, cpu, split)
    ensures Bounded(Updated(a, s), cpu, split)
  {
    hide Carried, Averaged, SignalBounded, InRange;
    var elapsed := Elapsed(s.now, a.lastUpdateTime);
    if SCALE <= elapsed < TWO63 {
      var w := Split(a.periodContrib, elapsed / SCALE);
      CarryBounded(a.sums, a.periodContrib, elapsed / SCALE, s, cpu, split);
      if w.Crossing? {
        AveragedBounded(Carried(a.sums, w, s), s, w.tail, cpu, split);
      }
    }
  }

  // --------------------------------------- the same in unbounded arithmetic

  datatype Kind = Util | Core | Memory

  /** A slow and a fast sum that cannot wrap. */
  datatype Wide = Wide(slow: nat, fast: nat)

  function Units(k: Kind, x: nat, s: Sample): nat {
    match k
    case Util => UtilUnits(x, s)
    case Core => CoreUnits(x, s)
    case Memory => MemoryUnits(x, s)
  }

  function WideOf(a: Sums, k: Kind): Wide {
    match k
    case Util => Wide(a.util.sum, a.util.fastSum)
    case Core => Wide(a.core.sum, a.core.fastSum)
    case Memory => Wide(a.memory.sum, a.memory.fastSum)
  }

  function WideCredit(v: Wide, x: nat, x': nat, k: Kind, s: Sample): Wide {
    Wide(v.slow + Units(k, x, s), v.fast + Units(k, x', s))
  }

  function WideFaded(v: Wide, n: nat): Wide {
    Wide(DecayLoad(v.slow, n), DecayFastLoad(v.fast, n))
  }

  function WideCarried(v: Wide, w: Window, k: Kind, s: Sample): Wide {
    match w
    case Within(tail) => WideCredit(v, tail, tail, k, s)
    case Crossing(head, periods, tail) =>
      var completed := WideFaded(WideCredit(v, head, head, k, s), periods + 1);
      WideCredit(WideCredit(completed, RunnableContrib(periods), RunnableContribFast(periods), k, s), tail, tail, k, s)
  }

  /** The sums after an update of a, whose own sums do not matter, when nothing is cut to 32 bits. */
  function WideUpdated(a: Avg, v: Wide, k: Kind, s: Sample): Wide
    requires a.periodContrib < SCALE
  {
    var elapsed := Elapsed(s.now, a.lastUpdateTime);
    if elapsed >= TWO63 || elapsed / SCALE == 0 then v
    else WideCarried(v, Split(a.periodContrib, elapsed / SCALE), k, s)
  }

  function WideRun(a: Avg, v: Wide, k: Kind, samples: seq<Sample>): Wide
    requires a.periodContrib < SCALE
    decreases |samples|
  {
    if samples == [] then v else WideRun(Updated(a, samples[0]), WideUpdated(a, v, k, samples[0]), k, samples[1..])
  }

  lemma AccrueExact(a: Sums, b: Sums, x: nat, x': nat, s: Sample, split: bool, k: Kind)
    requires Gains(a, b, x, x', s, split) && (k == Util || split)
    ensures WideOf(b, k) == WideCredit(WideOf(a, k), x, x', k, s)
  {
  }

  lemma FadeExact(a: Sums, n: nat, s: Sample, k: Kind)
    requires k == Util || s.pemt
    ensures WideOf(Decayed(a, n, s), k) == WideFaded(WideOf(a, k), n)
  {
  }

  lemma CarryExact(a: Sums, pc: nat, delta: nat, s: Sample, cpu: nat, split: bool, k: Kind)
    requires pc < SCALE && (k == Util || split)
    requires SumsBounded(a, pc, cpu, split) && InRange(s, cpu, split)
    ensures var w := Split(pc, delta); WideOf(Carried(a, w, s), k) == WideCarried(WideOf(a, k), w, k, s)
  {
    hide Accrued, Decayed, SumsBounded, RunnableContrib, RunnableContribFast, Gains, WideOf, WideCredit, WideFaded;
    match Split(pc, delta)
    case Within(tail) =>
      AccrueBounded(a, pc, tail, s, cpu, split);
      AccrueExact(a, Accrued(a, tail, tail, s), tail, tail, s, split, k);
    case Crossing(head, periods, tail) =>
      var x, x' := RunnableContrib(periods), RunnableContribFast(periods);
      AccrueBounded(a, pc, head, s, cpu, split);
      var completed := Accrued(a, head, head, s);
      AccrueExact(a, completed, head, head, s, split, k);
      RolloverBounded(completed, periods, s, cpu, split);
      var faded := Decayed(completed, periods + 1, s);
      FadeExact(completed, periods + 1, s, k);
      var whole := Accrued(faded, x, x', s);
      AccrueExact(faded, whole, x, x', s, split, k);
      AccrueBounded(whole, 0, tail, s, cpu, split);
      AccrueExact(whole, Accrued(whole, tail, tail, s), tail, tail, s, split, k);
  }

  lemma UpdateExact(a: Avg, s: Sample, cpu: nat, split: bool, k: Kind)
    requires Bounded(a, cpu, split) && InRange(s, cpu, split) && (k == Util || split)
    ensures WideOf(Updated(a, s).sums, k) == WideUpdated(a, WideOf(a.sums, k), k, s)
  {
    hide Carried, WideCarried, InRange, SumsBounded;
    var elapsed := Elapsed(s.now, a.lastUpdateTime);
    if SCALE <= elapsed < TWO63 {
      CarryExact(a.sums, a.periodContrib, elapsed / SCALE, s, cpu, split, k);
    }
  }

  /**
   * Over every run the utilisation sum stays within its ceiling, and so within
   * 32 bits. With pemt on throughout, so do the core and the memory sum.
   */
  lemma {:induction false} SumsBoundedAlways(a: Avg, samples: seq<Sample>, cpu: nat, split: bool)
    requires Bounded(a, cpu, split) && AllInRange(samples, cpu, split)
    ensures var r := Run(a, samples);
            && Bounded(r, cpu, split)
            && r.sums.util.sum <= (SUM_CEILING + r.periodContrib) * cpu
            && (cpu <= SCALE ==> (SUM_CEILING + r.periodContrib) * cpu < TWO32)
    decreases |samples|
  {
    if samples == [] {
      MulMonotone(SUM_CEILING + a.periodContrib, SUM_CEILING + SCALE, cpu, if cpu <= SCALE then SCALE else cpu);
    } else {
      hide Updated, Bounded;
      assert samples[0] in samples;
      UpdateBounded(a, samples[0], cpu, split);
      SumsBoundedAlways(Updated(a, samples[0]), samples[1..], cpu, split);
    }
  }

  /**
   * No 32-bit sum ever wraps: over every run, the utilisation sums are what
   * unbounded arithmetic makes them, and so are the core and memory sums if
   * pemt is on throughout.
   */
  lemma {:induction false} SumsNeverWrap(a: Avg, samples: seq<Sample>, cpu: nat, split: bool, k: Kind)
    requires Bounded(a, cpu, split) && AllInRange(samples, cpu, split) && (k == Util || split)
    ensures WideOf(Run(a, samples).sums, k) == WideRun(a, WideOf(a.sums, k), k, samples)
    decreases |samples|
  {
    hide Updated, SumsBounded, WideUpdated, WideOf;
    if samples != [] {
      assert samples[0] in samples;
      UpdateBounded(a, samples[0], cpu, split);
      UpdateExact(a, samples[0], cpu, split, k);
      SumsNeverWrap(Updated(a, samples[0]), samples[1..], cpu, split, k);
    }
  }

  // ------------------------------------------------ the nominal maximum

  /** The bound that LOAD_AVG_MAX suggests, pc units into a period. */
  ghost predicate Nominal(a: Avg, cpu: nat) {
    a.sums.util.sum <= (LOAD_AVG_MAX + a.periodContrib) * cpu
  }

  /** An update of an average of the given age and phase at the given time. */
  ghost predicate StaysNominal(a: Avg, s: Sample, last: nat, now: nat, pc: nat, cpu: nat)
    requires pc < SCALE
  {
    (a.lastUpdateTime == last && a.periodContrib == pc && s.now == now && InRange(s, cpu, false) && Nominal(a, cpu))
    ==> Nominal(Updated(a, s), cpu)
  }

  /** What a caller can tell beforehand: how many whole periods the update spans. */
  predicate ShortOrForgotten(last: nat, now: nat, pc: nat, cpu: nat)
    requires pc < SCALE
  {
    var elapsed := Elapsed(now, last);
    elapsed >= TWO63 || elapsed / SCALE == 0 ||
    match Split(pc, elapsed / SCALE)
    case Within(_) => true
    case Crossing(_, periods, _) => NominalSafe(periods, cpu)
  }

  lemma NominalAccrued(a: Sums, pc: nat, x: nat, s: Sample, cpu: nat)
    requires a.util.sum <= (LOAD_AVG_MAX + pc) * cpu && pc + x <= SCALE && InRange(s, cpu, false)
    ensures Accrued(a, x, x, s).util.sum == a.util.sum + UtilUnits(x, s) <= (LOAD_AVG_MAX + pc + x) * cpu
    ensures UtilUnits(x, s) == x * cpu || !s.running || s.scaleFreq != SCALE
  {
    UnitsBelow(x, s, cpu);
    Distribute(LOAD_AVG_MAX + pc, x, cpu);
    MulMonotone(LOAD_AVG_MAX + pc + x, LOAD_AVG_MAX + SCALE, cpu, SCALE);
    assert CapScale(x, SCALE) == x;
  }

  lemma NominalRolled(a: Sums, periods: nat, s: Sample, cpu: nat)
    requires a.util.sum <= (LOAD_AVG_MAX + SCALE) * cpu && InRange(s, cpu, false)
    ensures var d, x := Decayed(a, periods + 1, s), RunnableContrib(periods);
            var b := Accrued(d, x, RunnableContribFast(periods), s);
            && b.util.sum == DecayLoad(a.util.sum, periods + 1) + UtilUnits(x, s)
            && b.util.sum <= SUM_CEILING * cpu
            && (NominalSafe(periods, cpu) ==> b.util.sum <= LOAD_AVG_MAX * cpu)
            && UtilUnits(x, s) <= x * cpu
            && (s.running && s.scaleFreq == SCALE ==> UtilUnits(x, s) == x * cpu)
  {
    var x := RunnableContrib(periods);
    UnitsBelow(x, s, cpu);
    assert CapScale(x, SCALE) == x;
    MulMonotone(LOAD_AVG_MAX + SCALE, SUM_CEILING + SCALE, cpu, cpu);
    SlowBoundary(a.util.sum, periods, cpu, SUM_CEILING);
    MulMonotone(SUM_CEILING, SUM_CEILING, cpu, SCALE);
    hide DecayLoad, UtilUnits, RunnableContrib, RunnableContribFast;
    if NominalSafe(periods, cpu) {
      NominalBoundary(a.util.sum, periods, cpu);
    }
  }

  lemma NominalCrossing(a: Sums, pc: nat, periods: nat, tail: nat, s: Sample, cpu: nat)
    requires pc < SCALE && tail < SCALE && InRange(s, cpu, false) && a.util.sum <= (LOAD_AVG_MAX + pc) * cpu
    ensures var sum := Carried(a, Crossing(SCALE - pc, periods, tail), s).util.sum;
            && (NominalSafe(periods, cpu) ==> sum <= (LOAD_AVG_MAX + tail) * cpu)
            && (!NominalSafe(periods, cpu) && s.running && s.scaleFreq == SCALE && a.util.sum == (LOAD_AVG_MAX + pc) * cpu
                ==> sum > (LOAD_AVG_MAX + tail) * cpu)
  {
    hide Accrued, Decayed, DecayLoad, UtilUnits, RunnableContrib, RunnableContribFast, NominalSafe, InRange;
    var head := SCALE - pc;
    NominalAccrued(a, pc, head, s, cpu);
    var full := Accrued(a, head, head, s);
    NominalRolled(full, periods, s, cpu);
    var whole := Accrued(Decayed(full, periods + 1, s), RunnableContrib(periods), RunnableContribFast(periods), s);
    LastTail(whole, tail, s, cpu);
    Distribute(LOAD_AVG_MAX, tail, cpu);
    Distribute(LOAD_AVG_MAX + pc, head, cpu);
    NotSafe(periods, cpu);
  }

  lemma NotSafe(periods: nat, c: nat)
    ensures !NominalSafe(periods, c) ==>
              RunnableContrib(periods) == LOAD_AVG_MAX && DecayLoad((LOAD_AVG_MAX + SCALE) * c, periods + 1) >= 1
  {
  }

  lemma NominalUpdate(a: Avg, s: Sample, cpu: nat)
    requires a.periodContrib < SCALE && InRange(s, cpu, false) && Nominal(a, cpu)
    ensures var short := ShortOrForgotten(a.lastUpdateTime, s.now, a.periodContrib, cpu);
            && (short ==> Nominal(Updated(a, s), cpu))
            && (!short && s.running && s.scaleFreq == SCALE && a.sums.util.sum == (LOAD_AVG_MAX + a.periodContrib) * cpu
                ==> !Nominal(Updated(a, s), cpu))
  {
    hide Carried, Averaged, NominalSafe, InRange, UtilUnits;
    var elapsed, pc := Elapsed(s.now, a.lastUpdateTime), a.periodContrib;
    if SCALE <= elapsed < TWO63 {
      match Split(pc, elapsed / SCALE)
      case Within(tail) =>
        NominalAccrued(a.sums, pc, tail, s, cpu);
        WithinCarried(a.sums, tail, s);
      case Crossing(head, periods, tail) =>
        NominalCrossing(a.sums, pc, periods, tail, s, cpu);
        SumsOnly(Carried(a.sums, Crossing(head, periods, tail), s), s);
    }
  }

  lemma WithinCarried(a: Sums, tail: nat, s: Sample)
    ensures Carried(a, Within(tail), s) == Accrued(a, tail, tail, s)
  {
  }

  lemma SumsOnly(a: Sums, s: Sample)
    ensures Averaged(a, s).util.sum == a.util.sum
  {
  }

  /**
   * Exactly when an update keeps the nominal bound whatever the average and
   * the sample: if it spans at most 344 whole periods, or so many that nothing
   * is left of a full sum.
   */
  lemma NominalMaximumKeptIff(last: nat, now: nat, pc: nat, cpu: nat)
    requires pc < SCALE && cpu <= SCALE
    ensures (forall a, s :: StaysNominal(a, s, last, now, pc, cpu)) <==> ShortOrForgotten(last, now, pc, cpu)
  {
    hide Updated, Nominal, ShortOrForgotten;
    if ShortOrForgotten(last, now, pc, cpu) {
      forall a, s
        ensures StaysNominal(a, s, last, now, pc, cpu)
      {
        if a.lastUpdateTime == last && a.periodContrib == pc && s.now == now && InRange(s, cpu, false) && Nominal(a, cpu) {
          NominalUpdate(a, s, cpu);
        }
      }
    } else {
      var a := Avg(last, pc, 0, Sums(0, 0, Signal((LOAD_AVG_MAX + pc) * cpu, 0, 0, 0), ZERO, ZERO));
      var s := Sample(now, SCALE, cpu, 0, true, false, 0);
      IsNominal(a, cpu);
      NominalUpdate(a, s, cpu);
      assert !StaysNominal(a, s, last, now, pc, cpu);
    }
  }

  lemma IsNominal(a: Avg, cpu: nat)
    requires a.sums.util.sum == (LOAD_AVG_MAX + a.periodContrib) * cpu
    ensures Nominal(a, cpu)
  {
  }

  lemma LastTail(a: Sums, x: nat, s: Sample, cpu: nat)
    requires a.util.sum <= SUM_CEILING * cpu && x <= SCALE && InRange(s, cpu, false)
    ensures Accrued(a, x, x, s).util.sum == a.util.sum + UtilUnits(x, s)
    ensures UtilUnits(x, s) <= x * cpu && (s.running && s.scaleFreq == SCALE ==> UtilUnits(x, s) == x * cpu)
  {
    UnitsBelow(x, s, cpu);
    assert CapScale(x, SCALE) == x;
    MulMonotone(SUM_CEILING, SUM_CEILING, cpu, SCALE);
    MulMonotone(x, SCALE, cpu, SCALE);
  }

  /** An entity as it is set up. */
  function SetUp(): Avg {
    Avg(0, 1023, 0, Sums(0, 0, ZERO, ZERO, ZERO))
  }

  /** Idle until the first period is complete, then running for 346 periods at full speed. */
  function IdleThenRunning(): seq<Sample> {
    [Sample(SCALE, SCALE, SCALE, 0, false, false, 0), Sample(SCALE + 346 * SCALE * SCALE, SCALE, SCALE, 0, true, false, 0)]
  }

  /** The nominal maximum is exceeded in a run of two updates from the start. */
  lemma NominalMaximumExceeded()
    ensures AllInRange(IdleThenRunning(), SCALE, false)
    ensures var r := Run(SetUp(), IdleThenRunning()); r.periodContrib == 0 && r.sums.util.sum > LOAD_AVG_MAX * SCALE
  {
    hide Updated;
    assert forall s :: s in IdleThenRunning() ==> s == IdleThenRunning()[0] || s == IdleThenRunning()[1];
    IdleAtFirst();
    BusyFor346();
    RunOfTwo(SetUp(), IdleThenRunning());
  }

  lemma RunOfTwo(a: Avg, samples: seq<Sample>)
    requires a.periodContrib < SCALE && |samples| == 2
    ensures Run(a, samples) == Updated(Updated(a, samples[0]), samples[1])
  {
    var b, last := Updated(a, samples[0]), samples[1..];
    assert last == [samples[1]] && last[1..] == [];
    hide Updated;
    assert Run(b, last) == Run(Updated(b, last[0]), last[1..]);
  }

  lemma IdleAtFirst()
    ensures Updated(SetUp(), IdleThenRunning()[0]) == Avg(SCALE, 0, 0, Sums(0, 0, ZERO, ZERO, ZERO))
  {
    var s := IdleThenRunning()[0];
    assert Split(1023, 1) == Crossing(1, 0, 0);
    NothingFromNothing(s, 1, 1);
    NothingFromNothing(s, RunnableContrib(0), RunnableContribFast(0));
    NothingFromNothing(s, 0, 0);
    hide Accrued, Decayed, Averaged, RunnableContrib, RunnableContribFast;
  }

  lemma NothingFromNothing(s: Sample, x: nat, x': nat)
    requires !s.running && s.weight == 0 && !s.pemt
    ensures var zero := Sums(0, 0, ZERO, ZERO, ZERO);
            Accrued(zero, x, x', s) == Decayed(zero, 1, s) == Averaged(zero, s) == zero
  {
    assert LoadUnits(x, s) == 0;
    assert DecayLoad(0, 1) == 0 && DecayFastLoad(0, 1) == 0;
  }

  lemma BusyFor346()
    ensures var r := Updated(Avg(SCALE, 0, 0, Sums(0, 0, ZERO, ZERO, ZERO)), IdleThenRunning()[1]);
            r.periodContrib == 0 && r.sums.util.sum > LOAD_AVG_MAX * SCALE
  {
    var a, s := Avg(SCALE, 0, 0, Sums(0, 0, ZERO, ZERO, ZERO)), IdleThenRunning()[1];
    var elapsed := 346 * SCALE * SCALE;
    assert Elapsed(s.now, SCALE) == elapsed && elapsed / SCALE == 346 * SCALE;
    assert Split(0, 346 * SCALE) == Crossing(SCALE, 345, 0);
    var full := Accrued(a.sums, SCALE, SCALE, s);
    assert full.util.sum == SCALE * SCALE;
    assert DecayLoad(SCALE * SCALE, 346) >= 1 by {
      assert Shr(0x10_0000, 10) == 1024;
    }
    NominalRolled(full, 345, s, SCALE);
    var whole := Accrued(Decayed(full, 346, s), RunnableContrib(345), RunnableContribFast(345), s);
    LastTail(whole, 0, s, SCALE);
  }
}
