/**
 * The memory-aware utilisation of a CPU and the raw frequency chosen for it.
 */
module GovernorFormula {
  import opened Arithmetic

  /** Utilisation averages of a CPU's root queue. */
  datatype Load = Load(util: nat, core: nat, memory: nat)

  const MARGIN_SHIFT: nat := 1024
  const MARGIN_MAX: nat := 1024

  /** x and the headroom that the capacity_margin knob adds to it. */
  function WithMargin(x: nat, margin: nat): nat {
    x * margin / MARGIN_SHIFT + x
  }

  /** Core time fills what the memory time leaves of the capacity. */
  function MemoryAware(core: nat, memory: nat, rt: nat, maxCap: nat, margin: nat): nat {
    var temp := WithMargin(memory, margin);
    if maxCap > temp && maxCap - temp > core
    then Min(maxCap * core / (maxCap - temp) + rt, maxCap)
    else maxCap
  }

  /** The margin adds its 1024ths, rounded down. */
  lemma MarginAdds(x: nat, margin: nat)
    ensures WithMargin(x, margin) * MARGIN_SHIFT <= x * (MARGIN_SHIFT + margin) < (WithMargin(x, margin) + 1) * MARGIN_SHIFT
  {
    DivQuotient(x * margin, MARGIN_SHIFT);
    assert x * (MARGIN_SHIFT + margin) == x * MARGIN_SHIFT + x * margin;
  }

  /** sugov_get_util with PELT signals and perf mode off. */
  function GetUtil(l: Load, rt: nat, maxCap: nat, margin: nat, pemt: bool, freq: bool): nat {
    if pemt && freq then MemoryAware(l.core, l.memory, rt, maxCap, margin) else Min(l.util + rt, maxCap)
  }

  /** The frequency get_next_freq hands to the driver, before it is cut to 32 bits. */
  function RawFreq(maxFreq: nat, util: nat, max: nat, margin: nat): nat
    requires max > 0
  {
    WithMargin(maxFreq, margin) * util / max
  }

  ghost predicate Unsaturated(core: nat, memory: nat, maxCap: nat, margin: nat) {
    WithMargin(memory, margin) + core < maxCap
  }

  /** The two roundings, with f the frequency, u the utilisation and d the capacity left by memory. */
  lemma Bracket(f: nat, u: nat, d: nat, top: nat, core: nat, cap: nat)
    requires cap > 0 && d > 0
    requires f * cap <= top * u < f * cap + cap
    requires u * d <= cap * core < u * d + d
    ensures f * d <= top * core
    ensures cap * (top * core) < cap * (f * d + d) + top * d || top == 0
  {
    var tu, tc := top * u, top * core;
    assert f * cap * d <= tu * d by { MulMonotone(f * cap, tu, d, d); }
    assert tu * d == top * (u * d) by { Associate(top, u, d); }
    assert top * (u * d) <= top * (cap * core) by { MulMonotone(top, top, u * d, cap * core); }
    assert top * (cap * core) == cap * tc by { Associate(top, cap, core); Associate(cap, top, core); }
    assert f * cap * d == f * d * cap by { Associate(f, cap, d); }
    MulCancel(f * d, tc, cap);
    if top > 0 {
      assert top * (cap * core) < top * (u * d + d) by { MulStrict(top, cap * core, u * d + d); }
      assert top * (u * d + d) == tu * d + top * d by { Distribute(u * d, d, top); }
      assert tu * d <= (f * cap + cap) * d by { MulMonotone(tu, f * cap + cap, d, d); }
      assert (f * cap + cap) * d == cap * (f * d + d) by { Distribute(f * cap, cap, d); Associate(f, cap, d); Distribute(f * d, d, cap); }
    }
  }

  lemma MulStrict(a: nat, b: nat, c: nat)
    requires a > 0 && b < c
    ensures a * b < a * c
  {
    MulMonotone(a, a, b + 1, c);
    Distribute(b, 1, a);
  }

  /**
   * The chosen frequency is the one at which the core time, stretched to it,
   * fills what memory leaves of the capacity: f * (M - t) <= F * c, and it is
   * short of that by less than one unit of frequency and one of utilisation.
   */
  lemma FrequencyMeetsDemand(l: Load, maxCap: nat, margin: nat, maxFreq: nat)
    requires Unsaturated(l.core, l.memory, maxCap, margin) && maxFreq > 0
    ensures var d := maxCap - WithMargin(l.memory, margin);
            var top := WithMargin(maxFreq, margin);
            var f := RawFreq(maxFreq, GetUtil(l, 0, maxCap, margin, true, true), maxCap, margin);
            f * d <= top * l.core && maxCap * (top * l.core) < maxCap * (f * d + d) + top * d
  {
    var d := maxCap - WithMargin(l.memory, margin);
    var top := WithMargin(maxFreq, margin);
    var u := maxCap * l.core / d;
    WithMarginMonotone(maxFreq, maxFreq, margin, margin);
    hide MemoryAware, WithMargin;
    UnsaturatedUtil(l.core, l.memory, maxCap, margin);
    DivQuotient(maxCap * l.core, d);
    DivQuotient(top * u, maxCap);
    Bracket(top * u / maxCap, u, d, top, l.core, maxCap);
  }

  lemma UnsaturatedUtil(core: nat, memory: nat, maxCap: nat, margin: nat)
    requires Unsaturated(core, memory, maxCap, margin)
    ensures MemoryAware(core, memory, 0, maxCap, margin) == maxCap * core / (maxCap - WithMargin(memory, margin)) <= maxCap
  {
    var d := maxCap - WithMargin(memory, margin);
    MulMonotone(maxCap, maxCap, core, d);
    DivAtMost(maxCap * core, d, maxCap);
  }

  /** Without room for the core time next to memory the top frequency, with its margin, is asked for. */
  lemma SaturatedRunsFlatOut(l: Load, rt: nat, maxCap: nat, margin: nat, maxFreq: nat)
    requires maxCap > 0 && !Unsaturated(l.core, l.memory, maxCap, margin)
    ensures RawFreq(maxFreq, GetUtil(l, rt, maxCap, margin, true, true), maxCap, margin) == WithMargin(maxFreq, margin)
  {
    var top := WithMargin(maxFreq, margin);
    DivAtLeast(top * maxCap, maxCap, top);
    DivAtMost(top * maxCap, maxCap, top);
  }

  /** Real-time load comes on top of what the CPU needs without it, up to the capacity, whatever is switched on. */
  lemma RealTimeAdds(l: Load, rt: nat, maxCap: nat, margin: nat, pemt: bool, freq: bool)
    ensures GetUtil(l, rt, maxCap, margin, pemt, freq) == Min(GetUtil(l, 0, maxCap, margin, pemt, freq) + rt, maxCap)
  {
  }

  /**
   * Without the memory-aware choice the frequency is the one that gives
   * utilisation and real-time load, as parts of the capacity, as much of the top
   * frequency with its margin, and that top itself exactly from the capacity on.
   */
  lemma PlainFrequency(l: Load, rt: nat, maxCap: nat, margin: nat, maxFreq: nat, pemt: bool, freq: bool)
    requires maxCap > 0 && maxFreq > 0 && !(pemt && freq)
    ensures var f, top := RawFreq(maxFreq, GetUtil(l, rt, maxCap, margin, pemt, freq), maxCap, margin), WithMargin(maxFreq, margin);
            && (l.util + rt <= maxCap ==> f * maxCap <= top * (l.util + rt) < (f + 1) * maxCap)
            && (f == top <==> l.util + rt >= maxCap)
  {
    WithMarginMonotone(maxFreq, maxFreq, margin, margin);
    hide WithMargin, MemoryAware;
    var top, u := WithMargin(maxFreq, margin), Min(l.util + rt, maxCap);
    assert GetUtil(l, rt, maxCap, margin, pemt, freq) == u;
    DivQuotient(top * u, maxCap);
    PartOf(top * u / maxCap, top, u, maxCap);
  }

  lemma PartOf(f: nat, top: nat, u: nat, cap: nat)
    requires u <= cap && cap > 0 && top > 0 && IsQuotient(f, top * u, cap)
    ensures f * cap <= top * u < (f + 1) * cap && (f == top <==> u == cap)
  {
    Distribute(f, 1, cap);
    if u < cap {
      MulStrict(top, u, cap);
    } else {
      QuotientOrder(f, top, cap, top * u, top * u);
      QuotientOrder(top, f, cap, top * u, top * u);
    }
  }

  /** A load that never waits for memory is treated as its core time alone. */
  lemma NoMemoryTime(core: nat, rt: nat, maxCap: nat, margin: nat)
    requires core <= maxCap
    ensures MemoryAware(core, 0, rt, maxCap, margin) == Min(core + rt, maxCap)
  {
    assert WithMargin(0, margin) == 0;
    hide WithMargin;
    if core < maxCap {
      WholeShare(core, maxCap);
    }
  }

  lemma WholeShare(x: nat, cap: nat)
    requires cap > 0
    ensures cap * x / cap == x
  {
    DivAtLeast(cap * x, cap, x);
    DivAtMost(cap * x, cap, x);
  }

  lemma WithMarginMonotone(x: nat, y: nat, m: nat, n: nat)
    requires x <= y && m <= n
    ensures x <= WithMargin(x, m) <= WithMargin(y, n)
  {
    MulMonotone(x, y, m, n);
    DivMonotone(x * m, y * n, MARGIN_SHIFT);
  }

  /** A smaller divisor and a larger dividend give a larger quotient. */
  lemma DivBoth(x: nat, y: nat, d: nat, e: nat)
    requires x <= y && 0 < e <= d
    ensures x / d <= y / e
  {
    DivQuotient(x, d);
    MulMonotone(x / d, x / d, e, d);
    DivAtLeast(y, e, x / d);
  }

  lemma MemoryAwareMonotone(c: nat, t: nat, r: nat, core: nat, memory: nat, rt: nat, maxCap: nat, margin: nat)
    requires c <= core && t <= memory && r <= rt
    ensures MemoryAware(c, t, r, maxCap, margin) <= MemoryAware(core, memory, rt, maxCap, margin) <= maxCap
  {
    WithMarginMonotone(t, memory, margin, margin);
    var p, q := WithMargin(t, margin), WithMargin(memory, margin);
    if maxCap > q && maxCap - q > core {
      MulMonotone(maxCap, maxCap, c, core);
      DivBoth(maxCap * c, maxCap * core, maxCap - p, maxCap - q);
    }
  }

  /** More core time, more memory time or more real-time load never lowers the frequency. */
  lemma FrequencyMonotone(k: Load, r: nat, l: Load, rt: nat, maxCap: nat, margin: nat, maxFreq: nat, pemt: bool, freq: bool)
    requires maxCap > 0 && k.core <= l.core && k.memory <= l.memory && k.util <= l.util && r <= rt
    ensures RawFreq(maxFreq, GetUtil(k, r, maxCap, margin, pemt, freq), maxCap, margin)
         <= RawFreq(maxFreq, GetUtil(l, rt, maxCap, margin, pemt, freq), maxCap, margin)
         <= WithMargin(maxFreq, margin)
  {
    hide MemoryAware, WithMargin;
    MemoryAwareMonotone(k.core, k.memory, r, l.core, l.memory, rt, maxCap, margin);
    ShareMonotone(WithMargin(maxFreq, margin), GetUtil(k, r, maxCap, margin, pemt, freq),
      GetUtil(l, rt, maxCap, margin, pemt, freq), maxCap);
  }

  lemma ShareMonotone(top: nat, u: nat, v: nat, cap: nat)
    requires u <= v <= cap && cap > 0
    ensures top * u / cap <= top * v / cap <= top
  {
    MulMonotone(top, top, u, v);
    MulMonotone(top, top, v, cap);
    DivMonotone(top * u, top * v, cap);
    DivAtMost(top * v, cap, top);
  }

  /** With a frequency below UINT_MAX / 2 nothing wraps: the product fits 64 bits and the result 32. */
  lemma FrequencyFits(l: Load, rt: nat, maxCap: nat, margin: nat, maxFreq: nat, pemt: bool, freq: bool)
    requires 0 < maxCap < TWO32 && margin <= MARGIN_MAX && maxFreq < TWO32 / 2
    ensures var util := GetUtil(l, rt, maxCap, margin, pemt, freq);
            && WithMargin(maxFreq, margin) * util < TWO32 * TWO32
            && U32(RawFreq(maxFreq, util, maxCap, margin)) == RawFreq(maxFreq, util, maxCap, margin)
  {
    WithMarginMonotone(maxFreq, maxFreq, margin, MARGIN_MAX);
    DivAtMost(maxFreq * MARGIN_MAX, MARGIN_SHIFT, maxFreq);
    FrequencyMonotone(l, rt, l, rt, maxCap, margin, maxFreq, pemt, freq);
    MemoryAwareMonotone(l.core, l.memory, rt, l.core, l.memory, rt, maxCap, margin);
    var top, util := WithMargin(maxFreq, margin), GetUtil(l, rt, maxCap, margin, pemt, freq);
    MulMonotone(top, TWO32 - 1, util, TWO32 - 1);
  }
}
