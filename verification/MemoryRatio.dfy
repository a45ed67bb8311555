/**
 * Where the memory-cycle ratio of an average comes from: the clamped PMU
 * estimate for a running task, and copies of it up the entity tree.
 */
module MemoryRatio {
  import opened Arithmetic

  const RATIO_MAX: nat := 1024
  const OFFSET: nat := 213

  /** Counter differences since the previous reading on this CPU. */
  datatype Counters = Counters(cycles: nat, frontendStall: nat, backendStall: nat, instructions: nat, mispredicted: nat)

  /** k for each of n events per d, rounded down. */
  function Rate(k: nat, n: nat, d: nat): nat
    requires d > 0
  {
    k * n / d
  }

  lemma RateQuotient(k: nat, n: nat, d: nat)
    requires d > 0
    ensures IsQuotient(Rate(k, n, d), k * n, d)
  {
    DivQuotient(k * n, d);
  }

  /** The weighted stall rate. */
  function Raw(c: Counters): nat
    requires c.cycles > 0 && c.instructions > 0
  {
    Rate(1426, c.backendStall, c.cycles) + Rate(415, c.frontendStall, c.cycles) + Rate(2395, c.mispredicted, c.instructions)
  }

  /** The estimate of pkshin_pmu_get: the rate less an offset, cut to 32 bits and then clamped. */
  function Estimate(c: Counters): (ratio: nat)
    requires c.cycles > 0 && c.instructions > 0
    ensures ratio <= RATIO_MAX
  {
    if Raw(c) > OFFSET then Min(U32(Raw(c) - OFFSET), RATIO_MAX) else 0
  }

  /** The cut to 32 bits brings a rate that is far beyond the clamp back within it. */
  predicate Wraps(c: Counters)
    requires c.cycles > 0 && c.instructions > 0
  {
    Raw(c) >= OFFSET + TWO32 && (Raw(c) - OFFSET) % TWO32 < RATIO_MAX
  }

  /** Per instruction and cycle: what each kind of event weighs. */
  function Events(c: Counters): nat {
    (1426 * c.backendStall + 415 * c.frontendStall) * c.instructions + 2395 * c.mispredicted * c.cycles
  }

  lemma PartsOfRate(b: nat, f: nat, m: nat, x: nat, y: nat, z: nat, cycles: nat, instructions: nat)
    requires IsQuotient(b, x, cycles) && IsQuotient(f, y, cycles) && IsQuotient(m, z, instructions)
    requires cycles > 0 && instructions > 0
    ensures (b + f + m) * (cycles * instructions) <= (x + y) * instructions + z * cycles < (b + f + m + 3) * (cycles * instructions)
  {
    PartOfRate(b, x, cycles, instructions);
    PartOfRate(f, y, cycles, instructions);
    PartOfRate(m, z, instructions, cycles);
    var unit := cycles * instructions;
    Distribute(b, f, unit);
    Distribute(b + f, m, unit);
    Distribute(b + f + m, 3, unit);
    Distribute(x, y, instructions);
  }

  lemma PartOfRate(q: nat, x: nat, d: nat, e: nat)
    requires IsQuotient(q, x, d) && e > 0
    ensures q * (d * e) <= x * e < q * (d * e) + d * e
  {
    MulMonotone(q * d, x, e, e);
    MulMonotone(x + 1, q * d + d, e, e);
    Distribute(x, 1, e);
    Distribute(q * d, d, e);
    Associate(q, d, e);
  }

  /**
   * What the estimate stands for: 1426 parts of the backend stalls and 415 of
   * the frontend stalls in a cycle, and 2395 of the mispredictions in an
   * instruction, less the offset, to within three units and the clamp, unless
   * the rate does not fit 32 bits.
   */
  lemma EstimateIsRate(c: Counters)
    requires c.cycles > 0 && c.instructions > 0
    requires Events(c) < (OFFSET + TWO32) * (c.cycles * c.instructions)
    ensures var e, unit := Estimate(c), c.cycles * c.instructions;
            && (e < RATIO_MAX ==> Events(c) < (e + OFFSET + 3) * unit)
            && (e > 0 ==> (e + OFFSET) * unit <= Events(c))
  {
    EventsBetween(c);
    MulMonotone(1, c.cycles, 1, c.instructions);
    hide Raw, Events;
    RateOfEvents(Raw(c), Events(c), c.cycles * c.instructions, Estimate(c));
  }

  lemma EventsBetween(c: Counters)
    requires c.cycles > 0 && c.instructions > 0
    ensures Raw(c) * (c.cycles * c.instructions) <= Events(c) < (Raw(c) + 3) * (c.cycles * c.instructions)
  {
    RateQuotient(1426, c.backendStall, c.cycles);
    RateQuotient(415, c.frontendStall, c.cycles);
    RateQuotient(2395, c.mispredicted, c.instructions);
    hide Rate;
    PartsOfRate(Rate(1426, c.backendStall, c.cycles), Rate(415, c.frontendStall, c.cycles), Rate(2395, c.mispredicted, c.instructions),
                1426 * c.backendStall, 415 * c.frontendStall, 2395 * c.mispredicted, c.cycles, c.instructions);
  }

  lemma RateOfEvents(raw: nat, events: nat, unit: nat, e: nat)
    requires unit > 0 && raw * unit <= events < (raw + 3) * unit && events < (OFFSET + TWO32) * unit
    requires e == if raw > OFFSET then Min(U32(raw - OFFSET), RATIO_MAX) else 0
    ensures e < RATIO_MAX ==> events < (e + OFFSET + 3) * unit
    ensures e > 0 ==> (e + OFFSET) * unit <= events
  {
    RateBetween(raw, events, unit);
    if e < RATIO_MAX {
      MulMonotone(raw + 3, e + OFFSET + 3, unit, unit);
    }
    if e > 0 {
      MulMonotone(e + OFFSET, raw, unit, unit);
    }
  }

  lemma RateBetween(raw: nat, events: nat, unit: nat)
    requires unit > 0 && raw * unit <= events < (OFFSET + TWO32) * unit
    ensures raw < OFFSET + TWO32
  {
    if raw >= OFFSET + TWO32 {
      MulMonotone(OFFSET + TWO32, raw, unit, unit);
    }
  }

  /** The same cycles and instructions with no more stalls of any kind. */
  ghost predicate Below(c: Counters, d: Counters) {
    && c.cycles == d.cycles > 0 && c.instructions == d.instructions > 0
    && c.frontendStall <= d.frontendStall && c.backendStall <= d.backendStall && c.mispredicted <= d.mispredicted
  }

  ghost predicate NotAbove(c: Counters, d: Counters)
    requires d.cycles > 0 && d.instructions > 0
  {
    Below(c, d) ==> Estimate(c) <= Estimate(d)
  }

  lemma RawMonotone(c: Counters, d: Counters)
    requires Below(c, d)
    ensures Raw(c) <= Raw(d)
  {
    DivMonotone(1426 * c.backendStall, 1426 * d.backendStall, c.cycles);
    DivMonotone(415 * c.frontendStall, 415 * d.frontendStall, c.cycles);
    DivMonotone(2395 * c.mispredicted, 2395 * d.mispredicted, c.instructions);
  }

  /** More stalls never lower the estimate, as long as the rate does not wrap. */
  lemma EstimateMonotone(c: Counters, d: Counters)
    requires Below(c, d) && !Wraps(d)
    ensures Estimate(c) <= Estimate(d)
  {
    RawMonotone(c, d);
    hide Raw;
  }

  /** Counting up to just above the clamp. */
  lemma JustAbove(k: nat, n: nat, per: nat) returns (m: nat)
    requires 0 < k && per > 0 && k * n / per > OFFSET + RATIO_MAX
    ensures m <= n && OFFSET + RATIO_MAX <= k * m / per <= OFFSET + RATIO_MAX + k
  {
    var low := OFFSET + RATIO_MAX;
    var x := low * per;
    m := x / k + 1;
    NextMultiple(x, k);
    RateOf(k * m, low, per, k);
    if n < m {
      MulMonotone(k, k, n, x / k);
      DivQuotient(x, k);
      DivMonotone(k * n, x, per);
      DivAtMost(x, per, low);
    }
  }

  lemma NextMultiple(x: nat, k: nat)
    requires k > 0
    ensures x < k * (x / k + 1) <= x + k
    ensures k * (x / k) <= x
  {
    DivQuotient(x, k);
    Distribute(x / k, 1, k);
  }

  lemma RateOf(p: nat, low: nat, per: nat, k: nat)
    requires per > 0 && low * per < p <= low * per + k
    ensures low <= p / per <= low + k
  {
    DivAtLeast(p, per, low);
    MulMonotone(1, per, k, k);
    Distribute(low, k, per);
    DivAtMost(p, per, low + k);
  }

  /** Below a rate that wraps there are counters whose estimate is the maximum. */
  lemma MaximumBelow(d: Counters) returns (c: Counters)
    requires d.cycles > 0 && d.instructions > 0 && Raw(d) >= OFFSET + TWO32
    ensures Below(c, d) && Estimate(c) == RATIO_MAX
  {
    if 1426 * d.backendStall / d.cycles >= 0x4000_0000 {
      var m := JustAbove(1426, d.backendStall, d.cycles);
      c := Counters(d.cycles, 0, m, d.instructions, 0);
    } else if 415 * d.frontendStall / d.cycles >= 0x4000_0000 {
      var m := JustAbove(415, d.frontendStall, d.cycles);
      c := Counters(d.cycles, m, 0, d.instructions, 0);
    } else {
      var m := JustAbove(2395, d.mispredicted, d.instructions);
      c := Counters(d.cycles, 0, 0, d.instructions, m);
    }
    DivAtMost(0, d.cycles, 0);
    DivAtMost(0, d.instructions, 0);
  }

  /** The estimate is monotone up to given counters exactly if their rate does not wrap. */
  lemma EstimateMonotoneIff(d: Counters)
    requires d.cycles > 0 && d.instructions > 0
    ensures (forall c :: NotAbove(c, d)) <==> !Wraps(d)
  {
    if Wraps(d) {
      var c := MaximumBelow(d);
      hide Raw;
      assert !NotAbove(c, d);
    } else {
      forall c
        ensures NotAbove(c, d)
      {
        if Below(c, d) {
          EstimateMonotone(c, d);
        }
      }
    }
  }

  /** One more stall in a single cycle takes the estimate from its maximum to less than half of it. */
  lemma EstimateWraps()
    ensures var c, d := Counters(1, 0, 3011898, 1, 0), Counters(1, 0, 3011899, 1, 0);
            Below(c, d) && Estimate(c) == RATIO_MAX && Estimate(d) == 465 && Wraps(d)
  {
  }

  /** With no more stalls than cycles and no more mispredictions than instructions nothing wraps. */
  lemma PlausibleCountersDoNotWrap(c: Counters)
    requires c.cycles > 0 && c.instructions > 0
    requires c.frontendStall <= c.cycles && c.backendStall <= c.cycles && c.mispredicted <= c.instructions
    ensures !Wraps(c)
  {
    DivAtMost(1426 * c.backendStall, c.cycles, 1426);
    DivAtMost(415 * c.frontendStall, c.cycles, 415);
    DivAtMost(2395 * c.mispredicted, c.instructions, 2395);
  }

  /** A group's queue: the entity it runs now, and the ratio it recorded last. */
  class Queue {
    var curr: Entity?
    var ratio: nat
  }

  /** A task when myQ is null. Entities deeper in the hierarchy have a smaller height. */
  class Entity {
    const myQ: Queue?
    const cfsRq: Queue
    ghost const height: nat
    var ratio: nat

    constructor (cfsRq: Queue, myQ: Queue?, ghost height: nat)
      ensures this.cfsRq == cfsRq && this.myQ == myQ && this.height == height && ratio == 0
    {
      this.cfsRq, this.myQ, this.height := cfsRq, myQ, height;
      ratio := 0;
    }
  }

  /** What each queue in queues runs is an entity of the hierarchy, further down than the queue's own. */
  ghost predicate Hierarchy(entities: set<Entity>, queues: set<Queue>)
    reads queues
  {
    && (forall e :: e in entities && e.myQ != null ==> e.myQ in queues)
    && (forall e :: e in entities ==> e.cfsRq in queues)
    && (forall q :: q in queues && q.curr != null ==> q.curr in entities)
    && (forall e :: e in entities && e.myQ != null && e.myQ.curr != null ==> e.myQ.curr.height < e.height)
  }

  ghost predicate Clamped(entities: set<Entity>, queues: set<Queue>)
    reads entities, queues
  {
    && (forall e :: e in entities ==> e.ratio <= RATIO_MAX)
    && (forall q :: q in queues ==> q.ratio <= RATIO_MAX)
  }

  /** The ratio of whatever runs at the bottom of e's hierarchy. */
  ghost function RunningRatio(e: Entity, entities: set<Entity>, queues: set<Queue>): nat
    requires e in entities && Hierarchy(entities, queues)
    reads entities, queues
    decreases e.height
  {
    if e.myQ == null then e.ratio
    else if e.myQ.curr == null then e.myQ.ratio
    else RunningRatio(e.myQ.curr, entities, queues)
  }

  /** The entity branch of __update_load_avg that selects and records a ratio. */
  method RecordEntityRatio(se: Entity, counters: Counters, ghost entities: set<Entity>, ghost queues: set<Queue>)
      returns (ratio: nat)
    requires se in entities && Hierarchy(entities, queues) && Clamped(entities, queues)
    requires counters.cycles > 0 && counters.instructions > 0
    modifies se`ratio, se.cfsRq`ratio
    ensures Hierarchy(entities, queues) && Clamped(entities, queues)
    ensures ratio == if se.myQ == null then Estimate(counters) else old(RunningRatio(se, entities, queues))
    ensures se.ratio == ratio
    ensures se.cfsRq.ratio == if se.myQ == null then ratio else old(se.cfsRq.ratio)
  {
    if se.myQ == null {
      ratio := Estimate(counters);
      se.ratio := ratio;
      se.cfsRq.ratio := ratio;
      return;
    }
    var e := se;
    while e.myQ != null && e.myQ.curr != null
      invariant e in entities
      invariant RunningRatio(e, entities, queues) == RunningRatio(se, entities, queues)
      decreases e.height
    {
      e := e.myQ.curr;
    }
    ratio := if e.myQ == null then e.ratio else e.myQ.ratio;
    se.ratio := ratio;
  }

  /** The queue branch: the running entity's ratio if there is one. */
  method RecordQueueRatio(q: Queue, ghost entities: set<Entity>, ghost queues: set<Queue>) returns (ratio: nat)
    requires q in queues && Hierarchy(entities, queues) && Clamped(entities, queues)
    modifies q`ratio
    ensures Hierarchy(entities, queues) && Clamped(entities, queues)
    ensures q.ratio == ratio == if q.curr != null then q.curr.ratio else old(q.ratio)
  {
    ratio := if q.curr != null then q.curr.ratio else q.ratio;
    q.ratio := ratio;
  }

  /** Whatever is copied up the hierarchy stays within the clamp. */
  lemma {:induction false} RunningRatioClamped(e: Entity, entities: set<Entity>, queues: set<Queue>)
    requires e in entities && Hierarchy(entities, queues) && Clamped(entities, queues)
    ensures RunningRatio(e, entities, queues) <= RATIO_MAX
    decreases e.height
  {
    if e.myQ != null && e.myQ.curr != null {
      RunningRatioClamped(e.myQ.curr, entities, queues);
    }
  }
}
