/**
 * Wall-time slices in proportion to weight, computed with a cached inverse of
 * the queue's load instead of a division. Weights are the scaled-down values.
 */
module Slices {
  import opened Arithmetic

  const WMULT_CONST: nat := TWO32 - 1
  const NICE_0_LOAD: nat := 1024
  /** The most a group may weigh, which is more than any task does. */
  const MAX_SHARES: nat := 0x4_0000

  /** scale_load_down, where weights carry ten extra bits. */
  function ScaleDown(w: nat): nat {
    w / 1024
  }

  /** What the inverse of a weight is taken to be. */
  function InvWeight(w: nat): (inv: nat)
    ensures 1 <= inv <= WMULT_CONST
  {
    if w >= WMULT_CONST then 1
    else if w == 0 then WMULT_CONST
    else
      DivAtLeast(WMULT_CONST, w, 1);
      DivAtMost(WMULT_CONST, w, WMULT_CONST);
      WMULT_CONST / w
  }

  /** How many low bits x has to lose to fit 32 bits. */
  function Excess(x: nat): (e: nat) {
    if x < TWO32 then 0 else 1 + Excess(x / 2)
  }

  function Trimmed(x: nat): (r: nat) {
    Shr(x, Excess(x))
  }

  /** What is left of the shift by 32 once the factor fits 32 bits. */
  function Shift(weight: nat, load: nat): (s: int) {
    32 - Excess(weight) - Excess(Trimmed(weight) * InvWeight(load))
  }

  function Factor(weight: nat, load: nat): (f: nat) {
    Trimmed(Trimmed(weight) * InvWeight(load))
  }

  /** delta * weight / load, as __calc_delta approximates it, in unbounded arithmetic. */
  function Uncut(delta: nat, weight: nat, load: nat): (r: nat)
    requires Shift(weight, load) >= 0
  {
    MulMonotone(0, delta, 0, Factor(weight, load));
    Shr(delta * Factor(weight, load), Shift(weight, load))
  }

  /** The same in 64 bits. */
  function Scaled(delta: nat, weight: nat, load: nat): (r: nat)
    requires Shift(weight, load) >= 0
  {
    Uncut(delta, weight, load) % TWO64
  }

  // ---------------------------------------------------- the cached inverse

  class LoadWeight {
    var weight: nat
    var invWeight: nat

    ghost predicate Valid()
      reads this
    {
      invWeight == 0 || invWeight == InvWeight(ScaleDown(weight))
    }

    constructor (weight: nat)
      ensures Valid() && this.weight == weight
    {
      this.weight, invWeight := weight, 0;
    }

    method Add(inc: nat)
      modifies this
      ensures Valid() && weight == old(weight) + inc
    {
      weight, invWeight := weight + inc, 0;
    }

    method Sub(dec: nat)
      requires dec <= weight
      modifies this
      ensures Valid() && weight == old(weight) - dec
    {
      weight, invWeight := weight - dec, 0;
    }

    method Set(w: nat)
      modifies this
      ensures Valid() && weight == w
    {
      weight, invWeight := w, 0;
    }

    method UpdateInvWeight()
      requires Valid()
      modifies `invWeight
      ensures Valid() && invWeight == InvWeight(ScaleDown(weight))
      ensures var w := ScaleDown(weight);
              if 0 < w < WMULT_CONST then invWeight * w <= WMULT_CONST < (invWeight + 1) * w
              else invWeight == if w == 0 then WMULT_CONST else 1
    {
      InverseIsQuotient(ScaleDown(weight));
      if invWeight != 0 {
        return;
      }
      var w := ScaleDown(weight);
      if w >= WMULT_CONST {
        invWeight := 1;
      } else if w == 0 {
        invWeight := WMULT_CONST;
      } else {
        invWeight := WMULT_CONST / w;
      }
    }

    /** __calc_delta. */
    method CalcDelta(delta: nat, weight: nat) returns (r: nat)
      requires Valid() && Shift(ScaleDown(weight), ScaleDown(this.weight)) >= 0
      modifies `invWeight
      ensures Valid() && r == Scaled(delta, ScaleDown(weight), ScaleDown(this.weight))
    {
      hide InvWeight, Shr, Excess, Trimmed;
      var fact: nat := ScaleDown(weight);
      var shift: int := 32;
      UpdateInvWeight();
      TrimSteps();
      while fact >= TWO32
        invariant shift - Excess(fact) == 32 - Excess(ScaleDown(weight))
        invariant Trimmed(fact) == Trimmed(ScaleDown(weight))
      {
        fact, shift := fact / 2, shift - 1;
      }
      assert fact == Trimmed(ScaleDown(weight)) && invWeight == InvWeight(ScaleDown(this.weight));
      MulMonotone(0, fact, 0, invWeight);
      fact := fact * invWeight;
      while fact >= TWO32
        invariant shift - Excess(fact) == Shift(ScaleDown(weight), ScaleDown(this.weight))
        invariant Trimmed(fact) == Factor(ScaleDown(weight), ScaleDown(this.weight))
      {
        fact, shift := fact / 2, shift - 1;
      }
      assert fact == Factor(ScaleDown(weight), ScaleDown(this.weight)) && shift == Shift(ScaleDown(weight), ScaleDown(this.weight));
      MulMonotone(0, delta, 0, fact);
      r := Shr(delta * fact, shift) % TWO64;
    }
  }

  lemma TrimSteps()
    ensures forall x: nat {:trigger Excess(x)} {:trigger Trimmed(x)} :: x < TWO32 ==> Excess(x) == 0 && Trimmed(x) == x
    ensures forall x: nat {:trigger Excess(x)} {:trigger Trimmed(x)} ::
              x >= TWO32 ==> Excess(x) == 1 + Excess(x / 2) && Trimmed(x) == Trimmed(x / 2)
  {
  }

  // ---------------------------------------------------------- range of the shift

  lemma {:induction false} ExcessBelow(x: nat, k: nat)
    requires x < Pow(2, k) * TWO32
    ensures Excess(x) <= k
    decreases k
  {
    if x >= TWO32 {
      assert k > 0;
      var p := Pow(2, k - 1);
      assert Pow(2, k) * TWO32 == 2 * (p * TWO32) by { Associate(2, p, TWO32); }
      ExcessBelow(x / 2, k - 1);
    }
  }

  lemma {:induction false} TrimmedFits(x: nat)
    ensures Trimmed(x) < TWO32 && Trimmed(x) * Pow(2, Excess(x)) <= x
  {
    ShrBelow(x, Excess(x));
    TrimmedSmall(x);
  }

  lemma {:induction false} TrimmedSmall(x: nat)
    ensures Trimmed(x) < TWO32
  {
    if x >= TWO32 {
      TrimmedSmall(x / 2);
    }
  }

  lemma InverseBelow(w: nat)
    requires w > 0
    ensures InvWeight(w) * w <= WMULT_CONST || w > WMULT_CONST
    ensures w <= TWO32 ==> InvWeight(w) * w <= TWO32
  {
    if w < WMULT_CONST {
      DivQuotient(WMULT_CONST, w);
    }
  }

  /** An entity is no heavier than its queue: then its factor fits as it is, and the shift stays 32. */
  lemma ShiftStays(weight: nat, load: nat)
    requires weight <= load && weight < TWO32
    ensures Shift(weight, load) == 32
  {
    if load < WMULT_CONST && load > 0 {
      InverseBelow(load);
      MulMonotone(weight, load, InvWeight(load), InvWeight(load));
    }
  }

  /** Whatever the queue weighs, scaling by NICE_0_LOAD loses at most ten bits of the shift. */
  lemma ShiftForNiceZero(load: nat)
    ensures 22 <= Shift(NICE_0_LOAD, load) <= 32
  {
    var x := NICE_0_LOAD * InvWeight(load);
    assert Pow(2, 10) == 1024;
    ExcessBelow(x, 10);
    assert Trimmed(NICE_0_LOAD) == NICE_0_LOAD;
  }

  /** The shift never turns negative for a 32-bit weight or one within its queue's. */
  lemma ShiftDefined(weight: nat, load: nat)
    requires weight < TWO32 || weight <= load < TWO64
    ensures Shift(weight, load) >= 0
  {
    TrimmedFits(weight);
    PowTwo32();
    if weight < TWO32 {
      MulMonotone(Trimmed(weight), TWO32 - 1, InvWeight(load), TWO32 - 1);
      ExcessBelow(Trimmed(weight) * InvWeight(load), 32);
    } else {
      ExcessBelow(weight, 32);
    }
  }

  // ------------------------------------------------------------- never too much

  /** The two trims and the shift together take off 32 bits' worth. */
  lemma ShiftedBelow(r: nat, x: nat, f: nat, s: nat, m: nat, e: nat, w: nat, d: nat, inv: nat, bits: nat)
    requires bits == 32 && s + e + d == bits
    requires r * Pow(2, s) <= x * f && f * Pow(2, e) <= m * inv && m * Pow(2, d) <= w
    ensures r * TWO32 <= x * (w * inv)
  {
    hide Pow;
    PowSum(2, s, e);
    PowSum(2, s + e, d);
    PowTwo32();
    ChainBelow(r, x, f, m, w, inv, Pow(2, s), Pow(2, e), Pow(2, d));
  }

  lemma ChainBelow(r: nat, x: nat, f: nat, m: nat, w: nat, inv: nat, a: nat, b: nat, c: nat)
    requires r * a <= x * f && f * b <= m * inv && m * c <= w
    ensures r * (a * b * c) <= x * (w * inv)
  {
    calc {
      r * (a * b * c);
    ==  { Associate(r, a * b, c); Associate(r, a, b); }
      r * a * b * c;
    <=  { MulMonotone(r * a, x * f, b, b); MulMonotone(r * a * b, x * f * b, c, c); }
      x * f * b * c;
    ==  { Associate(x, f, b); Associate(x, f * b, c); }
      x * (f * b * c);
    <=  { MulMonotone(f * b, m * inv, c, c); MulMonotone(x, x, f * b * c, m * inv * c); }
      x * (m * inv * c);
    ==  { Associate(m, inv, c); }
      x * (m * c * inv);
    <=  { MulMonotone(m * c, w, inv, inv); MulMonotone(x, x, m * c * inv, w * inv); }
      x * (w * inv);
    }
  }

  lemma UncutBelow(delta: nat, weight: nat, load: nat)
    requires Shift(weight, load) >= 0 && 0 < load <= TWO32
    ensures Uncut(delta, weight, load) * load <= delta * weight
  {
    var f, s, m, inv := Factor(weight, load), Shift(weight, load), Trimmed(weight), InvWeight(load);
    var r := Shr(delta * f, s);
    ShrBelow(delta * f, s);
    TrimmedFits(weight);
    TrimmedFits(m * inv);
    ShiftedBelow(r, delta, f, s, m, Excess(m * inv), weight, Excess(weight), inv, 32);
    InverseBelow(load);
    ScaleBack(r, delta, weight, inv, load);
  }

  /** For queue weights up to 2^32 the approximation never exceeds delta * weight / load. */
  lemma NeverOverestimates(delta: nat, weight: nat, load: nat)
    requires Shift(weight, load) >= 0 && 0 < load <= TWO32
    ensures Scaled(delta, weight, load) * load <= delta * weight
  {
    UncutBelow(delta, weight, load);
    var r := Uncut(delta, weight, load);
    MulMonotone(r % TWO64, r, load, load);
  }

  lemma ScaleBack(r: nat, delta: nat, weight: nat, inv: nat, load: nat)
    requires r * TWO32 <= delta * (weight * inv) && inv * load <= TWO32
    ensures r * load <= delta * weight
  {
    var dw := delta * weight;
    assert delta * (weight * inv) == dw * inv by { Associate(delta, weight, inv); }
    assert r * TWO32 * load <= dw * inv * load by { MulMonotone(r * TWO32, dw * inv, load, load); }
    assert dw * inv * load == dw * (inv * load) by { Associate(dw, inv, load); }
    MulMonotone(dw, dw, inv * load, TWO32);
    assert r * TWO32 * load == r * load * TWO32 by { Associate(r, TWO32, load); }
    MulCancel(r * load, dw, TWO32);
  }

  /**
   * The bound holds for every delta and every weight that an entity may have
   * exactly when the queue weighs no more than 2^32.
   */
  lemma NeverOverestimatesIff(load: nat)
    requires load > 0
    ensures load <= TWO32 <==>
            forall delta: nat, weight: nat :: weight <= MAX_SHARES && Shift(weight, load) >= 0 ==>
              Scaled(delta, weight, load) * load <= delta * weight
  {
    if load <= TWO32 {
      forall delta: nat, weight: nat | weight <= MAX_SHARES && Shift(weight, load) >= 0
        ensures Scaled(delta, weight, load) * load <= delta * weight
      {
        NeverOverestimates(delta, weight, load);
      }
    } else {
      HeavyQueueOverestimates(load);
    }
  }

  /** Beyond that the heaviest entity gets a unit of 2^14 units, more than its part of the queue. */
  lemma HeavyQueueOverestimates(load: nat)
    requires load > TWO32
    ensures Shift(MAX_SHARES, load) == 32 && Scaled(0x4000, MAX_SHARES, load) == 1
    ensures Scaled(0x4000, MAX_SHARES, load) * load > 0x4000 * MAX_SHARES
  {
    assert Factor(MAX_SHARES, load) == MAX_SHARES;
    assert 0x4000 * MAX_SHARES == TWO32;
    PowTwo32();
    ShrPow(1, 32);
  }

  lemma {:induction false} ShrPow(x: nat, k: nat)
    ensures Shr(x * Pow(2, k), k) == x
  {
    if k > 0 {
      var p := Pow(2, k - 1);
      assert x * (2 * p) == 2 * (x * p);
      ShrPow(x, k - 1);
    }
  }

  // ------------------------------------------------------------- nor too little

  /** What update_inv_weight caches: the quotient that the division it replaces would use. */
  lemma InverseIsQuotient(w: nat)
    ensures 0 < w < WMULT_CONST ==> InvWeight(w) * w <= WMULT_CONST < (InvWeight(w) + 1) * w
    ensures 0 < w < WMULT_CONST ==> TWO32 - w <= InvWeight(w) * w
    ensures w == 0 ==> InvWeight(w) == WMULT_CONST
    ensures w >= WMULT_CONST ==> InvWeight(w) == 1
  {
    if 0 < w < WMULT_CONST {
      DivQuotient(WMULT_CONST, w);
      Distribute(InvWeight(w), 1, w);
    }
  }

  /** What cutting the factor to 32 bits may cost: nothing while the shift is whole. */
  function Cut(delta: nat, weight: nat, load: nat): nat {
    if Shift(weight, load) >= 32 then 0 else delta * Pow(2, 32 - Shift(weight, load))
  }

  lemma UncutAbove(delta: nat, weight: nat, load: nat)
    requires weight < TWO32 && Shift(weight, load) >= 0
    ensures delta * (weight * InvWeight(load))
          < (Uncut(delta, weight, load) + 1) * TWO32 + Cut(delta, weight, load)
  {
    hide Pow, Shr, Excess, Trimmed, Factor, Shift, InvWeight, Scaled;
    var x, s := weight * InvWeight(load), Shift(weight, load);
    var e, f := Excess(x), Factor(weight, load);
    SmallFactor(weight, load, x);
    ShrAbove(delta * f, s);
    ShrAbove(x, e);
    PowSum(2, s, e);
    PowTwo32();
    PowPositive(2, e);
    CutAbove(Uncut(delta, weight, load), Pow(2, s), Pow(2, e), delta, f, x);
  }

  /** A weight that fits 32 bits is trimmed only once it is multiplied. */
  lemma SmallFactor(weight: nat, load: nat, x: nat)
    requires weight < TWO32 && x == weight * InvWeight(load)
    ensures Shift(weight, load) == 32 - Excess(x) && Factor(weight, load) == Shr(x, Excess(x))
    ensures Excess(x) == 0 ==> Factor(weight, load) == x && Pow(2, Excess(x)) == 1
  {
    assert Trimmed(weight) == weight;
  }

  lemma CutAbove(r: nat, p: nat, q: nat, delta: nat, f: nat, x: nat)
    requires delta * f < (r + 1) * p && x < (f + 1) * q && q > 0 && p * q == TWO32
    ensures delta * x < (r + 1) * TWO32 + delta * q
    ensures f == x && q == 1 ==> delta * x < (r + 1) * TWO32
  {
    MulMonotone(delta, delta, x, (f + 1) * q);
    Associate(delta, f + 1, q);
    assert delta * (f + 1) == delta * f + delta;
    Distribute(delta * f, delta, q);
    MulMonotone(delta * f + 1, (r + 1) * p, q, q);
    Distribute(delta * f, 1, q);
    Associate(r + 1, p, q);
  }

  /**
   * A result that fits 64 bits misses delta * weight / load by less than one
   * unit, a part load / 2^32 of it, and what the cut costs.
   */
  lemma HardlyUnderestimates(delta: nat, weight: nat, load: nat)
    requires weight < TWO32 && 0 < load < WMULT_CONST && delta * weight < load * TWO64
    requires Shift(weight, load) >= 0
    ensures delta * weight * (TWO32 - load) < ((Scaled(delta, weight, load) + 1) * TWO32 + Cut(delta, weight, load)) * load
  {
    var inv, r := InvWeight(load), Uncut(delta, weight, load);
    UncutAbove(delta, weight, load);
    UncutBelow(delta, weight, load);
    InverseIsQuotient(load);
    assert r == Scaled(delta, weight, load) by { Fits(r, load); }
    hide Uncut, Shift, Cut, InvWeight, Scaled;
    Associate(delta, weight, inv);
    TimesLoad(delta * weight, inv, load, (r + 1) * TWO32 + Cut(delta, weight, load));
  }

  lemma Fits(r: nat, load: nat)
    requires r * load < load * TWO64
    ensures r < TWO64
  {
    if r >= TWO64 {
      MulMonotone(TWO64, r, load, load);
    }
  }

  lemma TimesLoad(dw: nat, inv: nat, load: nat, above: nat)
    requires dw * inv < above && 0 < load < TWO32 && TWO32 - load <= inv * load
    ensures dw * (TWO32 - load) < above * load
  {
    MulMonotone(dw * inv + 1, above, load, load);
    Distribute(dw * inv, 1, load);
    Associate(dw, inv, load);
    MulMonotone(dw, dw, TWO32 - load, inv * load);
  }

  /** An entity within its queue gets its part but for less than a unit and a part load / 2^32 of it. */
  lemma ShareHardlyUnderestimated(delta: nat, weight: nat, load: nat)
    requires 0 < weight <= load < WMULT_CONST && delta < TWO64
    ensures Shift(weight, load) == 32
    ensures delta * weight * (TWO32 - load) < (Scaled(delta, weight, load) + 1) * load * TWO32
  {
    ShiftStays(weight, load);
    MulMonotone(delta + 1, TWO64, weight, load);
    Distribute(delta, 1, weight);
    HardlyUnderestimates(delta, weight, load);
    Associate(Scaled(delta, weight, load) + 1, TWO32, load);
  }

  // ---------------------------------------------------- slices of a hierarchy

  /** One level of a walk up the hierarchy: an entity and the load it shares. */
  datatype Level = Level(weight: nat, load: nat)

  function Share(x: nat, l: Level): nat {
    if Shift(ScaleDown(l.weight), ScaleDown(l.load)) >= 0 then Scaled(x, ScaleDown(l.weight), ScaleDown(l.load)) else 0
  }

  /** The slice left of a period after the walk. */
  function Through(path: seq<Level>, period: nat): nat
    decreases |path|
  {
    if path == [] then period else Through(path[1..], Share(period, path[0]))
  }

  /** A level at which the entity is part of the load, and the load is at most 2^32. */
  ghost predicate Proper(l: Level) {
    l.weight <= l.load && ScaleDown(l.load) <= TWO32
  }

  lemma ProperShift(l: Level)
    requires Proper(l)
    ensures Shift(ScaleDown(l.weight), ScaleDown(l.load)) >= 0
  {
    ShiftDefined(ScaleDown(l.weight), ScaleDown(l.load));
  }

  lemma ShareBounds(x: nat, l: Level)
    requires Proper(l) && x < TWO64
    ensures Share(x, l) * ScaleDown(l.load) <= x * ScaleDown(l.weight)
    ensures Share(x, l) <= x
  {
    hide Scaled, Shift, Factor;
    var w, d := ScaleDown(l.weight), ScaleDown(l.load);
    ProperShift(l);
    DivMonotone(l.weight, l.load, 1024);
    if d == 0 {
      NothingShared(x);
    } else {
      NeverOverestimates(x, w, d);
      MulMonotone(x, x, w, d);
      MulCancel(Share(x, l), x, d);
    }
  }

  /** An entity that weighs less than a unit gets nothing. */
  lemma NothingShared(x: nat)
    ensures Shift(0, 0) >= 0 && Scaled(x, 0, 0) == Uncut(x, 0, 0) == 0
  {
    NoFactor();
    hide Factor, Shift, Shr;
    assert x * Factor(0, 0) == 0;
    ShrZero(Shift(0, 0));
  }

  lemma NoFactor()
    ensures Factor(0, 0) == 0 && Shift(0, 0) == 32
  {
    assert Excess(0) == 0 && Trimmed(0) == 0;
    assert Trimmed(0) * InvWeight(0) == 0;
  }

  lemma {:induction false} ShrZero(k: nat)
    ensures Shr(0, k) == 0
  {
    if k > 0 {
      ShrZero(k - 1);
    }
  }

  /** Splitting what is shared loses at most roundings: the parts never get more than the whole. */
  lemma ShareSuperadditive(x: nat, y: nat, l: Level)
    requires Proper(l) && x + y < TWO64
    ensures Share(x, l) + Share(y, l) <= Share(x + y, l)
  {
    hide Shift, Factor, Shr;
    ProperShift(l);
    UncutShare(x, l);
    UncutShare(y, l);
    UncutShare(x + y, l);
    var f, s := Factor(ScaleDown(l.weight), ScaleDown(l.load)), Shift(ScaleDown(l.weight), ScaleDown(l.load));
    Distribute(x, y, f);
    ShrSum(x * f, y * f, 0, s);
  }

  lemma UncutShare(x: nat, l: Level)
    requires Proper(l) && x < TWO64 && Shift(ScaleDown(l.weight), ScaleDown(l.load)) >= 0
    ensures Share(x, l) == Uncut(x, ScaleDown(l.weight), ScaleDown(l.load))
  {
    DivMonotone(l.weight, l.load, 1024);
    if ScaleDown(l.load) == 0 {
      NothingShared(x);
    } else {
      UncutScaled(x, ScaleDown(l.weight), ScaleDown(l.load));
    }
    hide Shift, Uncut, Scaled;
  }

  lemma UncutScaled(x: nat, w: nat, d: nat)
    requires Shift(w, d) >= 0 && w <= d && 0 < d <= TWO32 && x < TWO64
    ensures Scaled(x, w, d) == Uncut(x, w, d)
  {
    hide Shift, Factor, Shr;
    UncutBelow(x, w, d);
    MulMonotone(x, x, w, d);
    MulCancel(Uncut(x, w, d), x, d);
  }

  /** What is queued on a queue: tasks, and groups with queues of their own. */
  datatype Node = Task(weight: nat) | Group(weight: nat, members: seq<Node>)

  function LoadOf(ns: seq<Node>): nat {
    if ns == [] then 0 else ns[0].weight + LoadOf(ns[1..])
  }

  /** The walks of all tasks below a queue, whose load is given, up to that queue. */
  function Paths(ns: seq<Node>, load: nat): (r: seq<seq<Level>>) {
    if ns == [] then [] else PathsOf(ns[0], load) + Paths(ns[1..], load)
  }

  function PathsOf(n: Node, load: nat): (r: seq<seq<Level>>) {
    match n
    case Task(w) => [[Level(w, load)]]
    case Group(w, ms) => Extended(Paths(ms, LoadOf(ms)), Level(w, load))
  }

  function Extended(ps: seq<seq<Level>>, l: Level): (r: seq<seq<Level>>) {
    if ps == [] then [] else [ps[0] + [l]] + Extended(ps[1..], l)
  }

  function SliceTotal(ps: seq<seq<Level>>, period: nat): nat {
    if ps == [] then 0 else Through(ps[0], period) + SliceTotal(ps[1..], period)
  }

  /** No queue weighs more than 2^32. */
  ghost predicate Weighted(ns: seq<Node>)
    decreases ns, 1
  {
    && ScaleDown(LoadOf(ns)) <= TWO32
    && WeightedBelow(ns)
  }

  ghost predicate WeightedBelow(ns: seq<Node>)
    decreases ns, 0
  {
    ns == [] || ((ns[0].Group? ==> Weighted(ns[0].members)) && WeightedBelow(ns[1..]))
  }

  lemma {:induction false} ThroughLast(p: seq<Level>, l: Level, period: nat)
    ensures Through(p + [l], period) == Share(Through(p, period), l)
    decreases |p|
  {
    if p == [] {
      assert [l][1..] == [];
    } else {
      assert (p + [l])[1..] == p[1..] + [l];
      ThroughLast(p[1..], l, Share(period, p[0]));
    }
  }

  lemma {:induction false} TotalConcat(ps: seq<seq<Level>>, qs: seq<seq<Level>>, period: nat)
    ensures SliceTotal(ps + qs, period) == SliceTotal(ps, period) + SliceTotal(qs, period)
  {
    if ps == [] {
      assert ps + qs == qs;
    } else {
      assert (ps + qs)[1..] == ps[1..] + qs;
      TotalConcat(ps[1..], qs, period);
    }
  }

  lemma {:induction false} TotalExtended(ps: seq<seq<Level>>, l: Level, period: nat)
    requires Proper(l) && SliceTotal(ps, period) < TWO64
    ensures SliceTotal(Extended(ps, l), period) <= Share(SliceTotal(ps, period), l)
  {
    if ps != [] {
      var t, rest := Through(ps[0], period), SliceTotal(ps[1..], period);
      TotalExtended(ps[1..], l, period);
      ThroughLast(ps[0], l, period);
      ShareSuperadditive(t, rest, l);
      var e := Extended(ps, l);
      assert e[0] == ps[0] + [l] && e[1..] == Extended(ps[1..], l);
    }
  }

  lemma ShareMonotone(x: nat, y: nat, l: Level)
    requires Proper(l) && x <= y < TWO64
    ensures Share(x, l) <= Share(y, l)
  {
    ShareSuperadditive(x, y - x, l);
  }

  /** The scaled-down weights of what is queued add up to no more than the scaled-down load. */
  function Units(ns: seq<Node>): nat {
    if ns == [] then 0 else ScaleDown(ns[0].weight) + Units(ns[1..])
  }

  lemma {:induction false} UnitsBelow(ns: seq<Node>)
    ensures Units(ns) <= ScaleDown(LoadOf(ns))
  {
    if ns != [] {
      UnitsBelow(ns[1..]);
    }
  }

  /** What the tasks of one entity get is no more than the entity's own share. */
  lemma {:induction false} EntityFits(n: Node, load: nat, period: nat)
    requires n.Group? ==> Weighted(n.members)
    requires Proper(Level(n.weight, load)) && period < TWO64
    ensures SliceTotal(PathsOf(n, load), period) <= Share(period, Level(n.weight, load))
    decreases n
  {
    var l := Level(n.weight, load);
    match n {
      case Task(w) =>
        assert [l][1..] == [] && Through([l], period) == Share(period, l);
        assert [[l]][1..] == [] && SliceTotal([[l]], period) == Through([l], period);
      case Group(w, ms) =>
        SlicesFitPeriod(ms, period);
        TotalExtended(Paths(ms, LoadOf(ms)), l, period);
        ShareMonotone(SliceTotal(Paths(ms, LoadOf(ms)), period), period, l);
    }
  }

  lemma AddShares(first: nat, rest: nat, share: nat, d: nat, period: nat, u: nat, v: nat)
    requires first <= share && share * d <= period * u && rest * d <= period * v
    ensures (first + rest) * d <= period * (u + v)
  {
    MulMonotone(first, share, d, d);
    Distribute(first, rest, d);
    Distribute(u, v, period);
  }

  lemma LightShare(x: nat, l: Level)
    requires Proper(l)
    ensures ScaleDown(l.load) == 0 ==> Share(x, l) == 0
  {
    hide Scaled, Shift, Factor;
    if ScaleDown(l.load) == 0 {
      DivMonotone(l.weight, l.load, 1024);
      NothingShared(x);
    }
  }

  lemma {:induction false} EntitiesFit(ns: seq<Node>, load: nat, period: nat)
    requires WeightedBelow(ns) && LoadOf(ns) <= load && ScaleDown(load) <= TWO32 && period < TWO64
    ensures SliceTotal(Paths(ns, load), period) * ScaleDown(load) <= period * Units(ns)
    ensures ScaleDown(load) == 0 ==> SliceTotal(Paths(ns, load), period) == 0
    decreases ns, 0
  {
    if ns != [] {
      hide Share, Through, Weighted, PathsOf, ScaleDown;
      var l, d := Level(ns[0].weight, load), ScaleDown(load);
      var first, rest := SliceTotal(PathsOf(ns[0], load), period), SliceTotal(Paths(ns[1..], load), period);
      EntityFits(ns[0], load, period);
      EntitiesFit(ns[1..], load, period);
      ShareBounds(period, l);
      LightShare(period, l);
      TotalConcat(PathsOf(ns[0], load), Paths(ns[1..], load), period);
      AddShares(first, rest, Share(period, l), d, period, ScaleDown(ns[0].weight), Units(ns[1..]));
    }
  }

  /**
   * However the period is shared out through the hierarchy, the slices of all
   * the tasks together fit it.
   */
  lemma {:induction false} SlicesFitPeriod(ns: seq<Node>, period: nat)
    requires Weighted(ns) && period < TWO64
    ensures SliceTotal(Paths(ns, LoadOf(ns)), period) <= period
    decreases ns, 1
  {
    if ns != [] {
      var d := ScaleDown(LoadOf(ns));
      EntitiesFit(ns, LoadOf(ns), period);
      UnitsBelow(ns);
      MulMonotone(period, period, Units(ns), d);
      if d > 0 {
        MulCancel(SliceTotal(Paths(ns, LoadOf(ns)), period), period, d);
      }
    }
  }

  // ------------------------------------------------------------- sched_slice

  datatype Tunables = Tunables(latency: nat, minGranularity: nat, nrLatency: nat)

  /** __sched_period: with too many tasks the period is stretched. */
  function SchedPeriod(nrRunning: nat, t: Tunables): nat {
    if nrRunning > t.nrLatency then nrRunning * t.minGranularity else t.latency
  }

  /** The tunables fit together: nrLatency is latency over minGranularity, rounded up. */
  ghost predicate Consistent(t: Tunables) {
    t.minGranularity > 0 && t.latency <= t.nrLatency * t.minGranularity < t.latency + t.minGranularity
  }

  /** The period is the least one that is no shorter than the latency and leaves everyone all but a rest of the granularity. */
  lemma PeriodLeavesGranularity(nrRunning: nat, t: Tunables)
    requires Consistent(t)
    ensures var period := SchedPeriod(nrRunning, t);
            && t.latency <= period && nrRunning * t.minGranularity < period + t.minGranularity
            && (period == t.latency || period == nrRunning * t.minGranularity)
            && (nrRunning * t.minGranularity <= t.latency ==> period == t.latency)
  {
    if nrRunning > t.nrLatency {
      MulMonotone(t.nrLatency + 1, nrRunning, t.minGranularity, t.minGranularity);
      Distribute(t.nrLatency, 1, t.minGranularity);
    } else {
      MulMonotone(nrRunning, t.nrLatency, t.minGranularity, t.minGranularity);
    }
  }

  class Entity {
    var weight: nat
    var onRq: bool
    /** The load of the queue it is (to be) queued on. */
    const queueLoad: LoadWeight

    constructor (weight: nat, onRq: bool, queueLoad: LoadWeight)
      ensures this.weight == weight && this.onRq == onRq && this.queueLoad == queueLoad
    {
      this.weight, this.onRq, this.queueLoad := weight, onRq, queueLoad;
    }

    /** An entity that is not queued yet counts towards the load all the same. */
    ghost function Lvl(): Level
      reads this, queueLoad`weight
    {
      Level(weight, queueLoad.weight + if onRq then 0 else weight)
    }

    /** The loop body of sched_slice: one level of the walk. */
    method CalcShare(x: nat) returns (r: nat)
      requires queueLoad.Valid() && Shift(ScaleDown(Lvl().weight), ScaleDown(Lvl().load)) >= 0
      modifies queueLoad`invWeight
      ensures queueLoad.Valid() && r == Share(x, Lvl())
    {
      hide Scaled, Shift, ScaleDown, InvWeight;
      if onRq {
        r := queueLoad.CalcDelta(x, weight);
      } else {
        var lw := new LoadWeight(queueLoad.weight);
        lw.Add(weight);
        r := lw.CalcDelta(x, weight);
      }
    }
  }

  ghost function Levels(path: seq<Entity>): (ls: seq<Level>)
    reads set e | e in path, set e: Entity | e in path :: e.queueLoad
    ensures |ls| == |path| && forall i :: 0 <= i < |path| ==> ls[i] == path[i].Lvl()
  {
    if path == [] then [] else [path[0].Lvl()] + Levels(path[1..])
  }

  lemma ThroughNone(x: nat)
    ensures Through([], x) == x
  {
  }

  lemma ThroughStep(ls: seq<Level>, i: nat, x: nat)
    requires i < |ls|
    ensures Through(ls[i..], x) == Through(ls[i + 1..], Share(x, ls[i]))
  {
    assert ls[i..][0] == ls[i] && ls[i..][1..] == ls[i + 1..];
  }

  /** Path is the entity and those above it, up to the root. */
  method SchedSlice(path: seq<Entity>, nrRunning: nat, t: Tunables) returns (slice: nat)
    requires path != []
    requires forall e :: e in path ==> e.queueLoad.Valid()
    requires forall l :: l in Levels(path) ==> Shift(ScaleDown(l.weight), ScaleDown(l.load)) >= 0
    modifies (set e | e in path :: e.queueLoad)`invWeight
    ensures forall e :: e in path ==> e.queueLoad.Valid()
    ensures slice == Through(old(Levels(path)), SchedPeriod(nrRunning + (if path[0].onRq then 0 else 1), t))
  {
    hide Scaled, Shift, ScaleDown, Share, Levels, Through;
    slice := SchedPeriod(nrRunning + (if path[0].onRq then 0 else 1), t);
    ghost var ls := Levels(path);
    ghost var period := slice;
    assert ls[0..] == ls;
    for i := 0 to |path|
      invariant forall e :: e in path ==> e.queueLoad.Valid()
      invariant Through(ls[i..], slice) == Through(ls, period)
    {
      assert ls[i] in ls && ls[i] == path[i].Lvl();
      ThroughStep(ls, i, slice);
      slice := path[i].CalcShare(slice);
    }
    ThroughNone(slice);
    assert ls[|path|..] == [];
  }
}
