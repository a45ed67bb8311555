/**
 * The load average of a task group, kept up to date by differences that every
 * CPU adds on its own, and the share of the group's weight that follows from it.
 */
module TaskGroupLoad {
  import opened Common
  import opened Arithmetic
  import opened Sums

  /**
   * A CPU's queue of the group. Between adding a difference to the group's
   * load and storing what it has contributed, a CPU owes that difference.
   */
  datatype CfsRq = CfsRq(loadAvg: nat, contrib: nat, owed: Option<int>)

  /** What the CPU has added to the group's load so far. */
  function Contributed(q: CfsRq): int {
    q.contrib + if q.owed.Some? then q.owed.value else 0
  }

  /** While a difference is owed, storing will make the contribution exact. */
  ghost predicate Sane(q: CfsRq) {
    q.owed.Some? ==> Contributed(q) == q.loadAvg
  }

  /** The contribution is as close to the load as the last update left it. */
  ghost predicate UpToDate(q: CfsRq) {
    var d := q.loadAvg - Contributed(q);
    64 * d <= Contributed(q) && -64 * d <= Contributed(q)
  }

  ghost function Contributions(m: map<nat, CfsRq>): (f: map<nat, int>)
    ensures f.Keys == m.Keys
  {
    map c | c in m :: Contributed(m[c])
  }

  ghost function Loads(m: map<nat, CfsRq>): (f: map<nat, int>)
    ensures f.Keys == m.Keys
  {
    map c | c in m :: m[c].loadAvg
  }

  ghost predicate Agrees(loadAvg: int, m: map<nat, CfsRq>) {
    && (forall c :: c in m ==> Sane(m[c]))
    && loadAvg == Sum(m.Keys, Contributions(m))
  }

  /** One CPU's change of contribution is a change of the sum. */
  lemma Contribute(loadAvg: int, m: map<nat, CfsRq>, c: nat, q: CfsRq)
    requires Agrees(loadAvg, m) && c in m && Sane(q)
    ensures Agrees(loadAvg + Contributed(q) - Contributed(m[c]), m[c := q])
  {
    var n := m[c := q];
    assert n.Keys == m.Keys;
    SumBump(m.Keys, c, Contributions(m), Contributions(n), Contributed(q) - Contributed(m[c]));
  }

  class TaskGroup {
    var loadAvg: int
    var shares: nat
    /** The group's queue on each CPU. */
    var cfsRq: map<nat, CfsRq>

    ghost predicate Valid()
      reads this
    {
      Agrees(loadAvg, cfsRq) && shares >= MIN_SHARES
    }

    constructor (cpus: set<nat>, shares: nat)
      requires shares >= MIN_SHARES
      ensures Valid() && cfsRq.Keys == cpus && this.shares == shares
      ensures forall c :: c in cpus ==> cfsRq[c] == CfsRq(0, 0, None)
    {
      loadAvg, this.shares := 0, shares;
      cfsRq := map c | c in cpus :: CfsRq(0, 0, None);
      new;
      assert cfsRq.Keys == cpus;
      SumZero(cpus, Contributions(cfsRq));
    }

    /** A CPU's own load changes, under its queue's lock. */
    method ChangeLoad(cpu: nat, load: nat)
      requires Valid() && cpu in cfsRq && cfsRq[cpu].owed.None?
      modifies `cfsRq
      ensures Valid() && cfsRq == old(cfsRq)[cpu := old(cfsRq)[cpu].(loadAvg := load)]
    {
      Contribute(loadAvg, cfsRq, cpu, cfsRq[cpu].(loadAvg := load));
      cfsRq := cfsRq[cpu := cfsRq[cpu].(loadAvg := load)];
    }

    /** update_tg_load_avg up to the atomic addition; other CPUs may run before the rest. */
    method AddDifference(cpu: nat, force: bool)
      requires Valid() && cpu in cfsRq && cfsRq[cpu].owed.None?
      modifies `cfsRq, `loadAvg
      ensures Valid() && cfsRq.Keys == old(cfsRq).Keys
      ensures forall c :: c in cfsRq && c != cpu ==> cfsRq[c] == old(cfsRq)[c]
      ensures cfsRq[cpu].loadAvg == old(cfsRq)[cpu].loadAvg && cfsRq[cpu].contrib == old(cfsRq)[cpu].contrib
      ensures var q := old(cfsRq)[cpu];
              cfsRq[cpu].owed == if force || Abs(q.loadAvg - q.contrib) > q.contrib / 64 then Some(q.loadAvg - q.contrib) else None
      ensures UpToDate(cfsRq[cpu]) && (force ==> Contributed(cfsRq[cpu]) == cfsRq[cpu].loadAvg)
    {
      var q := cfsRq[cpu];
      var delta := q.loadAvg - q.contrib;
      if force || Abs(delta) > q.contrib / 64 {
        Contribute(loadAvg, cfsRq, cpu, q.(owed := Some(delta)));
        loadAvg := loadAvg + delta;
        cfsRq := cfsRq[cpu := q.(owed := Some(delta))];
      }
    }

    /** The rest of update_tg_load_avg: what was added is remembered. */
    method StoreContribution(cpu: nat)
      requires Valid() && cpu in cfsRq
      modifies `cfsRq
      ensures Valid() && cfsRq.Keys == old(cfsRq).Keys && cfsRq[cpu].owed.None?
      ensures forall c :: c in cfsRq && c != cpu ==> cfsRq[c] == old(cfsRq)[c]
      ensures Contributed(cfsRq[cpu]) == old(Contributed(cfsRq[cpu])) && cfsRq[cpu].loadAvg == old(cfsRq)[cpu].loadAvg
      ensures old(UpToDate(cfsRq[cpu])) ==> UpToDate(cfsRq[cpu])
    {
      var q := cfsRq[cpu];
      if q.owed.Some? {
        Contribute(loadAvg, cfsRq, cpu, CfsRq(q.loadAvg, q.loadAvg, None));
        cfsRq := cfsRq[cpu := CfsRq(q.loadAvg, q.loadAvg, None)];
      }
    }

    /** calc_cfs_shares for the queue of a CPU whose scaled-down load weight is load. */
    method CalcCfsShares(cpu: nat, load: nat) returns (r: nat)
      requires Valid() && cpu in cfsRq && cfsRq[cpu].owed.None?
      ensures MIN_SHARES <= r <= shares
      ensures loadAvg - cfsRq[cpu].contrib >= 0
      ensures r == Clamped(Part(shares, load, loadAvg - cfsRq[cpu].contrib + load), shares)
      ensures var w := loadAvg - cfsRq[cpu].contrib + load;
              if w == 0 then r == MIN_SHARES
              else shares * load < (r + 1) * w && (r > MIN_SHARES ==> r * w <= shares * load)
    {
      OthersContribute(loadAvg, cfsRq, cpu);
      PartBetween(shares, load, loadAvg - cfsRq[cpu].contrib + load);
      var tgWeight := loadAvg - cfsRq[cpu].contrib + load;
      var s := shares * load;
      if tgWeight != 0 {
        s := s / tgWeight;
      }
      MulMonotone(0, shares, 0, load);
      DivAtLeast(shares * load, Max(tgWeight, 1), 0);
      if s < MIN_SHARES {
        s := MIN_SHARES;
      }
      if s > shares {
        s := shares;
      }
      return s;
    }
  }

  function Abs(x: int): nat {
    if x < 0 then -x else x
  }

  /** shares * load / weight, where an empty group divides by nothing. */
  function Part(shares: nat, load: nat, weight: nat): nat {
    if weight == 0 then shares * load else shares * load / weight
  }

  function Clamped(s: nat, shares: nat): nat {
    Min(Max(s, MIN_SHARES), shares)
  }

  /** Of the group's shares a CPU gets the part its load is of the weight, short of it by less than one. */
  lemma PartBetween(shares: nat, load: nat, weight: nat)
    requires load <= weight && shares >= MIN_SHARES
    ensures var r := Clamped(Part(shares, load, weight), shares);
            if weight == 0 then r == MIN_SHARES
            else shares * load < (r + 1) * weight && (r > MIN_SHARES ==> r * weight <= shares * load)
  {
    if weight > 0 {
      PartQuotient(shares, load, weight);
      MulMonotone(shares, shares, load, weight);
      hide Part, Clamped;
      Between(Part(shares, load, weight), shares * load, weight, shares);
    }
  }

  lemma Between(p: nat, x: nat, weight: nat, shares: nat)
    requires IsQuotient(p, x, weight) && x <= shares * weight && weight > 0 && shares >= MIN_SHARES
    ensures var r := Clamped(p, shares); x < (r + 1) * weight && (r > MIN_SHARES ==> r * weight <= x)
  {
    QuotientOrder(p, shares, weight, x, shares * weight);
    Distribute(p, 1, weight);
    MulMonotone(p + 1, Clamped(p, shares) + 1, weight, weight);
  }

  lemma {:induction false} SumZero(s: set<nat>, f: map<nat, int>)
    requires s <= f.Keys && forall c :: c in s ==> f[c] == 0
    ensures Sum(s, f) == 0
  {
    if s != {} {
      var c :| c in s;
      SumRemove(s, c, f);
      SumZero(s - {c}, f);
    }
  }

  /** Taking one CPU's contribution out leaves what the others contributed. */
  lemma OthersContribute(loadAvg: int, m: map<nat, CfsRq>, cpu: nat)
    requires Agrees(loadAvg, m) && cpu in m
    ensures loadAvg - Contributed(m[cpu]) >= 0
  {
    SumRemove(m.Keys, cpu, Contributions(m));
    assert forall c :: c in m ==> Contributed(m[c]) >= 0;
    SumAtLeast(m.Keys - {cpu}, Contributions(m), 0);
  }

  /** Bounds on every summand, scaled by k, bound the sums. */
  lemma {:induction false} SumScaled(s: set<nat>, f: map<nat, int>, g: map<nat, int>, k: int)
    requires s <= f.Keys && s <= g.Keys
    requires forall c :: c in s ==> k * (f[c] - g[c]) <= g[c]
    ensures k * (Sum(s, f) - Sum(s, g)) <= Sum(s, g)
  {
    if s != {} {
      var c :| c in s;
      SumRemove(s, c, f);
      SumRemove(s, c, g);
      SumScaled(s - {c}, f, g, k);
      AddScaled(k, f[c], g[c], Sum(s - {c}, f), Sum(s - {c}, g));
    }
  }

  lemma AddScaled(k: int, a: int, b: int, c: int, d: int)
    requires k * (a - b) <= b && k * (c - d) <= d
    ensures k * (a + c - (b + d)) <= b + d
  {
    assert k * (a + c - (b + d)) == k * (a - b) + k * (c - d);
  }

  /**
   * In any interleaving, once every CPU has updated since its load last
   * changed, the group's load is within a 64th of the true sum.
   */
  lemma WithinA64th(loadAvg: int, m: map<nat, CfsRq>)
    requires Agrees(loadAvg, m) && forall c :: c in m ==> UpToDate(m[c])
    ensures 64 * Abs(Sum(m.Keys, Loads(m)) - loadAvg) <= loadAvg
  {
    SumScaled(m.Keys, Loads(m), Contributions(m), 64);
    SumScaled(m.Keys, Loads(m), Contributions(m), -64);
  }

  /** With no addition in flight the group's load is the sum of what the CPUs stored. */
  lemma SumOfContributions(loadAvg: int, m: map<nat, CfsRq>)
    requires Agrees(loadAvg, m) && forall c :: c in m ==> m[c].owed.None?
    ensures loadAvg == Sum(m.Keys, map c | c in m :: m[c].contrib as int)
  {
    SumAgree(m.Keys, Contributions(m), map c | c in m :: m[c].contrib as int);
  }

  /** The parts of the group's shares that the CPUs take add up to no more than there is. */
  lemma {:induction false} PartsFit(s: set<nat>, f: map<nat, int>, total: nat, shares: nat, parts: map<nat, int>)
    requires s <= f.Keys && s <= parts.Keys && total > 0
    requires forall c :: c in s ==> f[c] >= 0 && parts[c] == Part(shares, f[c], total)
    ensures Sum(s, parts) * total <= shares * Sum(s, f) <= (Sum(s, parts) + |s|) * total
  {
    hide Part;
    if s != {} {
      var c :| c in s;
      SumRemove(s, c, f);
      SumRemove(s, c, parts);
      PartsFit(s - {c}, f, total, shares, parts);
      PartQuotient(shares, f[c], total);
      AddPart(Sum(s - {c}, parts), parts[c], total, shares, Sum(s - {c}, f), f[c], |s - {c}|);
    }
  }

  lemma PartQuotient(shares: nat, load: nat, total: nat)
    requires total > 0
    ensures IsQuotient(Part(shares, load, total), shares * load, total)
  {
    DivQuotient(shares * load, total);
  }

  lemma AddPart(a: int, p: int, total: int, shares: int, b: int, l: int, n: int)
    requires a * total <= shares * b <= (a + n) * total && p * total <= shares * l <= p * total + total
    ensures (p + a) * total <= shares * (l + b) <= (p + a + (n + 1)) * total
  {
    assert (p + a + (n + 1)) * total == (a + n) * total + p * total + total;
  }

  /**
   * When every CPU's load weight is what it contributes, the shares they are
   * given exceed the group's by at most MIN_SHARES for every CPU, and miss at
   * most one unit of it for every CPU.
   */
  lemma SharesFit(loadAvg: int, m: map<nat, CfsRq>, shares: nat, given: map<nat, int>)
    requires Agrees(loadAvg, m) && loadAvg > 0 && shares >= MIN_SHARES && given.Keys == m.Keys
    requires forall c :: c in m ==>
               m[c].owed.None? && given[c] == Clamped(Part(shares, m[c].contrib, loadAvg), shares)
    ensures shares - |m.Keys| <= Sum(m.Keys, given) <= shares + MIN_SHARES * |m.Keys|
  {
    hide Part;
    var parts := map c | c in m :: Part(shares, m[c].contrib, loadAvg) as int;
    PartsFit(m.Keys, Contributions(m), loadAvg, shares, parts);
    SumAtLeast(m.Keys, parts, 0);
    PartsBetween(Sum(m.Keys, parts), |m.Keys|, shares, loadAvg);
    PartsWithin(loadAvg, m, shares);
    ClampedWithin(m.Keys, parts, given, shares);
  }

  lemma PartAtMost(shares: nat, load: nat, total: nat)
    requires total > 0 && load <= total
    ensures Part(shares, load, total) <= shares
  {
    MulMonotone(shares, shares, load, total);
    DivAtMost(shares * load, total, shares);
  }

  lemma PartsBetween(sum: nat, n: nat, shares: nat, total: nat)
    requires total > 0 && sum * total <= shares * total <= (sum + n) * total
    ensures sum <= shares <= sum + n
  {
    MulCancel(sum, shares, total);
    MulCancel(shares, sum + n, total);
  }

  /** No CPU contributes more than the group's load, so none is given more than all its shares. */
  lemma PartsWithin(loadAvg: int, m: map<nat, CfsRq>, shares: nat)
    requires Agrees(loadAvg, m) && loadAvg > 0 && forall c :: c in m ==> m[c].owed.None?
    ensures forall c :: c in m ==> Part(shares, m[c].contrib, loadAvg) <= shares
  {
    forall c | c in m
      ensures Part(shares, m[c].contrib, loadAvg) <= shares
    {
      OthersContribute(loadAvg, m, c);
      PartAtMost(shares, m[c].contrib, loadAvg);
    }
  }

  lemma {:induction false} ClampedWithin(s: set<nat>, parts: map<nat, int>, given: map<nat, int>, shares: nat)
    requires s <= parts.Keys && s <= given.Keys
    requires forall c :: c in s ==> 0 <= parts[c] <= shares && given[c] == Clamped(parts[c], shares)
    ensures Sum(s, parts) <= Sum(s, given) <= Sum(s, parts) + MIN_SHARES * |s|
  {
    if s != {} {
      var c :| c in s;
      SumRemove(s, c, parts);
      SumRemove(s, c, given);
      ClampedWithin(s - {c}, parts, given, shares);
    }
  }
}
