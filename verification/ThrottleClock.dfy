/**
 * How many throttled queues hold a task group's queue back on one CPU, and the
 * task clock of the queue, which stands still for as long as any does.
 */
module ThrottleClock {

  /**
   * A group's queue on this CPU. Groups are numbered in the order of their
   * creation, the root group 0, so a parent comes before its children.
   */
  datatype Group = Group(parent: nat, throttled: bool, count: int, clock: int, time: int)

  ghost predicate Tree(gs: seq<Group>) {
    |gs| > 0 && forall i {:trigger gs[i].parent} :: 0 < i < |gs| ==> gs[i].parent < i
  }

  /** a is g or an ancestor of g. */
  predicate Above(gs: seq<Group>, a: nat, g: nat)
    requires Tree(gs) && g < |gs|
    decreases g
  {
    a == g || (g > 0 && Above(gs, a, gs[g].parent))
  }

  /** The number of throttled queues among g and its ancestors. */
  ghost function Throttlers(gs: seq<Group>, g: nat): nat
    requires Tree(gs) && g < |gs|
    decreases g
  {
    (if gs[g].throttled then 1 else 0) + if g > 0 then Throttlers(gs, gs[g].parent) else 0
  }

  /** cfs_rq_clock_task at a moment when the CPU's task clock is now. */
  function ClockTask(g: Group, now: int): int {
    if g.count != 0 then g.clock - g.time else now - g.time
  }

  ghost predicate SameTree(gs: seq<Group>, hs: seq<Group>) {
    |gs| <= |hs| && forall i :: 0 <= i < |gs| ==> gs[i].parent == hs[i].parent
  }

  lemma {:induction false} SameAbove(gs: seq<Group>, hs: seq<Group>, a: nat, g: nat)
    requires Tree(gs) && Tree(hs) && SameTree(gs, hs) && g < |gs|
    ensures Above(gs, a, g) == Above(hs, a, g)
    decreases g
  {
    if g > 0 {
      SameAbove(gs, hs, a, gs[g].parent);
    }
  }

  /** Throttling or unthrottling q concerns q and what is below it. */
  lemma {:induction false} ThrottlersChange(gs: seq<Group>, hs: seq<Group>, q: nat, g: nat)
    requires Tree(gs) && Tree(hs) && SameTree(gs, hs) && g < |gs|
    requires forall i :: 0 <= i < |gs| && i != q ==> gs[i].throttled == hs[i].throttled
    requires q < |gs| ==> !gs[q].throttled && hs[q].throttled
    ensures Throttlers(hs, g) == Throttlers(gs, g) + if q < |gs| && Above(gs, q, g) then 1 else 0
    decreases g
  {
    if g > 0 {
      ThrottlersChange(gs, hs, q, gs[g].parent);
    }
    if g == q && g > 0 {
      NotAboveItself(gs, q, gs[g].parent);
    }
  }

  lemma {:induction false} NotAboveItself(gs: seq<Group>, q: nat, g: nat)
    requires Tree(gs) && g < |gs| && g <= q
    ensures Above(gs, q, g) ==> g == q
    decreases g
  {
    if g > 0 {
      NotAboveItself(gs, q, gs[g].parent);
    }
  }

  /** A throttled queue above g is one of its throttlers. */
  lemma {:induction false} ThrottlerCounts(gs: seq<Group>, q: nat, g: nat)
    requires Tree(gs) && g < |gs| && Above(gs, q, g) && q < |gs| && gs[q].throttled
    ensures Throttlers(gs, g) >= 1
    decreases g
  {
    if q != g {
      ThrottlerCounts(gs, q, gs[g].parent);
    }
  }

  /** tg_throttle_down. */
  function Down(g: Group, now: int): Group {
    g.(clock := if g.count == 0 then now else g.clock, count := g.count + 1)
  }

  /** tg_unthrottle_up. */
  function Up(g: Group, now: int): Group {
    g.(count := g.count - 1, time := if g.count == 1 then g.time + now - g.clock else g.time)
  }

  /** Every group from q down has been visited by tg_throttle_down, or by tg_unthrottle_up. */
  ghost function Walked(gs: seq<Group>, q: nat, down: bool, now: int): (r: seq<Group>)
    requires Tree(gs)
    ensures |r| == |gs| && SameTree(gs, r) && Tree(r)
  {
    seq(|gs|, i requires 0 <= i < |gs| => if !Above(gs, q, i) then gs[i] else if down then Down(gs[i], now) else Up(gs[i], now))
  }

  lemma Halfway(was: seq<Group>, walked: seq<Group>, gs: seq<Group>)
    requires Tree(was) && SameTree(was, walked) && |gs| == |was| == |walked|
    requires forall i {:trigger gs[i]} :: 0 <= i < |was| ==> gs[i] == walked[i] || gs[i] == was[i]
    ensures Tree(gs) && SameTree(was, gs)
  {
  }

  lemma DownKeepsClock(g: Group, now: int)
    requires g.count >= 0
    ensures ClockTask(Down(g, now), now) == ClockTask(g, now)
  {
  }

  lemma UpKeepsClock(g: Group, now: int)
    requires g.count >= 1
    ensures ClockTask(Up(g, now), now) == ClockTask(g, now)
  {
  }

  class Rq {
    var groups: seq<Group>
    /** rq_clock_task. */
    var now: nat
    /** The reading at which each queue's clock started, and for how long nothing has held it back since. */
    ghost var born: seq<int>
    ghost var active: seq<nat>

    /** Counts are what the tree says, and every clock shows its start plus the time it was not held back. */
    ghost predicate Valid()
      reads this
    {
      && Tree(groups) && |born| == |groups| == |active|
      && (forall g {:trigger groups[g]} :: 0 <= g < |groups| ==>
            groups[g].count == Throttlers(groups, g) && ClockTask(groups[g], now) == born[g] + active[g])
    }

    constructor ()
      ensures Valid() && groups == [Group(0, false, 0, 0, 0)] && now == 0
    {
      groups, now, born, active := [Group(0, false, 0, 0, 0)], 0, [0], [0];
    }

    /** The CPU's task clock advances. */
    method Tick(delta: nat)
      requires Valid()
      modifies `now, `active
      ensures Valid() && now == old(now) + delta
      ensures forall g :: 0 <= g < |groups| ==>
                active[g] == old(active)[g] + (if Throttlers(groups, g) == 0 then delta else 0)
                && ClockTask(groups[g], now) == ClockTask(groups[g], old(now)) + if Throttlers(groups, g) == 0 then delta else 0
    {
      now := now + delta;
      active := seq(|active|, g requires 0 <= g < |active| && |active| == |groups| && Tree(groups) reads this =>
        active[g] + if Throttlers(groups, g) == 0 then delta else 0);
    }

    /** walk_tg_tree_from q with tg_throttle_down. */
    method WalkDown(q: nat)
      requires Tree(groups) && q < |groups|
      modifies `groups
      ensures groups == Walked(old(groups), q, true, now)
    {
      hide Above;
      ghost var was, walked := groups, Walked(groups, q, true, now);
      for g := 0 to |groups|
        invariant |groups| == |was|
        invariant forall i {:trigger groups[i]} :: 0 <= i < |was| ==> groups[i] == if i < g then walked[i] else was[i]
      {
        Halfway(was, walked, groups);
        SameAbove(was, groups, q, g);
        if Above(groups, q, g) {
          groups := groups[g := Down(groups[g], now)];
        }
      }
    }

    /** walk_tg_tree_from q with tg_unthrottle_up. */
    method WalkUp(q: nat)
      requires Tree(groups) && q < |groups|
      modifies `groups
      ensures groups == Walked(old(groups), q, false, now)
    {
      hide Above;
      ghost var was, walked := groups, Walked(groups, q, false, now);
      for g := 0 to |groups|
        invariant |groups| == |was|
        invariant forall i {:trigger groups[i]} :: 0 <= i < |was| ==> groups[i] == if i < g then walked[i] else was[i]
      {
        Halfway(was, walked, groups);
        SameAbove(was, groups, q, g);
        if Above(groups, q, g) {
          groups := groups[g := Up(groups[g], now)];
        }
      }
    }

    /** throttle_cfs_rq as far as clocks are concerned: every group below stops its clock. */
    method Throttle(q: nat)
      requires Valid() && 0 < q < |groups| && !groups[q].throttled
      modifies `groups
      ensures Valid() && SameTree(old(groups), groups) && |groups| == |old(groups)|
      ensures forall g :: 0 <= g < |groups| ==>
                groups[g].throttled == (g == q || old(groups)[g].throttled)
                && ClockTask(groups[g], now) == ClockTask(old(groups)[g], now)
    {
      ghost var was := groups;
      WalkDown(q);
      groups := groups[q := groups[q].(throttled := true)];
      forall g | 0 <= g < |groups|
        ensures groups[g].count == Throttlers(groups, g) && ClockTask(groups[g], now) == ClockTask(was[g], now)
      {
        ThrottlersChange(was, groups, q, g);
        DownKeepsClock(was[g], now);
      }
    }

    /** unthrottle_cfs_rq as far as clocks are concerned. */
    method Unthrottle(q: nat)
      requires Valid() && 0 < q < |groups| && groups[q].throttled
      modifies `groups
      ensures Valid() && SameTree(old(groups), groups) && |groups| == |old(groups)|
      ensures forall g :: 0 <= g < |groups| ==>
                groups[g].throttled == (g != q && old(groups)[g].throttled)
                && ClockTask(groups[g], now) == ClockTask(old(groups)[g], now)
    {
      ghost var was := groups;
      groups := groups[q := groups[q].(throttled := false)];
      WalkUp(q);
      forall g | 0 <= g < |groups|
        ensures groups[g].count == Throttlers(groups, g) && ClockTask(groups[g], now) == ClockTask(was[g], now)
      {
        SameAbove(was, groups, q, g);
        SameAbove(was, was[q := was[q].(throttled := false)], q, g);
        ThrottlersChange(groups, was, q, g);
        if Above(was, q, g) {
          ThrottlerCounts(was, q, g);
          UpKeepsClock(was[g], now);
        }
      }
    }

    /** A new group below parent: sync_throttle takes over how often it is throttled from above. */
    method Create(parent: nat) returns (g: nat)
      requires Valid() && parent < |groups|
      modifies `groups, `born, `active
      ensures Valid() && g == |old(groups)| && |groups| == g + 1 && groups[..g] == old(groups)
      ensures groups[g].parent == parent && !groups[g].throttled && groups[g].count == groups[parent].count
      ensures ClockTask(groups[g], now) == now
    {
      g := |groups|;
      ghost var was := groups;
      groups := groups + [Group(parent, false, groups[parent].count, now, 0)];
      born, active := born + [now], active + [0];
      forall i | 0 <= i < g
        ensures Throttlers(groups, i) == Throttlers(was, i)
      {
        ThrottlersChange(was, groups, g, i);
      }
    }
  }
}
