/**
 * Distributing runtime while other CPUs use the pool and the queues: between
 * any two queues of the pass the locks are free.
 */
module BandwidthRace {
  import opened Arithmetic
  import opened RuntimeDistribution
  import opened Bandwidth

  /** What another CPU may do in between, each under the locks it takes. */
  datatype Op =
    | Assign(q: CfsRq)
    | GiveBack(q: CfsRq)
    | Charge(q: CfsRq, delta: nat)
    | ThrottleQueue(q: CfsRq)
    | Release(q: CfsRq)

  ghost predicate Known(world: seq<CfsRq>, ops: seq<Op>) {
    forall i :: 0 <= i < |ops| ==> ops[i].q in world
  }

  ghost predicate AllKnown(world: seq<CfsRq>, batches: seq<seq<Op>>) {
    forall i :: 0 <= i < |batches| ==> Known(world, batches[i])
  }

  /** All queues of a limited group. */
  ghost predicate World(b: CfsBandwidth, world: seq<CfsRq>)
    reads b, world, b.throttledList
  {
    && b.Valid() && b.quota != RUNTIME_INF && Distinct(world)
    && forall q :: q in b.throttledList ==> q in world
  }

  /** The runtime there is, in the pool and with the queues, but for what was handed out twice. */
  ghost function Wealth(b: CfsBandwidth, world: seq<CfsRq>): int
    reads b, world
  {
    Total(Accounts(world)) + b.runtime - b.overrun
  }

  lemma {:induction false} TotalUpdate(s: seq<Account>, k: nat, x: Account)
    requires k < |s|
    ensures Total(s[k := x]) == Total(s) - s[k].remaining + x.remaining
  {
    if k == 0 {
      assert s[0 := x][1..] == s[1..];
    } else {
      assert s[k := x][1..] == s[1..][k - 1 := x];
      TotalUpdate(s[1..], k - 1, x);
    }
  }

  /** A change of one queue changes the total by as much. */
  lemma OneQueue(world: seq<CfsRq>, q: CfsRq, k: nat, was: seq<Account>)
    requires Distinct(world) && k < |world| == |was| && world[k] == q
    requires forall i :: 0 <= i < |world| && i != k ==> was[i] == world[i].Acct()
    ensures Total(Accounts(world)) == Total(was) + q.runtimeRemaining - was[k].remaining
  {
    assert Accounts(world) == was[k := q.Acct()];
    TotalUpdate(was, k, q.Acct());
  }

  /** One operation of another CPU; lost is the runtime that was used up or expired. */
  method Apply(b: CfsBandwidth, world: seq<CfsRq>, op: Op) returns (ghost lost: nat)
    requires World(b, world) && op.q in world
    modifies b, world
    ensures World(b, world) && Wealth(b, world) + lost == old(Wealth(b, world))
    ensures b.filled == old(b.filled) && b.overrun == old(b.overrun)
    ensures b.handed >= old(b.handed) && b.returned >= old(b.returned)
  {
    var q := op.q;
    ghost var k :| 0 <= k < |world| && world[k] == q;
    ghost var was := Accounts(world);
    lost := 0;
    match op {
      case Assign(_) =>
        if q.runtimeRemaining <= 0 {
          var ok := b.AssignCfsRqRuntime(q);
        }
      case GiveBack(_) =>
        ghost var before := q.runtimeRemaining + b.runtime;
        b.ReturnCfsRqRuntime(q);
        lost := before - q.runtimeRemaining - b.runtime;
      case Charge(_, delta) =>
        q.runtimeRemaining := q.runtimeRemaining - delta;
        lost := delta;
      case ThrottleQueue(_) =>
        if !q.throttled {
          b.Throttle(q);
        }
      case Release(_) =>
        if q.throttled {
          b.Unthrottle(q);
        }
    }
    OneQueue(world, q, k, was);
  }

  method ApplyAll(b: CfsBandwidth, world: seq<CfsRq>, ops: seq<Op>) returns (ghost lost: nat)
    requires World(b, world) && Known(world, ops)
    modifies b, world
    ensures World(b, world) && Wealth(b, world) + lost == old(Wealth(b, world))
    ensures b.filled == old(b.filled) && b.overrun == old(b.overrun)
    ensures b.handed >= old(b.handed) && b.returned >= old(b.returned)
    ensures ops == [] ==> b.handed == old(b.handed) && b.returned == old(b.returned) && forall q :: q in world ==> q.Acct() == old(q.Acct())
  {
    hide World, Wealth, Accounts;
    lost := 0;
    for i := 0 to |ops|
      invariant World(b, world) && Wealth(b, world) + lost == old(Wealth(b, world))
      invariant b.filled == old(b.filled) && b.overrun == old(b.overrun)
      invariant b.handed >= old(b.handed) && b.returned >= old(b.returned)
      invariant i == 0 ==> b.handed == old(b.handed) && b.returned == old(b.returned) && forall q :: q in world ==> q.Acct() == old(q.Acct())
    {
      ghost var more := Apply(b, world, ops[i]);
      lost := lost + more;
    }
  }

  /** One queue is served: what it gains is no longer left to distribute. */
  method Serve1(b: CfsBandwidth, world: seq<CfsRq>, q: CfsRq, left: nat, expires: nat) returns (rest: nat)
    requires World(b, world) && q in world
    modifies b, world
    ensures World(b, world) && rest <= left && Wealth(b, world) + rest == old(Wealth(b, world)) + left
    ensures b.filled == old(b.filled) && b.overrun == old(b.overrun)
    ensures b.handed == old(b.handed) && b.returned == old(b.returned)
    ensures q.Acct() == ServeOne(old(q.Acct()), left).0 && rest == ServeOne(old(q.Acct()), left).1
    ensures forall x :: x in world && x != q ==> x.Acct() == old(x.Acct())
  {
    ghost var k :| 0 <= k < |world| && world[k] == q;
    ghost var was := Accounts(world);
    rest := b.ServeQueue(q, left, expires);
    OneQueue(world, q, k, was);
  }

  /**
   * A pass over the throttled queues in a race. The walk over the list follows
   * whatever entries are moved meanwhile, so that it may come by any queues in
   * any order, and by some again; batches[i] is what other CPUs do before it
   * comes by the i-th, and the last batch what they do after the last.
   */
  datatype Plan = Plan(order: seq<CfsRq>, batches: seq<seq<Op>>)

  ghost predicate Possible(world: seq<CfsRq>, plan: Plan) {
    && |plan.batches| == |plan.order| + 1 && AllKnown(world, plan.batches)
    && forall q :: q in plan.order ==> q in world
  }

  /** Nobody interferes, and the walk comes by every queue once at most. */
  ghost predicate Quiet(plan: Plan) {
    Distinct(plan.order) && forall i :: 0 <= i < |plan.batches| ==> plan.batches[i] == []
  }

  /** Without interference the first i queues have been served as the functional pass serves them. */
  ghost predicate SoFar(b: CfsBandwidth, plan: Plan, before: seq<Account>, handed: nat, returned: nat, i: nat, left: nat, start: nat)
    reads b, plan.order
  {
    Quiet(plan) ==> |before| == |plan.order| && Partway(before, Accounts(plan.order), i, left, start) && b.handed == handed && b.returned == returned
  }

  /** Without interference the functional pass is over. */
  ghost predicate Over(b: CfsBandwidth, plan: Plan, before: seq<Account>, handed: nat, returned: nat, left: nat, start: nat)
    reads b, plan.order
  {
    Quiet(plan) ==> Serve(before, start) == Pass(Accounts(plan.order), left) && b.handed == handed && b.returned == returned
  }

  lemma AtTheEnd(b: CfsBandwidth, plan: Plan, before: seq<Account>, handed: nat, returned: nat, left: nat, start: nat)
    requires SoFar(b, plan, before, handed, returned, |plan.order|, left, start)
    ensures Over(b, plan, before, handed, returned, left, start)
  {
  }

  /** The walk goes on to queue i: other CPUs first, then the queue is served. */
  method ServeNext(b: CfsBandwidth, world: seq<CfsRq>, plan: Plan, i: nat, left: nat, expires: nat,
                   ghost before: seq<Account>, ghost handed: nat, ghost returned: nat, ghost start: nat) returns (rest: nat, ghost lost: nat)
    requires World(b, world) && Possible(world, plan) && i < |plan.order|
    requires SoFar(b, plan, before, handed, returned, i, left, start)
    modifies b, world
    ensures World(b, world) && rest <= left && Wealth(b, world) + lost + rest == old(Wealth(b, world)) + left
    ensures b.filled == old(b.filled) && b.overrun == old(b.overrun)
    ensures b.handed >= old(b.handed) && b.returned >= old(b.returned)
    ensures if rest == 0 then Over(b, plan, before, handed, returned, 0, start)
            else SoFar(b, plan, before, handed, returned, i + 1, rest, start)
  {
    hide World, Wealth, Serve, ServeOne, Partway;
    var q, list := plan.order[i], plan.order;
    assert forall j :: 0 <= j < |list| ==> list[j] in world;
    ghost var was := Accounts(list);
    lost := ApplyAll(b, world, plan.batches[i]);
    if Quiet(plan) {
      PartwayStep(before, was, i, left, start);
    }
    rest := Serve1(b, world, q, left, expires);
    if Quiet(plan) {
      OneServed(list, i, was);
    }
  }

  lemma OneServed(list: seq<CfsRq>, i: nat, was: seq<Account>)
    requires i < |list| == |was| && forall j :: 0 <= j < |list| && j != i ==> list[j].Acct() == was[j]
    ensures Accounts(list) == was[i := list[i].Acct()]
  {
  }

  /** What other CPUs do after the walk. */
  method Leave(b: CfsBandwidth, world: seq<CfsRq>, plan: Plan, ghost before: seq<Account>, ghost handed: nat, ghost returned: nat,
               ghost left: nat, ghost start: nat) returns (ghost lost: nat)
    requires World(b, world) && Possible(world, plan) && Over(b, plan, before, handed, returned, left, start)
    modifies b, world
    ensures World(b, world) && Wealth(b, world) + lost == old(Wealth(b, world))
    ensures b.filled == old(b.filled) && b.overrun == old(b.overrun)
    ensures b.handed >= old(b.handed) && b.returned >= old(b.returned)
    ensures Over(b, plan, before, handed, returned, left, start)
  {
    hide World, Wealth, Serve;
    assert forall j :: 0 <= j < |plan.order| ==> plan.order[j] in world;
    ghost var was := Accounts(plan.order);
    lost := ApplyAll(b, world, plan.batches[|plan.order|]);
    assert Quiet(plan) ==> Accounts(plan.order) == was;
  }

  /** distribute_cfs_runtime with other CPUs in between. */
  method Distribute(b: CfsBandwidth, world: seq<CfsRq>, remaining: nat, expires: nat, plan: Plan)
      returns (given: nat, ghost lost: nat)
    requires World(b, world) && Possible(world, plan)
    modifies b, world
    ensures World(b, world) && given <= remaining && Wealth(b, world) + lost == old(Wealth(b, world)) + given
    ensures b.filled == old(b.filled) && b.overrun == old(b.overrun)
    ensures b.handed >= old(b.handed) && b.returned >= old(b.returned)
    ensures Quiet(plan) ==>
              var pass := Serve(old(Accounts(plan.order)), remaining);
              Accounts(plan.order) == pass.queues && given == remaining - pass.left
              && b.handed == old(b.handed) && b.returned == old(b.returned)
  {
    hide World, Wealth, Serve, Partway, Possible, Quiet;
    var left: nat := remaining;
    lost := 0;
    ghost var before, handed, returned := Accounts(plan.order), b.handed, b.returned;
    PartwayStart(before, remaining);
    for i := 0 to |plan.order|
      invariant World(b, world) && left <= remaining
      invariant SoFar(b, plan, before, handed, returned, i, left, remaining)
      invariant Wealth(b, world) + lost + left == old(Wealth(b, world)) + remaining
      invariant b.filled == old(b.filled) && b.overrun == old(b.overrun)
      invariant b.handed >= old(b.handed) && b.returned >= old(b.returned)
    {
      ghost var more;
      left, more := ServeNext(b, world, plan, i, left, expires, before, handed, returned, remaining);
      lost := lost + more;
      if left == 0 {
        more := Leave(b, world, plan, before, handed, returned, 0, remaining);
        return remaining, lost + more;
      }
    }
    AtTheEnd(b, plan, before, handed, returned, left, remaining);
    ghost var more := Leave(b, world, plan, before, handed, returned, left, remaining);
    return remaining - left, lost + more;
  }

  /**
   * One round of the period timer's loop in a race: the pool is read, the lock
   * dropped for the distribution, and what was handed out then taken from the
   * pool as it is. No runtime appears or disappears but for the overrun, which
   * is at most what the pool had at the start of the round and at most what
   * other CPUs took meanwhile, and leaves the pool empty.
   */
  method Round(b: CfsBandwidth, world: seq<CfsRq>, plan: Plan) returns (given: nat, ghost taken: nat, ghost lost: nat)
    requires World(b, world) && Possible(world, plan)
    modifies b, world
    ensures World(b, world) && given <= old(b.runtime) && Wealth(b, world) + lost == old(Wealth(b, world))
    ensures b.filled == old(b.filled) && b.handed == old(b.handed) + given + taken && b.returned >= old(b.returned)
    ensures 0 <= b.overrun - old(b.overrun) <= Min(old(b.runtime), taken)
    ensures b.overrun > old(b.overrun) ==> b.runtime == 0
    ensures Quiet(plan) ==>
              var pass := Serve(old(Accounts(plan.order)), old(b.runtime));
              Accounts(plan.order) == pass.queues && b.runtime == pass.left && taken == 0
  {
    hide Serve, Accounts, Quiet;
    var runtime := b.runtime;
    given, lost := Distribute(b, world, runtime, b.runtimeExpires, plan);
    taken := b.handed - old(b.handed);
    b.Settle(given);
  }

  /**
   * The whole loop in a race, for as many rounds as there is something to
   * distribute, somebody to distribute it to, and other CPUs interfere. Only
   * the last round can overrun: over all rounds the overrun is at most what the
   * pool had and was given back, at most what was handed out, and leaves the
   * pool empty.
   */
  method Rounds(b: CfsBandwidth, world: seq<CfsRq>, plans: seq<Plan>) returns (n: nat, ghost lost: nat)
    requires World(b, world) && forall i :: 0 <= i < |plans| ==> Possible(world, plans[i])
    modifies b, world
    ensures World(b, world) && Wealth(b, world) + lost == old(Wealth(b, world))
    ensures b.filled == old(b.filled) && b.handed >= old(b.handed) && b.returned >= old(b.returned)
    ensures b.overrun >= old(b.overrun) && (b.overrun > old(b.overrun) ==> b.runtime == 0)
    ensures b.overrun - old(b.overrun) <= old(b.runtime) + b.returned - old(b.returned)
    ensures b.overrun - old(b.overrun) <= b.handed - old(b.handed)
    ensures n <= |plans| && (n < |plans| ==> b.throttledList == [] || b.runtime == 0)
    ensures |plans| == 1 && Quiet(plans[0]) && old(b.throttledList != [] && b.runtime > 0) ==>
              var pass := Serve(old(Accounts(plans[0].order)), old(b.runtime));
              Accounts(plans[0].order) == pass.queues && b.runtime == pass.left
  {
    hide Wealth, Serve, Accounts, Quiet, Possible;
    n, lost := 0, 0;
    var throttled := b.throttledList != [];
    while throttled && b.runtime > 0 && n < |plans|
      invariant n <= |plans| && throttled == (b.throttledList != [])
      invariant World(b, world) && Wealth(b, world) + lost == old(Wealth(b, world))
      invariant b.filled == old(b.filled) && b.handed >= old(b.handed) && b.returned >= old(b.returned)
      invariant b.overrun >= old(b.overrun) && (b.overrun > old(b.overrun) ==> b.runtime == 0)
      invariant b.overrun - old(b.overrun) <= old(b.runtime) + b.returned - old(b.returned)
      invariant b.overrun - old(b.overrun) <= b.handed - old(b.handed)
      invariant n == 0 ==> b.runtime == old(b.runtime) && b.throttledList == old(b.throttledList) && Wealth(b, world) == old(Wealth(b, world))
      invariant n == 0 && |plans| > 0 ==> Accounts(plans[0].order) == old(Accounts(plans[0].order))
      invariant n == 1 && Quiet(plans[0]) ==>
                  var pass := Serve(old(Accounts(plans[0].order)), old(b.runtime));
                  Accounts(plans[0].order) == pass.queues && b.runtime == pass.left
      decreases |plans| - n
    {
      var given;
      ghost var more, gone;
      given, more, gone := Round(b, world, plans[n]);
      lost := lost + gone;
      throttled := b.throttledList != [];
      n := n + 1;
    }
  }
}
