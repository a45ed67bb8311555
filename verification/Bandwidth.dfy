/**
 * CFS bandwidth control of one task group: the global pool of runtime, what the
 * queues take from it and give back, and the timers that refill it.
 */
module Bandwidth {
  import opened Common
  import opened Arithmetic
  import opened RuntimeDistribution

  /** The quota of a group that is not limited. */
  const RUNTIME_INF: nat := 0xffff_ffff_ffff_ffff

  class CfsRq {
    var runtimeRemaining: int
    var runtimeExpires: nat
    var throttled: bool

    constructor ()
      ensures runtimeRemaining == 0 && runtimeExpires == 0 && !throttled
    {
      runtimeRemaining, runtimeExpires, throttled := 0, 0, false;
    }

    function Acct(): Account
      reads this
    {
      Account(runtimeRemaining, throttled)
    }
  }

  ghost function Accounts(qs: seq<CfsRq>): (r: seq<Account>)
    reads qs
    ensures |r| == |qs|
    ensures forall i {:trigger r[i]} {:trigger qs[i]} :: 0 <= i < |qs| ==> r[i] == qs[i].Acct()
  {
    seq(|qs|, i requires 0 <= i < |qs| reads qs => qs[i].Acct())
  }

  ghost predicate Distinct(qs: seq<CfsRq>) {
    forall i, j :: 0 <= i < j < |qs| ==> qs[i] != qs[j]
  }

  /** list_del. */
  function Without(qs: seq<CfsRq>, q: CfsRq): (r: seq<CfsRq>) {
    if qs == [] then []
    else if qs[0] == q then Without(qs[1..], q)
    else [qs[0]] + Without(qs[1..], q)
  }

  lemma {:induction false} WithoutKeepsOthers(qs: seq<CfsRq>, q: CfsRq)
    ensures forall x :: x in Without(qs, q) <==> x in qs && x != q
    ensures Distinct(qs) ==> Distinct(Without(qs, q))
  {
    if qs != [] {
      WithoutKeepsOthers(qs[1..], q);
      assert forall x :: x in qs <==> x == qs[0] || x in qs[1..];
      if Distinct(qs) {
        assert forall j :: 0 <= j < |qs[1..]| ==> qs[1..][j] == qs[j + 1];
        assert qs[0] !in qs[1..];
      }
    }
  }

  class CfsBandwidth {
    const slice: nat
    var quota: nat
    var period: nat
    var runtime: nat
    var runtimeExpires: nat
    var idle: bool
    var throttledList: seq<CfsRq>
    /** Since the last refill: what it filled in, what was handed out and returned, and what was handed out beyond that. */
    ghost var filled: nat
    ghost var handed: nat
    ghost var returned: nat
    ghost var overrun: nat

    /** Nothing is created or lost between refills but for the overrun, and the list holds the throttled queues. */
    ghost predicate Valid()
      reads this, throttledList
    {
      && runtime + handed == filled + returned + overrun
      && Distinct(throttledList)
      && forall q :: q in throttledList ==> q.throttled
    }

    constructor (slice: nat, quota: nat, period: nat)
      ensures Valid() && throttledList == [] && runtime == 0 && this.quota == quota && this.slice == slice
    {
      this.slice, this.quota, this.period := slice, quota, period;
      runtime, runtimeExpires, idle, throttledList := 0, 0, false, [];
      filled, handed, returned, overrun := 0, 0, 0, 0;
    }

    /** __refill_cfs_bandwidth_runtime. */
    method Refill(now: nat)
      requires Valid()
      modifies `runtime, `runtimeExpires, `filled, `handed, `returned, `overrun
      ensures Valid()
      ensures quota != RUNTIME_INF ==>
                runtime == quota == filled && handed == returned == overrun == 0 && runtimeExpires == now + period
      ensures quota == RUNTIME_INF ==> runtime == old(runtime) && overrun == old(overrun)
    {
      if quota == RUNTIME_INF {
        return;
      }
      runtime, runtimeExpires := quota, now + period;
      filled, handed, returned, overrun := quota, 0, 0, 0;
    }

    /** What assign_cfs_rq_runtime does under the pool's lock. */
    method TakeFromPool(want: nat) returns (amount: nat)
      requires Valid()
      modifies `runtime, `idle, `handed
      ensures Valid() && amount == Min(old(runtime), want) && runtime == old(runtime) - amount
      ensures handed == old(handed) + amount && idle == (old(idle) && old(runtime) == 0)
    {
      amount := 0;
      if runtime > 0 {
        amount := Min(runtime, want);
        runtime := runtime - amount;
        handed := handed + amount;
        idle := false;
      }
    }

    /** What __return_cfs_rq_runtime does under the pool's lock. */
    method GiveToPool(slack: nat)
      requires Valid()
      modifies `runtime, `returned
      ensures Valid() && runtime == old(runtime) + slack && returned == old(returned) + slack
    {
      runtime := runtime + slack;
      returned := returned + slack;
    }

    /** assign_cfs_rq_runtime: the queue is topped up to a slice as far as the pool allows. */
    method AssignCfsRqRuntime(q: CfsRq) returns (ok: bool)
      requires Valid() && q.runtimeRemaining <= 0
      modifies q`runtimeRemaining, q`runtimeExpires, `runtime, `idle, `handed
      ensures Valid() && ok == (q.runtimeRemaining > 0)
      ensures quota == RUNTIME_INF ==> q.runtimeRemaining == slice && runtime == old(runtime)
      ensures quota != RUNTIME_INF ==>
                q.runtimeRemaining + runtime == old(q.runtimeRemaining + runtime)
                && handed - old(handed) == old(runtime) - runtime
                && (q.runtimeRemaining == slice || (q.runtimeRemaining < slice && runtime == 0))
      ensures q.runtimeExpires == Max(old(q.runtimeExpires), runtimeExpires)
    {
      var minAmount, amount: nat := slice - q.runtimeRemaining, 0;
      if quota == RUNTIME_INF {
        amount := minAmount;
      } else {
        amount := TakeFromPool(minAmount);
      }
      q.runtimeRemaining := q.runtimeRemaining + amount;
      if runtimeExpires > q.runtimeExpires {
        q.runtimeExpires := runtimeExpires;
      }
      return q.runtimeRemaining > 0;
    }

    /** __return_cfs_rq_runtime: what exceeds the minimum goes back, unless it belongs to a period that is over. */
    method ReturnCfsRqRuntime(q: CfsRq)
      requires Valid()
      modifies q`runtimeRemaining, `runtime, `returned
      ensures Valid() && q.runtimeRemaining == Min(old(q.runtimeRemaining), MIN_CFS_RQ_RUNTIME)
      ensures runtime - old(runtime) == returned - old(returned)
           == if quota != RUNTIME_INF && q.runtimeExpires == runtimeExpires then old(q.runtimeRemaining) - q.runtimeRemaining else 0
    {
      var slack := q.runtimeRemaining - MIN_CFS_RQ_RUNTIME;
      if slack <= 0 {
        return;
      }
      if quota != RUNTIME_INF && q.runtimeExpires == runtimeExpires {
        GiveToPool(slack);
      }
      q.runtimeRemaining := q.runtimeRemaining - slack;
    }

    /** The end of throttle_cfs_rq: new throttled queues go to the head of the list. */
    method Throttle(q: CfsRq)
      requires Valid() && !q.throttled
      modifies q`throttled, `throttledList
      ensures Valid() && throttledList == [q] + old(throttledList) && q.throttled
    {
      q.throttled := true;
      throttledList := [q] + throttledList;
    }

    /** The start of unthrottle_cfs_rq. */
    method Unthrottle(q: CfsRq)
      requires Valid() && q.throttled
      modifies q`throttled, `throttledList
      ensures Valid() && throttledList == Without(old(throttledList), q) && !q.throttled
      ensures forall x :: x in throttledList <==> x in old(throttledList) && x != q
    {
      WithoutKeepsOthers(throttledList, q);
      q.throttled := false;
      throttledList := Without(throttledList, q);
    }

    /** What distribute_cfs_runtime does with one queue of the list, under the queue's lock. */
    method ServeQueue(q: CfsRq, left: nat, expires: nat) returns (rest: nat)
      requires Valid()
      modifies q, `throttledList
      ensures Valid() && q.Acct() == ServeOne(old(q.Acct()), left).0 && rest == ServeOne(old(q.Acct()), left).1
      ensures forall x :: x in throttledList <==> x in old(throttledList) && (x != q || (old(q.throttled) ==> q.throttled))
      ensures q.runtimeExpires == if old(q.throttled) then expires else old(q.runtimeExpires)
      ensures !old(q.throttled) ==> q.Acct() == old(q.Acct())
    {
      if !q.throttled {
        return left;
      }
      var runtime: nat := Min(Wanted(q.runtimeRemaining), left);
      rest := left - runtime;
      q.runtimeRemaining := q.runtimeRemaining + runtime;
      q.runtimeExpires := expires;
      if q.runtimeRemaining > 0 {
        Unthrottle(q);
      }
    }

    /** One step of the walk over the list: what is served then holds runtime that expires with the pool's. */
    method ServeAt(list: seq<CfsRq>, i: nat, left: nat, expires: nat, ghost before: seq<Account>, ghost start: nat) returns (rest: nat)
      requires Valid() && Distinct(list) && i < |list| && Partway(before, Accounts(list), i, left, start)
      requires forall q :: q in throttledList <==> q in list && q.throttled
      modifies list[i], `throttledList
      ensures Valid() && forall q :: q in throttledList <==> q in list && q.throttled
      ensures if rest == 0 then Serve(before, start) == Pass(Accounts(list), 0)
              else Partway(before, Accounts(list), i + 1, rest, start)
      ensures list[i].runtimeExpires != expires ==>
                list[i].runtimeExpires == old(list[i].runtimeExpires) && list[i].Acct() == old(list[i].Acct())
    {
      hide Serve, ServeOne, Wanted, Partway;
      ghost var now := Accounts(list);
      assert i < |before| by { PartwayLength(before, now, i, left, start); }
      PartwayStep(before, now, i, left, start);
      rest := ServeQueue(list[i], left, expires);
      assert Accounts(list) == now[i := ServeOne(now[i], left).0];
    }

    /** distribute_cfs_runtime, with no other CPU in between. */
    method Distribute(remaining: nat, expires: nat) returns (given: nat)
      requires Valid()
      modifies throttledList, `throttledList
      ensures Valid()
      ensures var pass := Serve(old(Accounts(throttledList)), remaining);
              Accounts(old(throttledList)) == pass.queues && given == remaining - pass.left
      ensures given == Total(Accounts(old(throttledList))) - Total(old(Accounts(throttledList)))
      ensures forall q :: q in throttledList <==> q in old(throttledList) && q.throttled
      ensures forall q :: q in old(throttledList) && q.runtimeExpires != expires ==> q.Acct() == old(q.Acct())
    {
      hide Serve, Partway, Total, Accounts;
      var left: nat := remaining;
      var list := throttledList;
      ghost var before := Accounts(list);
      PassConserves(before, remaining);
      PartwayStart(before, remaining);
      for i := 0 to |list|
        invariant Valid() && forall q :: q in throttledList <==> q in list && q.throttled
        invariant Partway(before, Accounts(list), i, left, remaining)
        invariant forall q :: q in list && q.runtimeExpires != expires ==> q.Acct() == old(q.Acct())
      {
        left := ServeAt(list, i, left, expires, before, remaining);
        if left == 0 {
          return remaining;
        }
      }
      PartwayEnd(before, Accounts(list), left, remaining);
      return remaining - left;
    }

    /** cfs_b->runtime -= min(given, cfs_b->runtime), once a distribution is over. */
    method Settle(given: nat)
      requires Valid()
      modifies `runtime, `handed, `overrun
      ensures Valid() && runtime == Max(0, old(runtime) - given) && handed == old(handed) + given
      ensures overrun == old(overrun) + Max(0, given - old(runtime))
    {
      handed, overrun := handed + given, overrun + Max(0, given - runtime);
      runtime := runtime - Min(given, runtime);
    }

    /** The loop of do_sched_cfs_period_timer: one pass is enough, whatever the queues owe. */
    method DistributePool()
      requires Valid() && Fits64(Accounts(throttledList))
      requires handed == returned == overrun == 0
      modifies throttledList, `throttledList, `runtime, `handed, `overrun
      ensures Valid() && (runtime == 0 || throttledList == []) && overrun == 0
      ensures forall q :: q in throttledList <==> q in old(throttledList) && q.throttled
      ensures old(runtime > 0 && throttledList != []) ==>
                var pass := Serve(old(Accounts(throttledList)), old(runtime));
                Accounts(old(throttledList)) == pass.queues && runtime == pass.left
      ensures old(runtime == 0) ==> Accounts(old(throttledList)) == old(Accounts(throttledList))
      ensures forall q :: q in old(throttledList) && q.runtimeExpires != runtimeExpires ==> q.Acct() == old(q.Acct())
      ensures runtime + Total(Accounts(old(throttledList))) == old(runtime + Total(Accounts(throttledList)))
    {
      hide Serve, Fits64, Total, Accounts;
      var throttled := throttledList != [];
      ghost var list, before, start := throttledList, Accounts(throttledList), runtime;
      while throttled && runtime > 0
        invariant Valid() && throttled == (throttledList != []) && returned == overrun == 0
        invariant forall q :: q in throttledList <==> q in list && q.throttled
        invariant if throttled && runtime > 0 then throttledList == list && Accounts(list) == before && runtime == start
                  else start > 0 && list != [] ==> Accounts(list) == Serve(before, start).queues && runtime == Serve(before, start).left
        invariant start == 0 ==> Accounts(list) == before
        invariant forall q :: q in list && q.runtimeExpires != runtimeExpires ==> q.Acct() == old(q.Acct())
        invariant runtime + Total(Accounts(list)) == start + Total(before)
        decreases throttled && runtime > 0
      {
        var given := Distribute(runtime, runtimeExpires);
        NoneLeft(list, before, start);
        throttled := throttledList != [];
        Settle(given);
      }
    }

    /** A pass with something left over leaves nothing on the list. */
    lemma NoneLeft(list: seq<CfsRq>, before: seq<Account>, start: nat)
      requires Fits64(before) && Accounts(list) == Serve(before, start).queues
      requires forall q :: q in throttledList ==> q in list && q.throttled
      ensures Serve(before, start).left > 0 ==> throttledList == []
    {
      hide Serve, Fits64;
      if throttledList != [] {
        assert throttledList[0] in list;
        var i :| 0 <= i < |list| && list[i] == throttledList[0];
        assert Accounts(list)[i].throttled;
        if Serve(before, start).left > 0 {
          LeftoverMeansAllServed(before, start);
        }
      }
    }

    /**
     * do_sched_cfs_period_timer, with no other CPU in between; true when the
     * timer is to stop. One refill either frees every queue on the list or is
     * used up, and nothing is handed out twice.
     */
    method PeriodTimer(now: nat) returns (deactivate: bool)
      requires Valid() && Fits64(Accounts(throttledList))
      modifies throttledList, `throttledList, `runtime, `runtimeExpires, `idle, `filled, `handed, `returned, `overrun
      ensures Valid()
      ensures deactivate == (quota == RUNTIME_INF || (old(idle) && old(throttledList) == []))
      ensures deactivate ==> runtime == old(runtime) && throttledList == old(throttledList)
      ensures !deactivate ==> runtime == 0 || throttledList == []
      ensures !deactivate ==> overrun == 0 && runtime + handed == quota
      ensures !deactivate ==> runtime + Total(Accounts(old(throttledList))) - Total(old(Accounts(throttledList))) == quota
      ensures !deactivate && quota > 0 ==> Accounts(old(throttledList)) == Serve(old(Accounts(throttledList)), quota).queues
      ensures !deactivate ==> forall q :: q in throttledList <==> q in old(throttledList) && q.throttled
      ensures !deactivate ==> idle == (old(throttledList) == [])
    {
      hide Serve, Fits64;
      if quota == RUNTIME_INF {
        return true;
      }
      var throttled := throttledList != [];
      if idle && !throttled {
        return true;
      }
      if !throttled {
        Refill(now);
        idle := true;
        return false;
      }
      Replenish(now);
      return false;
    }

    /**
     * do_sched_cfs_slack_timer, with no other CPU in between but perhaps a
     * refill once the distribution is over. near says that a refill is due
     * soon, and then, or with no more than a slice in the pool, nothing is
     * done. What is handed out is taken from the pool it came from: not from
     * one that has been refilled for another period since.
     */
    method SlackTimer(near: bool, refillAt: Option<nat>) returns (given: nat)
      requires Valid()
      modifies throttledList, `throttledList, `runtime, `runtimeExpires, `filled, `handed, `returned, `overrun
      ensures Valid()
      ensures given == Total(Accounts(old(throttledList))) - Total(old(Accounts(throttledList)))
      ensures var runs := !near && quota != RUNTIME_INF && old(runtime) > slice;
              if !runs then given == 0 && runtime == old(runtime) && throttledList == old(throttledList)
              else
                var pass := Serve(old(Accounts(throttledList)), old(runtime));
                var pool := if refillAt.Some? then quota else old(runtime);
                && Accounts(old(throttledList)) == pass.queues && given == old(runtime) - pass.left
                && runtimeExpires == (if refillAt.Some? then refillAt.value + period else old(runtimeExpires))
                && runtime == if runtimeExpires == old(runtimeExpires) then Max(0, pool - given) else pool
    {
      hide Serve, Total, Accounts;
      if near {
        return 0;
      }
      var amount, expires := 0, runtimeExpires;
      if quota != RUNTIME_INF && runtime > slice {
        amount := runtime;
      }
      if amount == 0 {
        return 0;
      }
      given := Distribute(amount, expires);
      match refillAt {
        case Some(now) => Refill(now);
        case None =>
      }
      if expires == runtimeExpires {
        Settle(given);
      }
    }

    /** do_sched_cfs_period_timer from the refill on, with queues throttled. */
    method Replenish(now: nat)
      requires Valid() && Fits64(Accounts(throttledList)) && throttledList != [] && quota != RUNTIME_INF
      modifies throttledList, `throttledList, `runtime, `runtimeExpires, `idle, `filled, `handed, `returned, `overrun
      ensures Valid() && !idle && (runtime == 0 || throttledList == []) && overrun == 0 && runtime + handed == quota
      ensures runtime + Total(Accounts(old(throttledList))) == quota + Total(old(Accounts(throttledList)))
      ensures quota > 0 ==> Accounts(old(throttledList)) == Serve(old(Accounts(throttledList)), quota).queues
      ensures forall q :: q in throttledList <==> q in old(throttledList) && q.throttled
    {
      hide Serve, Accounts, Fits64, Total;
      Refill(now);
      DistributePool();
      idle := false;
    }
  }
}
