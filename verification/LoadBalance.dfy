/**
 * Pulling tasks from the busiest queue: which tasks may move, how much is
 * taken, and why the retries of load_balance come to an end whatever other
 * CPUs do to the queues meanwhile.
 */
module LoadBalance {
  import opened Arithmetic

  const SCHED_NR_MIGRATE_BREAK: nat := 32

  datatype Idle = CpuIdle | CpuNotIdle | CpuNewlyIdle

  /** allowed are the CPUs the task may run on, throttledFor those a throttled group keeps it from. */
  datatype Task = Task(id: nat, load: nat, running: bool, allowed: set<nat>, throttledFor: set<nat>)

  /** What it takes for a task to be moved to a CPU at all. */
  predicate Eligible(p: Task, cpu: nat) {
    cpu in p.allowed && cpu !in p.throttledFor && !p.running
  }

  function TotalLoad(ts: seq<Task>): nat {
    if ts == [] then 0 else ts[0].load + TotalLoad(ts[1..])
  }

  /** Features and tunables. */
  datatype Config = Config(lbMin: bool, preempt: bool, nrMigrate: nat)

  class Rq {
    const cpu: nat
    var cfsTasks: seq<Task>
    var nrRunning: int

    constructor (cpu: nat)
      ensures this.cpu == cpu && cfsTasks == [] && nrRunning == 0
    {
      this.cpu, cfsTasks, nrRunning := cpu, [], 0;
    }
  }

  class LbEnv {
    const config: Config
    const idle: Idle
    /** The CPUs of the local group; none are looked at when the CPU is newly idle. */
    const dstGrpmask: set<nat>
    var dstCpu: nat
    var newDstCpu: nat
    var cpus: set<nat>
    var imbalance: int
    var loop: nat
    var loopBreak: nat
    var loopMax: nat
    var allPinned: bool
    var needBreak: bool
    var dstPinned: bool
    var somePinned: bool
    var nrBalanceFailed: nat
    var cacheNiceTries: nat
    /** What has been detached and not attached yet. */
    var tasks: seq<Task>

    constructor (config: Config, idle: Idle, thisCpu: nat, group: set<nat>, active: set<nat>)
      ensures dstCpu == thisCpu && cpus == active && loop == 0 && loopBreak == SCHED_NR_MIGRATE_BREAK && tasks == []
      ensures !allPinned && !needBreak && !dstPinned && !somePinned
      ensures this.config == config && this.idle == idle && dstGrpmask == if idle == CpuNewlyIdle then {} else group
    {
      this.config, this.idle := config, idle;
      dstGrpmask := if idle == CpuNewlyIdle then {} else group;
      dstCpu, newDstCpu, cpus, imbalance := thisCpu, 0, active, 0;
      loop, loopBreak, loopMax := 0, SCHED_NR_MIGRATE_BREAK, 0;
      allPinned, needBreak, dstPinned, somePinned := false, false, false, false;
      nrBalanceFailed, cacheNiceTries := 0, 0;
      tasks := [];
    }

    /** A CPU found to take the tasks that are pinned away from this one is really another one. */
    ghost predicate PinnedElsewhere()
      reads `dstPinned, `newDstCpu, `cpus, `dstCpu
    {
      dstPinned ==> newDstCpu in cpus && newDstCpu != dstCpu
    }

    /** can_migrate_task; hot stands for the verdict of the locality and cache heuristics. */
    method CanMigrateTask(p: Task, hot: bool) returns (ok: bool)
      requires PinnedElsewhere()
      modifies `allPinned, `somePinned, `dstPinned, `newDstCpu
      ensures PinnedElsewhere()
      ensures ok <==> Eligible(p, dstCpu) && (!hot || nrBalanceFailed > cacheNiceTries)
      ensures allPinned <==> old(allPinned) && !(dstCpu in p.allowed && dstCpu !in p.throttledFor)
      ensures old(dstPinned) ==> dstPinned && newDstCpu == old(newDstCpu)
      ensures dstPinned && !old(dstPinned) ==> newDstCpu in p.allowed && newDstCpu in dstGrpmask
      ensures !dstPinned && dstCpu !in p.allowed && dstCpu !in p.throttledFor ==> p.allowed * dstGrpmask * cpus == {}
    {
      if dstCpu in p.throttledFor {
        return false;
      }
      if dstCpu !in p.allowed {
        somePinned := true;
        if dstGrpmask == {} || dstPinned {
          return false;
        }
        var others := p.allowed * dstGrpmask * cpus;
        if others != {} {
          var cpu :| cpu in others;
          dstPinned, newDstCpu := true, cpu;
        }
        return false;
      }
      allPinned := false;
      if p.running {
        return false;
      }
      return !hot || nrBalanceFailed > cacheNiceTries;
    }

    ghost function Ctx(hot: set<Task>): Context
      reads `dstCpu, `loopMax, `nrBalanceFailed, `cacheNiceTries
    {
      Context(config, idle, dstCpu, loopMax, nrBalanceFailed, cacheNiceTries, hot)
    }

    ghost function Now(src: Rq): Moment
      reads src, `imbalance, `loop, `allPinned, `needBreak, `dstPinned, `newDstCpu, `tasks
    {
      Moment(src.cfsTasks, src.nrRunning, imbalance, loop, allPinned, needBreak, dstPinned, newDstCpu, tasks)
    }

    /** Nothing more is to be had from the source, some having been moved or none. */
    ghost predicate Exhausted(src: Rq, some: bool)
      reads src, `imbalance, `loop, `loopMax, `needBreak
    {
      || imbalance <= 0 || src.cfsTasks == [] || (idle != CpuNotIdle && src.nrRunning <= 1)
      || loop > loopMax || needBreak || (config.preempt && idle == CpuNewlyIdle && some)
    }

    /** The checks of detach_tasks before it looks at another task. */
    method MayLook(src: Rq, ghost hot: set<Task>) returns (go: bool)
      modifies `loop, `loopBreak, `needBreak
      ensures if go then MovesOn(Ctx(hot), old(Now(src)), Now(src)) else Stops(Ctx(hot), old(Now(src)), Now(src))
    {
      if idle != CpuNotIdle && src.nrRunning <= 1 {
        return false;
      }
      loop := loop + 1;
      if loop > loopMax {
        return false;
      }
      if loop > loopBreak {
        loopBreak := loopBreak + SCHED_NR_MIGRATE_BREAK;
        needBreak := true;
        return false;
      }
      return true;
    }

    /** The part of detach_tasks that deals with the first task of the list: detach it or move it to the tail. */
    method DetachFirst(src: Rq, hot: set<Task>) returns (took: bool)
      requires PinnedElsewhere() && src.cfsTasks != []
      modifies src, `imbalance, `allPinned, `dstPinned, `somePinned, `newDstCpu, `tasks
      ensures PinnedElsewhere()
      ensures if took then Takes(Ctx(hot), old(Now(src)), Now(src)) else Passes(Ctx(hot), old(Now(src)), Now(src))
    {
      var p := src.cfsTasks[0];
      var ok := CanMigrateTask(p, p in hot);
      if !ok || (config.lbMin && p.load < 16 && nrBalanceFailed == 0) || p.load / 2 > imbalance {
        src.cfsTasks := src.cfsTasks[1..] + [p];
        return false;
      }
      src.cfsTasks := src.cfsTasks[1..];
      src.nrRunning := src.nrRunning - 1;
      tasks := [p] + tasks;
      imbalance := imbalance - p.load;
      return true;
    }

    /**
     * detach_tasks; hot are the tasks that the locality and cache heuristics
     * would rather leave where they are, taken the detached tasks, the latest
     * first, and passed those that stayed when looked at.
     */
    method DetachTasks(src: Rq, hot: set<Task>) returns (detached: nat, ghost taken: seq<Task>, ghost passed: seq<Task>)
      requires PinnedElsewhere()
      modifies src, `imbalance, `loop, `loopBreak, `allPinned, `needBreak, `dstPinned, `somePinned, `newDstCpu, `tasks
      ensures PinnedElsewhere() && detached == |taken|
      ensures Detached(Ctx(hot), old(Now(src)), Now(src), taken, passed)
      ensures Finished(Ctx(hot), old(Now(src)), Now(src), detached)
    {
      hide Detached, Finished, MovesOn, Stops, Takes, Passes, PinnedElsewhere;
      detached, taken, passed := 0, [], [];
      ghost var start := Now(src);
      NothingDetached(Ctx(hot), start);
      if imbalance <= 0 {
        return;
      }
      while src.cfsTasks != []
        invariant PinnedElsewhere() && imbalance > 0 && detached == |taken|
        invariant Detached(Ctx(hot), start, Now(src), taken, passed) && Underway(start, Now(src), taken, passed)
        invariant config.preempt && idle == CpuNewlyIdle ==> detached == 0
        decreases loopMax - loop
      {
        ghost var before := Now(src);
        var go := MayLook(src, hot);
        if !go {
          AfterStop(Ctx(hot), start, before, Now(src), taken, passed);
          return;
        }
        ghost var looking := Now(src);
        var took := DetachFirst(src, hot);
        if !took {
          AfterPass(Ctx(hot), start, before, looking, Now(src), taken, passed);
          passed := passed + [before.cfs[0]];
          continue;
        }
        AfterTake(Ctx(hot), start, before, looking, Now(src), taken, passed);
        taken, detached := [before.cfs[0]] + taken, detached + 1;
        if config.preempt && idle == CpuNewlyIdle {
          break;
        }
        if imbalance <= 0 {
          break;
        }
      }
      AtTheEnd(Ctx(hot), start, Now(src), detached);
    }

    /** attach_tasks: what has been detached arrives at the destination. */
    method AttachTasks()
      modifies `tasks
      ensures tasks == []
    {
      tasks := [];
    }
  }

  // ---------------------------------------------------- detach_tasks as values

  /** What does not change while tasks are detached. */
  datatype Context = Context(config: Config, idle: Idle, cpu: nat, loopMax: nat, failed: nat, tries: nat, hot: set<Task>)

  /** What detach_tasks works on, at one moment. */
  datatype Moment = Moment(
    cfs: seq<Task>, running: int, imbalance: int, loop: nat,
    allPinned: bool, needBreak: bool, dstPinned: bool, newDst: nat, tasks: seq<Task>)

  ghost predicate MovesOn(c: Context, a: Moment, b: Moment) {
    b == a.(loop := a.loop + 1) && b.loop <= c.loopMax && (c.idle != CpuNotIdle ==> a.running > 1)
  }

  ghost predicate Stops(c: Context, a: Moment, b: Moment) {
    if c.idle != CpuNotIdle && a.running <= 1 then b == a
    else if a.loop + 1 > c.loopMax then b == a.(loop := a.loop + 1)
    else b == a.(loop := a.loop + 1, needBreak := true)
  }

  /** The flags a look at the first task may change. */
  ghost predicate FlagsAfter(a: Moment, b: Moment) {
    && (a.dstPinned ==> b.dstPinned && b.newDst == a.newDst) && (b.allPinned ==> a.allPinned)
    && b.loop == a.loop && b.needBreak == a.needBreak
  }

  ghost predicate Takes(c: Context, a: Moment, b: Moment) {
    && a.cfs != [] && !Refused(c, a.cfs[0], a.imbalance) && FlagsAfter(a, b) && !b.allPinned
    && b.cfs == a.cfs[1..] && b.running == a.running - 1 && b.imbalance == a.imbalance - a.cfs[0].load
    && b.tasks == [a.cfs[0]] + a.tasks
  }

  ghost predicate Passes(c: Context, a: Moment, b: Moment) {
    && a.cfs != [] && Refused(c, a.cfs[0], a.imbalance) && FlagsAfter(a, b)
    && b.cfs == a.cfs[1..] + [a.cfs[0]] && b.running == a.running && b.imbalance == a.imbalance && b.tasks == a.tasks
  }

  /** Exactly when a task that is looked at stays: it may not move, is spared, or is too heavy. */
  ghost predicate Refused(c: Context, t: Task, imbalance: int) {
    !Eligible(t, c.cpu) || Spared(c, t) || t.load / 2 > imbalance
  }

  /** Balancing has not failed often enough yet for a task that is hot, or that light. */
  ghost predicate Spared(c: Context, t: Task) {
    (t in c.hot && c.failed <= c.tries) || (c.config.lbMin && t.load < 16 && c.failed == 0)
  }

  /** Why detach_tasks looks at no more tasks. */
  ghost predicate Finished(c: Context, a: Moment, b: Moment, detached: nat) {
    || b.imbalance <= 0 || b.cfs == [] || (c.idle != CpuNotIdle && b.running <= 1)
    || b.loop > c.loopMax || (b.needBreak && a.loop < b.loop) || (c.config.preempt && c.idle == CpuNewlyIdle && detached == 1)
  }

  /** All that detach_tasks keeps between moments a and b. */
  ghost predicate Detached(c: Context, a: Moment, b: Moment, taken: seq<Task>, passed: seq<Task>) {
    // the source list and the detached tasks partition what there was
    && Pulled(a.cfs, b.cfs, taken, c.cpu, a.imbalance - b.imbalance) && b.tasks == taken + a.tasks
    // every task looked at was taken, or had a reason to stay
    && b.loop - a.loop - 1 <= |taken| + |passed| <= b.loop - a.loop
    && (forall t :: t in passed ==> Refused(c, t, b.imbalance))
    && (forall t :: t in taken ==> !Spared(c, t) && t.load / 2 <= a.imbalance)
    // the imbalance pays for what is taken, and is overdrawn at most once
    && (if a.imbalance > 0 then -a.imbalance - 1 <= b.imbalance <= a.imbalance else taken == [])
    && (taken == [] ==> b.imbalance == a.imbalance)
    // an idle CPU leaves the source something to run
    && b.running == a.running - |taken| && (c.idle != CpuNotIdle && a.running > 0 ==> b.running > 0)
    && (c.config.preempt && c.idle == CpuNewlyIdle ==> |taken| <= 1)
    // what the retries depend on
    && (b.needBreak && !a.needBreak ==> a.loop < b.loop <= c.loopMax)
    && (a.dstPinned ==> b.dstPinned && b.newDst == a.newDst) && (b.dstPinned && !a.dstPinned ==> a.imbalance > 0)
    && (b.allPinned ==> a.allPinned && taken == [])
  }

  /** In the middle of the loop. */
  ghost predicate Underway(a: Moment, b: Moment, taken: seq<Task>, passed: seq<Task>) {
    b.loop - a.loop == |taken| + |passed| && b.needBreak == a.needBreak
  }

  lemma NothingDetached(c: Context, a: Moment)
    ensures Detached(c, a, a, [], []) && Underway(a, a, [], [])
    ensures a.imbalance <= 0 ==> Finished(c, a, a, 0)
  {
  }

  lemma AtTheEnd(c: Context, a: Moment, b: Moment, detached: nat)
    requires b.imbalance <= 0 || b.cfs == [] || (c.config.preempt && c.idle == CpuNewlyIdle && detached == 1)
    ensures Finished(c, a, b, detached)
  {
  }

  lemma AfterStop(c: Context, a: Moment, b: Moment, d: Moment, taken: seq<Task>, passed: seq<Task>)
    requires Detached(c, a, b, taken, passed) && Underway(a, b, taken, passed) && Stops(c, b, d)
    ensures Detached(c, a, d, taken, passed) && Finished(c, a, d, |taken|)
  {
  }

  lemma AfterPass(c: Context, a: Moment, b: Moment, b': Moment, d: Moment, taken: seq<Task>, passed: seq<Task>)
    requires Detached(c, a, b, taken, passed) && Underway(a, b, taken, passed) && MovesOn(c, b, b') && Passes(c, b', d)
    requires a.imbalance > 0
    ensures Detached(c, a, d, taken, passed + [b.cfs[0]]) && Underway(a, d, taken, passed + [b.cfs[0]])
    ensures b.loop < d.loop <= c.loopMax && d.imbalance == b.imbalance
  {
    hide Pulled, Spared;
    PulledSkip(a.cfs, b.cfs, taken, c.cpu, a.imbalance - b.imbalance);
  }

  lemma AfterTake(c: Context, a: Moment, b: Moment, b': Moment, d: Moment, taken: seq<Task>, passed: seq<Task>)
    requires Detached(c, a, b, taken, passed) && Underway(a, b, taken, passed) && MovesOn(c, b, b') && Takes(c, b', d)
    requires a.imbalance > 0 && b.imbalance > 0 && (c.config.preempt && c.idle == CpuNewlyIdle ==> taken == [])
    ensures Detached(c, a, d, [b.cfs[0]] + taken, passed) && Underway(a, d, [b.cfs[0]] + taken, passed)
    ensures b.loop < d.loop <= c.loopMax
  {
    hide Pulled, Spared;
    PulledTake(a.cfs, b.cfs, taken, c.cpu, a.imbalance - b.imbalance);
    assert [b.cfs[0]] + taken + a.tasks == [b.cfs[0]] + (taken + a.tasks);
  }

  /** What every retry makes smaller: CPUs still considered, and whether this CPU is one of them. */
  function Retries(cpus: set<nat>, dst: nat): nat {
    2 * |cpus| + if dst in cpus then 0 else 1
  }

  lemma RetriesFall(cpus: set<nat>, dst: nat, gone: nat, next: nat)
    ensures gone in cpus ==> Retries(cpus - {gone}, dst) < Retries(cpus, dst)
    ensures Retries(cpus - {gone}, dst) <= Retries(cpus, dst)
    ensures gone == dst && next in cpus && next != dst ==> Retries(cpus - {dst}, next) < Retries(cpus, dst)
  {
    if gone in cpus {
      assert cpus == cpus - {gone} + {gone};
    } else {
      assert cpus - {gone} == cpus;
    }
  }

  /** A task and the CPU it was moved to. */
  datatype Move = Move(task: Task, cpu: nat)

  function Moves(ts: seq<Task>, cpu: nat): seq<Move> {
    if ts == [] then [] else [Move(ts[0], cpu)] + Moves(ts[1..], cpu)
  }

  function LoadMoved(ms: seq<Move>): nat {
    if ms == [] then 0 else ms[0].task.load + LoadMoved(ms[1..])
  }

  /** Every task went where it may run. */
  ghost predicate Allowed(ms: seq<Move>) {
    forall m :: m in ms ==> Eligible(m.task, m.cpu)
  }

  lemma {:induction false} MoreMoves(ts: seq<Task>, cpu: nat, ms: seq<Move>)
    requires Allowed(ms) && forall t :: t in ts ==> Eligible(t, cpu)
    ensures var all := Moves(ts, cpu) + ms;
            Allowed(all) && |all| == |ts| + |ms| && LoadMoved(all) == TotalLoad(ts) + LoadMoved(ms)
  {
    var all := Moves(ts, cpu) + ms;
    if ts == [] {
      assert all == ms;
    } else {
      MoreMoves(ts[1..], cpu, ms);
      assert all[1..] == Moves(ts[1..], cpu) + ms;
      assert forall m :: m in all <==> m == all[0] || m in all[1..];
    }
  }

  lemma PulledMoves(was: seq<Task>, left: seq<Task>, taken: seq<Task>, cpu: nat, load: int, ms: seq<Move>)
    requires Pulled(was, left, taken, cpu, load) && Allowed(ms)
    ensures var all := Moves(taken, cpu) + ms;
            Allowed(all) && |all| == |taken| + |ms| && LoadMoved(all) == load + LoadMoved(ms)
  {
    MoreMoves(taken, cpu, ms);
  }

  /**
   * The retries of load_balance. Other CPUs may change the queues between any
   * two locked sections, and what the statistics say is arbitrary; the loops
   * end all the same. Whatever the number of passes, every task moved may run
   * where it went, and their loads together are at most twice the imbalance
   * that was to be moved, and one more.
   */
  method LoadBalance(env: LbEnv, rqs: map<nat, Rq>) returns (ldMoved: nat, ghost asked: int, ghost moved: seq<Move>)
    requires env.cpus <= rqs.Keys && forall c :: c in rqs ==> rqs[c].cpu == c
    requires !env.allPinned && !env.needBreak && !env.dstPinned && env.loop == 0 && env.tasks == []
    modifies env, rqs.Values
    ensures env.cpus <= old(env.cpus) && env.tasks == []
    ensures Allowed(moved) && ldMoved == |moved| && LoadMoved(moved) == asked - env.imbalance
    ensures LoadMoved(moved) <= Max(0, 2 * asked + 1)
    ensures env.dstCpu != old(env.dstCpu) ==> env.dstCpu in old(env.cpus) && old(env.dstCpu) !in env.cpus
  {
    hide Retries, Allowed, Accounted;
    NothingMoved();
    ldMoved, asked, moved := 0, env.imbalance, [];
    while true
      invariant env.cpus <= old(env.cpus) && env.tasks == [] && ldMoved == 0 && moved == []
      invariant !env.needBreak && !env.dstPinned && asked == env.imbalance
      invariant env.dstCpu != old(env.dstCpu) ==> env.dstCpu in old(env.cpus) && old(env.dstCpu) !in env.cpus
      decreases Retries(env.cpus, env.dstCpu)
    {
      var candidates := env.cpus - {env.dstCpu};
      var found: bool := *;
      if !found || candidates == {} {
        return;
      }
      var busiest :| busiest in candidates;
      env.imbalance := *;
      asked := env.imbalance;
      var redo;
      ldMoved, moved, redo := TrySource(env, rqs[busiest], busiest, asked);
      if !redo {
        return;
      }
    }
  }

  /** load_balance from the choice of a busiest queue to the question whether to look for another one. */
  method TrySource(env: LbEnv, src: Rq, busiest: nat, ghost asked: int) returns (ldMoved: nat, ghost moved: seq<Move>, redo: bool)
    requires !env.needBreak && !env.dstPinned && asked == env.imbalance && env.tasks == [] && busiest in env.cpus
    modifies env, src
    ensures env.cpus <= old(env.cpus) && env.tasks == []
    ensures Allowed(moved) && ldMoved == |moved| && LoadMoved(moved) == asked - env.imbalance <= Max(0, 2 * asked + 1)
    ensures redo ==> moved == [] && !env.needBreak && !env.dstPinned && Retries(env.cpus, env.dstCpu) < old(Retries(env.cpus, env.dstCpu))
    ensures env.dstCpu == old(env.dstCpu) || (env.dstCpu in old(env.cpus) && old(env.dstCpu) !in env.cpus)
    // it gives up on this source because there is nothing more to be had, or all of it is pinned
    ensures if redo then env.allPinned && busiest !in env.cpus else src.nrRunning <= 1 || env.Exhausted(src, moved != [])
  {
    hide Retries, Allowed, Accounted;
    NothingMoved();
    ldMoved, moved, redo := 0, [], false;
    ghost var cpus, dst := env.cpus, env.dstCpu;
    src.nrRunning := *;
    if src.nrRunning > 1 {
      env.allPinned := true;
      env.loopMax := Min(env.config.nrMigrate, src.nrRunning);
      ldMoved, moved := MoveTasks(env, src, asked);
      AccountedFacts(asked, env.imbalance, env.allPinned, env.dstPinned, moved);
      if env.allPinned {
        RetriesFall(cpus, dst, busiest, dst);
        RetriesFall(env.cpus, env.dstCpu, busiest, env.dstCpu);
        env.cpus := env.cpus - {busiest};
        if env.cpus != {} {
          env.loop := 0;
          env.loopBreak := SCHED_NR_MIGRATE_BREAK;
          redo := true;
        }
      }
    }
  }

  lemma NothingMoved()
    ensures Allowed([]) && LoadMoved([]) == 0
  {
  }

  /** What has been moved so far is paid for by the imbalance there was. */
  ghost predicate Accounted(asked: int, imbalance: int, allPinned: bool, dstPinned: bool, ms: seq<Move>) {
    && Allowed(ms) && LoadMoved(ms) == asked - imbalance
    && (if asked > 0 then -asked - 1 <= imbalance <= asked else ms == [] && !dstPinned)
    && (ms == [] || !allPinned) && (imbalance == asked || ms != [])
  }

  lemma NothingAccounted(asked: int, allPinned: bool)
    ensures Accounted(asked, asked, allPinned, false, [])
  {
  }

  lemma MoreAccounted(c: Context, a: Moment, b: Moment, taken: seq<Task>, passed: seq<Task>, asked: int, ms: seq<Move>)
    requires Detached(c, a, b, taken, passed) && Accounted(asked, a.imbalance, a.allPinned, a.dstPinned, ms)
    ensures var all := Moves(taken, c.cpu) + ms;
            Accounted(asked, b.imbalance, b.allPinned, b.dstPinned, all) && |all| == |taken| + |ms|
            && (taken != [] ==> all != [])
    ensures b.needBreak && !a.needBreak ==> a.loop < b.loop <= c.loopMax
    ensures b.tasks == taken + a.tasks
  {
    PulledMoves(a.cfs, b.cfs, taken, c.cpu, a.imbalance - b.imbalance, ms);
  }

  /** One locked section of load_balance; other CPUs have had the lock since the last one. */
  method Pull(env: LbEnv, src: Rq, ghost asked: int, ghost ms: seq<Move>) returns (n: nat, ghost all: seq<Move>)
    requires env.PinnedElsewhere() && !env.needBreak && env.tasks == []
    requires Accounted(asked, env.imbalance, env.allPinned, env.dstPinned, ms)
    modifies src, env`imbalance, env`loop, env`loopBreak, env`allPinned, env`needBreak, env`dstPinned, env`somePinned, env`newDstCpu, env`tasks
    ensures env.PinnedElsewhere() && env.tasks == []
    ensures Accounted(asked, env.imbalance, env.allPinned, env.dstPinned, all) && |all| == |ms| + n
    ensures env.needBreak ==> old(env.loop) < env.loop <= env.loopMax
    ensures env.Exhausted(src, all != [])
  {
    hide Accounted, Detached;
    src.cfsTasks, src.nrRunning := *, *;
    var hot: set<Task> := *;
    ghost var before := env.Now(src);
    ghost var taken, passed;
    n, taken, passed := env.DetachTasks(src, hot);
    MoreAccounted(env.Ctx(hot), before, env.Now(src), taken, passed, asked, ms);
    all := Moves(taken, env.dstCpu) + ms;
    if n > 0 {
      env.AttachTasks();
    }
  }

  /** The part of load_balance from more_balance on, for one source queue. */
  method MoveTasks(env: LbEnv, src: Rq, ghost asked: int) returns (ldMoved: nat, ghost moved: seq<Move>)
    requires !env.needBreak && !env.dstPinned && asked == env.imbalance && env.tasks == [] && env.allPinned
    modifies env, src
    ensures env.cpus <= old(env.cpus) && env.tasks == [] && !env.needBreak
    ensures Accounted(asked, env.imbalance, env.allPinned, env.dstPinned, moved) && ldMoved == |moved|
    // it goes on as long as it may on this source
    ensures env.Exhausted(src, moved != []) && (env.dstPinned ==> env.imbalance <= 0)
    ensures (env.cpus == old(env.cpus) && env.dstCpu == old(env.dstCpu)) ||
            (Retries(env.cpus, env.dstCpu) < old(Retries(env.cpus, env.dstCpu))
             && env.dstCpu in old(env.cpus) && old(env.dstCpu) !in env.cpus)
  {
    hide Retries, Accounted;
    NothingAccounted(asked, env.allPinned);
    ldMoved, moved := 0, [];
    while true
      invariant !env.needBreak && env.PinnedElsewhere() && env.tasks == []
      invariant env.cpus <= old(env.cpus)
      invariant (env.cpus == old(env.cpus) && env.dstCpu == old(env.dstCpu)) ||
                (Retries(env.cpus, env.dstCpu) < old(Retries(env.cpus, env.dstCpu))
                 && env.dstCpu in old(env.cpus) && old(env.dstCpu) !in env.cpus)
      invariant Accounted(asked, env.imbalance, env.allPinned, env.dstPinned, moved) && ldMoved == |moved|
      decreases Retries(env.cpus, env.dstCpu), env.loopMax - env.loop
    {
      var curLdMoved;
      curLdMoved, moved := Pull(env, src, asked, moved);
      ldMoved := ldMoved + curLdMoved;
      if env.needBreak {
        env.needBreak := false;
        continue;
      }
      if env.dstPinned && env.imbalance > 0 {
        RetriesFall(env.cpus, env.dstCpu, env.dstCpu, env.newDstCpu);
        Unpinned(asked, env.imbalance, env.allPinned, moved);
        env.cpus := env.cpus - {env.dstCpu};
        env.dstCpu := env.newDstCpu;
        env.dstPinned := false;
        env.loop := 0;
        env.loopBreak := SCHED_NR_MIGRATE_BREAK;
        continue;
      }
      break;
    }
  }

  lemma Unpinned(asked: int, imbalance: int, allPinned: bool, ms: seq<Move>)
    requires Accounted(asked, imbalance, allPinned, true, ms)
    ensures Accounted(asked, imbalance, allPinned, false, ms)
  {
  }

  /** With everything pinned nothing has been moved. */
  lemma AccountedFacts(asked: int, imbalance: int, allPinned: bool, dstPinned: bool, ms: seq<Move>)
    requires Accounted(asked, imbalance, allPinned, dstPinned, ms)
    ensures Allowed(ms) && LoadMoved(ms) == asked - imbalance <= Max(0, 2 * asked + 1)
    ensures allPinned ==> ms == [] && imbalance == asked
    ensures dstPinned ==> asked > 0
  {
  }

  /**
   * The source list and what was taken partition the list there was; only
   * tasks that may move to the CPU were taken, load in all.
   */
  ghost predicate Pulled(was: seq<Task>, left: seq<Task>, taken: seq<Task>, cpu: nat, load: int) {
    && multiset(left) + multiset(taken) == multiset(was)
    && (forall t :: t in taken ==> Eligible(t, cpu))
    && TotalLoad(taken) == load
  }

  lemma PulledSkip(was: seq<Task>, left: seq<Task>, taken: seq<Task>, cpu: nat, load: int)
    requires left != [] && Pulled(was, left, taken, cpu, load)
    ensures Pulled(was, left[1..] + [left[0]], taken, cpu, load)
  {
    assert left == [left[0]] + left[1..];
  }

  lemma PulledTake(was: seq<Task>, left: seq<Task>, taken: seq<Task>, cpu: nat, load: int)
    requires left != [] && Pulled(was, left, taken, cpu, load) && Eligible(left[0], cpu)
    ensures Pulled(was, left[1..], [left[0]] + taken, cpu, load + left[0].load)
  {
    assert left == [left[0]] + left[1..];
    assert ([left[0]] + taken)[1..] == taken;
  }
}
