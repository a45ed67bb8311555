# The mSchedutil scheduler and governor in Dafny

A model of the CFS scheduler of mSchedutil, with its memory-cycle extension,
and of the mSchedutil frequency governor, and proofs of what they keep. `dafny
verify dfyconfig.toml` checks everything.

## What is modelled

* **Run queue hierarchy** (`RunQueueTree`, `HierarchyWalk`, `HierarchyGrowth`,
  `RunnableCount`, `FairScheduler`). One CPU's tree of `cfs_rq` and
  `sched_entity` objects and the walks that enqueue and dequeue tasks and
  throttle and unthrottle queues, loop by loop. `Rq.Sound` says that the
  objects form a tree and that load weights and entity counts are right;
  `Rq.St` reads the objects into a value on which `Valid` is defined: a group
  entity is queued iff its own queue is non-empty and not throttled, every
  `h_nr_running` is the sum of what is queued, and the CPU's total is the
  root's. Between two levels of a walk a state is not valid; `PendingUp`,
  `Raising`, `PendingDown` and `Lowering` say exactly what is still owed to the
  levels above. `RunnableCount` gives the counters a meaning that does not
  mention the walks.
* **Picking and switching** (`Timeline`, `Switch`). The rb-tree is an ordered
  sequence; the search for a place may split it anywhere, so every tree shape is
  covered. Virtual runtimes wrap around and lie in a window of 2^63.
* **Load tracking** (`Decay`, `LoadAverage`, `LoadTracking`, `UtilSplit`,
  `MemoryRatio`, `Roots`, `Contributions`, `LoadRuns`). The decay tables and
  shifts, bracketed by true powers of one half; `__update_load_avg` field by
  field with its 32-bit arithmetic; the split of utilisation into core and
  memory time; where runs at full speed lead; and the memory-cycle ratio with
  its clamp.
* **Slices** (`Slices`). Division by a cached inverse, its range, and the sum of
  all slices through a hierarchy.
* **Bandwidth** (`RuntimeDistribution`, `Bandwidth`, `BandwidthRace`,
  `ThrottleClock`). Runtime
  moving between the pool and the queues, with a ledger of what was handed out,
  returned and overrun since the last refill; the same with other CPUs using the
  pool and the queues between any two steps of a distribution; and the clock that
  stops for throttled hierarchies.
* **Lists and shared sums** (`LeafList`, `NumaGroups`, `TaskGroupLoad`,
  `LoadBalance`). The leaf list built bottom up, NUMA fault totals of groups, the
  differential group load in every interleaving, and the retry loops of load
  balancing.
* **Governor** (`GovernorFormula`, `Governor`). The memory-aware frequency
  formula and the commit, irq_work and kthread handshake with its rate limits.

`Arithmetic` and `Sums` hold the facts about products, quotients, powers,
shifts and finite sums that the rest relies on, `Common` what several modules
share.

Methods follow the code's loops and branches and are proved against functions
on values; the lemmas are about those functions. Where the code calls into
something outside the model the result is arbitrary: which tasks the locality
and cache heuristics find hot, the statistics that choose a busiest queue, the runtime a
queue has after accounting, the share of a group's weight in the hierarchy walks
(any value from MIN_SHARES on, which `TaskGroupLoad.TaskGroup.CalcCfsShares`
shows to be the range). Clock readings, PMU counters and the driver's resolved
frequencies are parameters.

## What turned out not to hold

* The bound of `util_sum` by LOAD_AVG_MAX times the capacity is not kept by every
  update (`LoadTracking.NominalMaximumExceeded` is a run of two updates). It is
  kept exactly by updates that span at most 344 whole periods, or so many that
  nothing of a full sum is left (`LoadTracking.NominalMaximumKeptIff`). Every
  ceiling from 47770 in place of 47742 on is kept (`LoadAverage.SlowBoundary`).
* From 345 periods on LOAD_AVG_MAX is returned for a contribution, which is more
  than 344 periods and one more add up to; until then contributions are what the
  periods add up to (`Contributions.ContribGrowsIff`).
* The memory-cycle ratio is cut to 32 bits before the clamp, so more stalls can
  lower it (`MemoryRatio.EstimateWraps`), exactly for rates that wrap
  (`MemoryRatio.EstimateMonotoneIff`), which takes more stalls than cycles
  (`MemoryRatio.PlausibleCountersDoNotWrap`).
* A distribution leaves a fully served queue at exactly one unit of runtime only
  if it had no more before (`RuntimeDistribution.ServedToOneIff`): otherwise the
  unsigned amount wraps and the queue takes everything there is.
* The inverse-based scaling exceeds the true fraction for queues heavier than
  2^32 (`Slices.NeverOverestimatesIff`).
* An enqueue walk cut short by a throttled queue leaves the leaf list out of
  order (`LeafList.CutShort`) exactly if that queue is not the root and its
  parent was not listed before the walk (`LeafList.Rq.EnqueueWalk`).
* A rise that the up delay holds back does not come after the delay either as
  long as the raw frequency stays (`Governor.HeldBackRiseIsLost`): once the
  delays have passed an update commits exactly if the raw frequency has changed
  and the driver would answer with another one
  (`Governor.SugovPolicy.CommitsIffRawChanged`).
* A rise that new limits force waits for the down delay only, so it can come
  before the up delay has passed (`Governor.ForcedRiseComesEarly`); if the down
  delay is the longer one it cannot (`Governor.SpacingOfChanges`).
* On a single-CPU policy a busy CPU does not carry out a change that new limits
  force, because forgetting the frequency makes every other one look like a fall
  (`Governor.SugovPolicy.UpdateSingle`).
* The comment at `fair.c:4452-4459` describes the exception it introduces the
  other way round from its condition; that call is not part of this model.

## Model

| member | source | states |
|---|---|---|
| `FairScheduler.Rq.EnqueueTaskFair` | mSchedutil/kernel/sched/fair.c:5525-5577 | Both loops, with a throttle nested in the first: from any valid hierarchy to a valid one in which exactly this task has become runnable; of the queues that were not throttled, throttled are exactly those that woke up limited, with nothing running and no runtime left |
| `FairScheduler.Rq.CountUp` | mSchedutil/kernel/sched/fair.c:5564-5577 | The second loop alone: from where the first stopped, only counters change, and all of them agree with the tree again |
| `FairScheduler.Rq.DequeueTaskFair` | mSchedutil/kernel/sched/fair.c:5632-5684 | Both loops: a valid hierarchy stays valid, exactly this task stops being runnable, no queue changes its throttled state |
| `FairScheduler.Rq.CountDown` | mSchedutil/kernel/sched/fair.c:5671-5684 | The second loop of the dequeue, likewise |
| `FairScheduler.Rq.ThrottleCfsRq` | mSchedutil/kernel/sched/fair.c:4905-4957 | On an entity that is off its queue nothing but the mark changes; otherwise validity is kept, the runnable tasks stay, and exactly this queue becomes throttled |
| `FairScheduler.Rq.UnthrottleCfsRq` | mSchedutil/kernel/sched/fair.c:4959-5004 | Validity is kept, the runnable tasks stay, this queue is no longer throttled, no other one is released, and of those above, throttled are exactly the ones that woke up limited, with nothing running and no runtime left |
| `FairScheduler.Rq.QueueUp` | mSchedutil/kernel/sched/fair.c:5544-5562 | The first loop of the enqueue: it ends at an entity that was queued already, at a queue that is throttled or at the top, with exactly one runnable task more and exactly the due queues throttled |
| `FairScheduler.Rq.EnqueueLevel` | mSchedutil/kernel/sched/fair.c:4991-4995 | One level of either walk that queues entities: the entity's queue is throttled exactly if it wakes up due for it |
| `FairScheduler.Rq.CheckEnqueueThrottle` | mSchedutil/kernel/sched/fair.c:5235-5252 | A queue is throttled when it wakes up iff it is limited, nothing of it runs and it has no runtime left; otherwise nothing changes |
| `FairScheduler.Rq.CheckCfsRqRuntime` | mSchedutil/kernel/sched/fair.c:5272-5289 | Reports true iff the queue is limited and out of runtime, and then it is throttled, in a hierarchy that stays valid |
| `FairScheduler.Rq.EnqueueEntity` | mSchedutil/kernel/sched/fair.c:4305-4356 | The entity is queued and accounted; a queue that wakes up is throttled at once iff it is limited, nothing of it runs and no runtime is left, and no other queue's mark changes |
| `FairScheduler.Rq.DequeueEntity` | mSchedutil/kernel/sched/fair.c:4409-4463 | The entity is taken off and its weight and count leave the queue's |
| `FairScheduler.Rq.Insert` | mSchedutil/kernel/sched/fair.c:2849-2863 | Queueing keeps load.weight the sum of the queued weights and nr_running their number |
| `FairScheduler.Rq.Remove` | mSchedutil/kernel/sched/fair.c:2866-2878 | Taking off keeps load.weight the sum of the queued weights and nr_running their number |
| `FairScheduler.Rq.ReweightEntity` | mSchedutil/kernel/sched/fair.c:2917-2931 | The weight is set, and the queue's load changes by the difference iff the entity is queued; the count and everything else stay |
| `FairScheduler.Rq.ReturnCfsRqRuntime` | mSchedutil/kernel/sched/fair.c:5186-5195 | A limited queue that has run empty keeps at most the minimum runtime; others keep theirs |
| `FairScheduler.Rq.AddTask` | mSchedutil/kernel/sched/fair.c:11347-11353 | A task on an existing queue extends a valid hierarchy to a valid one |
| `FairScheduler.Rq.InitTgCfsEntry` | mSchedutil/kernel/sched/fair.c:11480-11509 | A group's entity and its empty queue extend a valid hierarchy to a valid one and count for nothing |
| `FairScheduler.Rq.Occupied` | mSchedutil/kernel/sched/fair.c:4931-4932 | The test of load.weight against zero in the walks asks exactly whether something is queued, because no entity weighs nothing |
| `HierarchyWalk.Climb` | mSchedutil/kernel/sched/fair.c:5564-5573 | One step up: raising h_nr_running either meets a throttled queue and everything agrees, or leaves exactly the parent to be told |
| `HierarchyWalk.Descend` | mSchedutil/kernel/sched/fair.c:5671-5680 | One step up while lowering: either everything agrees or exactly the parent counts too many |
| `HierarchyWalk.ThrottleSettles` | mSchedutil/kernel/sched/fair.c:4938 | Marking the queue throttled restores the one link that taking its entity off had broken |
| `HierarchyWalk.UnthrottleOpens` | mSchedutil/kernel/sched/fair.c:4969-4984 | Lifting the mark leaves a valid state iff the queue is empty, as the early return assumes; otherwise exactly its count is pending above |
| `RunnableCount.CountsRunnable` | mSchedutil/kernel/sched/fair.c:4929-4933 | h_nr_running of every queue is the number of runnable tasks below it that no throttled queue on the way hides |
| `RunnableCount.TotalCountsRunnable` | mSchedutil/kernel/sched/fair.c:5576-5577 | The CFS part of rq->nr_running is the number of runnable tasks that no throttled queue hides |
| `RunnableCount.OccupiedIffRunnable` | mSchedutil/kernel/sched/fair.c:4981-4982 | A queue has something queued iff some runnable task counts for it |
| `RunnableCount.Determined` | mSchedutil/kernel/sched/fair.c:4905-5004 | A valid state is determined by the tree, the runnable tasks and the throttled queues, whatever run led to it: so undoing an operation restores every counter and every on_rq flag |
| `Timeline.CfsRq.EnqueueEntity` | mSchedutil/kernel/sched/fair.c:703-737 | Whatever the shape of the search tree, the entity lands after all it is not before, and the cached leftmost stays the minimum |
| `Timeline.CfsRq.DequeueEntity` | mSchedutil/kernel/sched/fair.c:739-749 | Exactly this entity leaves and the cached leftmost stays the minimum |
| `Timeline.RemovedInserted` | mSchedutil/kernel/sched/fair.c:703-749 | Dequeueing undoes enqueueing |
| `Timeline.BeforeInWindow` | mSchedutil/kernel/sched/fair.c:662-666 | Within a window of 2^63 the wrapping comparison is the order of the distances from the window's start |
| `Timeline.CurrOutsideChangesNothing` | mSchedutil/kernel/sched/fair.c:4550-4599 | pick_next_entity with curr held outside picks what it would pick with curr put back, for all ties, buddies and empty timelines |
| `Timeline.CfsRq.PickNextEntity` | mSchedutil/kernel/sched/fair.c:4550-4596 | The imperative choice in its own order of checks meets the declarative one: next before last before the second before the leftmost, each only if fair; what that means for the buddies is stated by the keys; whoever is picked is nobody's buddy on this queue any more and other buddies stay |
| `Timeline.PickIsPreferred` | mSchedutil/kernel/sched/fair.c:4543-4594 | In terms of the entities there are and their keys: the next buddy if it is ahead of the leftmost by no more than that one's granularity, otherwise such a last buddy, otherwise the first of the others if the leftmost is to be skipped and any other is that near, otherwise the leftmost |
| `Timeline.WakeupPreemptInWindow` | mSchedutil/kernel/sched/fair.c:8046-8058 | wakeup_preempt_entity compares the distance of the keys with nothing and with the granularity |
| `Timeline.LeftmostIsFirst` | mSchedutil/kernel/sched/fair.c:4553-4563 | The entity the choice starts from has the smallest virtual runtime of timeline and curr |
| `Timeline.PickIsFair` | mSchedutil/kernel/sched/fair.c:4550-4594 | Whoever is picked is ahead of any other entity by at most the wakeup granularity of the leftmost one |
| `Timeline.CfsRq.UpdateMinVruntime` | mSchedutil/kernel/sched/fair.c:668-698 | min_vruntime never goes back, does not pass any queued or running entity when it moves, and follows the smallest one as soon as that is ahead |
| `Timeline.CfsRq.Rebase` | mSchedutil/kernel/sched/fair.c:662-666 | The window of 2^63 may move along with virtual time as long as everything, min_vruntime included, lies in it |
| `Switch.Rq.SwitchTo` | mSchedutil/kernel/sched/fair.c:8233-8252 | The depth-guided walk ends at the sibling pair and leaves the queues as putting back all of prev's chain and setting all of next's from the root would |
| `Switch.Rq.PickNextTaskFair` | mSchedutil/kernel/sched/fair.c:8197-8253 | The fast path picks the task, and leaves the queues, that the simple path would: put back the whole chain, pick from the root down, set the whole chain; with groups that wait non-empty it finds a task iff the root queue has something runnable |
| `Switch.PutAndSetAgain` | mSchedutil/kernel/sched/fair.c:8312-8321 | Putting back a running, runnable chain and setting it again changes nothing: what the fast path saves |
| `Switch.Meet` | mSchedutil/kernel/sched/fair.c:8250-8251 | For siblings the full switch reduces to one put and one set |
| `Switch.PickDownSame` | mSchedutil/kernel/sched/fair.c:8197-8224 | Picking from the root down finds the same task before and after the chain has been put back |
| `Switch.TaskFound` | mSchedutil/kernel/sched/fair.c:8197-8224 | Going down from a queue finds a task iff something in it is runnable, when waiting groups are non-empty |
| `LoadTracking.SchedAvg.Update` | mSchedutil/kernel/sched/fair.c:3137-3434 | The imperative update equals the functional one in every field, and reports whether a period boundary was crossed |
| `LoadTracking.SumsNeverWrap` | mSchedutil/kernel/sched/fair.c:3137-3434 | Over every run with scales within their ranges the slow and fast utilisation sums are exactly what unbounded arithmetic makes them, and so are the core and memory sums with pemt on throughout |
| `LoadTracking.SumsBoundedAlways` | mSchedutil/kernel/sched/fair.c:3137-3434 | Over every run period_contrib < 1024 and util_sum <= (47770 + period_contrib) * scale_cpu, with like bounds for the fast and split signals, all below 2^32 |
| `LoadTracking.UpdateBounded` | mSchedutil/kernel/sched/fair.c:3137-3434 | One update keeps that bound |
| `LoadTracking.RolloverBounded` | mSchedutil/kernel/sched/fair.c:3307-3375 | Crossing a period boundary keeps it, also after 345 and more periods |
| `LoadTracking.NominalMaximumExceeded` | mSchedutil/kernel/sched/fair.c:3137-3434 | From an entity's initial state a run of two updates ends above LOAD_AVG_MAX * capacity |
| `LoadTracking.NominalMaximumKeptIff` | mSchedutil/kernel/sched/fair.c:3137-3434 | For given times and phase, every update keeps util_sum <= (LOAD_AVG_MAX + period_contrib) * scale_cpu iff it spans at most 344 whole periods or so many that nothing of a full sum is left |
| `LoadAverage.NominalBoundaryIff` | mSchedutil/kernel/sched/fair.c:3070-3084 | LOAD_AVG_MAX is kept across a boundary, for every sum, exactly under that condition |
| `LoadAverage.SlowBoundary` | mSchedutil/kernel/sched/fair.c:3070-3084 | Decaying a sum at a ceiling and adding the contribution of the periods in between stays within the ceiling, for every ceiling from 47770 on, and from LOAD_AVG_MAX on for gaps of up to 344 periods |
| `LoadAverage.FastBoundary` | mSchedutil/kernel/sched/fair.c:3086-3105 | The same for the fast signal, whose contribution is rolled up in a loop |
| `LoadAverage.ComputeRunnableContribFast` | mSchedutil/kernel/sched/fair.c:3086-3105 | The loop computes the recursively defined contribution |
| `LoadAverage.AfterLongGap` | mSchedutil/kernel/sched/fair.c:3077-3084 | After 345 and more periods what is left of a full sum fits what a ceiling from 47770 on exceeds LOAD_AVG_MAX by |
| `Decay.DecayNeverOverestimates` | mSchedutil/kernel/sched/fair.c:3007-3033 | decay_load(v,n)^32 * 2^n <= v^32 for all v and n |
| `Decay.FastDecayNeverOverestimates` | mSchedutil/kernel/sched/fair.c:3035-3061 | decay_fast_load(v,n)^3 * 2^n <= v^3 for all v and n |
| `Decay.DecayHardlyUnderestimates` | mSchedutil/kernel/sched/fair.c:3007-3033 | v^32 <= (decay_load(v,n) + 3)^32 * 2^n for every v below 2^32 and all n, with two units more for each 2^32 beyond |
| `Decay.FastDecayHardlyUnderestimates` | mSchedutil/kernel/sched/fair.c:3035-3061 | v^3 <= (decay_fast_load(v,n) + 3)^3 * 2^n likewise |
| `Decay.SlowRootOf` | mSchedutil/kernel/sched/fair.c:2966-2974 | Every entry of the table is at most 2^32 * y^i with y^32 = 1/2, and two units more exceed it |
| `Decay.FastRootAt` | mSchedutil/kernel/sched/fair.c:2985-2987 | Every entry of the fast table is at most 2^32 * y^i with y^3 = 1/2, and two units more exceed it |
| `Contributions.DecayByOne` | mSchedutil/kernel/sched/fair.c:3007-3033 | Decaying by one more period is decaying once more, to within two units |
| `Contributions.FastDecayByOne` | mSchedutil/kernel/sched/fair.c:3035-3061 | The fast decay likewise |
| `Contributions.RowsAddUp` | mSchedutil/kernel/sched/fair.c:2976-2983 | Every entry of the table of sums is what the entry before and a full period decay to, exactly |
| `Contributions.FastRowsAddUp` | mSchedutil/kernel/sched/fair.c:2989-2991 | The fast table likewise |
| `Contributions.HalvingsAddUp` | mSchedutil/kernel/sched/fair.c:2993-3001 | Every accumulated sum is half of the one before and 32 periods more, exactly |
| `Contributions.ContribGrowsIff` | mSchedutil/kernel/sched/fair.c:3070-3084 | n + 1 periods contribute what the contribution of n and one full period decay to, up to three units, iff n + 1 < 345 |
| `Contributions.FastContribGrowsIff` | mSchedutil/kernel/sched/fair.c:3086-3105 | The fast contribution likewise, iff n + 1 < 31 |
| `Contributions.FloorKept` | mSchedutil/kernel/sched/fair.c:3007-3084 | A sum of 46482 per unit of capacity, fed at full speed, has two units to spare after any number of periods |
| `LoadRuns.AveragesFollowSums` | mSchedutil/kernel/sched/fair.c:3398-3416 | avg * LOAD_AVG_MAX <= sum < (avg + 1) * LOAD_AVG_MAX for every signal after an update that crosses a boundary, with LOAD_AVG_FAST_MAX for the fast ones; other updates leave the averages alone, and without pemt the split signals too |
| `LoadRuns.FullSpeedReachesFloor` | mSchedutil/kernel/sched/fair.c:3137-3434 | Whatever came before, a task that runs at full frequency throughout has util_sum >= (46482 + period_contrib) * scale_cpu and util_avg at 97 percent of its capacity after every run in which 834 updates cross a boundary |
| `LoadRuns.LongRunShowsAll` | mSchedutil/kernel/sched/fair.c:3137-3434 | A single update over 345 whole periods at full frequency brings util_avg to at least scale_cpu |
| `LoadRuns.LoadFollowsUtil` | mSchedutil/kernel/sched/fair.c:3137-3434 | Over every run of a task that runs throughout, scale_cpu * load_sum and weight * util_sum differ by at most 94 times the larger factor |
| `LoadRuns.LoadBoundedAlways` | mSchedutil/kernel/sched/fair.c:3284-3358 | Over every run load_sum <= (47770 + period_contrib) * weight for the largest weight, so it never wraps at 64 bits |
| `LoadRuns.NeverStalledIsAllCore` | mSchedutil/kernel/sched/fair.c:3292-3416 | Over every run with ratio 0 the core signal is the utilisation signal in all its fields and the memory signal is zero |
| `LoadRuns.AlwaysStalledIsAllMemory` | mSchedutil/kernel/sched/fair.c:3292-3416 | Over every run with ratio 1024, at any frequencies, the memory signal is the utilisation signal of the same run at full frequency and the core signal is zero |
| `LoadRuns.TimeIsAccounted` | mSchedutil/kernel/sched/fair.c:3270-3396 | The old phase and the elapsed time are the new phase and a period for every boundary crossed |
| `LoadRuns.UnitsAreParts` | mSchedutil/kernel/sched/fair.c:3283-3308 | Time counts by frequency and capacity, its core part by what the ratio leaves, its memory part by the ratio and not the frequency, each to within a rounding |
| `Decay.DecayMonotone` | mSchedutil/kernel/sched/fair.c:3007-3061 | Both decays are monotone in the value |
| `Decay.DecaySum` | mSchedutil/kernel/sched/fair.c:3007-3033 | Decaying two parts never gives more than decaying the whole, and at most two units less |
| `Decay.FastDecaySum` | mSchedutil/kernel/sched/fair.c:3035-3061 | The fast decay likewise |
| `Decay.DecayAntitone` | mSchedutil/kernel/sched/fair.c:3007-3061 | More time never decays to more, also across the boundary where the value is shifted |
| `UtilSplit.SplitWithinFullSpeed` | mSchedutil/kernel/sched/fair.c:3292-3416 | Over every run core_util_sum + memory_util_sum stays within the util_sum that the same run has at full frequency |
| `UtilSplit.SplitAveragesAtFullSpeed` | mSchedutil/kernel/sched/fair.c:3292-3416 | At full frequency, from zero, util_avg - 3 <= core_util_avg + memory_util_avg <= util_avg after every run |
| `UtilSplit.UpdateClose` | mSchedutil/kernel/sched/fair.c:3292-3416 | One update keeps the sums' gap below a fixed ceiling and the averages within three |
| `MemoryRatio.Estimate` | mSchedutil/kernel/sched/fair.c:162-177 | The memory-cycle ratio, cut to 32 bits before it is clamped, never exceeds 1024 |
| `MemoryRatio.EstimateIsRate` | mSchedutil/kernel/sched/fair.c:162-177 | Unless the rate exceeds 32 bits, the ratio is 1426 backend and 415 frontend stalls per cycle and 2395 mispredictions per instruction, less 213, to within three units and the clamp |
| `MemoryRatio.EstimateMonotone` | mSchedutil/kernel/sched/fair.c:162-177 | More stalls or mispredictions in the same cycles and instructions never lower a ratio that does not wrap |
| `MemoryRatio.EstimateMonotoneIff` | mSchedutil/kernel/sched/fair.c:162-177 | No fewer stalls give a higher ratio than given counters, iff the rate of the given counters does not wrap into the range below the clamp |
| `MemoryRatio.EstimateWraps` | mSchedutil/kernel/sched/fair.c:162-177 | A pair of counters a single stall apart for which the ratio falls from 1024 to 465 |
| `MemoryRatio.PlausibleCountersDoNotWrap` | mSchedutil/kernel/sched/fair.c:162-177 | With no more stalls than cycles and no more mispredictions than instructions nothing wraps |
| `MemoryRatio.RecordEntityRatio` | mSchedutil/kernel/sched/fair.c:3178-3213 | A task records its estimate, a group the ratio of what runs at the bottom of its hierarchy; every ratio stays clamped |
| `MemoryRatio.RecordQueueRatio` | mSchedutil/kernel/sched/fair.c:3214-3226 | A queue copies the ratio of what it runs; every ratio stays clamped |
| `MemoryRatio.RunningRatioClamped` | mSchedutil/kernel/sched/fair.c:3194-3213 | What is copied up the entity tree stays within the clamp |
| `Slices.LoadWeight.UpdateInvWeight` | mSchedutil/kernel/sched/fair.c:358-373 | The cached inverse is 0 or right at all times, and right afterwards: inv * w <= 2^32 - 1 < (inv + 1) * w for a scaled-down weight w within its range, 2^32 - 1 for none and 1 beyond |
| `Slices.LoadWeight.CalcDelta` | mSchedutil/kernel/sched/fair.c:387-412 | The two shift loops compute delta * factor >> shift for the trimmed factor |
| `Slices.NeverOverestimatesIff` | mSchedutil/kernel/sched/fair.c:387-412 | For every delta and every weight an entity may have the result is at most delta * weight / load, iff the load is at most 2^32 |
| `Slices.HeavyQueueOverestimates` | mSchedutil/kernel/sched/fair.c:387-412 | Beyond that the heaviest entity, of weight 2^18, gets more than its part of 2^14 units |
| `Slices.HardlyUnderestimates` | mSchedutil/kernel/sched/fair.c:387-412 | For every 32-bit weight, a result that fits 64 bits misses delta * weight / load by less than one unit, a part load / 2^32 of it, and what the cut of the factor costs |
| `Slices.ShareHardlyUnderestimated` | mSchedutil/kernel/sched/fair.c:387-412 | For a weight within its queue's, delta * weight * (2^32 - load) < (result + 1) * load * 2^32 |
| `Slices.PeriodLeavesGranularity` | mSchedutil/kernel/sched/fair.c:829-836 | With sched_nr_latency the rounded quotient of the tunables, the period is the latency or as many granularities as there are tasks, no less than the former and less than one granularity short of the latter |
| `Slices.ShiftStays` | mSchedutil/kernel/sched/fair.c:375-386 | shift stays 32 when the weight is within the queue's |
| `Slices.ShiftForNiceZero` | mSchedutil/kernel/sched/fair.c:375-386 | shift is at least 22 for NICE_0_LOAD, whatever the queue weighs |
| `Slices.ShiftDefined` | mSchedutil/kernel/sched/fair.c:375-412 | shift never turns negative for a 32-bit weight or one within its queue's |
| `Slices.SchedSlice` | mSchedutil/kernel/sched/fair.c:843-863 | The walk up computes the share of the share, counting an entity that is not queued yet towards the load |
| `Slices.ShareSuperadditive` | mSchedutil/kernel/sched/fair.c:387-412 | Sharing out two parts never gives more than sharing out the whole |
| `Slices.SlicesFitPeriod` | mSchedutil/kernel/sched/fair.c:843-863 | Through any depth of hierarchy the slices of all tasks together fit the period they are computed from |
| `Bandwidth.CfsBandwidth.AssignCfsRqRuntime` | mSchedutil/kernel/sched/fair.c:4751-4785 | What the queue gains the pool loses, the queue ends with a slice or the pool with nothing, and success means runtime is left; the runtime then expires with the pool's unless the queue was ahead |
| `Bandwidth.CfsBandwidth.ServeQueue` | mSchedutil/kernel/sched/fair.c:5019-5032 | One queue of the list gets what it wants or what is left, which then expires with the pool's, and leaves the list iff it has runtime again |
| `Bandwidth.CfsBandwidth.ReturnCfsRqRuntime` | mSchedutil/kernel/sched/fair.c:5162-5184 | The queue keeps at most the minimum; the rest reaches the pool iff it belongs to the current period |
| `Bandwidth.CfsBandwidth.Refill` | mSchedutil/kernel/sched/fair.c:4724-4735 | A new period starts the ledger afresh with the quota |
| `Bandwidth.CfsBandwidth.Distribute` | mSchedutil/kernel/sched/fair.c:5006-5043 | One pass over the list with no interference has the effect of the functional pass, returns exactly what the queues gained, leaves listed exactly the queues still throttled, and dates what it gave |
| `RuntimeDistribution.PassConserves` | mSchedutil/kernel/sched/fair.c:5006-5043 | What leaves the amount to distribute arrives at the queues, whatever they had |
| `RuntimeDistribution.ServedInOrder` | mSchedutil/kernel/sched/fair.c:5006-5043 | If the queues owe runtime, a head of the list ends with exactly 1 and unthrottled, at most one queue gets a part, the rest is untouched |
| `RuntimeDistribution.LeftoverMeansAllServed` | mSchedutil/kernel/sched/fair.c:5006-5043 | If anything is left no queue on the list is throttled, whatever the queues had |
| `RuntimeDistribution.ServedToOneIff` | mSchedutil/kernel/sched/fair.c:5019-5030 | A fully served queue ends with exactly 1 iff it had at most 1: with more, the unsigned amount wraps and it takes everything |
| `Bandwidth.CfsBandwidth.DistributePool` | mSchedutil/kernel/sched/fair.c:5090-5102 | The timer's loop terminates with the pool at 0 or no queue throttled, after one pass |
| `Bandwidth.CfsBandwidth.PeriodTimer` | mSchedutil/kernel/sched/fair.c:5051-5115 | Without interference the pool and what the queues gained add up to the quota, and the pool is empty or nothing is throttled |
| `Bandwidth.CfsBandwidth.SlackTimer` | mSchedutil/kernel/sched/fair.c:5201-5228 | It distributes only from more than a slice and with no refill near, returns exactly what the queues gained, and takes that from the pool iff the pool has not been refilled for another period since |
| `BandwidthRace.Distribute` | mSchedutil/kernel/sched/fair.c:5006-5043 | The pass with arbitrary operations of other CPUs between any two queues it comes by, in any order and some of them again: pool and queues together grow by exactly what is given, but for what is used up or expires; without interference it is the functional pass |
| `BandwidthRace.Round` | mSchedutil/kernel/sched/fair.c:5090-5102 | One round in a race: pool and queues together lose only what is used up or expires and gain only the overrun, which is at most the pool at the start of the round and at most what other CPUs took, and leaves the pool at 0 |
| `BandwidthRace.Rounds` | mSchedutil/kernel/sched/fair.c:5090-5102 | Over all rounds of the loop only the last can overrun: the overrun is at most what the pool had and was given back, at most what was handed out, and leaves the pool at 0 |
| `BandwidthRace.Apply` | mSchedutil/kernel/sched/fair.c:4751-4785 | Assigning, returning, using up, throttling and releasing keep pool and queues together but for what is used up or expires |
| `ThrottleClock.Rq.Throttle` | mSchedutil/kernel/sched/fair.c:4892-4903 | throttle_count of every group stays the number of throttled queues among itself and its ancestors, and no clock jumps |
| `ThrottleClock.Rq.Unthrottle` | mSchedutil/kernel/sched/fair.c:4877-4889 | throttle_count stays that number, and no clock jumps, when a queue is released |
| `ThrottleClock.Rq.Create` | mSchedutil/kernel/sched/fair.c:5254-5269 | A new group takes over its parent's count and its clock starts at the task clock |
| `ThrottleClock.Rq.Tick` | mSchedutil/kernel/sched/fair.c:4742-4748 | Each clock advances exactly with the task clock while nothing above holds it back and not at all otherwise: every reading is its start plus the time it was not held back |
| `ThrottleClock.Rq.WalkDown` | mSchedutil/kernel/sched/fair.c:4917 | The walk visits exactly the groups from this one down |
| `ThrottleClock.ThrottlersChange` | mSchedutil/kernel/sched/fair.c:4877-4903 | Throttling a queue changes the number for exactly the groups from it down, by one |
| `LeafList.Rq.ListAdd` | mSchedutil/kernel/sched/fair.c:457-517 | One insertion either connects the branch, and the list is in order, or prolongs it with its last queue waiting for its parent |
| `LeafList.Rq.EnqueueWalk` | mSchedutil/kernel/sched/fair.c:5544-5562 | Where the walk stops, what it lists and counts follow from the state before; the list is back in order iff the queue where it stops is the root or had its parent listed before, which always holds unless that queue is throttled |
| `LeafList.CutShort` | mSchedutil/kernel/sched/fair.c:5544-5562 | A run in which a throttled queue is listed without its parent |
| `LeafList.Rq.Destroy` | mSchedutil/kernel/sched/fair.c:11455-11478 | Deleting a childless, empty group keeps the order |
| `LeafList.ChildrenFirst` | mSchedutil/kernel/sched/fair.c:8907-8922 | Going through the list meets every queue before its parent |
| `LeafList.Connect` | mSchedutil/kernel/sched/fair.c:471-486 | A branch joins its tree in order once the parent of its last queue follows |
| `NumaGroups.NumaBalancing.TaskNumaGroup` | mSchedutil/kernel/sched/fair.c:2435-2540 | Group figures stay the sums over members, nr_tasks and refcount the member count; the task joins exactly if the other group is larger, or as large and at a higher address, and the faults are genuinely shared; whether they look private is reported exactly when the comparison gets that far |
| `NumaGroups.NumaBalancing.TaskNumaPlacement` | mSchedutil/kernel/sched/fair.c:2343-2406 | Decay and buffers reach the task and its group alike, so sums are kept; the node found has most faults |
| `NumaGroups.NumaBalancing.TaskNumaFree` | mSchedutil/kernel/sched/fair.c:2542-2563 | An exiting task takes its figures out of its group; a group it leaves empty is freed, any other has one member less |
| `NumaGroups.NumaBalancing.Fault` | mSchedutil/kernel/sched/fair.c:2635-2636 | Faults are counted in the task's buffers, which no group sums |
| `NumaGroups.SumChanges` | mSchedutil/kernel/sched/fair.c:2519-2524 | Changing one task changes every group's sum by what the task adds to it before and after |
| `NumaGroups.PlacedAt` | mSchedutil/kernel/sched/fair.c:2350-2377 | Every slot of an online node decays exactly once from what it was, others stay |
| `NumaGroups.GroupTotalled` | mSchedutil/kernel/sched/fair.c:2379-2390 | total_faults of a group is the sum of its memory faults, as total_numa_faults of every task is of its own |
| `NumaGroups.SharesAreParts` | mSchedutil/kernel/sched/fair.c:2363-2373 | The normalised CPU faults are the task's CPU weight times the faults over local faults and one, but for less than one unit each, and within that weight together |
| `NumaGroups.CountsMembers` | mSchedutil/kernel/sched/fair.c:2526-2534 | nr_tasks and refcount are the number of members |
| `NumaGroups.Slots` | mSchedutil/kernel/sched/fair.c:1417-1420 | The four regions follow each other at intervals of two per node, so the group's CPU region lies where the task's does |
| `LoadBalance.LbEnv.CanMigrateTask` | mSchedutil/kernel/sched/fair.c:8629-8699 | A task may move iff it is allowed, not held back by throttling, not running and not hot unless tries have failed; an alternative CPU noted is still considered and another one; all-pinned is kept only by tasks that could not run here |
| `LoadBalance.LbEnv.DetachTasks` | mSchedutil/kernel/sched/fair.c:8758-8839 | Source list and detached tasks partition the original; a task looked at stays exactly if it may not move, is hot or too light while balancing has not failed often enough, or is too heavy; it stops only for one of the code's reasons; the imbalance is overdrawn at most once, an idle CPU never takes the last task, and a break is asked for only after progress |
| `LoadBalance.MoveTasks` | mSchedutil/kernel/sched/fair.c:10212-10286 | The more_balance loop terminates whatever other CPUs do to the queue; every task moved may run where it went, their loads are what the imbalance shrank by, at most twice the imbalance plus one; and it goes on until the source is exhausted |
| `LoadBalance.TrySource` | mSchedutil/kernel/sched/fair.c:10205-10308 | A source is given up because it has nothing more to give, and another one looked for exactly when all of it is pinned |
| `LoadBalance.LoadBalance` | mSchedutil/kernel/sched/fair.c:10179-10308 | The redo loop terminates whatever other CPUs do, by a measure of CPUs left and whether the destination is one of them; the tasks moved in all may run where they went and weigh at most twice the last imbalance plus one |
| `LoadBalance.RetriesFall` | mSchedutil/kernel/sched/fair.c:10270-10303 | Dropping a considered CPU, or moving on to a considered one, lowers that measure |
| `TaskGroupLoad.TaskGroup.AddDifference` | mSchedutil/kernel/sched/fair.c:3487-3499 | The first half of the update, after which other CPUs may run: the group's load stays the sum of contributions and differences owed, and this CPU is within a 64th |
| `TaskGroupLoad.TaskGroup.StoreContribution` | mSchedutil/kernel/sched/fair.c:3498-3499 | The second half keeps the sum |
| `TaskGroupLoad.SumOfContributions` | mSchedutil/kernel/sched/fair.c:3497-3500 | With nothing in flight the group's load equals the sum of the stored contributions |
| `TaskGroupLoad.WithinA64th` | mSchedutil/kernel/sched/fair.c:3473-3500 | In every interleaving, once each CPU has updated, the group's load is within a 64th of the true sum |
| `TaskGroupLoad.TaskGroup.CalcCfsShares` | mSchedutil/kernel/sched/fair.c:2882-2909 | The weight divided by is at least the queue's load, and the result lies between MIN_SHARES and the group's shares and is the part of them that the load is of that weight, less than one unit short |
| `TaskGroupLoad.PartBetween` | mSchedutil/kernel/sched/fair.c:2899-2908 | shares * load < (result + 1) * weight, and result * weight <= shares * load unless it is the minimum |
| `TaskGroupLoad.OthersContribute` | mSchedutil/kernel/sched/fair.c:2893-2897 | Taking a CPU's own contribution out never leaves a negative rest |
| `TaskGroupLoad.SharesFit` | mSchedutil/kernel/sched/fair.c:2893-2908 | When loads are what was contributed, the shares of all CPUs together exceed the group's by at most MIN_SHARES and miss at most one unit for each CPU |
| `GovernorFormula.FrequencyMeetsDemand` | mSchedutil/kernel/sched/cpufreq_schedutil.c:333-364 | Unsaturated, f*(M-t) <= F'*c < (f+1)*(M-t) + F'*(M-t)/M: the core time stretched to f just fills what memory leaves |
| `GovernorFormula.SaturatedRunsFlatOut` | mSchedutil/kernel/sched/cpufreq_schedutil.c:333-364 | Otherwise the top frequency with its margin is asked for |
| `GovernorFormula.RealTimeAdds` | mSchedutil/kernel/sched/cpufreq_schedutil.c:331-362 | Real-time load comes on top of what the CPU needs without it, up to the capacity, with and without the memory-aware choice |
| `GovernorFormula.PlainFrequency` | mSchedutil/kernel/sched/cpufreq_schedutil.c:330-331 | Without the memory-aware choice f * M <= F' * (util + rt) < (f + 1) * M, and the top frequency is asked for iff util + rt reaches the capacity |
| `GovernorFormula.MarginAdds` | mSchedutil/kernel/sched/cpufreq_schedutil.c:274-275 | The margin adds its 1024ths, rounded down |
| `GovernorFormula.FrequencyMonotone` | mSchedutil/kernel/sched/cpufreq_schedutil.c:274-281 | More core, memory or real-time load never lowers the frequency, across the saturation point too |
| `GovernorFormula.FrequencyFits` | mSchedutil/kernel/sched/cpufreq_schedutil.c:274-281 | Below UINT_MAX / 2 neither the 64-bit product nor the 32-bit result wraps |
| `GovernorFormula.NoMemoryTime` | mSchedutil/kernel/sched/cpufreq_schedutil.c:333-364 | Without memory time the formula is the core utilisation itself |
| `Governor.SugovPolicy.ShouldUpdateFreq` | mSchedutil/kernel/sched/cpufreq_schedutil.c:151-171 | No update while a change is on its way; new limits force one and make the governor forget its frequency; otherwise the shorter delay must have passed |
| `Governor.SugovPolicy.UpdateCommit` | mSchedutil/kernel/sched/cpufreq_schedutil.c:192-222 | A change is committed iff it differs and has waited, and then is the one change in flight |
| `Governor.SugovPolicy.GetNextFreq` | mSchedutil/kernel/sched/cpufreq_schedutil.c:248-289 | The answer differs from the driver's iff the raw frequency is that of the last time and the frequency in force, still known, is another one |
| `Governor.SugovPolicy.UpdateShared` | mSchedutil/kernel/sched/cpufreq_schedutil.c:552-587 | A change is committed iff none is in flight, new limits or the shorter delay allow an attempt, and the frequency chosen differs and has waited; the whole new state follows |
| `Governor.SugovPolicy.UpdateSingle` | mSchedutil/kernel/sched/cpufreq_schedutil.c:429-463 | The same for a single CPU, where a busy CPU never slows down, and does not carry out new limits either |
| `Governor.SugovPolicy.Work` | mSchedutil/kernel/sched/cpufreq_schedutil.c:594-601 | The driver is asked for exactly the committed frequency, in order |
| `Governor.SugovPolicy.WorkDone` | mSchedutil/kernel/sched/cpufreq_schedutil.c:603 | Only then may the next change come |
| `Governor.SpacingOfChanges` | mSchedutil/kernel/sched/cpufreq_schedutil.c:173-190 | Falls come at least the down delay after the change before, rises the up delay, or the down delay if forced; always the up delay if it is the shorter |
| `Governor.ChangesTakeTime` | mSchedutil/kernel/sched/cpufreq_schedutil.c:151-190 | k changes take at least k times the shorter delay |
| `Governor.ForcedRiseComesEarly` | mSchedutil/kernel/sched/cpufreq_schedutil.c:158-166 | Whenever the down delay is the shorter one, a run in which new limits make a rise come before the up delay has passed |
| `Governor.HeldBackRiseIsLost` | mSchedutil/kernel/sched/cpufreq_schedutil.c:197-203 | A run in which the up delay holds a rise back, after which updates with the same utilisation are due but none ever commits it |
| `Governor.SugovPolicy.CommitsIffRawChanged` | mSchedutil/kernel/sched/cpufreq_schedutil.c:283-288 | With both delays passed and the frequency in force known, an update commits iff the driver's answer differs from it and the raw frequency has changed as well |

## Left out

- Task weights: the scaling_sum and scaling_avg signals of CONFIG_TASK_WEIGHT follow the same arithmetic as utilisation.
- Runnable load: runnable_load_sum and runnable_load_avg, which are the load signal of what is queued.
- Propagation: attach_entity_load_avg, propagate_entity_load_avg and the removed averages; the average of a queue is not claimed to be the sum of its entities'.
- Perf mode: the capacity margin computed from the core and memory averages when perf mode is on.
- Real-time and boost inputs: the rt average is a parameter and iowait boosting, WALT and SchedTune are not modelled.
- Fast switch: cpufreq_driver_fast_switch is stubbed out in the code, so only the path through irq_work and kthread exists.
- Concurrency of the governor: each method is one step under the update lock; sugov_limits may come between any two of them.
- Red-black tree: colouring and rotation; the tree is an ordered sequence split at arbitrary places.
- FairScheduler.Rq.ReturnCfsRqRuntime: does not model the pool's side, which Bandwidth.CfsBandwidth.ReturnCfsRqRuntime does.
- Timeline.CfsRq.PickNextEntity: clears buddies on its own queue only, where the code goes on upwards.
- BandwidthRace.Round: does not model a second timer distributing at the same time, or a refill in the middle of a round.
- Governor.SugovPolicy.Limits: does not model cpufreq_policy_apply_limits, through which the driver is asked for frequencies that are not committed.
- Virtual runtime placement: place_entity, check_spread and the charging of time by update_curr.
- Buddies across levels: clear_buddies walks up the hierarchy; Switch keeps the buddies it finds.
- Throttling while picking: check_cfs_rq_runtime inside pick_next_task_fair, after which the code takes the simple path; FairScheduler.Rq.CheckCfsRqRuntime covers it on the hierarchy.
- Runtime expiry: expire_cfs_rq_runtime; expiry times are unbounded naturals and runtime_remaining an unbounded integer, where the code has 64 bits.
- Timers: hrtimers and start_cfs_bandwidth; when a timer runs, and whether a refill is near, is arbitrary.
- FairScheduler.Rq.UpdateCfsShares: does not say which share is chosen, only that counts and loads stay right; shares are computed in TaskGroupLoad.
- FairScheduler.Rq.EnqueueEntity: does not model virtual runtime or the leaf list, which have modules of their own.
- LeafList.Rq.EnqueueWalk: numbers stand for queues and the list is a sequence; RCU and list pointers are not modelled.
- LoadBalance.LbEnv.DetachTasks: which tasks are hot does not change while the source's lock is held.
- LoadBalance.LoadBalance: ends where the retries end; active balancing, failure counters and balancing intervals afterwards are left out, and group statistics are arbitrary.
- NumaGroups.NumaBalancing: tasks and groups are values in maps, not objects, so that sums over members stay tractable; the steps of joining a group are not interleaved with other CPUs.
- NumaGroups.NumaBalancing.TaskNumaPlacement: does not model the preferred node of a group, active node counts or scan periods.
- TaskGroupLoad.TaskGroup.ChangeLoad: the load of a CPU is an arbitrary new value, not tied to LoadTracking.
- ThrottleClock.Rq: groups are not destroyed, and walk_tg_tree_from visits groups in the order of their numbers.
- Slices.SchedSlice: takes the entities from the task up to the root as a sequence; sched_vslice is not modelled.
- Switch.Rq: a queue's contents are values in a map, so aliasing of queue objects is not captured.
- Wakeup placement, energy awareness, NUMA migration scoring and idle CPU selection: policy without a crisp specification.
- PMU access, tracing, sysfs, module code and workloads: hardware and I/O.
