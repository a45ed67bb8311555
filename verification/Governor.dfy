/**
 * The schedutil governor of one frequency domain: deciding on a change,
 * committing it, and handing it through the irq_work to the kthread that asks
 * the driver for it.
 */
module Governor {
  import opened Arithmetic
  import opened GovernorFormula

  const UINT_MAX: nat := TWO32 - 1

  /** (s64)(now - then) of two 64-bit clock readings. */
  function Delta(now: nat, then': nat): (d: int)
    ensures d < TWO63
    ensures now < TWO63 && then' < TWO63 ==> d == now - then'
  {
    var x := (now - then') % TWO64;
    if x < TWO63 then x else x - TWO64
  }

  /** Where a committed change is on its way to the driver. */
  datatype Stage = Idle | IrqQueued | WorkQueued | Applied

  /** A committed change: before is next_freq up to then, up and down the delays in force. */
  datatype Commit = Commit(time: nat, freq: nat, before: nat, up: nat, down: nat)

  /** When the previous change was committed; a governor that has not changed anything started at 0. */
  function LastTime(log: seq<Commit>): nat {
    if |log| == 0 then 0 else log[|log| - 1].time
  }

  /** What a commit had to wait for: a rise the up delay, anything else the down delay. */
  ghost predicate Waited(log: seq<Commit>, c: Commit) {
    && c.freq != c.before
    && (c.before == UINT_MAX || (|log| > 0 && c.before == log[|log| - 1].freq))
    && Delta(c.time, LastTime(log)) >= if c.freq > c.before then c.up else c.down
  }

  ghost predicate Spaced(log: seq<Commit>) {
    forall i :: 0 <= i < |log| ==> log[i].freq <= UINT_MAX && Waited(log[..i], log[i])
  }

  lemma SpacedMore(log: seq<Commit>, c: Commit)
    requires Spaced(log) && Waited(log, c) && c.freq <= UINT_MAX
    ensures Spaced(log + [c])
  {
    var more := log + [c];
    forall i | 0 <= i < |more|
      ensures more[i].freq <= UINT_MAX && Waited(more[..i], more[i])
    {
      assert more[..i] == if i < |log| then log[..i] else log;
    }
  }

  /**
   * A fall comes no sooner than the down delay after the change before it. A
   * rise comes no sooner than the up delay, or, when new limits forced it,
   * no sooner than the down delay.
   */
  lemma SpacingOfChanges(log: seq<Commit>, i: nat)
    requires Spaced(log) && 0 < i < |log|
    ensures var gap := Delta(log[i].time, log[i - 1].time);
            && (log[i].freq <= log[i - 1].freq ==> gap >= log[i].down)
            && (log[i].freq > log[i - 1].freq ==> gap >= log[i].up || (log[i].before == UINT_MAX && gap >= log[i].down))
            && (log[i].freq > log[i - 1].freq && log[i].down >= log[i].up ==> gap >= log[i].up)
  {
    assert Waited(log[..i], log[i]);
    assert log[..i][i - 1] == log[i - 1];
  }

  /** So k changes take at least k times the shorter delay. */
  lemma {:induction false} ChangesTakeTime(log: seq<Commit>, i: nat, j: nat, delay: nat)
    requires Spaced(log) && i <= j < |log|
    requires forall k :: i <= k <= j ==> log[k].time < TWO63 && delay <= log[k].up && delay <= log[k].down
    ensures log[j].time - log[i].time >= (j - i) * delay
  {
    hide Spaced, Waited;
    if i < j {
      ChangesTakeTime(log, i, j - 1, delay);
      SpacingOfChanges(log, j);
      Distribute(j - 1 - i, 1, delay);
    }
  }

  /** get_next_freq's answer: the frequency in force if the raw one is that of the last time, else the driver's. */
  function Answer(cached: nat, raw: nat, inForce: nat, resolved: nat): nat {
    if raw == cached && inForce != UINT_MAX then inForce else resolved
  }

  class SugovPolicy {
    const maxFreq: nat
    var capacityMargin: nat
    var upRateDelayNs: nat
    var downRateDelayNs: nat
    var minRateLimitNs: nat
    var lastFreqUpdateTime: nat
    var nextFreq: nat
    var cachedRawFreq: nat
    var workInProgress: bool
    var needFreqUpdate: bool
    /** Where the irq_work and the kthread work are. */
    var stage: Stage
    /** The changes committed so far, and the frequencies asked of the driver so far. */
    ghost var committed: seq<Commit>
    ghost var applied: seq<nat>

    /**
     * At most one change is on its way. What the driver was asked for is what
     * was committed, in order, and next_freq is the last of it unless new
     * limits have made the governor forget it.
     */
    ghost predicate Valid()
      reads this
    {
      && minRateLimitNs == Min(upRateDelayNs, downRateDelayNs) && nextFreq <= UINT_MAX
      && (workInProgress <==> stage != Idle)
      && |committed| == |applied| + (if stage == IrqQueued || stage == WorkQueued then 1 else 0)
      && (forall i :: 0 <= i < |applied| ==> applied[i] == committed[i].freq)
      && (workInProgress ==> |committed| > 0 && nextFreq == committed[|committed| - 1].freq)
      && (nextFreq == UINT_MAX || (|committed| > 0 && nextFreq == committed[|committed| - 1].freq))
      && lastFreqUpdateTime == LastTime(committed)
      && Spaced(committed)
    }

    /** sugov_start. */
    constructor (maxFreq: nat, upUs: nat, downUs: nat, margin: nat)
      ensures Valid() && committed == [] && this.maxFreq == maxFreq && capacityMargin == margin
      ensures !workInProgress && !needFreqUpdate && nextFreq == UINT_MAX && cachedRawFreq == 0 && stage == Idle
      ensures upRateDelayNs == upUs * 1000 && downRateDelayNs == downUs * 1000
    {
      this.maxFreq, capacityMargin := maxFreq, margin;
      upRateDelayNs, downRateDelayNs := upUs * 1000, downUs * 1000;
      minRateLimitNs := Min(upUs * 1000, downUs * 1000);
      lastFreqUpdateTime, nextFreq, cachedRawFreq := 0, UINT_MAX, 0;
      workInProgress, needFreqUpdate, stage := false, false, Idle;
      committed, applied := [], [];
    }

    /** up_rate_limit_us_store and down_rate_limit_us_store. */
    method StoreRateLimits(upUs: nat, downUs: nat)
      requires Valid()
      modifies `upRateDelayNs, `downRateDelayNs, `minRateLimitNs
      ensures Valid() && upRateDelayNs == upUs * 1000 && downRateDelayNs == downUs * 1000
    {
      hide Delta, Spaced;
      upRateDelayNs, downRateDelayNs := upUs * 1000, downUs * 1000;
      minRateLimitNs := Min(upRateDelayNs, downRateDelayNs);
    }

    /** sugov_limits. */
    method Limits()
      requires Valid()
      modifies `needFreqUpdate
      ensures Valid() && needFreqUpdate
    {
      hide Delta, Spaced;
      needFreqUpdate := true;
    }

    /** sugov_should_update_freq. */
    method ShouldUpdateFreq(time: nat) returns (update: bool)
      requires Valid()
      modifies `needFreqUpdate, `nextFreq
      ensures Valid()
      ensures update <==> !workInProgress && (old(needFreqUpdate) || Delta(time, lastFreqUpdateTime) >= minRateLimitNs)
      ensures nextFreq == if !workInProgress && old(needFreqUpdate) then UINT_MAX else old(nextFreq)
      ensures needFreqUpdate == (workInProgress && old(needFreqUpdate))
    {
      hide Delta, Spaced;
      if workInProgress {
        return false;
      }
      if needFreqUpdate {
        needFreqUpdate := false;
        nextFreq := UINT_MAX;
        return true;
      }
      return Delta(time, lastFreqUpdateTime) >= minRateLimitNs;
    }

    /** sugov_up_down_rate_limit. */
    function RateLimited(time: nat, freq: nat): (r: bool)
      reads this
    {
      var delta := Delta(time, lastFreqUpdateTime);
      (freq > nextFreq && delta < upRateDelayNs) || (freq < nextFreq && delta < downRateDelayNs)
    }

    /** sugov_update_commit: the change is committed once it has waited, and then is on its way. */
    method UpdateCommit(time: nat, freq: nat)
      requires Valid() && !workInProgress && freq <= UINT_MAX
      modifies `nextFreq, `lastFreqUpdateTime, `workInProgress, `stage, `committed
      ensures Valid()
      ensures var c := Commit(time, freq, old(nextFreq), upRateDelayNs, downRateDelayNs);
              if Waited(old(committed), c)
              then committed == old(committed) + [c] && nextFreq == freq && stage == IrqQueued
              else committed == old(committed) && nextFreq == old(nextFreq) && stage == Idle
    {
      hide Delta, Spaced;
      if RateLimited(time, freq) {
        return;
      }
      if nextFreq == freq {
        return;
      }
      ghost var c := Commit(time, freq, nextFreq, upRateDelayNs, downRateDelayNs);
      SpacedMore(committed, c);
      nextFreq := freq;
      lastFreqUpdateTime := time;
      workInProgress := true;
      stage := IrqQueued;
      committed := committed + [c];
    }

    /** get_next_freq; resolved is the driver's answer for the raw frequency. */
    method GetNextFreq(util: nat, max: nat, resolved: nat) returns (freq: nat)
      requires max > 0
      modifies `cachedRawFreq
      ensures cachedRawFreq == U32(RawFreq(maxFreq, util, max, capacityMargin))
      ensures freq == Answer(old(cachedRawFreq), cachedRawFreq, nextFreq, resolved)
      ensures freq != resolved <==> old(cachedRawFreq) == cachedRawFreq && nextFreq != UINT_MAX && nextFreq != resolved
    {
      var raw := U32(RawFreq(maxFreq, util, max, capacityMargin));
      if raw == cachedRawFreq && nextFreq != UINT_MAX {
        return nextFreq;
      }
      cachedRawFreq := raw;
      return resolved;
    }

    /** The change an update would commit if it may: next_freq as it is by then, and the frequency chosen. */
    ghost function Wanted(time: nat, deadline: bool, slowDown: bool, util: nat, max: nat, resolved: nat): (c: Commit)
      requires max > 0
      reads this
    {
      var before := if needFreqUpdate then UINT_MAX else nextFreq;
      var raw := U32(RawFreq(maxFreq, util, max, capacityMargin));
      var freq := if deadline then maxFreq else Answer(cachedRawFreq, raw, before, resolved);
      Commit(time, if !deadline && !slowDown && freq < before then before else freq, before, upRateDelayNs, downRateDelayNs)
    }

    /** Whether an update goes as far as trying to commit. */
    ghost predicate Due(time: nat)
      reads this
    {
      !workInProgress && (needFreqUpdate || Delta(time, lastFreqUpdateTime) >= minRateLimitNs)
    }

    /**
     * Whether an update commits once both delays have passed, with nothing in
     * flight, no new limits and the frequency in force known: not just if the
     * driver would answer with another frequency than that, but only if the
     * raw frequency has changed as well since it was last looked at.
     */
    lemma CommitsIffRawChanged(time: nat, util: nat, max: nat, resolved: nat)
      requires Valid() && max > 0 && !workInProgress && !needFreqUpdate && nextFreq != UINT_MAX
      requires Delta(time, lastFreqUpdateTime) >= Max(upRateDelayNs, downRateDelayNs)
      ensures Due(time)
      ensures Waited(committed, Wanted(time, false, true, util, max, resolved))
         <==> U32(RawFreq(maxFreq, util, max, capacityMargin)) != cachedRawFreq && resolved != nextFreq
    {
      hide Spaced, Delta, U32, RawFreq;
    }

    /** sugov_update_shared. */
    method UpdateShared(time: nat, deadline: bool, util: nat, max: nat, resolved: nat)
      requires Valid() && max > 0 && resolved < UINT_MAX && maxFreq < UINT_MAX
      modifies `needFreqUpdate, `nextFreq, `cachedRawFreq, `lastFreqUpdateTime, `workInProgress, `stage, `committed
      ensures Valid()
      ensures var c := old(Wanted(time, deadline, true, util, max, resolved));
              var commits := old(Due(time)) && Waited(old(committed), c);
              && committed == old(committed) + (if commits then [c] else [])
              && stage == (if commits then IrqQueued else old(stage))
              && nextFreq == (if commits then c.freq else if old(workInProgress) then old(nextFreq) else c.before)
      ensures needFreqUpdate == (old(workInProgress) && old(needFreqUpdate))
      ensures cachedRawFreq == if old(Due(time)) && !deadline then U32(RawFreq(maxFreq, util, max, capacityMargin)) else old(cachedRawFreq)
      ensures !old(workInProgress) && old(needFreqUpdate) ==>
                (committed != old(committed) <==> Delta(time, LastTime(old(committed))) >= downRateDelayNs)
    {
      hide Delta, Spaced, U32, RawFreq;
      var update := ShouldUpdateFreq(time);
      if update {
        var next := maxFreq;
        if !deadline {
          next := GetNextFreq(util, max, resolved);
        }
        UpdateCommit(time, next);
      }
    }

    /**
     * sugov_update_single: a CPU that has been busy does not slow down. As
     * forgetting next_freq makes every frequency look like a fall, a busy CPU
     * does not carry out what new limits force either.
     */
    method UpdateSingle(time: nat, deadline: bool, busy: bool, util: nat, max: nat, resolved: nat)
      requires Valid() && max > 0 && resolved < UINT_MAX && maxFreq < UINT_MAX
      modifies `needFreqUpdate, `nextFreq, `cachedRawFreq, `lastFreqUpdateTime, `workInProgress, `stage, `committed
      ensures Valid()
      ensures var c := old(Wanted(time, deadline, !busy, util, max, resolved));
              var commits := old(Due(time)) && Waited(old(committed), c);
              && committed == old(committed) + (if commits then [c] else [])
              && stage == (if commits then IrqQueued else old(stage))
              && nextFreq == (if commits then c.freq else if old(workInProgress) then old(nextFreq) else c.before)
      ensures needFreqUpdate == (old(workInProgress) && old(needFreqUpdate))
      ensures cachedRawFreq == if old(Due(time)) && !deadline then U32(RawFreq(maxFreq, util, max, capacityMargin)) else old(cachedRawFreq)
      ensures busy && !deadline && committed != old(committed) ==> nextFreq > old(nextFreq)
      ensures !old(workInProgress) && old(needFreqUpdate) ==>
                (committed != old(committed) <==> (deadline || !busy) && Delta(time, LastTime(old(committed))) >= downRateDelayNs)
    {
      hide Delta, Spaced, U32, RawFreq;
      var update := ShouldUpdateFreq(time);
      if update {
        var next := maxFreq;
        if !deadline {
          next := GetNextFreq(util, max, resolved);
          if busy && next < nextFreq {
            next := nextFreq;
          }
        }
        UpdateCommit(time, next);
      }
    }

    /** sugov_irq_work: the kthread is told. */
    method IrqWork()
      requires Valid() && stage == IrqQueued
      modifies `stage
      ensures Valid() && stage == WorkQueued
    {
      hide Delta, Spaced;
      stage := WorkQueued;
    }

    /** sugov_work up to the call of the driver. */
    method Work()
      requires Valid() && stage == WorkQueued
      modifies `stage, `applied
      ensures Valid() && stage == Applied
      ensures applied == old(applied) + [committed[|committed| - 1].freq]
    {
      hide Delta, Spaced;
      applied := applied + [nextFreq];
      stage := Applied;
    }

    /** The rest of sugov_work: the next change may come. */
    method WorkDone()
      requires Valid() && stage == Applied
      modifies `stage, `workInProgress
      ensures Valid() && !workInProgress && |applied| == |committed|
    {
      hide Delta, Spaced;
      workInProgress := false;
      stage := Idle;
    }

    /** A committed change on all its way to the driver, with nothing in between. */
    method CarryOut()
      requires Valid() && stage == IrqQueued
      modifies `stage, `applied, `workInProgress
      ensures Valid() && !workInProgress && |applied| == |committed|
      ensures applied == old(applied) + [committed[|committed| - 1].freq]
    {
      hide Delta, Spaced;
      IrqWork();
      Work();
      WorkDone();
    }
  }

  /**
   * A rise that new limits force is held back by the down delay only: whenever
   * that is the shorter one, a rise can follow a change sooner than the up delay.
   */
  method ForcedRiseComesEarly(upUs: nat, downUs: nat, low: nat, high: nat) returns (p: SugovPolicy)
    requires downUs < upUs && upUs * 1000 < TWO63 / 4 && low < high < UINT_MAX
    ensures fresh(p) && p.Valid() && |p.committed| == 2
    ensures p.committed[0].freq == low && p.committed[1].freq == high && p.committed[1].up == upUs * 1000
    ensures Delta(p.committed[1].time, p.committed[0].time) == downUs * 1000 < p.committed[1].up
  {
    hide Spaced, Delta, U32, RawFreq;
    var up, down := upUs * 1000, downUs * 1000;
    p := OneChange(upUs, downUs, low, high);
    p.Limits();
    p.UpdateShared(up + down, true, 0, 1, 0);
  }

  /**
   * When the up delay holds a rise back the raw frequency is remembered all
   * the same. As long as it stays, the frequency in force is taken for the
   * driver's answer, and no update ever commits the rise: not even those after
   * the delay, although they are due.
   */
  method HeldBackRiseIsLost(upUs: nat, downUs: nat, low: nat, high: nat) returns (p: SugovPolicy)
    requires downUs < upUs && upUs * 1000 < TWO63 / 4 && low < high < UINT_MAX
    ensures fresh(p) && p.Valid() && |p.committed| == 1 && p.nextFreq == low && p.maxFreq == high
    ensures p.cachedRawFreq == U32(RawFreq(high, 1, 1, 0)) == high
    ensures forall time: nat {:trigger p.Due(time)} :: Delta(time, p.lastFreqUpdateTime) >= p.upRateDelayNs ==> p.Due(time)
    ensures forall time: nat {:trigger p.Wanted(time, false, true, 1, 1, high)} ::
              !Waited(p.committed, p.Wanted(time, false, true, 1, 1, high))
  {
    hide Spaced, Delta, U32, RawFreq;
    RawFreqs(high);
    p := OneChange(upUs, downUs, low, high);
    p.UpdateShared(upUs * 1000 + downUs * 1000, false, 1, 1, high);
  }

  /** A governor that has carried out one change, as early as that may be. */
  method OneChange(upUs: nat, downUs: nat, low: nat, high: nat) returns (p: SugovPolicy)
    requires downUs < upUs && upUs * 1000 < TWO63 / 4 && low < high < UINT_MAX
    ensures fresh(p) && p.Valid() && p.maxFreq == high && p.capacityMargin == 0
    ensures p.committed == [Commit(upUs * 1000, low, UINT_MAX, upUs * 1000, downUs * 1000)]
    ensures !p.workInProgress && !p.needFreqUpdate && p.nextFreq == low && p.cachedRawFreq == 0
    ensures p.upRateDelayNs == upUs * 1000 && p.downRateDelayNs == downUs * 1000 && p.lastFreqUpdateTime == upUs * 1000
  {
    hide Spaced, Delta, U32, RawFreq;
    RawFreqs(high);
    p := new SugovPolicy(high, upUs, downUs, 0);
    p.UpdateShared(upUs * 1000, false, 0, 1, low);
    p.CarryOut();
  }

  lemma RawFreqs(high: nat)
    requires high < UINT_MAX
    ensures U32(RawFreq(high, 0, 1, 0)) == 0 && U32(RawFreq(high, 1, 1, 0)) == high
  {
  }
}
