/**
 * A run queue's timeline: entities ordered by virtual runtime, which wraps
 * around, with the running entity kept outside, and the choice of the next one.
 */
module Timeline {
  import opened Arithmetic
  import opened Common

  /** gran is the wakeup granularity in the entity's own virtual time. */
  datatype Entity = Entity(id: nat, vruntime: nat, gran: nat)

  /** (s64)(a - b). */
  function Signed(x: int): (d: int)
  {
    var y := x % TWO64;
    if y < TWO63 then y else y - TWO64
  }

  /** entity_before. */
  predicate Before(a: Entity, b: Entity) {
    Signed(a.vruntime - b.vruntime) < 0
  }

  /** Where an entity lies in a window that starts at base. */
  function Key(base: int, v: int): int {
    (v - base) % TWO64
  }

  /** Virtual runtimes stay within half the number range of each other. */
  ghost predicate Within(base: int, es: seq<Entity>) {
    forall i {:trigger es[i]} :: 0 <= i < |es| ==> Key(base, es[i].vruntime) < TWO63
  }

  lemma SignedInWindow(base: int, v: int, w: int)
    requires Key(base, v) < TWO63 && Key(base, w) < TWO63
    ensures Signed(v - w) == Key(base, v) - Key(base, w)
  {
    var a, b := Key(base, v), Key(base, w);
    assert v - base == (v - base) / TWO64 * TWO64 + a;
    assert w - base == (w - base) / TWO64 * TWO64 + b;
    var k := (v - base) / TWO64 - (w - base) / TWO64;
    assert v - w == k * TWO64 + (a - b);
    if a >= b {
      ModIs(v - w, k, a - b);
    } else {
      ModIs(v - w, k - 1, a - b + TWO64);
    }
  }

  lemma ModIs(x: int, k: int, r: int)
    requires x == k * TWO64 + r && 0 <= r < TWO64
    ensures x % TWO64 == r
  {
  }

  /** In a window entity_before is the order of the keys. */
  lemma BeforeInWindow(base: int, a: Entity, b: Entity)
    requires Key(base, a.vruntime) < TWO63 && Key(base, b.vruntime) < TWO63
    ensures Before(a, b) <==> Key(base, a.vruntime) < Key(base, b.vruntime)
  {
    SignedInWindow(base, a.vruntime, b.vruntime);
  }

  ghost predicate Sorted(es: seq<Entity>) {
    forall i, j :: 0 <= i < j < |es| ==> !Before(es[j], es[i])
  }

  ghost predicate Distinct(es: seq<Entity>) {
    forall i, j :: 0 <= i < j < |es| ==> es[i] != es[j]
  }

  /** The entity goes after all that it is not before, so entities with the same key stay together. */
  function Inserted(es: seq<Entity>, e: Entity): (r: seq<Entity>)
  {
    if es == [] then [e]
    else if Before(e, es[0]) then [e] + es
    else [es[0]] + Inserted(es[1..], e)
  }

  /** Cutting the timeline between what e is not before and what it is before is where e goes. */
  lemma {:induction false} InsertedAt(es: seq<Entity>, e: Entity, k: nat)
    requires k <= |es|
    requires forall i :: 0 <= i < k ==> !Before(e, es[i])
    requires k < |es| ==> Before(e, es[k])
    ensures Inserted(es, e) == es[..k] + [e] + es[k..]
  {
    if k > 0 {
      assert forall i :: 0 <= i < k - 1 ==> es[1..][i] == es[i + 1];
      InsertedAt(es[1..], e, k - 1);
      assert es[..k] == [es[0]] + es[1..][..k - 1] && es[1..][k - 1..] == es[k..];
    }
  }

  /** In a sorted window e is before everything to the right of what it is before. */
  lemma BeforeSuffix(base: int, es: seq<Entity>, e: Entity, i: nat, j: nat)
    requires Sorted(es) && Within(base, es) && Key(base, e.vruntime) < TWO63 && i <= j < |es|
    ensures Before(e, es[i]) ==> Before(e, es[j])
    ensures !Before(e, es[j]) ==> !Before(e, es[i])
  {
    BeforeInWindow(base, e, es[i]);
    BeforeInWindow(base, e, es[j]);
    BeforeInWindow(base, es[j], es[i]);
  }

  lemma InsertedSorted(base: int, es: seq<Entity>, e: Entity, k: nat)
    requires Sorted(es) && Within(base, es) && Key(base, e.vruntime) < TWO63 && k <= |es|
    requires forall i :: 0 <= i < k ==> !Before(e, es[i])
    requires forall i :: k <= i < |es| ==> Before(e, es[i])
    ensures Sorted(es[..k] + [e] + es[k..]) && Within(base, es[..k] + [e] + es[k..])
  {
    var r := es[..k] + [e] + es[k..];
    forall i, j | 0 <= i < j < |r|
      ensures !Before(r[j], r[i])
    {
      assert r[i] == if i < k then es[i] else if i == k then e else es[i - 1];
      assert r[j] == if j < k then es[j] else if j == k then e else es[j - 1];
      if i == k {
        BeforeInWindow(base, e, es[j - 1]);
        BeforeInWindow(base, es[j - 1], e);
      }
    }
  }

  // ------------------------------------------------------------ the choice

  datatype Buddies = Buddies(skip: Option<Entity>, last: Option<Entity>, next: Option<Entity>)

  /** wakeup_preempt_entity: 1 if se is so far behind curr that it should preempt it. */
  function WakeupPreempt(curr: Entity, se: Entity): int {
    var vdiff := Signed(curr.vruntime - se.vruntime);
    if vdiff <= 0 then -1 else if vdiff > se.gran then 1 else 0
  }

  /** e may run although left has the smallest virtual runtime. */
  predicate Fair(e: Option<Entity>, left: Entity) {
    e.Some? && WakeupPreempt(e.value, left) < 1
  }

  function First(es: seq<Entity>): Option<Entity> {
    if es == [] then None else Some(es[0])
  }

  /** What runs if the buddies have no say: the leftmost of the timeline and curr. */
  function Leftmost(es: seq<Entity>, curr: Option<Entity>): Option<Entity> {
    if es == [] || (curr.Some? && Before(curr.value, es[0])) then curr else First(es)
  }

  /** The one after that. */
  function Second(es: seq<Entity>, curr: Option<Entity>): Option<Entity> {
    if Leftmost(es, curr) == curr then First(es)
    else Leftmost(es[1..], curr)
  }

  /** pick_next_entity; with nothing to choose from there are no buddies either. */
  function Pick(es: seq<Entity>, curr: Option<Entity>, b: Buddies): Option<Entity> {
    var left := Leftmost(es, curr);
    if left.None? then None
    else if Fair(b.next, left.value) then b.next
    else if Fair(b.last, left.value) then b.last
    else if b.skip == left && Fair(Second(es, curr), left.value) then Second(es, curr)
    else left
  }

  /** The buddies without the one that has been picked. */
  function Cleared(b: Buddies, se: Option<Entity>): Buddies {
    Buddies(Without(b.skip, se), Without(b.last, se), Without(b.next, se))
  }

  function Without(buddy: Option<Entity>, se: Option<Entity>): Option<Entity> {
    if buddy == se then None else buddy
  }

  /** Holding the running entity outside the timeline does not change the choice. */
  lemma {:induction false} CurrOutsideChangesNothing(es: seq<Entity>, curr: Entity, b: Buddies)
    requires curr !in es
    ensures Leftmost(es, Some(curr)) == Leftmost(Inserted(es, curr), None)
    ensures Second(es, Some(curr)) == Second(Inserted(es, curr), None)
    ensures Pick(es, Some(curr), b) == Pick(Inserted(es, curr), None, b)
  {
    var more := Inserted(es, curr);
    if es == [] {
    } else if Before(curr, es[0]) {
      assert more[1..] == es;
    } else {
      assert more[1..] == Inserted(es[1..], curr);
      assert es[0] != curr;
    }
  }

  /** The leftmost entity is not after any other. */
  lemma LeftmostIsFirst(base: int, es: seq<Entity>, curr: Option<Entity>, e: Entity)
    requires Sorted(es) && Within(base, es) && (curr.Some? ==> Key(base, curr.value.vruntime) < TWO63)
    requires e in es || curr == Some(e)
    ensures var left := Leftmost(es, curr);
            left.Some? && (left.value in es || left == curr) && !Before(e, left.value)
  {
    var left := Leftmost(es, curr).value;
    if es != [] && curr.Some? {
      BeforeInWindow(base, curr.value, es[0]);
      BeforeInWindow(base, es[0], curr.value);
    }
    BeforeInWindow(base, left, left);
    if e in es {
      var i :| 0 <= i < |es| && es[i] == e;
      BeforeInWindow(base, es[i], es[0]);
      BeforeInWindow(base, e, left);
    }
  }

  /** Whoever is picked is behind everyone's virtual runtime by no more than the leftmost entity's granularity. */
  lemma PickIsFair(base: int, es: seq<Entity>, curr: Option<Entity>, b: Buddies, e: Entity)
    requires Sorted(es) && Within(base, es) && (curr.Some? ==> Key(base, curr.value.vruntime) < TWO63)
    requires forall x :: x in {b.skip, b.last, b.next} && x.Some? ==> x.value in es || curr == x
    requires e in es || curr == Some(e)
    ensures var p := Pick(es, curr, b);
            && p.Some? && (p.value in es || p == curr)
            && Signed(p.value.vruntime - e.vruntime) <= Leftmost(es, curr).value.gran
  {
    LeftmostIsFirst(base, es, curr, e);
    var left, p := Leftmost(es, curr).value, Pick(es, curr, b).value;
    assert b.next in {b.skip, b.last, b.next} && b.last in {b.skip, b.last, b.next};
    assert p in es || curr == Some(p);
    SignedInWindow(base, p.vruntime, left.vruntime);
    SignedInWindow(base, p.vruntime, e.vruntime);
    SignedInWindow(base, e.vruntime, left.vruntime);
  }

  /** How far curr is ahead decides: nothing to preempt for, too little, or more than the granularity. */
  lemma WakeupPreemptInWindow(base: int, curr: Entity, se: Entity)
    requires Key(base, curr.vruntime) < TWO63 && Key(base, se.vruntime) < TWO63
    ensures var ahead := Key(base, curr.vruntime) - Key(base, se.vruntime);
            && (WakeupPreempt(curr, se) == -1 <==> ahead <= 0)
            && (WakeupPreempt(curr, se) == 0 <==> 0 < ahead <= se.gran)
            && (WakeupPreempt(curr, se) == 1 <==> ahead > se.gran && ahead > 0)
  {
    SignedInWindow(base, curr.vruntime, se.vruntime);
  }

  /** x may be picked: it is on the timeline or running. */
  ghost predicate Runs(es: seq<Entity>, curr: Option<Entity>, x: Entity) {
    x in es || curr == Some(x)
  }

  /** Nothing that may be picked is before x, but for the one set aside. */
  ghost predicate FirstBut(es: seq<Entity>, curr: Option<Entity>, aside: Option<Entity>, x: Entity) {
    Runs(es, curr, x) && aside != Some(x) && forall y :: Runs(es, curr, y) && aside != Some(y) ==> !Before(y, x)
  }

  /** x is ahead of left by no more than left's granularity. */
  ghost predicate NotTooFar(base: int, x: Entity, left: Entity) {
    Key(base, x.vruntime) - Key(base, left.vruntime) <= left.gran
  }

  /** The order of preference, next to the leftmost entity left: next buddy, last buddy, not the skip buddy, leftmost. */
  ghost predicate Preferred(base: int, es: seq<Entity>, curr: Option<Entity>, b: Buddies, left: Entity, se: Option<Entity>) {
    if b.next.Some? && NotTooFar(base, b.next.value, left) then se == b.next
    else if b.last.Some? && NotTooFar(base, b.last.value, left) then se == b.last
    else if b.skip == Some(left) && exists x :: Runs(es, curr, x) && x != left && NotTooFar(base, x, left) then
      se.Some? && FirstBut(es, curr, Some(left), se.value)
    else se == Some(left)
  }

  /** The buddies are entities that may be picked. */
  ghost predicate BuddiesRun(es: seq<Entity>, curr: Option<Entity>, b: Buddies) {
    && (b.skip.Some? ==> Runs(es, curr, b.skip.value))
    && (b.last.Some? ==> Runs(es, curr, b.last.value))
    && (b.next.Some? ==> Runs(es, curr, b.next.value))
  }

  ghost predicate CurrWithin(base: int, curr: Option<Entity>) {
    curr.Some? ==> Key(base, curr.value.vruntime) < TWO63
  }

  lemma FirstOfAll(base: int, es: seq<Entity>, curr: Option<Entity>)
    requires Sorted(es) && Within(base, es) && CurrWithin(base, curr)
    ensures Leftmost(es, curr).None? <==> es == [] && curr == None
    ensures Leftmost(es, curr).Some? ==> FirstBut(es, curr, None, Leftmost(es, curr).value)
  {
    forall y | Runs(es, curr, y)
      ensures Leftmost(es, curr).Some? && Runs(es, curr, Leftmost(es, curr).value) && !Before(y, Leftmost(es, curr).value)
    {
      LeftmostIsFirst(base, es, curr, y);
    }
    if es != [] {
      assert Runs(es, curr, es[0]);
    }
  }

  /** Without the leftmost entity, Second is the leftmost. */
  lemma SecondIsNext(base: int, es: seq<Entity>, curr: Option<Entity>)
    requires Sorted(es) && Within(base, es) && CurrWithin(base, curr) && Distinct(es)
    requires curr.Some? ==> curr.value !in es
    requires Leftmost(es, curr).Some?
    ensures var left := Leftmost(es, curr);
            if Second(es, curr).Some? then FirstBut(es, curr, left, Second(es, curr).value)
            else forall y :: Runs(es, curr, y) ==> Some(y) == left
  {
    var left := Leftmost(es, curr);
    if left == curr {
      FirstOfAll(base, es, None);
      assert forall y :: Runs(es, curr, y) && left != Some(y) <==> Runs(es, None, y);
    } else {
      assert forall i :: 0 <= i < |es[1..]| ==> es[1..][i] == es[i + 1];
      FirstOfAll(base, es[1..], curr);
      assert left == Some(es[0]);
      assert forall y :: y in es <==> y == es[0] || y in es[1..];
      assert forall y :: Runs(es, curr, y) && left != Some(y) <==> Runs(es[1..], curr, y);
    }
  }

  lemma NobodyToPick(b: Buddies)
    ensures Pick([], None, b) == None
  {
  }

  lemma FairIsNotTooFar(base: int, x: Option<Entity>, left: Entity)
    requires x.Some? ==> Key(base, x.value.vruntime) < TWO63
    requires Key(base, left.vruntime) < TWO63
    ensures Fair(x, left) <==> x.Some? && NotTooFar(base, x.value, left)
  {
    if x.Some? {
      WakeupPreemptInWindow(base, x.value, left);
    }
  }

  lemma RunsWithin(base: int, es: seq<Entity>, curr: Option<Entity>, x: Entity)
    requires Within(base, es) && CurrWithin(base, curr) && Runs(es, curr, x)
    ensures Key(base, x.vruntime) < TWO63
  {
  }

  /** What is picked is what the order of preference says, in terms of the entities there are. */
  lemma PickIsPreferred(base: int, es: seq<Entity>, curr: Option<Entity>, b: Buddies)
    requires Sorted(es) && Within(base, es) && CurrWithin(base, curr) && Distinct(es)
    requires (curr.Some? ==> curr.value !in es) && BuddiesRun(es, curr, b)
    ensures if es == [] && curr == None then Pick(es, curr, b) == None
            else var left := Leftmost(es, curr);
                 left.Some? && FirstBut(es, curr, None, left.value) && Preferred(base, es, curr, b, left.value, Pick(es, curr, b))
  {
    FirstOfAll(base, es, curr);
    var left := Leftmost(es, curr);
    if left.Some? {
      hide Sorted, Within, Distinct, Key;
      RunsWithin(base, es, curr, left.value);
      forall x | Runs(es, curr, x)
        ensures Key(base, x.vruntime) < TWO63
      {
        RunsWithin(base, es, curr, x);
      }
      FairIsNotTooFar(base, b.next, left.value);
      FairIsNotTooFar(base, b.last, left.value);
      var second := Second(es, curr);
      SecondIsNext(base, es, curr);
      FairIsNotTooFar(base, second, left.value);
      if second.Some? {
        forall x | Runs(es, curr, x) && x != left.value && NotTooFar(base, x, left.value)
          ensures NotTooFar(base, second.value, left.value)
        {
          BeforeInWindow(base, x, second.value);
        }
      }
    }
  }

  // ------------------------------------------------------- taking entities out

  function Removed(es: seq<Entity>, e: Entity): (r: seq<Entity>) {
    if es == [] then [] else if es[0] == e then es[1..] else [es[0]] + Removed(es[1..], e)
  }

  lemma {:induction false} RemovedAt(es: seq<Entity>, e: Entity, k: nat)
    requires k < |es| && es[k] == e && forall i :: 0 <= i < k ==> es[i] != e
    ensures Removed(es, e) == es[..k] + es[k + 1..]
  {
    if k > 0 {
      assert forall i :: 0 <= i < k - 1 ==> es[1..][i] == es[i + 1];
      RemovedAt(es[1..], e, k - 1);
      assert es[..k] == [es[0]] + es[1..][..k - 1] && es[1..][k..] == es[k + 1..];
    }
  }

  /** Taking out what has just been put in restores the timeline. */
  lemma {:induction false} RemovedInserted(es: seq<Entity>, e: Entity)
    requires e !in es
    ensures Removed(Inserted(es, e), e) == es
    ensures forall x :: x in Inserted(es, e) <==> x == e || x in es
  {
    if es != [] {
      assert es[0] != e && e !in es[1..];
      assert forall x :: x in es <==> x == es[0] || x in es[1..];
      if !Before(e, es[0]) {
        RemovedInserted(es[1..], e);
        assert ([es[0]] + Inserted(es[1..], e))[1..] == Inserted(es[1..], e);
      }
    }
  }

  lemma InsertedDistinct(es: seq<Entity>, e: Entity, k: nat)
    requires Distinct(es) && e !in es && k <= |es|
    ensures Distinct(es[..k] + [e] + es[k..])
    ensures forall x :: x in es[..k] + [e] + es[k..] <==> x == e || x in es
  {
    var r := es[..k] + [e] + es[k..];
    forall i, j | 0 <= i < j < |r|
      ensures r[i] != r[j]
    {
      assert r[i] == if i < k then es[i] else if i == k then e else es[i - 1];
      assert r[j] == if j < k then es[j] else if j == k then e else es[j - 1];
    }
    InsertedHas(es, e, k);
  }

  lemma InsertedHas(es: seq<Entity>, e: Entity, k: nat)
    requires k <= |es|
    ensures forall x :: x in es[..k] + [e] + es[k..] <==> x == e || x in es
  {
    assert es == es[..k] + es[k..];
  }

  lemma FirstOf(es: seq<Entity>, e: Entity, k: nat)
    requires Distinct(es) && k < |es| && es[k] == e
    ensures forall i :: 0 <= i < k ==> es[i] != e
  {
  }

  lemma CutKept(base: int, es: seq<Entity>, k: nat)
    requires Sorted(es) && Within(base, es) && Distinct(es) && k < |es|
    ensures var r := es[..k] + es[k + 1..];
            Sorted(r) && Within(base, r) && Distinct(r) && es[k] !in r && forall x :: x in r ==> x in es
  {
    var r := es[..k] + es[k + 1..];
    assert forall i :: 0 <= i < |r| ==> r[i] == if i < k then es[i] else es[i + 1];
  }

  lemma FirstAfterCut(es: seq<Entity>, k: nat)
    requires Distinct(es) && k < |es|
    ensures First(es) == Some(es[k]) <==> k == 0
    ensures First(es[..k] + es[k + 1..]) == if k > 0 then First(es) else if |es| > 1 then Some(es[1]) else None
  {
  }

  /** max_vruntime. */
  function MaxVruntime(max: nat, vruntime: nat): nat {
    if Signed(vruntime - max) > 0 then vruntime else max
  }

  /** min_vruntime. */
  function MinVruntime(min: nat, vruntime: nat): nat {
    if Signed(vruntime - min) < 0 then vruntime else min
  }

  class CfsRq {
    /** The rb-tree from left to right, and the cached leftmost entity. */
    var timeline: seq<Entity>
    var leftmost: Option<Entity>
    var curr: Option<Entity>
    var buddies: Buddies
    var minVruntime: nat
    ghost var base: int

    /** Entities are in order and distinct, and the cache holds the first of them. */
    ghost predicate Valid()
      reads this
    {
      && Sorted(timeline) && Within(base, timeline) && leftmost == First(timeline)
      && Distinct(timeline)
      && (curr.Some? ==> Key(base, curr.value.vruntime) < TWO63 && curr.value !in timeline)
      && Key(base, minVruntime) < TWO63
    }

    constructor ()
      ensures Valid() && timeline == [] && curr == None && buddies == Buddies(None, None, None) && minVruntime == TWO64 - 0x10_0000
    {
      timeline, leftmost, curr, buddies := [], None, None, Buddies(None, None, None);
      minVruntime, base := TWO64 - 0x10_0000, TWO64 - 0x10_0000;
    }

    /**
     * __enqueue_entity. A search tree over the timeline may have any shape: at
     * every node the part of the timeline still in question is split somewhere.
     */
    method EnqueueEntity(se: Entity)
      requires Valid() && se !in timeline && curr != Some(se) && Key(base, se.vruntime) < TWO63
      modifies `timeline, `leftmost
      ensures Valid() && timeline == Inserted(old(timeline), se)
    {
      hide Sorted, Within, Distinct, Key, Before;
      var lo, hi, first := 0, |timeline|, true;
      while lo < hi
        invariant 0 <= lo <= hi <= |timeline|
        invariant forall i :: 0 <= i < lo ==> !Before(se, timeline[i])
        invariant forall i :: hi <= i < |timeline| ==> Before(se, timeline[i])
        invariant first <==> lo == 0
      {
        var node :| lo <= node < hi;
        forall i | 0 <= i < |timeline|
          ensures i >= node && Before(se, timeline[node]) ==> Before(se, timeline[i])
          ensures i <= node && !Before(se, timeline[node]) ==> !Before(se, timeline[i])
        {
          if i >= node {
            BeforeSuffix(base, timeline, se, node, i);
          }
          if i <= node {
            BeforeSuffix(base, timeline, se, i, node);
          }
        }
        if Before(se, timeline[node]) {
          hi := node;
        } else {
          lo, first := node + 1, false;
        }
      }
      InsertedAt(timeline, se, lo);
      InsertedSorted(base, timeline, se, lo);
      InsertedDistinct(timeline, se, lo);
      if first {
        leftmost := Some(se);
      }
      timeline := timeline[..lo] + [se] + timeline[lo..];
    }

    /** __dequeue_entity. */
    method DequeueEntity(se: Entity)
      requires Valid() && se in timeline
      modifies `timeline, `leftmost
      ensures Valid() && timeline == Removed(old(timeline), se) && se !in timeline
    {
      hide Sorted, Within, Distinct, Removed, Key, First;
      var k :| 0 <= k < |timeline| && timeline[k] == se;
      CutKept(base, timeline, k);
      FirstOf(timeline, se, k);
      RemovedAt(timeline, se, k);
      FirstAfterCut(timeline, k);
      if leftmost == Some(se) {
        leftmost := if k + 1 < |timeline| then Some(timeline[k + 1]) else None;
      }
      timeline := timeline[..k] + timeline[k + 1..];
    }

    /** The window may start elsewhere, as long as everything lies in it: so it moves along with virtual time. */
    ghost method Rebase(start: int)
      requires Valid() && Within(start, timeline) && Key(start, minVruntime) < TWO63
      requires curr.Some? ==> Key(start, curr.value.vruntime) < TWO63
      modifies `base
      ensures Valid() && base == start
    {
      base := start;
    }

    /** pick_next_entity; nobody's buddy any more is what it picks. */
    method PickNextEntity(running: Option<Entity>) returns (se: Option<Entity>)
      requires Valid() && (running.Some? ==> running.value !in timeline)
      requires running.None? && timeline == [] ==> buddies == Buddies(None, None, None)
      modifies `buddies
      ensures Valid() && se == Pick(timeline, running, old(buddies)) && buddies == Cleared(old(buddies), se)
      ensures se.Some? ==> buddies.next != se && buddies.last != se && buddies.skip != se
      ensures (old(buddies).next == se || buddies.next == old(buddies).next) && (old(buddies).last == se || buddies.last == old(buddies).last)
              && (old(buddies).skip == se || buddies.skip == old(buddies).skip)
      ensures timeline == [] && running == None ==> se == None
      ensures (timeline != [] || running != None) && CurrWithin(base, running) && BuddiesRun(timeline, running, old(buddies)) ==>
                exists left :: FirstBut(timeline, running, None, left) && Preferred(base, timeline, running, old(buddies), left, se)
    {
      hide Sorted, Within, Distinct, Key, Pick, FirstBut, Preferred;
      if CurrWithin(base, running) && BuddiesRun(timeline, running, buddies) {
        PickIsPreferred(base, timeline, running, buddies);
      }
      NobodyToPick(buddies);
      se := ChooseEntity(running);
      ClearBuddies(se);
    }

    /** clear_buddies, on this queue. */
    method ClearBuddies(se: Option<Entity>)
      modifies `buddies
      ensures buddies == Cleared(old(buddies), se)
    {
      if se.None? {
        return;
      }
      if buddies.last == se {
        buddies := buddies.(last := None);
      }
      if buddies.next == se {
        buddies := buddies.(next := None);
      }
      if buddies.skip == se {
        buddies := buddies.(skip := None);
      }
    }

    /** pick_next_entity up to the clearing of buddies. */
    method ChooseEntity(running: Option<Entity>) returns (se: Option<Entity>)
      requires Valid() && (running.Some? ==> running.value !in timeline)
      requires running.None? && timeline == [] ==> buddies == Buddies(None, None, None)
      ensures se == Pick(timeline, running, buddies)
    {
      var left := leftmost;
      if left.None? || (running.Some? && Before(running.value, left.value)) {
        left := running;
      }
      se := left;
      if se.None? {
        return;
      }
      if buddies.skip == se {
        var second: Option<Entity>;
        if se == running {
          second := leftmost;
        } else {
          second := if |timeline| > 1 then Some(timeline[1]) else None;
          if second.None? || (running.Some? && Before(running.value, second.value)) {
            second := running;
          }
        }
        if second.Some? && WakeupPreempt(second.value, left.value) < 1 {
          se := second;
        }
      }
      if buddies.last.Some? && WakeupPreempt(buddies.last.value, left.value) < 1 {
        se := buddies.last;
      }
      if buddies.next.Some? && WakeupPreempt(buddies.next.value, left.value) < 1 {
        se := buddies.next;
      }
    }

    /** update_min_vruntime: it follows the smallest virtual runtime there is, but never goes back. */
    method UpdateMinVruntime(onRq: bool)
      requires Valid()
      modifies `minVruntime
      ensures Valid() && Key(base, minVruntime) >= Key(base, old(minVruntime))
      ensures Key(base, minVruntime) > Key(base, old(minVruntime)) ==>
                (forall i :: 0 <= i < |timeline| ==> Key(base, minVruntime) <= Key(base, timeline[i].vruntime))
                && (curr.Some? && onRq ==> Key(base, minVruntime) <= Key(base, curr.value.vruntime))
      ensures var running := if onRq then curr else None;
              var first := Leftmost(timeline, running);
              first.Some? && Key(base, first.value.vruntime) >= Key(base, old(minVruntime)) ==>
                Key(base, minVruntime) == Key(base, first.value.vruntime)
    {
      ghost var running := if onRq then curr else None;
      var vruntime := minVruntime;
      if curr.Some? && onRq {
        vruntime := curr.value.vruntime;
      }
      if leftmost.Some? {
        if curr.Some? && onRq {
          SignedInWindow(base, leftmost.value.vruntime, vruntime);
          vruntime := MinVruntime(vruntime, leftmost.value.vruntime);
          BeforeInWindow(base, curr.value, leftmost.value);
        } else {
          vruntime := leftmost.value.vruntime;
        }
      }
      forall i | 0 <= i < |timeline|
        ensures Key(base, timeline[0].vruntime) <= Key(base, timeline[i].vruntime)
      {
        BeforeInWindow(base, timeline[i], timeline[0]);
      }
      SignedInWindow(base, vruntime, minVruntime);
      minVruntime := MaxVruntime(minVruntime, vruntime);
    }

    /** set_next_entity: the entity that runs is not kept in the timeline. */
    method SetNextEntity(se: Entity, onRq: bool)
      requires Valid() && Key(base, se.vruntime) < TWO63 && (if onRq then se in timeline else se !in timeline)
      modifies `timeline, `leftmost, `curr
      ensures Valid() && curr == Some(se)
      ensures timeline == if onRq then Removed(old(timeline), se) else old(timeline)
    {
      curr := None;
      if onRq {
        DequeueEntity(se);
      }
      curr := Some(se);
    }

    /** put_prev_entity, time charging and throttling set aside. */
    method PutPrevEntity(prev: Entity, onRq: bool)
      requires Valid() && curr == Some(prev)
      modifies `timeline, `leftmost, `curr
      ensures Valid() && curr == None
      ensures timeline == if onRq then Inserted(old(timeline), prev) else old(timeline)
    {
      curr := None;
      if onRq {
        EnqueueEntity(prev);
      }
    }
  }
}
