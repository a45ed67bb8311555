/**
 * The state between two levels of a bottom-up walk: a change made below that
 * the levels above have not been told about yet.
 */
module HierarchyWalk {
  import opened Common
  import opened Sums
  import opened RunQueueTree

  lemma OwnQueueElsewhere(s: State, q: nat)
    requires Tree(s) && Layered(s) && q in s.shape.se
    ensures var p := s.shape.on[s.shape.se[q]];
            && p != q && p in s.shape.queues && s.shape.depth[p] < s.shape.depth[q]
            && Parent(s, p) != Some(s.shape.se[q])
  {
    var p := s.shape.on[s.shape.se[q]];
    assert s.shape.depth[q] == s.shape.depth[p] + 1;
    assert p in s.shape.queues;
    if p in s.shape.se {
      assert s.shape.depth[p] == s.shape.depth[s.shape.on[s.shape.se[p]]] + 1;
    }
  }

  /** What a step on e and its queue needs of the tree. */
  lemma TreeFacts(s: State, e: nat)
    requires Tree(s) && (e in s.shape.entities || e in s.onRq)
    ensures e in s.shape.entities && e in s.shape.on && s.shape.on[e] in s.shape.queues
    ensures s.h.Keys == s.shape.queues && s.onRq <= s.shape.entities && s.shape.root in s.shape.queues
    ensures s.shape.on.Keys == s.shape.entities && s.shape.root !in s.throttled
    ensures s.shape.on[e] in s.shape.se <==> s.shape.on[e] != s.shape.root
  {
  }

  lemma QueueFacts(s: State, q: nat)
    requires Tree(s) && q in s.shape.queues
    ensures q in s.shape.se ==> s.shape.se[q] in s.shape.entities && s.shape.se[q] in s.shape.owned && s.shape.owned[s.shape.se[q]] == q
    ensures q in s.shape.se ==> s.shape.se[q] in s.shape.on && s.shape.on[s.shape.se[q]] in s.shape.queues
  {
  }

  lemma LinkedWeaken(s: State, x: Option<nat>, y: Option<nat>)
    requires LinkedBut(s, x, None)
    ensures LinkedBut(s, x, y)
  {
  }

  lemma EmptyCountsZero(s: State, q: nat)
    requires s.onRq <= s.shape.entities && Queued(s, q) == {}
    ensures HSum(s, q) == 0
  {
  }

  // -------------------------------------------------------------- walking up

  /**
   * Something below se gained delta. If se is queued already its queue is
   * behind by delta; otherwise se is to be queued and will count for delta.
   */
  ghost predicate PendingUp(s: State, se: Option<nat>, delta: int) {
    && Tree(s) && Layered(s)
    && LinkedBut(s, se, None)
    && match se {
         case None => Counted(s, None, 0) && s.total + delta == s.h[s.shape.root]
         case Some(e) =>
           && Arriving(s, e, delta)
           && (if e in s.onRq then Counted(s, Some(s.shape.on[e]), delta) else Counted(s, None, 0))
           && s.total == s.h[s.shape.root]
       }
  }

  ghost predicate Arriving(s: State, e: nat, delta: int) {
    && e in s.shape.entities
    && (e in s.shape.owned ==> Queued(s, s.shape.owned[e]) != {} && s.shape.owned[e] !in s.throttled)
    && (e !in s.onRq ==> Count(s, e) == delta)
  }

  /** e is queued and its queue, behind by delta, is about to be raised. */
  ghost predicate Raising(s: State, e: nat, delta: int) {
    && Tree(s) && Layered(s) && e in s.onRq
    && var q := s.shape.on[e];
    && Counted(s, Some(q), delta)
    && LinkedBut(s, Parent(s, q), None)
    && (q in s.shape.se ==> ParentReady(s, q, s.shape.se[q]))
    && s.total == s.h[s.shape.root]
  }

  ghost predicate ParentReady(s: State, q: nat, pse: nat)
    requires q in s.h
  {
    && (q in s.throttled ==> pse !in s.onRq)
    && (q !in s.throttled && pse !in s.onRq ==> s.h[q] == 0)
  }

  /** The state after queueing e: its queue may have been throttled on its first entity. */
  ghost predicate Enqueued(s: State, e: nat, t: State)
    requires e in s.shape.on
  {
    var q := s.shape.on[e];
    || t == Inserted(s, e)
    || (t == Throttled(Inserted(s, e), q) && Queued(s, q) == {} && q != s.shape.root)
  }

  lemma EnqueuedCounted(s: State, e: nat, t: State)
    requires Tree(s) && Counted(s, None, 0) && e in s.shape.entities && e !in s.onRq
    requires Enqueued(s, e, t)
    ensures Counted(t, Some(s.shape.on[e]), Count(s, e))
  {
    hide Sum;
    var i := Inserted(s, e);
    forall p | p in s.shape.queues
      ensures s.h[p] + (if p == s.shape.on[e] then Count(s, e) else 0) == HSum(t, p)
    {
      HSumInserted(s, e, p);
      assert Queued(t, p) == Queued(i, p);
      assert Counts(t) == Counts(i);
    }
  }

  lemma EnqueuedLinked(s: State, e: nat, delta: int, t: State)
    requires Tree(s) && LinkedBut(s, Some(e), None) && Arriving(s, e, delta)
    requires Enqueued(s, e, t)
    ensures LinkedBut(t, Parent(s, s.shape.on[e]), None)
  {
    var q := s.shape.on[e];
    forall d | d in s.shape.owned && Parent(s, q) != Some(d)
      ensures Linked(t, d)
    {
      var p := s.shape.owned[d];
      assert p in s.shape.se && s.shape.se[p] == d && p != q;
      QueuedInserted(s, e, p);
      assert Queued(t, p) == Queued(Inserted(s, e), p);
      assert d != e ==> Linked(s, d);
    }
  }

  lemma ParentOfEntered(s: State, e: nat, delta: int, t: State)
    requires PendingUp(s, Some(e), delta) && e !in s.onRq && s.shape.on[e] in s.shape.se
    requires Enqueued(s, e, t)
    ensures ParentReady(t, s.shape.on[e], s.shape.se[s.shape.on[e]])
  {
    hide Sum, HSum;
    var q := s.shape.on[e];
    var pse := s.shape.se[q];
    OwnQueueElsewhere(s, q);
    assert Linked(s, pse);
    if Queued(s, q) == {} {
      EmptyCountsZero(s, q);
    }
  }

  lemma EnterRaising(s: State, e: nat, delta: int, t: State)
    requires PendingUp(s, Some(e), delta) && e !in s.onRq
    requires Enqueued(s, e, t)
    ensures Raising(t, e, delta)
  {
    hide Sum, HSum, Tree, LinkedBut, Counted, Queued, Layered, ParentReady;
    TreeFacts(s, e);
    EnqueuedCounted(s, e, t);
    EnqueuedLinked(s, e, delta, t);
    TreeKept(s, t);
    if s.shape.on[e] in s.shape.se {
      ParentOfEntered(s, e, delta, t);
    }
  }

  /** An entity that is queued already only passes the change on. */
  lemma StayRaising(s: State, e: nat, delta: int)
    requires PendingUp(s, Some(e), delta) && e in s.onRq
    ensures Raising(s, e, delta)
    ensures var q := s.shape.on[e]; q in s.shape.se && q !in s.throttled ==> s.shape.se[q] in s.onRq
  {
    hide Sum, HSum;
    var q := s.shape.on[e];
    assert e in Queued(s, q);
    if q in s.shape.se {
      OwnQueueElsewhere(s, q);
      assert Linked(s, s.shape.se[q]);
    }
    if e in s.shape.owned {
      assert Linked(s, e);
    }
  }

  lemma RaisedCounted(s: State, q: nat, delta: int)
    requires Tree(s) && Layered(s) && q in s.shape.queues && Counted(s, Some(q), delta)
    ensures var t := Raised(s, q, delta);
            if q in s.shape.se && s.shape.se[q] in s.onRq then Counted(t, Some(s.shape.on[s.shape.se[q]]), delta) else Counted(t, None, 0)
  {
    hide Sum, HSum;
    if q in s.shape.se {
      OwnQueueElsewhere(s, q);
    }
    forall p | p in s.shape.queues
      ensures HSum(Raised(s, q, delta), p)
           == HSum(s, p) + if q in s.shape.se && s.shape.se[q] in s.onRq && p == s.shape.on[s.shape.se[q]] then delta else 0
    {
      HSumRaised(s, q, delta, p);
    }
  }

  lemma RaisedLinks(s: State, q: nat, delta: int, x: Option<nat>, y: Option<nat>)
    requires q in s.h && LinkedBut(s, x, y)
    ensures LinkedBut(Raised(s, q, delta), x, y)
  {
    var t := Raised(s, q, delta);
    forall e | e in s.shape.owned && x != Some(e) && y != Some(e)
      ensures Linked(t, e)
    {
      assert Linked(s, e);
      assert Queued(t, s.shape.owned[e]) == Queued(s, s.shape.owned[e]);
    }
  }

  /** Raising the count either meets a throttled queue, and all agrees, or moves on to the parent. */
  lemma Climb(s: State, e: nat, delta: int)
    requires Raising(s, e, delta)
    ensures var q, t := s.shape.on[e], Raised(s, s.shape.on[e], delta);
            if q in s.throttled then Valid(t) else PendingUp(t, Parent(s, q), delta)
  {
    hide Sum, HSum, Tree, Layered, Counted, Queued, LinkedBut, Linked;
    TreeFacts(s, e);
    var q, t := s.shape.on[e], Raised(s, s.shape.on[e], delta);
    QueueFacts(s, q);
    StaysOccupied(s, q, e, delta);
    TreeKept(s, t);
    RaisedCounted(s, q, delta);
    RaisedLinks(s, q, delta, Parent(s, q), None);
    if q in s.throttled {
      LinkRestored(t, s.shape.se[q], None);
    }
  }

  lemma StaysOccupied(s: State, q: nat, e: nat, delta: int)
    requires e in s.onRq && e in s.shape.on && s.shape.on[e] == q && q in s.h
    ensures Queued(Raised(s, q, delta), q) != {}
  {
    assert e in Queued(Raised(s, q, delta), q);
  }

  // ------------------------------------------------------------ walking down

  /** x is an entity further down whose own link is still to be restored. */
  ghost predicate Above(s: State, q: nat, x: Option<nat>) {
    x.Some? ==>
      x.value in s.shape.on && s.shape.on[x.value] in s.shape.depth && q in s.shape.depth
      && s.shape.depth[q] < s.shape.depth[s.shape.on[x.value]]
  }

  /** Something below se lost delta: the queue of se counts delta too many. */
  ghost predicate PendingDown(s: State, se: Option<nat>, delta: int, x: Option<nat>) {
    && Tree(s) && Layered(s)
    && LinkedBut(s, se, x)
    && match se {
         case None => Counted(s, None, 0) && s.total - delta == s.h[s.shape.root]
         case Some(e) =>
           && e in s.onRq && e in s.shape.owned && s.shape.owned[e] !in s.throttled
           && Counted(s, Some(s.shape.on[e]), -delta)
           && Above(s, s.shape.on[e], x)
           && s.total == s.h[s.shape.root]
       }
  }

  /** Nothing is pending, but e, which counts for delta, is about to be taken off its queue. */
  ghost predicate Leaving(s: State, e: nat, delta: int, x: Option<nat>) {
    && Tree(s) && Layered(s) && e in s.onRq
    && Counted(s, None, 0) && Count(s, e) == delta
    && LinkedBut(s, Some(e), None)
    && x == (if e in s.shape.owned then Some(e) else None)
    && s.total == s.h[s.shape.root]
  }

  /** The queue of e counts delta too many and is about to be lowered. */
  ghost predicate Lowering(s: State, e: nat, delta: int, x: Option<nat>) {
    && Tree(s) && Layered(s) && e in s.shape.entities
    && var q := s.shape.on[e];
    && Counted(s, Some(q), -delta)
    && LinkedBut(s, Parent(s, q), x)
    && (x == Some(e) || Above(s, q, x))
    && (q in s.shape.se ==> (s.shape.se[q] in s.onRq <==> q !in s.throttled))
    && s.total == s.h[s.shape.root]
  }

  lemma RemovedCounted(s: State, e: nat, behind: Option<nat>, lag: int)
    requires Tree(s) && e in s.onRq && Counted(s, behind, lag)
    requires behind == None || behind == Some(s.shape.on[e])
    ensures Counted(Removed(s, e), Some(s.shape.on[e]), (if behind == None then 0 else lag) - Count(s, e))
  {
    hide Sum, HSum;
    forall p | p in s.shape.queues
      ensures HSum(Removed(s, e), p) == HSum(s, p) - if p == s.shape.on[e] then Count(s, e) else 0
    {
      HSumRemoved(s, e, p);
    }
  }

  lemma RemovedLinks(s: State, e: nat, x: Option<nat>)
    requires Tree(s) && e in s.onRq && LinkedBut(s, Some(e), x)
    requires e in s.shape.owned ==> x == Some(e) || Queued(s, s.shape.owned[e]) == {}
    ensures LinkedBut(Removed(s, e), Parent(s, s.shape.on[e]), x)
  {
    var q, t := s.shape.on[e], Removed(s, e);
    forall d | d in s.shape.owned && Parent(s, q) != Some(d) && x != Some(d)
      ensures Linked(t, d)
    {
      var p := s.shape.owned[d];
      assert p in s.shape.se && s.shape.se[p] == d && p != q;
      QueuedRemoved(s, e, p);
      assert d != e ==> Linked(s, d);
    }
  }

  /** The parent of a queue something is queued on is queued iff the queue is not throttled. */
  lemma ParentOfOccupied(s: State, e: nat, x: Option<nat>)
    requires Tree(s) && Layered(s) && e in s.onRq && LinkedBut(s, Some(e), x)
    requires x == Some(e) || Above(s, s.shape.on[e], x)
    ensures var q := s.shape.on[e]; q in s.shape.se ==> (s.shape.se[q] in s.onRq <==> q !in s.throttled)
  {
    var q := s.shape.on[e];
    assert e in Queued(s, q);
    if q in s.shape.se {
      OwnQueueElsewhere(s, q);
      assert x != Some(s.shape.se[q]);
      assert Linked(s, s.shape.se[q]);
    }
  }

  lemma LeaveFresh(s: State, e: nat, delta: int, x: Option<nat>)
    requires Leaving(s, e, delta, x)
    ensures Lowering(Removed(s, e), e, delta, x)
  {
    hide Sum, HSum, Counted, LinkedBut, Queued, Tree, Layered, Count;
    TreeFacts(s, e);
    LinkedWeaken(s, Some(e), x);
    RemovedCounted(s, e, None, 0);
    RemovedLinks(s, e, x);
    ParentOfOccupied(s, e, x);
    TreeKept(s, Removed(s, e));
  }

  lemma EmptyGroupCountsZero(s: State, e: nat, lag: int)
    requires Tree(s) && Layered(s) && e in s.shape.owned && Counted(s, Some(s.shape.on[e]), lag)
    requires Queued(s, s.shape.owned[e]) == {}
    ensures Count(s, e) == 0
  {
    hide Sum, HSum;
    var own := s.shape.owned[e];
    assert own in s.shape.se && s.shape.se[own] == e;
    OwnQueueElsewhere(s, own);
    EmptyCountsZero(s, own);
    assert s.h[own] == HSum(s, own);
  }

  /** A group whose queue has run empty leaves, counting for nothing any more. */
  lemma LeaveEmpty(s: State, e: nat, delta: int, x: Option<nat>)
    requires PendingDown(s, Some(e), delta, x) && Queued(s, s.shape.owned[e]) == {}
    ensures Lowering(Removed(s, e), e, delta, x)
  {
    hide Sum, HSum, Counted, LinkedBut, Queued, Tree, Layered, Count;
    EmptyGroupCountsZero(s, e, -delta);
    TreeFacts(s, e);
    RemovedCounted(s, e, Some(s.shape.on[e]), -delta);
    RemovedLinks(s, e, x);
    ParentOfOccupied(s, e, x);
    TreeKept(s, Removed(s, e));
  }

  lemma StayLowering(s: State, e: nat, delta: int, x: Option<nat>)
    requires PendingDown(s, Some(e), delta, x) && Queued(s, s.shape.owned[e]) != {}
    ensures Lowering(s, e, delta, x)
  {
    ParentOfOccupied(s, e, x);
    assert Linked(s, e);
    assert LinkedBut(s, Parent(s, s.shape.on[e]), x);
    hide Sum, HSum, Counted, LinkedBut, Queued;
  }

  /** Lowering the count either meets a throttled queue, and all agrees, or moves on to the parent. */
  lemma Descend(s: State, e: nat, delta: int, x: Option<nat>)
    requires Lowering(s, e, delta, x)
    ensures var q, t := s.shape.on[e], Raised(s, s.shape.on[e], -delta);
            && (q in s.throttled ==> ValidBut(t, x))
            && (q !in s.throttled ==> PendingDown(t, Parent(s, q), delta, x))
  {
    hide Sum, HSum, Tree, Layered, Counted, Queued, LinkedBut;
    TreeFacts(s, e);
    var q, t := s.shape.on[e], Raised(s, s.shape.on[e], -delta);
    QueueFacts(s, q);
    TreeKept(s, t);
    RaisedCounted(s, q, -delta);
    RaisedLinks(s, q, -delta, Parent(s, q), x);
    if q in s.throttled {
      LinkRestored(t, s.shape.se[q], x);
    } else if q in s.shape.se {
      AboveParent(s, q, e, x);
    }
  }

  /** The parent of a throttled queue is off its queue, as its link demands. */
  lemma LinkRestored(s: State, e: nat, x: Option<nat>)
    requires LinkedBut(s, Some(e), x)
    requires e in s.shape.owned && s.shape.owned[e] in s.throttled && e !in s.onRq
    ensures LinkedBut(s, x, None)
  {
    assert Linked(s, e);
  }

  lemma AboveParent(s: State, q: nat, e: nat, x: Option<nat>)
    requires Tree(s) && Layered(s) && q in s.shape.se && e in s.shape.on && s.shape.on[e] == q
    requires x == Some(e) || Above(s, q, x)
    ensures Above(s, s.shape.on[s.shape.se[q]], x)
  {
    OwnQueueElsewhere(s, q);
  }

  // ------------------------------------------------------- the walks as seen by their loops

  /** The runnable tasks: what is queued and owns no queue of its own. */
  ghost function Runnable(s: State): set<nat> {
    s.onRq - s.shape.owned.Keys
  }

  lemma RunnableSteps(s: State, e: nat)
    ensures Runnable(Inserted(s, e)) == if e in s.shape.owned then Runnable(s) else Runnable(s) + {e}
    ensures Runnable(Removed(s, e)) == if e in s.shape.owned then Runnable(s) else Runnable(s) - {e}
  {
  }

  /** Queueing e on an empty queue finds the entity above it off its own queue, unless throttled. */
  ghost predicate Ready(s: State, e: nat) {
    e in s.shape.on && s.shape.on[e] in s.shape.se && s.shape.on[e] !in s.throttled && Queued(s, s.shape.on[e]) == {} ==>
      s.shape.se[s.shape.on[e]] !in s.onRq && s.shape.se[s.shape.on[e]] != e
  }

  lemma ReadyToEnter(s: State, e: nat, delta: int)
    requires PendingUp(s, Some(e), delta) && e !in s.onRq
    ensures Ready(s, e)
  {
    hide Sum, HSum, Counted;
    var q := s.shape.on[e];
    if q in s.shape.se {
      OwnQueueElsewhere(s, q);
      assert Linked(s, s.shape.se[q]);
    }
  }

  /** A task that is not queued may enter any valid hierarchy. */
  lemma StartUp(s: State, p: nat)
    requires Valid(s) && p in s.shape.entities && p !in s.shape.owned && p !in s.onRq
    ensures PendingUp(s, Some(p), 1)
  {
    hide Counted, Linked;
  }

  lemma FinishUp(s: State, delta: int)
    requires PendingUp(s, None, delta)
    ensures Valid(s.(total := s.total + delta))
  {
    hide Sum, HSum, Tree, Layered, Counted, LinkedBut;
    Retotalled(s, s.total + delta, None);
  }

  lemma Retotalled(s: State, total: int, x: Option<nat>)
    requires Tree(s) && Layered(s) && Counted(s, None, 0) && LinkedBut(s, x, None) && total == s.h[s.shape.root]
    ensures ValidBut(s.(total := total), x)
  {
    hide Sum, HSum, Tree, Layered, Counted, LinkedBut;
    var t := s.(total := total);
    TreeSplit(s);
    TreeKept(s, t);
    SameCounts(s, t);
    SameLinks(s, t, x);
  }

  lemma TreeSplit(s: State)
    requires Tree(s)
    ensures s.onRq <= s.shape.entities && s.h.Keys == s.shape.queues && s.shape.root !in s.throttled
  {
  }

  lemma SameLinks(s: State, t: State, x: Option<nat>)
    requires s.shape == t.shape && s.onRq == t.onRq && s.throttled == t.throttled && LinkedBut(s, x, None)
    ensures LinkedBut(t, x, None)
  {
    forall e | e in s.shape.owned && x != Some(e)
      ensures Linked(t, e)
    {
      assert Linked(s, e);
      assert Queued(t, s.shape.owned[e]) == Queued(s, s.shape.owned[e]);
    }
  }

  /** Sums depend only on who is queued and what is counted. */
  lemma SameCounts(s: State, t: State)
    requires s.onRq <= s.shape.entities && s.h.Keys == s.shape.queues
    requires s.shape == t.shape && s.onRq == t.onRq && s.h == t.h && Counted(s, None, 0)
    ensures Counted(t, None, 0)
  {
    hide Sum;
    forall q | q in s.shape.queues
      ensures HSum(t, q) == HSum(s, q)
    {
      assert Queued(t, q) == Queued(s, q);
      assert Counts(t) == Counts(s);
    }
  }

  /** The loops that queue: either se still counts for what is below it, or it has just been queued. */
  ghost predicate RaisingFrom(s: State, se: Option<nat>, delta: int) {
    match se
    case None => PendingUp(s, None, delta)
    case Some(e) => Raising(s, e, delta) && (s.shape.on[e] in s.shape.se && s.shape.on[e] !in s.throttled ==> s.shape.se[s.shape.on[e]] in s.onRq)
  }

  lemma RaiseOn(s: State, e: nat, delta: int)
    requires RaisingFrom(s, Some(e), delta)
    ensures var q, t := s.shape.on[e], Raised(s, s.shape.on[e], delta);
            if q in s.throttled then Valid(t) else RaisingFrom(t, Parent(s, q), delta)
  {
    hide Sum, HSum, Tree, Layered, Counted, Queued, LinkedBut, Linked, PendingUp, Valid;
    TreeFacts(s, e);
    Climb(s, e, delta);
    var q, t := s.shape.on[e], Raised(s, s.shape.on[e], delta);
    if q !in s.throttled && q in s.shape.se {
      StayRaising(t, s.shape.se[q], delta);
    }
  }

  /** The state at the top of the loops that take off queues. */
  ghost predicate Going(s: State, se: Option<nat>, delta: int, x: Option<nat>) {
    match se
    case None => PendingDown(s, None, delta, x)
    case Some(e) => Leaving(s, e, delta, x) || (PendingDown(s, se, delta, x) && Queued(s, s.shape.owned[e]) == {})
  }

  ghost predicate LoweringFrom(s: State, se: Option<nat>, delta: int, x: Option<nat>) {
    match se
    case None => PendingDown(s, None, delta, x)
    case Some(e) => Lowering(s, e, delta, x) && (s.shape.on[e] !in s.throttled ==> e in s.onRq)
  }

  lemma Leave(s: State, e: nat, delta: int, x: Option<nat>)
    requires Going(s, Some(e), delta, x)
    ensures Layered(s) && e in s.onRq && Lowering(Removed(s, e), e, delta, x)
  {
    if Leaving(s, e, delta, x) {
      LeaveFresh(s, e, delta, x);
    } else {
      LeaveEmpty(s, e, delta, x);
    }
  }

  /** After lowering q the walk goes on above it: on with taking off if q ran empty, else only counting. */
  lemma LowerOn(s: State, e: nat, delta: int, x: Option<nat>)
    requires Lowering(s, e, delta, x)
    ensures var q, t := s.shape.on[e], Raised(s, s.shape.on[e], -delta);
            && (q in s.throttled ==> ValidBut(t, x) && (q in s.shape.se ==> s.shape.se[q] !in t.onRq))
            && (q !in s.throttled && Queued(t, q) == {} ==> Going(t, Parent(s, q), delta, x))
            && (q !in s.throttled && Queued(t, q) != {} ==> LoweringFrom(t, Parent(s, q), delta, x))
  {
    hide Sum, HSum, Tree, Layered, Counted, Queued, LinkedBut, Linked, ValidBut, Above;
    TreeFacts(s, e);
    Descend(s, e, delta, x);
    var q, t := s.shape.on[e], Raised(s, s.shape.on[e], -delta);
    if q !in s.throttled && q in s.shape.se {
      OwnedBack(s, q);
      if Queued(t, q) != {} {
        StayLowering(t, s.shape.se[q], delta, x);
      }
    }
  }

  lemma OwnedBack(s: State, q: nat)
    requires Tree(s) && q in s.shape.se
    ensures s.shape.se[q] in s.shape.owned && s.shape.owned[s.shape.se[q]] == q
  {
  }

  /** A queued entity may leave any valid hierarchy; a group's own link is then settled by the caller. */
  lemma StartDown(s: State, e: nat)
    requires Valid(s) && e in s.onRq
    ensures Going(s, Some(e), Count(s, e), if e in s.shape.owned then Some(e) else None)
  {
    hide Counted, Linked;
  }

  lemma FinishDown(s: State, delta: int, x: Option<nat>)
    requires PendingDown(s, None, delta, x)
    ensures ValidBut(s.(total := s.total - delta), x)
  {
    hide Linked;
    assert LinkedBut(s, x, None);
    Retotalled(s, s.total - delta, x);
  }

  /** Marking a queue throttled settles the link of the entity that has just left for it. */
  lemma ThrottleSettles(s: State, q: nat)
    requires q in s.shape.se && s.shape.se[q] !in s.onRq && q !in s.throttled
    requires ValidBut(s, Some(s.shape.se[q]))
    ensures Valid(Throttled(s, q))
  {
    hide Sum, HSum, Tree, Layered, Counted;
    var t := Throttled(s, q);
    TreeSplit(s);
    RootHasNoEntity(s, q);
    TreeKept(s, t);
    SameCounts(s, t);
    OwnerUnique(s, q);
    forall e | e in s.shape.owned
      ensures Linked(t, e)
    {
      assert Queued(t, s.shape.owned[e]) == Queued(s, s.shape.owned[e]);
      if e != s.shape.se[q] {
        assert Linked(s, e);
      }
    }
  }

  lemma RootHasNoEntity(s: State, q: nat)
    requires Tree(s) && q in s.shape.se
    ensures q != s.shape.root && s.shape.se[q] in s.shape.owned
  {
  }

  lemma OwnerUnique(s: State, q: nat)
    requires Tree(s) && q in s.shape.se
    ensures forall e :: e in s.shape.owned && e != s.shape.se[q] ==> s.shape.owned[e] != q
    ensures s.shape.se[q] in s.shape.owned && s.shape.owned[s.shape.se[q]] == q
  {
  }

  lemma ValidWeaken(s: State, x: Option<nat>)
    requires Valid(s)
    ensures ValidBut(s, x)
  {
    hide Counted, Linked;
  }

  /** Lifting the mark leaves everything agreeing if q is empty, and otherwise q's tasks to be counted above it. */
  lemma UnthrottleOpens(s: State, q: nat)
    requires Valid(s) && q in s.throttled && q in s.shape.se && q in s.h && q in s.shape.queues
    ensures var t := Unthrottled(s, q);
            if Queued(t, q) == {} then Valid(t) else !Valid(t) && PendingUp(t, Some(s.shape.se[q]), s.h[q])
  {
    hide Sum, HSum, Tree, Layered, Counted;
    var t := Unthrottled(s, q);
    TreeSplit(s);
    OwnerUnique(s, q);
    QueueFacts(s, q);
    TreeKept(s, t);
    SameCounts(s, t);
    assert Queued(t, q) == Queued(s, q);
    forall e | e in s.shape.owned && (e == s.shape.se[q] ==> Queued(t, q) == {})
      ensures Linked(t, e)
    {
      assert Queued(t, s.shape.owned[e]) == Queued(s, s.shape.owned[e]);
      assert Linked(s, e);
    }
    assert Linked(s, s.shape.se[q]);
    assert Queued(t, q) != {} ==> !Linked(t, s.shape.se[q]);
  }

  /**
   * The throttle walk, which does not look at throttled queues itself: it stops
   * where the entity above is off its queue, and by then everything agrees.
   */
  ghost predicate Ascending(s: State, se: Option<nat>, delta: int, x: Option<nat>, dequeue: bool) {
    if se.Some? && se.value !in s.onRq then ValidBut(s, x)
    else if dequeue then Going(s, se, delta, x) else LoweringFrom(s, se, delta, x)
  }

  lemma AscendStep(s: State, e: nat, delta: int, x: Option<nat>, dequeue: bool)
    requires Ascending(s, Some(e), delta, x, dequeue) && e in s.onRq
    ensures e in s.shape.on && s.shape.on[e] in s.h
    ensures var q, t := s.shape.on[e], if dequeue then Removed(s, e) else s;
            var u := Raised(t, q, -delta);
            Ascending(u, Parent(s, q), delta, x, dequeue && Queued(u, q) == {}) && Layered(s)
  {
    hide Sum, HSum, Tree, Layered, Counted, Queued, LinkedBut, Linked, ValidBut, Above;
    LoweringTree(s, e, delta, x, dequeue);
    if dequeue {
      Leave(s, e, delta, x);
    }
    var q, t := s.shape.on[e], if dequeue then Removed(s, e) else s;
    LowerOn(t, e, delta, x);
    if !dequeue {
      QueuedWithin(s, e, q);
      StaysOccupied(s, q, e, -delta);
    }
    if q in s.throttled {
      ThrottledBelow(s, q);
    }
  }

  lemma AscendDone(s: State, delta: int, x: Option<nat>, dequeue: bool)
    requires Ascending(s, None, delta, x, dequeue)
    ensures PendingDown(s, None, delta, x)
  {
  }

  lemma LoweringTree(s: State, e: nat, delta: int, x: Option<nat>, dequeue: bool)
    requires Ascending(s, Some(e), delta, x, dequeue) && e in s.onRq
    ensures Tree(s) && Layered(s) && e in s.shape.on && s.shape.on[e] in s.h && s.shape.on[e] in s.shape.queues
  {
    hide Sum, HSum, Layered, Counted, Queued, LinkedBut, Linked;
  }

  lemma ThrottledBelow(s: State, q: nat)
    requires Tree(s) && q in s.shape.queues && q in s.throttled
    ensures q in s.shape.se
  {
  }

  /** At the top of the unthrottle walk: the entity may be queued, or is raised once it is. */
  lemma PrepareRaise(s: State, e: nat, delta: int, enqueue: bool)
    requires if enqueue then PendingUp(s, Some(e), delta) else RaisingFrom(s, Some(e), delta)
    ensures Tree(s) && Layered(s) && e in s.shape.on && s.shape.on[e] in s.h
    ensures if enqueue && e !in s.onRq then Ready(s, e) else RaisingFrom(s, Some(e), delta) && e in s.onRq
  {
    hide Sum, HSum, Tree, Layered, Counted, Queued, LinkedBut, Linked, Ready;
    if enqueue {
      TreeFacts(s, e);
      if e in s.onRq {
        StayRaising(s, e, delta);
      } else {
        ReadyToEnter(s, e, delta);
      }
    } else {
      TreeFacts(s, e);
    }
  }

  lemma ClimbStep(s: State, e: nat, delta: int, enqueue: bool)
    requires if enqueue then Raising(s, e, delta) else RaisingFrom(s, Some(e), delta)
    ensures e in s.shape.on && s.shape.on[e] in s.h
    ensures var q, t := s.shape.on[e], Raised(s, s.shape.on[e], delta);
            if q in s.throttled then Valid(t)
            else if enqueue then PendingUp(t, Parent(s, q), delta) else RaisingFrom(t, Parent(s, q), delta)
  {
    hide Sum, HSum, Tree, Layered, Counted, Queued, LinkedBut, Linked, PendingUp, Valid;
    TreeFacts(s, e);
    Climb(s, e, delta);
    if !enqueue {
      RaiseOn(s, e, delta);
    }
  }

  lemma RaisingTree(s: State, e: nat, delta: int, enqueue: bool)
    requires if enqueue then Raising(s, e, delta) else RaisingFrom(s, Some(e), delta)
    ensures Tree(s) && Layered(s)
  {
    hide Sum, HSum, Tree, Layered, Counted, Queued, LinkedBut, Linked;
  }

  lemma FinishRaise(s: State, delta: int, enqueue: bool)
    requires if enqueue then PendingUp(s, None, delta) else RaisingFrom(s, None, delta)
    ensures Valid(s.(total := s.total + delta))
  {
    FinishUp(s, delta);
  }

  /** The loop that only counts: an entity that is still queued keeps its queue occupied. */
  lemma StayOn(s: State, e: nat, delta: int, x: Option<nat>)
    requires LoweringFrom(s, Some(e), delta, x)
    ensures Layered(s) && e in s.shape.on && s.shape.on[e] in s.h
    ensures var q, t := s.shape.on[e], Raised(s, s.shape.on[e], -delta);
            if q in s.throttled then ValidBut(t, x) else LoweringFrom(t, Parent(s, q), delta, x)
  {
    hide Sum, HSum, Tree, Layered, Counted, Queued, LinkedBut, Linked, ValidBut, Above;
    TreeFacts(s, e);
    var q := s.shape.on[e];
    LowerOn(s, e, delta, x);
    if q !in s.throttled {
      StaysOccupied(s, q, e, -delta);
    }
  }

  lemma RaisingOver(s: State, delta: int)
    requires PendingUp(s, None, delta)
    ensures RaisingFrom(s, None, delta)
  {
  }

  lemma RaisingThrottled(s: State, e: nat, delta: int)
    requires Raising(s, e, delta) && s.shape.on[e] in s.throttled
    ensures RaisingFrom(s, Some(e), delta)
  {
  }

  lemma GoingOver(s: State, delta: int, x: Option<nat>)
    requires Going(s, None, delta, x) || LoweringFrom(s, None, delta, x)
    ensures LoweringFrom(s, None, delta, x)
  {
  }

  lemma LoweringThrottled(s: State, e: nat, delta: int, x: Option<nat>)
    requires Lowering(s, e, delta, x) && s.shape.on[e] in s.throttled
    ensures LoweringFrom(s, Some(e), delta, x)
  {
  }

  // ------------------------------------------------- queues that wake up

  /** Enqueued, and throttled at once exactly if the queue was empty and is due for it. */
  ghost predicate EnqueuedDue(s: State, e: nat, t: State, due: set<nat>)
    requires e in s.shape.on
  {
    var q := s.shape.on[e];
    t == if Queued(s, q) == {} && q !in s.throttled && q in due then Throttled(Inserted(s, e), q) else Inserted(s, e)
  }

  /** Nothing has left its queue, and throttled are those that were, and those that woke up due for it. */
  ghost predicate ThrottledAsDue(s: State, t: State, due: set<nat>) {
    && s.onRq <= t.onRq
    && forall q {:trigger q in t.throttled} ::
         q in t.throttled <==> q in s.throttled || (Queued(s, q) == {} && Queued(t, q) != {} && q in due)
  }

  /** The walk up has come to the queues less than height deep, none of which has changed yet. */
  ghost predicate OnCourse(s: State, t: State, due: set<nat>, height: nat) {
    && ThrottledAsDue(s, t, due) && t.shape == s.shape
    && forall q :: q in s.shape.depth && s.shape.depth[q] < height ==> Queued(t, q) == Queued(s, q)
  }

  lemma CourseStarts(s: State, due: set<nat>, height: nat)
    ensures OnCourse(s, s, due, height)
  {
  }

  lemma SameRunnable(s: State, t: State)
    requires t.onRq == s.onRq && t.shape == s.shape
    ensures Runnable(t) == Runnable(s)
  {
  }

  lemma CourseEnds(s: State, t: State, due: set<nat>, height: nat)
    requires OnCourse(s, t, due, height)
    ensures ThrottledAsDue(s, t, due)
  {
  }

  /** What does not move entities or mark queues does not matter. */
  lemma SameCourse(s: State, t: State, due: set<nat>, height: nat, u: State, next: nat)
    requires OnCourse(s, t, due, height) && u.shape == t.shape && u.onRq == t.onRq && u.throttled == t.throttled && next <= height
    ensures OnCourse(s, u, due, next)
  {
    assert forall q :: Queued(u, q) == Queued(t, q);
  }

  /** One more queue on the way up, whose runtime alone has been accounted meanwhile. */
  lemma CourseStep(s: State, t: State, due: set<nat>, e: nat, u: State, after: set<nat>)
    requires e in t.shape.on && t.shape.on[e] in t.shape.depth
    requires OnCourse(s, t, due, t.shape.depth[t.shape.on[e]] + 1)
    requires EnqueuedDue(t, e, u, after) && after - {t.shape.on[e]} == due - {t.shape.on[e]}
    ensures OnCourse(s, u, after, t.shape.depth[t.shape.on[e]])
  {
    var q := t.shape.on[e];
    forall p
      ensures Queued(u, p) == if p == q then Queued(t, p) + {e} else Queued(t, p)
    {
      QueuedInserted(t, e, p);
      assert Queued(u, p) == Queued(Inserted(t, e), p);
    }
    hide Queued;
    assert forall p :: p != q ==> (p in after <==> p in after - {q}) && (p in due <==> p in due - {q});
  }

  /** The queue that was opened with something on it stays open, and every other one that was throttled stays throttled. */
  lemma StaysOpen(s: State, q: nat, t: State, due: set<nat>)
    requires ThrottledAsDue(Unthrottled(s, q), t, due) && (Queued(s, q) != {} || t == Unthrottled(s, q))
    ensures q !in t.throttled && s.throttled - {q} <= t.throttled
  {
    assert Queued(Unthrottled(s, q), q) == Queued(s, q);
    assert forall p :: p in s.throttled - {q} ==> p in Unthrottled(s, q).throttled && p in t.throttled;
  }
}
