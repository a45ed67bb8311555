/**
 * Switching from one task to another in a hierarchy of run queues: touching
 * only the queues in which the two differ has the effect of putting back the
 * whole chain of the one and setting the whole chain of the other.
 */
module Switch {
  import opened Common
  import opened Timeline

  /** What is running in a queue, what waits there, and who has been asked for or is to be skipped. */
  datatype Queue = Queue(curr: Option<Entity>, timeline: seq<Entity>, buddies: Buddies)

  /**
   * The queues' tree: up leads to the queue one level up, group is the entity
   * that stands for a queue there, owned the queue a group entity stands for.
   */
  datatype Tree = Tree(root: nat, up: map<nat, nat>, group: map<nat, Entity>, owned: map<Entity, nat>, depth: map<nat, nat>, height: nat)

  ghost predicate WellFormed(t: Tree) {
    && t.root in t.depth && t.root !in t.up && t.depth.Keys == t.up.Keys + {t.root} && t.group.Keys == t.up.Keys
    && t.depth[t.root] == 0
    && (forall q {:trigger t.up[q]} :: q in t.up ==> t.up[q] in t.depth && t.depth[q] == t.depth[t.up[q]] + 1)
    && (forall q {:trigger t.group[q]} :: q in t.up ==> t.group[q] in t.owned && t.owned[t.group[q]] == q)
    && (forall e {:trigger t.owned[e]} :: e in t.owned ==> t.owned[e] in t.up && t.group[t.owned[e]] == e)
    && (forall q {:trigger t.depth[q]} :: q in t.depth ==> t.depth[q] <= t.height)
  }

  /** An entity and the queue it belongs to: a step of the way from a task to the root. */
  datatype Place = Place(e: Entity, q: nat)

  function Depth(t: Tree, p: Place): nat {
    if p.q in t.depth then t.depth[p.q] else 0
  }

  /** parent_entity, where there is one. */
  function Above(t: Tree, p: Place): Place
    requires p.q in t.up && p.q in t.group
  {
    Place(t.group[p.q], t.up[p.q])
  }

  lemma AboveFacts(t: Tree, p: Place)
    requires WellFormed(t) && p.q in t.depth
    ensures p.q != t.root <==> p.q in t.up
    ensures p.q in t.up ==> p.q in t.group && t.up[p.q] in t.depth && Depth(t, p) == Depth(t, Above(t, p)) + 1
    ensures p.q == t.root ==> Depth(t, p) == 0
  {
  }

  type State = map<nat, Queue>

  /** put_prev_entity. */
  function Put(s: State, p: Place, onRq: set<Entity>): State
    requires p.q in s
  {
    s[p.q := s[p.q].(curr := None, timeline := if p.e in onRq then Inserted(s[p.q].timeline, p.e) else s[p.q].timeline)]
  }

  /** set_next_entity. */
  function Set(s: State, p: Place, onRq: set<Entity>): State
    requires p.q in s
  {
    s[p.q := s[p.q].(curr := Some(p.e), timeline := if p.e in onRq then Removed(s[p.q].timeline, p.e) else s[p.q].timeline)]
  }

  /** put_prev_task_fair: the whole chain from p up. */
  ghost function PutAll(t: Tree, s: State, p: Place, onRq: set<Entity>): (r: State)
    requires WellFormed(t) && s.Keys == t.depth.Keys && p.q in t.depth
    ensures r.Keys == s.Keys
    decreases Depth(t, p)
  {
    AboveFacts(t, p);
    if p.q == t.root then Put(s, p, onRq) else PutAll(t, Put(s, p, onRq), Above(t, p), onRq)
  }

  /** Setting the whole chain from the root down to p. */
  ghost function SetAll(t: Tree, s: State, p: Place, onRq: set<Entity>): (r: State)
    requires WellFormed(t) && s.Keys == t.depth.Keys && p.q in t.depth
    ensures r.Keys == s.Keys
    decreases Depth(t, p)
  {
    AboveFacts(t, p);
    if p.q == t.root then Set(s, p, onRq) else Set(SetAll(t, s, Above(t, p), onRq), p, onRq)
  }

  lemma DistinctQueuesCommute(s: State, p: Place, n: Place, onRq: set<Entity>)
    requires p.q in s && n.q in s && p.q != n.q
    ensures Put(Set(s, n, onRq), p, onRq) == Set(Put(s, p, onRq), n, onRq)
    ensures Set(Set(s, p, onRq), n, onRq) == Set(Set(s, n, onRq), p, onRq)
  {
  }

  /** Setting an entity of a queue that the chain does not touch may as well happen before the chain is put back. */
  lemma {:induction false} SetBeforePutAll(t: Tree, s: State, p: Place, onRq: set<Entity>, n: Place)
    requires WellFormed(t) && s.Keys == t.depth.Keys && p.q in t.depth && n.q in t.depth
    requires Depth(t, n) > Depth(t, p) || (Depth(t, n) == Depth(t, p) && n.q != p.q)
    ensures Set(PutAll(t, s, p, onRq), n, onRq) == PutAll(t, Set(s, n, onRq), p, onRq)
    decreases Depth(t, p)
  {
    AboveFacts(t, p);
    DistinctQueuesCommute(s, p, n, onRq);
    hide Put, Set, WellFormed;
    if p.q != t.root {
      SetBeforePutAll(t, Put(s, p, onRq), Above(t, p), onRq, n);
    }
  }

  lemma {:induction false} SetBeforeSetAll(t: Tree, s: State, p: Place, onRq: set<Entity>, n: Place)
    requires WellFormed(t) && s.Keys == t.depth.Keys && p.q in t.depth && n.q in t.depth
    requires Depth(t, n) > Depth(t, p)
    ensures Set(SetAll(t, s, p, onRq), n, onRq) == SetAll(t, Set(s, n, onRq), p, onRq)
    decreases Depth(t, p)
  {
    AboveFacts(t, p);
    if p.q == t.root {
      DistinctQueuesCommute(s, p, n, onRq);
    } else {
      SetBeforeSetAll(t, s, Above(t, p), onRq, n);
      DistinctQueuesCommute(SetAll(t, s, Above(t, p), onRq), p, n, onRq);
    }
    hide Put, Set, WellFormed;
  }

  /** The chain from p up is what runs: each of its entities is the current one of its queue and does not wait there. */
  ghost predicate Running(t: Tree, s: State, p: Place)
    requires WellFormed(t) && s.Keys == t.depth.Keys && p.q in t.depth
    decreases Depth(t, p)
  {
    AboveFacts(t, p);
    s[p.q].curr == Some(p.e) && p.e !in s[p.q].timeline && (p.q != t.root ==> Running(t, s, Above(t, p)))
  }

  /** The chain from p up is runnable. */
  ghost predicate Queued(t: Tree, p: Place, onRq: set<Entity>)
    requires WellFormed(t) && p.q in t.depth
    decreases Depth(t, p)
  {
    AboveFacts(t, p);
    p.e in onRq && (p.q != t.root ==> Queued(t, Above(t, p), onRq))
  }

  lemma {:induction false} RunningElsewhere(t: Tree, s: State, p: Place, q: nat, x: Queue)
    requires WellFormed(t) && s.Keys == t.depth.Keys && p.q in t.depth && q in t.depth && Running(t, s, p)
    requires t.depth[q] > Depth(t, p) || (t.depth[q] == Depth(t, p) && q != p.q)
    ensures Running(t, s[q := x], p)
    decreases Depth(t, p)
  {
    AboveFacts(t, p);
    if p.q != t.root {
      RunningElsewhere(t, s, Above(t, p), q, x);
    }
  }

  /** Putting back a running chain and setting it again changes nothing. */
  lemma {:induction false} PutAndSetAgain(t: Tree, s: State, p: Place, onRq: set<Entity>)
    requires WellFormed(t) && s.Keys == t.depth.Keys && p.q in t.depth && Running(t, s, p) && Queued(t, p, onRq)
    ensures SetAll(t, PutAll(t, s, p, onRq), p, onRq) == s
    decreases Depth(t, p)
  {
    AboveFacts(t, p);
    RemovedInserted(s[p.q].timeline, p.e);
    var put := Put(s, p, onRq);
    if p.q == t.root {
      assert Set(put, p, onRq) == s;
    } else {
      RunningElsewhere(t, s, Above(t, p), p.q, put[p.q]);
      PutAndSetAgain(t, put, Above(t, p), onRq);
      assert Set(put, p, onRq) == s;
    }
  }

  // ------------------------------------------------------- choosing a task

  /** Whom a queue would run next, its current entity counting if it is still runnable. */
  function PickAt(x: Queue, onRq: set<Entity>): Option<Entity> {
    Pick(x.timeline, if x.curr.Some? && x.curr.value in onRq then x.curr else None, x.buddies)
  }

  /** The task found by picking an entity in q and going down into what it stands for. */
  ghost function PickDown(t: Tree, s: State, q: nat, onRq: set<Entity>): (r: Option<Place>)
    requires WellFormed(t) && s.Keys == t.depth.Keys && q in t.depth
    ensures r.Some? ==> r.value.q in t.depth
    decreases t.height - t.depth[q]
  {
    var e := PickAt(s[q], onRq);
    if e.None? then None
    else if e.value in t.owned then
      var own := t.owned[e.value];
      if t.up[own] == q then
        DeeperFacts(t, own);
        PickDown(t, s, own, onRq)
      else None
    else Some(Place(e.value, q))
  }

  lemma DeeperFacts(t: Tree, q: nat)
    requires WellFormed(t) && q in t.up
    ensures q in t.depth && t.up[q] in t.depth && t.depth[t.up[q]] < t.depth[q] <= t.height
  {
  }

  /** Only runnable entities wait in the queues or are somebody's buddy. */
  ghost predicate Runnable(x: Queue, onRq: set<Entity>) {
    && (forall i :: 0 <= i < |x.timeline| ==> x.timeline[i] in onRq)
    && (x.buddies.skip.Some? ==> x.buddies.skip.value in onRq)
    && (x.buddies.last.Some? ==> x.buddies.last.value in onRq)
    && (x.buddies.next.Some? ==> x.buddies.next.value in onRq)
  }

  ghost predicate OnChain(t: Tree, p: Place, q: nat)
    requires WellFormed(t) && p.q in t.depth
    decreases Depth(t, p)
  {
    AboveFacts(t, p);
    p.q == q || (p.q != t.root && OnChain(t, Above(t, p), q))
  }

  lemma {:induction false} ChainNotBelow(t: Tree, p: Place, q: nat)
    requires WellFormed(t) && p.q in t.depth && q in t.depth && OnChain(t, p, q)
    ensures t.depth[q] < Depth(t, p) || q == p.q
    decreases Depth(t, p)
  {
    AboveFacts(t, p);
    if p.q != q {
      ChainNotBelow(t, Above(t, p), q);
    }
  }

  /** Putting back a running chain puts back the current entity of every queue on it, and nothing else. */
  lemma {:induction false} PutAllAt(t: Tree, s: State, p: Place, onRq: set<Entity>, q: nat)
    requires WellFormed(t) && s.Keys == t.depth.Keys && p.q in t.depth && q in t.depth && Running(t, s, p)
    ensures OnChain(t, p, q) ==> s[q].curr.Some? && s[q].curr.value !in s[q].timeline
                                 && PutAll(t, s, p, onRq)[q] == Put(s, Place(s[q].curr.value, q), onRq)[q]
    ensures !OnChain(t, p, q) ==> PutAll(t, s, p, onRq)[q] == s[q]
    decreases Depth(t, p)
  {
    AboveFacts(t, p);
    if p.q != t.root {
      var put := Put(s, p, onRq);
      RunningElsewhere(t, s, Above(t, p), p.q, put[p.q]);
      PutAllAt(t, put, Above(t, p), onRq, q);
      if OnChain(t, Above(t, p), q) {
        ChainNotBelow(t, Above(t, p), q);
      }
    }
  }

  /** p's chain runs, and nothing else does. */
  ghost predicate Current(t: Tree, s: State, p: Place)
    requires WellFormed(t) && s.Keys == t.depth.Keys && p.q in t.depth
  {
    Running(t, s, p) && forall q :: q in t.depth && s[q].curr.Some? ==> OnChain(t, p, q)
  }

  /** No queue's choice depends on whether what runs has been put back first. */
  lemma PickAtSame(t: Tree, s: State, p: Place, onRq: set<Entity>, q: nat)
    requires WellFormed(t) && s.Keys == t.depth.Keys && p.q in t.depth && q in t.depth && Current(t, s, p)
    ensures PickAt(PutAll(t, s, p, onRq)[q], onRq) == PickAt(s[q], onRq)
  {
    PutAllAt(t, s, p, onRq, q);
    if OnChain(t, p, q) && s[q].curr.value in onRq {
      CurrOutsideChangesNothing(s[q].timeline, s[q].curr.value, s[q].buddies);
    }
  }

  lemma {:induction false} PickDownSame(t: Tree, s: State, p: Place, onRq: set<Entity>, q: nat)
    requires WellFormed(t) && s.Keys == t.depth.Keys && p.q in t.depth && q in t.depth && Current(t, s, p)
    ensures PickDown(t, PutAll(t, s, p, onRq), q, onRq) == PickDown(t, s, q, onRq)
    decreases t.height - t.depth[q]
  {
    hide Pick;
    PickAtSame(t, s, p, onRq, q);
    var e := PickAt(s[q], onRq);
    if e.Some? && e.value in t.owned && t.up[t.owned[e.value]] == q {
      DeeperFacts(t, t.owned[e.value]);
      PickDownSame(t, s, p, onRq, t.owned[e.value]);
    }
  }

  lemma PickRunnable(x: Queue, onRq: set<Entity>)
    requires Runnable(x, onRq)
    ensures var e := PickAt(x, onRq); e.Some? ==> e.value in onRq
  {
  }

  /** e waits in the queue or runs and is runnable: it can be picked. */
  ghost predicate Waiting(x: Queue, e: Entity, onRq: set<Entity>) {
    e in x.timeline || (x.curr == Some(e) && e in onRq)
  }

  ghost predicate Occupied(x: Queue, onRq: set<Entity>) {
    x.timeline != [] || (x.curr.Some? && x.curr.value in onRq)
  }

  ghost predicate BuddiesWait(x: Queue, onRq: set<Entity>) {
    && (x.buddies.skip.Some? ==> Waiting(x, x.buddies.skip.value, onRq))
    && (x.buddies.last.Some? ==> Waiting(x, x.buddies.last.value, onRq))
    && (x.buddies.next.Some? ==> Waiting(x, x.buddies.next.value, onRq))
  }

  /** Queues hold their own entities only, and a group that waits or runs has something runnable. */
  ghost predicate Placed(t: Tree, s: State, onRq: set<Entity>)
    requires WellFormed(t) && s.Keys == t.depth.Keys
  {
    && (forall q {:trigger s[q]} :: q in t.depth ==> BuddiesWait(s[q], onRq))
    && (forall q, e {:trigger Waiting(s[q], e, onRq)} :: q in t.depth && Waiting(s[q], e, onRq) && e in t.owned ==>
          t.up[t.owned[e]] == q && Occupied(s[t.owned[e]], onRq))
  }

  lemma PickWaiting(x: Queue, onRq: set<Entity>)
    requires BuddiesWait(x, onRq)
    ensures var e := PickAt(x, onRq);
            (e.Some? <==> Occupied(x, onRq)) && (e.Some? ==> Waiting(x, e.value, onRq))
  {
    if x.timeline != [] {
      assert x.timeline[0] in x.timeline;
    }
    if |x.timeline| > 1 {
      assert x.timeline[1..][0] == x.timeline[1];
    }
  }

  /** Going down from a queue that has something runnable finds a task. */
  lemma {:induction false} TaskFound(t: Tree, s: State, onRq: set<Entity>, q: nat)
    requires WellFormed(t) && s.Keys == t.depth.Keys && q in t.depth && Placed(t, s, onRq)
    ensures PickDown(t, s, q, onRq).Some? <==> Occupied(s[q], onRq)
    decreases t.height - t.depth[q]
  {
    hide PickAt, BuddiesWait;
    PickWaiting(s[q], onRq);
    var e := PickAt(s[q], onRq);
    if e.Some? && e.value in t.owned {
      assert Waiting(s[q], e.value, onRq);
      DeeperFacts(t, t.owned[e.value]);
      TaskFound(t, s, onRq, t.owned[e.value]);
    }
  }

  class Rq {
    const tree: Tree
    var queues: State
    var onRq: set<Entity>

    constructor (tree: Tree)
      requires WellFormed(tree)
      ensures this.tree == tree && onRq == {} && queues.Keys == tree.depth.Keys
      ensures forall q :: q in queues ==> queues[q] == Queue(None, [], Buddies(None, None, None))
    {
      this.tree, onRq := tree, {};
      queues := map q | q in tree.depth :: Queue(None, [], Buddies(None, None, None));
    }

    ghost predicate Shaped()
      reads this
    {
      WellFormed(tree) && queues.Keys == tree.depth.Keys
    }

    method PutPrevEntity(p: Place)
      requires p.q in queues
      modifies `queues
      ensures queues == Put(old(queues), p, onRq)
    {
      queues := queues[p.q := queues[p.q].(curr := None,
        timeline := if p.e in onRq then Inserted(queues[p.q].timeline, p.e) else queues[p.q].timeline)];
    }

    method SetNextEntity(p: Place)
      requires p.q in queues
      modifies `queues
      ensures queues == Set(old(queues), p, onRq)
    {
      queues := queues[p.q := queues[p.q].(curr := Some(p.e),
        timeline := if p.e in onRq then Removed(queues[p.q].timeline, p.e) else queues[p.q].timeline)];
    }

    /**
     * The partial switch of pick_next_task_fair: the deeper of the two walks
     * goes up until both are in the same queue; nothing above is touched.
     */
    method SwitchTo(prev: Place, next: Place)
      requires Shaped() && prev.q in queues && next.q in queues
      requires Running(tree, queues, prev) && Queued(tree, next, onRq)
      modifies `queues
      ensures Shaped() && queues == SetAll(tree, PutAll(tree, old(queues), prev, onRq), next, onRq)
    {
      var pse, se := prev, next;
      ghost var goal := SetAll(tree, PutAll(tree, queues, prev, onRq), next, onRq);
      while se.q != pse.q
        invariant Shaped() && pse.q in queues && se.q in queues
        invariant Running(tree, queues, pse) && Queued(tree, se, onRq)
        invariant SetAll(tree, PutAll(tree, queues, pse, onRq), se, onRq) == goal
        decreases Depth(tree, se) + Depth(tree, pse)
      {
        AboveFacts(tree, pse);
        AboveFacts(tree, se);
        var seDepth, pseDepth := Depth(tree, se), Depth(tree, pse);
        if seDepth <= pseDepth {
          RunningElsewhere(tree, queues, Above(tree, pse), pse.q, Put(queues, pse, onRq)[pse.q]);
          PutPrevEntity(pse);
          pse := Above(tree, pse);
        }
        if seDepth >= pseDepth {
          SetEarlier(tree, queues, pse, se, onRq);
          RunningElsewhere(tree, queues, pse, se.q, Set(queues, se, onRq)[se.q]);
          SetNextEntity(se);
          se := Above(tree, se);
        }
      }
      Meet(tree, queues, pse, se, onRq);
      PutPrevEntity(pse);
      SetNextEntity(se);
    }

    /**
     * The fast path of pick_next_task_fair: the task is picked while prev's
     * chain still runs, and then only what differs is switched. The result is
     * that of putting back all of prev's chain first, picking, and setting all
     * of the next task's chain.
     */
    method PickNextTaskFair(prev: Place) returns (next: Option<Place>)
      requires Shaped() && prev.q in queues && Current(tree, queues, prev)
      requires forall q :: q in queues ==> Runnable(queues[q], onRq)
      modifies `queues
      ensures Shaped()
      ensures next == PickDown(tree, PutAll(tree, old(queues), prev, onRq), tree.root, onRq)
      ensures next.None? ==> queues == old(queues)
      ensures Placed(tree, old(queues), onRq) ==> (next.Some? <==> Occupied(old(queues)[tree.root], onRq))
      ensures next.Some? ==> queues == SetAll(tree, PutAll(tree, old(queues), prev, onRq), next.value, onRq)
    {
      hide Pick, Placed, Occupied;
      PickDownSame(tree, queues, prev, onRq, tree.root);
      if Placed(tree, queues, onRq) {
        TaskFound(tree, queues, onRq, tree.root);
      }
      var q := tree.root;
      ghost var goal := PickDown(tree, queues, q, onRq);
      while true
        invariant Shaped() && queues == old(queues) && q in tree.depth && PickDown(tree, queues, q, onRq) == goal
        invariant q != tree.root ==> q in tree.up && q in tree.group && Queued(tree, Place(tree.group[q], tree.up[q]), onRq)
        decreases tree.height - tree.depth[q]
      {
        PickRunnable(queues[q], onRq);
        var se := PickAt(queues[q], onRq);
        if se.None? {
          return None;
        }
        if se.value !in tree.owned {
          next := Some(Place(se.value, q));
          break;
        }
        var own := tree.owned[se.value];
        if tree.up[own] != q {
          return None;
        }
        DeeperFacts(tree, own);
        q := own;
      }
      assert Queued(tree, next.value, onRq);
      if next.value == prev {
        PutAndSetAgain(tree, queues, prev, onRq);
        return;
      }
      SwitchTo(prev, next.value);
    }
  }

  lemma SetEarlier(t: Tree, s: State, pse: Place, se: Place, onRq: set<Entity>)
    requires WellFormed(t) && s.Keys == t.depth.Keys && pse.q in t.depth && se.q in t.up && se.q in t.group && t.up[se.q] in t.depth
    requires Depth(t, se) > Depth(t, pse) || (Depth(t, se) == Depth(t, pse) && se.q != pse.q)
    ensures SetAll(t, PutAll(t, s, pse, onRq), se, onRq) == SetAll(t, PutAll(t, Set(s, se, onRq), pse, onRq), Above(t, se), onRq)
  {
    AboveFacts(t, se);
    SetBeforePutAll(t, s, pse, onRq, se);
    SetBeforeSetAll(t, PutAll(t, s, pse, onRq), Above(t, se), onRq, se);
  }

  /** Siblings: all that the full switch does above them cancels out. */
  lemma Meet(t: Tree, s: State, pse: Place, se: Place, onRq: set<Entity>)
    requires WellFormed(t) && s.Keys == t.depth.Keys && pse.q in t.depth && se.q == pse.q
    requires Running(t, s, pse) && Queued(t, se, onRq)
    ensures SetAll(t, PutAll(t, s, pse, onRq), se, onRq) == Set(Put(s, pse, onRq), se, onRq)
  {
    AboveFacts(t, pse);
    if pse.q != t.root {
      RunningElsewhere(t, s, Above(t, pse), pse.q, Put(s, pse, onRq)[pse.q]);
      PutAndSetAgain(t, Put(s, pse, onRq), Above(t, pse), onRq);
    }
  }
}
