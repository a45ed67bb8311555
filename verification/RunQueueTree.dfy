/**
 * One CPU's tree of CFS run queues as values: what the hierarchy walks decide
 * on, and what it means for the derived counters to agree with the tree.
 * Queues and entities are named by numbers; FairScheduler ties them to objects.
 */
module RunQueueTree {
  import opened Common
  import opened Sums

  /**
   * A CPU's hierarchy. on gives the queue an entity is (to be) queued on, se
   * the entity that stands for a non-root queue one level up, owned the queue
   * a group entity owns; a task owns none.
   */
  datatype Shape = Shape(
    root: nat,
    queues: set<nat>,
    entities: set<nat>,
    on: map<nat, nat>,
    se: map<nat, nat>,
    owned: map<nat, nat>,
    depth: map<nat, nat>)

  /** What the hierarchy walks change, at one moment. */
  datatype State = State(
    shape: Shape,
    onRq: set<nat>,
    h: map<nat, int>,
    throttled: set<nat>,
    total: int)

  /** The load bookkeeping of the same queues and entities. */
  datatype Book = Book(weight: map<nat, int>, load: map<nat, int>, nr: map<nat, int>)

  // The triggers below keep facts about one queue from spreading along the
  // whole chain of its ancestors: each is used where its field is mentioned.

  /** Queues and entities form a tree below the root, which bandwidth never limits. */
  ghost predicate Tree(s: State) {
    && s.shape.root in s.shape.queues && s.shape.root !in s.throttled
    && s.h.Keys == s.shape.queues && s.shape.depth.Keys == s.shape.queues
    && s.shape.on.Keys == s.shape.entities && s.onRq <= s.shape.entities && s.shape.owned.Keys <= s.shape.entities
    && (forall q {:trigger q in s.shape.se} :: q in s.shape.se <==> q in s.shape.queues && q != s.shape.root)
    && (forall q {:trigger s.shape.se[q]} :: q in s.shape.se ==> s.shape.se[q] in s.shape.owned && s.shape.owned[s.shape.se[q]] == q)
    && (forall e {:trigger s.shape.on[e]} :: e in s.shape.entities ==> s.shape.on[e] in s.shape.queues)
    && (forall e {:trigger s.shape.owned[e]} :: e in s.shape.owned ==> s.shape.owned[e] in s.shape.se && s.shape.se[s.shape.owned[e]] == e)
  }

  ghost predicate Layered(s: State)
    requires Tree(s)
  {
    forall q {:trigger s.shape.depth[q]} :: q in s.shape.se ==> s.shape.depth[q] == s.shape.depth[s.shape.on[s.shape.se[q]]] + 1
  }

  function Parent(s: State, q: nat): Option<nat> {
    if q in s.shape.se then Some(s.shape.se[q]) else None
  }

  /** What is accounted on q. */
  ghost function Queued(s: State, q: nat): (r: set<nat>)
    ensures r <= s.onRq
  {
    set e | e in s.onRq && e in s.shape.on && s.shape.on[e] == q
  }

  /** What an entity counts for in h_nr_running: a task one, a group what its queue counts. */
  ghost function Count(s: State, e: nat): int {
    if e in s.shape.owned && s.shape.owned[e] in s.h then s.h[s.shape.owned[e]] else 1
  }

  ghost function Counts(s: State): (m: map<nat, int>)
    ensures m.Keys == s.shape.entities
  {
    map e | e in s.shape.entities :: Count(s, e)
  }

  /** What h_nr_running of q should be. */
  ghost function HSum(s: State, q: nat): int
    requires s.onRq <= s.shape.entities
  {
    Sum(Queued(s, q), Counts(s))
  }

  /** A group entity is queued iff its own queue is non-empty and not throttled. */
  ghost predicate Linked(s: State, e: nat) {
    e in s.shape.owned ==> (e in s.onRq <==> Queued(s, s.shape.owned[e]) != {} && s.shape.owned[e] !in s.throttled)
  }

  /** Every queue counts what it should, except that one is behind by lag. */
  ghost predicate Counted(s: State, behind: Option<nat>, lag: int)
    requires s.onRq <= s.shape.entities && s.h.Keys == s.shape.queues
  {
    forall q {:trigger s.h[q]} :: q in s.shape.queues ==> s.h[q] + (if behind == Some(q) then lag else 0) == HSum(s, q)
  }

  ghost predicate LinkedBut(s: State, x: Option<nat>, y: Option<nat>) {
    forall e {:trigger Linked(s, e)} :: e in s.shape.owned && x != Some(e) && y != Some(e) ==> Linked(s, e)
  }

  /** Everything agrees, except possibly the link of one entity. */
  ghost predicate ValidBut(s: State, x: Option<nat>) {
    Tree(s) && Layered(s) && Counted(s, None, 0) && LinkedBut(s, x, None) && s.total == s.h[s.shape.root]
  }

  ghost predicate Valid(s: State) {
    ValidBut(s, None)
  }

  /** Entity counts and load weights agree with what is queued. */
  ghost predicate Balanced(s: State, b: Book) {
    && s.onRq <= s.shape.entities
    && b.weight.Keys == s.shape.entities && b.load.Keys == s.shape.queues && b.nr.Keys == s.shape.queues
    && (forall e {:trigger b.weight[e]} :: e in s.shape.entities ==> b.weight[e] >= 1)
    && (forall q {:trigger b.nr[q]} :: q in s.shape.queues ==> b.nr[q] == |Queued(s, q)|)
    && (forall q {:trigger b.load[q]} :: q in s.shape.queues ==> b.load[q] == Sum(Queued(s, q), b.weight))
  }

  // ------------------------------------------------------------ single steps

  ghost function Raised(s: State, q: nat, delta: int): State
    requires q in s.h
  {
    s.(h := s.h[q := s.h[q] + delta])
  }

  ghost function Inserted(s: State, e: nat): State {
    s.(onRq := s.onRq + {e})
  }

  ghost function Removed(s: State, e: nat): State {
    s.(onRq := s.onRq - {e})
  }

  ghost function Throttled(s: State, q: nat): State {
    s.(throttled := s.throttled + {q})
  }

  ghost function Unthrottled(s: State, q: nat): State {
    s.(throttled := s.throttled - {q})
  }

  /** The steps do not touch what makes a tree. */
  lemma TreeKept(s: State, t: State)
    requires Tree(s) && t.shape == s.shape
    requires t.onRq <= t.shape.entities && t.h.Keys == t.shape.queues && t.shape.root !in t.throttled
    ensures Tree(t) && (Layered(s) ==> Layered(t))
  {
  }

  lemma QueuedInserted(s: State, e: nat, q: nat)
    requires e in s.shape.on
    ensures Queued(Inserted(s, e), q) == if q == s.shape.on[e] then Queued(s, q) + {e} else Queued(s, q)
  {
  }

  lemma QueuedRemoved(s: State, e: nat, q: nat)
    requires e in s.shape.on
    ensures Queued(Removed(s, e), q) == if q == s.shape.on[e] then Queued(s, q) - {e} else Queued(s, q)
  {
  }

  lemma QueuedWithin(s: State, e: nat, q: nat)
    requires e in s.shape.on
    ensures e in Queued(s, q) <==> e in s.onRq && q == s.shape.on[e]
  {
  }

  lemma HSumInserted(s: State, e: nat, q: nat)
    requires s.onRq <= s.shape.entities && e in s.shape.entities && e in s.shape.on && e !in s.onRq
    ensures HSum(Inserted(s, e), q) == HSum(s, q) + if q == s.shape.on[e] then Count(s, e) else 0
  {
    hide Sum;
    QueuedInserted(s, e, q);
    assert Counts(Inserted(s, e)) == Counts(s);
    if q == s.shape.on[e] {
      SumInsert(Queued(s, q), e, Counts(s));
    }
  }

  lemma HSumRemoved(s: State, e: nat, q: nat)
    requires s.onRq <= s.shape.entities && e in s.shape.on && e in s.onRq
    ensures HSum(Removed(s, e), q) == HSum(s, q) - if q == s.shape.on[e] then Count(s, e) else 0
  {
    hide Sum;
    QueuedRemoved(s, e, q);
    assert Counts(Removed(s, e)) == Counts(s);
    if q == s.shape.on[e] {
      SumRemove(Queued(s, q), e, Counts(s));
    }
  }

  /** Raising h_nr_running of q is noticed one level up, where its entity is queued. */
  lemma HSumRaised(s: State, q: nat, delta: int, p: nat)
    requires Tree(s) && q in s.shape.queues
    ensures HSum(Raised(s, q, delta), p)
         == HSum(s, p) + if q in s.shape.se && s.shape.se[q] in s.onRq && p == s.shape.on[s.shape.se[q]] then delta else 0
  {
    hide Sum;
    var t := Raised(s, q, delta);
    var f, g := Counts(s), Counts(t);
    assert Queued(t, p) == Queued(s, p);
    if q !in s.shape.se {
      assert forall e :: e in s.shape.owned ==> s.shape.owned[e] != q;
      SumAgree(Queued(s, p), f, g);
    } else {
      assert forall d :: d in s.shape.owned && d != s.shape.se[q] ==> s.shape.owned[d] != q;
      SumBump(Queued(s, p), s.shape.se[q], f, g, delta);
    }
  }

  // --------------------------------------------------------- load bookkeeping

  ghost function BookInserted(b: Book, e: nat, q: nat): Book
    requires e in b.weight && q in b.load && q in b.nr
  {
    b.(load := b.load[q := b.load[q] + b.weight[e]], nr := b.nr[q := b.nr[q] + 1])
  }

  ghost function BookRemoved(b: Book, e: nat, q: nat): Book
    requires e in b.weight && q in b.load && q in b.nr
  {
    b.(load := b.load[q := b.load[q] - b.weight[e]], nr := b.nr[q := b.nr[q] - 1])
  }

  ghost function BookReweighted(b: Book, e: nat, q: nat, queued: bool, w: int): Book
    requires e in b.weight && q in b.load
  {
    b.(weight := b.weight[e := w], load := if queued then b.load[q := b.load[q] - b.weight[e] + w] else b.load)
  }

  lemma InsertedBalanced(s: State, b: Book, e: nat)
    requires Balanced(s, b) && e in s.shape.entities && e !in s.onRq && e in s.shape.on && s.shape.on[e] in s.shape.queues
    ensures Balanced(Inserted(s, e), BookInserted(b, e, s.shape.on[e]))
  {
    hide Sum, Queued;
    forall q | q in s.shape.queues
      ensures var t := Inserted(s, e);
              && |Queued(t, q)| == |Queued(s, q)| + (if q == s.shape.on[e] then 1 else 0)
              && Sum(Queued(t, q), b.weight) == Sum(Queued(s, q), b.weight) + if q == s.shape.on[e] then b.weight[e] else 0
    {
      QueuedInserted(s, e, q);
      QueuedWithin(s, e, q);
      if q == s.shape.on[e] {
        SumInsert(Queued(s, q), e, b.weight);
      }
    }
  }

  lemma RemovedBalanced(s: State, b: Book, e: nat)
    requires Balanced(s, b) && e in s.onRq && e in s.shape.on && s.shape.on[e] in s.shape.queues
    ensures Balanced(Removed(s, e), BookRemoved(b, e, s.shape.on[e]))
  {
    hide Sum, Queued;
    forall q | q in s.shape.queues
      ensures var t := Removed(s, e);
              && |Queued(t, q)| == |Queued(s, q)| - (if q == s.shape.on[e] then 1 else 0)
              && Sum(Queued(t, q), b.weight) == Sum(Queued(s, q), b.weight) - if q == s.shape.on[e] then b.weight[e] else 0
    {
      QueuedRemoved(s, e, q);
      QueuedWithin(s, e, q);
      if q == s.shape.on[e] {
        SumRemove(Queued(s, q), e, b.weight);
      }
    }
  }

  lemma ReweightedBalanced(s: State, b: Book, e: nat, w: int)
    requires Balanced(s, b) && e in s.shape.entities && e in s.shape.on && s.shape.on[e] in s.shape.queues && w >= 1
    ensures Balanced(s, BookReweighted(b, e, s.shape.on[e], e in s.onRq, w))
  {
    hide Sum, Queued;
    var c := BookReweighted(b, e, s.shape.on[e], e in s.onRq, w);
    forall q | q in s.shape.queues
      ensures Sum(Queued(s, q), c.weight)
           == Sum(Queued(s, q), b.weight) + if e in s.onRq && q == s.shape.on[e] then w - b.weight[e] else 0
    {
      QueuedWithin(s, e, q);
      SumBump(Queued(s, q), e, b.weight, c.weight, w - b.weight[e]);
    }
  }

  /** A zero load weight means an empty queue, because no entity weighs nothing. */
  lemma LoadIffOccupied(s: State, b: Book, q: nat)
    requires Balanced(s, b) && q in s.shape.queues
    ensures b.load[q] == 0 <==> Queued(s, q) == {}
  {
    SumAtLeast(Queued(s, q), b.weight, 1);
  }

  /** Queue contents and their bookkeeping depend only on who is queued. */
  lemma SameQueued(s: State, t: State, b: Book)
    requires s.shape == t.shape && s.onRq == t.onRq
    ensures forall q :: Queued(t, q) == Queued(s, q)
    ensures Balanced(s, b) <==> Balanced(t, b)
  {
    forall q: nat
      ensures Queued(t, q) == Queued(s, q)
    {
    }
  }
}
