/**
 * Adding tasks and groups to a hierarchy.
 */
module HierarchyGrowth {
  import opened Sums
  import opened RunQueueTree
  import opened HierarchyWalk

  ghost function TaskShape(sh: Shape, e: nat, q: nat): Shape {
    sh.(entities := sh.entities + {e}, on := sh.on[e := q])
  }

  /** Entity e comes to own the new, empty queue c. */
  ghost function GroupShape(sh: Shape, e: nat, c: nat): Shape {
    var d: nat := if e in sh.on && sh.on[e] in sh.depth then sh.depth[sh.on[e]] else 0;
    sh.(queues := sh.queues + {c}, se := sh.se[c := e], owned := sh.owned[e := c], depth := sh.depth[c := d + 1])
  }

  ghost function WithTask(s: State, e: nat, q: nat): State {
    s.(shape := TaskShape(s.shape, e, q))
  }

  ghost function WithGroup(s: State, e: nat, c: nat): State {
    s.(shape := GroupShape(s.shape, e, c), h := s.h[c := 0])
  }

  /** t has the same things queued as s, and counts them the same. */
  ghost predicate SameContents(s: State, t: State)
    requires s.onRq <= s.shape.entities && t.onRq <= t.shape.entities
  {
    && (forall q {:trigger Queued(t, q)} :: Queued(t, q) == Queued(s, q))
    && (forall q {:trigger HSum(t, q)} :: HSum(t, q) == HSum(s, q))
  }

  lemma SameContentsBy(s: State, t: State)
    requires s.onRq == t.onRq && s.onRq <= s.shape.entities && t.onRq <= t.shape.entities
    requires forall e :: e in s.onRq ==> (e in s.shape.on <==> e in t.shape.on) && (e in s.shape.on ==> s.shape.on[e] == t.shape.on[e])
    requires forall e :: e in s.onRq ==> Count(s, e) == Count(t, e)
    ensures SameContents(s, t)
  {
    forall q: nat
      ensures Queued(t, q) == Queued(s, q) && HSum(t, q) == HSum(s, q)
    {
      assert Queued(t, q) == Queued(s, q);
      SumAgree(Queued(s, q), Counts(s), Counts(t));
    }
  }

  lemma BalancedKept(s: State, b: Book, t: State, c: Book)
    requires Balanced(s, b) && t.onRq <= t.shape.entities && SameContents(s, t)
    requires c.weight.Keys == t.shape.entities && c.load.Keys == t.shape.queues && c.nr.Keys == t.shape.queues
    requires forall e {:trigger c.weight[e]} :: e in t.shape.entities ==> c.weight[e] >= 1 && (e in b.weight ==> c.weight[e] == b.weight[e])
    requires forall q {:trigger c.load[q]} {:trigger c.nr[q]} :: q in t.shape.queues ==>
               if q in s.shape.queues then c.load[q] == b.load[q] && c.nr[q] == b.nr[q]
               else c.load[q] == 0 && c.nr[q] == 0 && Queued(s, q) == {}
    ensures Balanced(t, c)
  {
    hide Sum, Queued, HSum;
    forall q | q in t.shape.queues
      ensures c.nr[q] == |Queued(t, q)| && c.load[q] == Sum(Queued(t, q), c.weight)
    {
      SumAgree(Queued(s, q), b.weight, c.weight);
      if q !in s.shape.queues {
        EmptySum(c.weight);
      }
    }
  }

  lemma BookFacts(s: State, b: Book)
    requires Balanced(s, b)
    ensures b.weight.Keys == s.shape.entities && b.load.Keys == s.shape.queues && b.nr.Keys == s.shape.queues
    ensures forall e {:trigger b.weight[e]} :: e in s.shape.entities ==> b.weight[e] >= 1
  {
  }

  lemma EmptySum(f: map<nat, int>)
    ensures Sum({}, f) == 0
  {
  }

  // ------------------------------------------------------------------- tasks

  lemma WithTaskTree(s: State, e: nat, q: nat)
    requires Tree(s) && e !in s.shape.entities && q in s.shape.queues
    ensures Tree(WithTask(s, e, q)) && (Layered(s) ==> Layered(WithTask(s, e, q)))
    ensures SameContents(s, WithTask(s, e, q)) && e !in s.onRq
  {
    SameContentsBy(s, WithTask(s, e, q));
  }

  lemma WithTaskKept(s: State, b: Book, e: nat, q: nat, w: nat)
    requires Tree(s) && Balanced(s, b) && e !in s.shape.entities && q in s.shape.queues && w >= 1
    ensures Tree(WithTask(s, e, q)) && Balanced(WithTask(s, e, q), b.(weight := b.weight[e := w]))
  {
    hide Sum, HSum, Queued, SameContents, Tree, Balanced;
    WithTaskTree(s, e, q);
    TreeSplit(s);
    BookFacts(s, b);
    BalancedKept(s, b, WithTask(s, e, q), b.(weight := b.weight[e := w]));
  }

  lemma WithTaskValid(s: State, e: nat, q: nat)
    requires Valid(s) && e !in s.shape.entities && q in s.shape.queues
    ensures Valid(WithTask(s, e, q)) && Runnable(WithTask(s, e, q)) == Runnable(s)
  {
    hide Sum, HSum, Queued, Tree, Layered;
    var t := WithTask(s, e, q);
    WithTaskTree(s, e, q);
    TreeSplit(s);
    forall d | d in t.shape.owned
      ensures Linked(t, d)
    {
      assert Linked(s, d);
    }
  }

  // ------------------------------------------------------------------ groups

  ghost predicate Adoptable(s: State, e: nat, c: nat) {
    e in s.shape.entities && e !in s.shape.owned && e !in s.onRq && c !in s.shape.queues && c !in s.throttled
  }

  lemma WithGroupTree(s: State, e: nat, c: nat)
    requires Tree(s) && Adoptable(s, e, c)
    ensures Tree(WithGroup(s, e, c))
  {
  }

  lemma WithGroupLayered(s: State, e: nat, c: nat)
    requires Tree(s) && Layered(s) && Adoptable(s, e, c) && Tree(WithGroup(s, e, c))
    ensures Layered(WithGroup(s, e, c))
  {
    var t := WithGroup(s, e, c);
    forall q | q in t.shape.se
      ensures t.shape.depth[q] == t.shape.depth[t.shape.on[t.shape.se[q]]] + 1
    {
      if q != c {
        assert s.shape.depth[q] == s.shape.depth[s.shape.on[s.shape.se[q]]] + 1;
        assert s.shape.on[s.shape.se[q]] in s.shape.queues;
      }
    }
  }

  lemma WithGroupContents(s: State, e: nat, c: nat)
    requires Tree(s) && Adoptable(s, e, c)
    ensures SameContents(s, WithGroup(s, e, c)) && Queued(s, c) == {}
  {
    var t := WithGroup(s, e, c);
    forall d | d in s.onRq
      ensures Count(s, d) == Count(t, d)
    {
    }
    SameContentsBy(s, t);
  }

  lemma WithGroupKept(s: State, b: Book, e: nat, c: nat)
    requires Tree(s) && Balanced(s, b) && Adoptable(s, e, c)
    ensures Tree(WithGroup(s, e, c)) && Balanced(WithGroup(s, e, c), b.(load := b.load[c := 0], nr := b.nr[c := 0]))
  {
    hide Sum, HSum, Queued, SameContents, Tree;
    WithGroupTree(s, e, c);
    WithGroupContents(s, e, c);
    TreeSplit(s);
    BalancedKept(s, b, WithGroup(s, e, c), b.(load := b.load[c := 0], nr := b.nr[c := 0]));
  }

  lemma WithGroupValid(s: State, e: nat, c: nat)
    requires Valid(s) && Adoptable(s, e, c)
    ensures Valid(WithGroup(s, e, c)) && Runnable(WithGroup(s, e, c)) == Runnable(s)
  {
    hide Sum, HSum, Queued, Tree, Layered;
    var t := WithGroup(s, e, c);
    WithGroupTree(s, e, c);
    WithGroupLayered(s, e, c);
    WithGroupContents(s, e, c);
    TreeSplit(s);
    EmptyCountsZero(s, c);
    forall d | d in t.shape.owned
      ensures Linked(t, d)
    {
      if d != e {
        assert Linked(s, d);
      }
    }
    RootHasQueue(s);
  }

  lemma RootHasQueue(s: State)
    requires Tree(s)
    ensures s.shape.root in s.shape.queues
  {
  }
}
