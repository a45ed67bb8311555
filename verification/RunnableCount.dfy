/**
 * What the counters of a valid hierarchy mean: h_nr_running of a queue is the
 * number of runnable tasks below it that no throttled queue on the way hides,
 * and the whole state follows from the runnable tasks and the throttled queues.
 */
module RunnableCount {
  import opened Sums
  import opened RunQueueTree
  import opened HierarchyWalk

  ghost function Deepest(s: State): (d: nat)
    requires Tree(s)
    ensures forall q :: q in s.shape.queues ==> s.shape.depth[q] <= d
  {
    MaxDepth(s.shape.depth)
  }

  ghost function MaxDepth(m: map<nat, nat>): (d: nat)
    ensures forall q :: q in m ==> m[q] <= d
    decreases |m|
  {
    if m == map[] then 0
    else
      var q :| q in m;
      var rest := m - {q};
      assert rest.Keys == m.Keys - {q} && |rest.Keys| < |m.Keys|;
      var d := MaxDepth(rest);
      assert forall r :: r in m ==> r == q || r in rest;
      if m[q] > d then m[q] else d
  }

  /** Walking up from queue c, q is met before a throttled queue has to be left. */
  ghost predicate Passes(s: State, c: nat, q: nat)
    requires Tree(s) && Layered(s)
    decreases if c in s.shape.depth then s.shape.depth[c] else 0
  {
    c in s.shape.queues &&
    (c == q ||
     (c in s.shape.se && c !in s.throttled && s.shape.depth[c] > s.shape.depth[Upper(s, c)] && Passes(s, Upper(s, c), q)))
  }

  /** The queue one level up. */
  ghost function Upper(s: State, c: nat): (p: nat)
    requires Tree(s) && c in s.shape.se
    ensures p in s.shape.queues
  {
    s.shape.on[s.shape.se[c]]
  }

  /** The runnable tasks that count for q. */
  ghost function Below(s: State, q: nat): (r: set<nat>)
    requires Tree(s) && Layered(s)
  {
    set p | p in Runnable(s) && p in s.shape.on && Passes(s, s.shape.on[p], q)
  }

  /** The runnable tasks that count for the queue of e through e. */
  ghost function Through(s: State, e: nat): (r: set<nat>)
    requires Tree(s) && Layered(s)
  {
    if e in s.shape.owned then Below(s, s.shape.owned[e]) else {e}
  }

  lemma UpperFacts(s: State, c: nat)
    requires Tree(s) && Layered(s) && c in s.shape.se
    ensures c in s.shape.queues && s.shape.depth[c] == s.shape.depth[Upper(s, c)] + 1
    ensures s.shape.se[c] in s.shape.owned && s.shape.owned[s.shape.se[c]] == c
  {
  }

  lemma {:induction false} PassesDeeper(s: State, c: nat, q: nat)
    requires Tree(s) && Layered(s) && Passes(s, c, q)
    ensures c in s.shape.queues && q in s.shape.queues && s.shape.depth[c] >= s.shape.depth[q]
    ensures s.shape.depth[c] == s.shape.depth[q] ==> c == q
    decreases s.shape.depth[c]
  {
    if c != q {
      UpperFacts(s, c);
      PassesDeeper(s, Upper(s, c), q);
    }
  }

  /** Two queues of the same level are not both above c. */
  lemma {:induction false} PassesUnique(s: State, c: nat, q: nat, r: nat)
    requires Tree(s) && Layered(s) && Passes(s, c, q) && Passes(s, c, r)
    requires q in s.shape.depth && r in s.shape.depth && s.shape.depth[q] == s.shape.depth[r]
    ensures q == r
    decreases if c in s.shape.depth then s.shape.depth[c] else 0
  {
    PassesDeeper(s, c, q);
    PassesDeeper(s, c, r);
    if c != q && c != r {
      PassesUnique(s, Upper(s, c), q, r);
    }
  }

  lemma {:induction false} PassesOn(s: State, c: nat, q: nat)
    requires Tree(s) && Layered(s) && Passes(s, c, q) && q in s.shape.se && q !in s.throttled
    ensures Passes(s, c, Upper(s, q))
    decreases if c in s.shape.depth then s.shape.depth[c] else 0
  {
    UpperFacts(s, q);
    if c == q {
      assert Passes(s, Upper(s, q), Upper(s, q));
    } else {
      PassesOn(s, Upper(s, c), q);
    }
  }

  /** The queue through which the way up from c reaches q. */
  ghost function Last(s: State, c: nat, q: nat): (d: nat)
    requires Tree(s) && Layered(s) && Passes(s, c, q) && c != q
    ensures d in s.shape.se && d !in s.throttled && Upper(s, d) == q && Passes(s, c, d)
    decreases if c in s.shape.depth then s.shape.depth[c] else 0
  {
    if Upper(s, c) == q then c else Last(s, Upper(s, c), q)
  }

  /** A queue that something runnable counts for has an entity queued on it. */
  lemma {:induction false} Carried(s: State, p: nat, c: nat)
    requires Valid(s) && p in Below(s, c) && c in s.shape.queues
    ensures if s.shape.on[p] == c then p in Queued(s, c)
            else s.shape.se[Last(s, s.shape.on[p], c)] in Queued(s, c)
    decreases Deepest(s) - s.shape.depth[c]
  {
    PassesDeeper(s, s.shape.on[p], c);
    if s.shape.on[p] != c {
      var d := Last(s, s.shape.on[p], c);
      UpperFacts(s, d);
      Carried(s, p, d);
      assert Linked(s, s.shape.se[d]);
    }
  }

  /** What counts for q is what counts through the entities queued on it. */
  lemma BelowSplits(s: State, q: nat, p: nat)
    requires Valid(s) && q in s.shape.queues
    ensures p in Below(s, q) <==> exists e :: e in Queued(s, q) && p in Through(s, e)
  {
    if p in Below(s, q) {
      Carried(s, p, q);
      if s.shape.on[p] == q {
        assert p in Queued(s, q) && p in Through(s, p);
      } else {
        var d := Last(s, s.shape.on[p], q);
        UpperFacts(s, d);
        assert s.shape.se[d] in Queued(s, q) && p in Through(s, s.shape.se[d]);
      }
    }
    if e :| e in Queued(s, q) && p in Through(s, e) {
      if e in s.shape.owned {
        var d := s.shape.owned[e];
        assert Linked(s, e) && d in s.shape.se && s.shape.se[d] == e;
        PassesOn(s, s.shape.on[p], d);
      }
    }
  }

  lemma ThroughDisjoint(s: State, q: nat, e: nat, d: nat)
    requires Valid(s) && e in Queued(s, q) && d in Queued(s, q) && e != d
    ensures Through(s, e) !! Through(s, d)
  {
    forall p | p in Through(s, e) && p in Through(s, d)
      ensures false
    {
      if e in s.shape.owned && d in s.shape.owned {
        var a, b := s.shape.owned[e], s.shape.owned[d];
        BelowOwn(s, q, e);
        BelowOwn(s, q, d);
        PassesUnique(s, s.shape.on[p], a, b);
      } else if e in s.shape.owned {
        NotThrough(s, q, e, d);
      } else if d in s.shape.owned {
        NotThrough(s, q, d, e);
      }
    }
  }

  lemma BelowOwn(s: State, q: nat, e: nat)
    requires Tree(s) && Layered(s) && e in s.shape.owned && e in Queued(s, q)
    ensures q in s.shape.queues && s.shape.owned[e] in s.shape.queues && s.shape.depth[s.shape.owned[e]] == s.shape.depth[q] + 1
    ensures s.shape.se[s.shape.owned[e]] == e
  {
    UpperFacts(s, s.shape.owned[e]);
  }

  /** A task queued on q does not count through a group queued beside it. */
  lemma NotThrough(s: State, q: nat, e: nat, p: nat)
    requires Tree(s) && Layered(s) && e in s.shape.owned && e in Queued(s, q) && p in Queued(s, q)
    ensures p !in Below(s, s.shape.owned[e])
  {
    BelowOwn(s, q, e);
    if Passes(s, q, s.shape.owned[e]) {
      PassesDeeper(s, q, s.shape.owned[e]);
      assert false;
    }
  }

  // ------------------------------------------------ counting a disjoint union

  ghost function Union(s: set<nat>, f: map<nat, set<nat>>): (r: set<nat>)
    requires s <= f.Keys
  {
    set e, p | e in s && p in f[e] :: p
  }

  ghost function Sizes(f: map<nat, set<nat>>): (m: map<nat, int>)
    ensures m.Keys == f.Keys
  {
    map e | e in f :: |f[e]|
  }

  lemma {:induction false} UnionSize(s: set<nat>, f: map<nat, set<nat>>)
    requires s <= f.Keys
    requires forall e, d :: e in s && d in s && e != d ==> f[e] !! f[d]
    ensures |Union(s, f)| == Sum(s, Sizes(f))
  {
    hide Sum;
    if s == {} {
      assert Union(s, f) == {};
      EmptySum(Sizes(f));
    } else {
      var e :| e in s;
      UnionSize(s - {e}, f);
      SumRemove(s, e, Sizes(f));
      UnionRemove(s, e, f);
    }
  }

  lemma EmptySum(f: map<nat, int>)
    ensures Sum({}, f) == 0
  {
  }

  lemma UnionRemove(s: set<nat>, e: nat, f: map<nat, set<nat>>)
    requires s <= f.Keys && e in s
    requires forall d :: d in s && d != e ==> f[d] !! f[e]
    ensures |Union(s, f)| == |f[e]| + |Union(s - {e}, f)|
  {
    assert Union(s, f) == f[e] + Union(s - {e}, f);
    assert f[e] !! Union(s - {e}, f);
  }

  // ------------------------------------------------------------ main results

  /** h_nr_running of every queue is the number of runnable tasks not hidden from it. */
  lemma {:induction false} CountsRunnable(s: State, q: nat)
    requires Valid(s) && q in s.shape.queues
    ensures s.h[q] == |Below(s, q)|
    decreases Deepest(s) - s.shape.depth[q]
  {
    var f := map e | e in Queued(s, q) :: Through(s, e);
    forall e | e in Queued(s, q)
      ensures Count(s, e) == |Through(s, e)|
    {
      if e in s.shape.owned {
        var d := s.shape.owned[e];
        assert d in s.shape.se && s.shape.se[d] == e;
        UpperFacts(s, d);
        CountsRunnable(s, d);
      }
    }
    forall e, d | e in Queued(s, q) && d in Queued(s, q) && e != d
      ensures f[e] !! f[d]
    {
      ThroughDisjoint(s, q, e, d);
    }
    UnionSize(Queued(s, q), f);
    SumAgree(Queued(s, q), Counts(s), Sizes(f));
    forall p
      ensures p in Below(s, q) <==> p in Union(Queued(s, q), f)
    {
      BelowSplits(s, q, p);
    }
    assert Below(s, q) == Union(Queued(s, q), f);
  }

  /** The CFS part of rq->nr_running is the number of runnable tasks that no throttled queue hides. */
  lemma TotalCountsRunnable(s: State)
    requires Valid(s)
    ensures s.total == |Below(s, s.shape.root)|
  {
    CountsRunnable(s, s.shape.root);
  }

  /** A queue has something queued on it iff a runnable task counts for it. */
  lemma {:induction false} OccupiedIffRunnable(s: State, q: nat)
    requires Valid(s) && q in s.shape.queues
    ensures Queued(s, q) != {} <==> Below(s, q) != {}
    decreases Deepest(s) - s.shape.depth[q]
  {
    if e :| e in Queued(s, q) {
      if e in s.shape.owned {
        var d := s.shape.owned[e];
        assert d in s.shape.se && s.shape.se[d] == e;
        UpperFacts(s, d);
        assert Linked(s, e);
        OccupiedIffRunnable(s, d);
        var p :| p in Through(s, e);
        BelowSplits(s, q, p);
      } else {
        assert e in Through(s, e);
        BelowSplits(s, q, e);
      }
    }
    if p :| p in Below(s, q) {
      Carried(s, p, q);
    }
  }

  // -------------------------------------------------------------- determinacy

  /** Which tasks count for a queue follows from the tasks and the throttled queues alone. */
  lemma SameBelow(s: State, t: State, q: nat)
    requires Tree(s) && Layered(s) && Tree(t) && Layered(t)
    requires s.shape == t.shape && s.throttled == t.throttled && Runnable(s) == Runnable(t)
    ensures Below(s, q) == Below(t, q)
  {
    forall p | p in Runnable(s) && p in s.shape.on
      ensures Passes(s, s.shape.on[p], q) == Passes(t, s.shape.on[p], q)
    {
      SamePasses(s, t, s.shape.on[p], q);
    }
  }

  lemma {:induction false} SamePasses(s: State, t: State, c: nat, q: nat)
    requires Tree(s) && Layered(s) && Tree(t) && Layered(t)
    requires s.shape == t.shape && s.throttled == t.throttled
    ensures Passes(s, c, q) == Passes(t, c, q)
    decreases if c in s.shape.depth then s.shape.depth[c] else 0
  {
    if c in s.shape.se {
      UpperFacts(s, c);
      SamePasses(s, t, Upper(s, c), q);
    }
  }

  lemma SameQueue(s: State, t: State, q: nat)
    requires Valid(s) && Valid(t) && q in s.shape.queues
    requires s.shape == t.shape && s.throttled == t.throttled && Runnable(s) == Runnable(t)
    ensures s.h[q] == t.h[q] && (Queued(s, q) != {} <==> Queued(t, q) != {})
  {
    SameBelow(s, t, q);
    CountsRunnable(s, q);
    CountsRunnable(t, q);
    OccupiedIffRunnable(s, q);
    OccupiedIffRunnable(t, q);
  }

  lemma SameEntity(s: State, t: State, e: nat)
    requires Valid(s) && Valid(t)
    requires s.shape == t.shape && s.throttled == t.throttled && Runnable(s) == Runnable(t)
    ensures e in s.onRq <==> e in t.onRq
  {
    if e in s.shape.owned {
      assert Linked(s, e) && Linked(t, e);
      assert s.shape.owned[e] in s.shape.se;
      SameQueue(s, t, s.shape.owned[e]);
    } else {
      assert e in s.onRq <==> e in Runnable(s);
      assert e in t.onRq <==> e in Runnable(t);
    }
  }

  /**
   * However it was reached, a valid state is what its runnable tasks and its
   * throttled queues make it.
   */
  lemma Determined(s: State, t: State)
    requires Valid(s) && Valid(t)
    requires s.shape == t.shape && s.throttled == t.throttled && Runnable(s) == Runnable(t)
    ensures s == t
  {
    hide Sum, Linked, Counted, Runnable, Queued;
    forall q | q in s.shape.queues
      ensures s.h[q] == t.h[q]
    {
      SameQueue(s, t, q);
    }
    assert s.h == t.h;
    forall e
      ensures e in s.onRq <==> e in t.onRq
    {
      SameEntity(s, t, e);
    }
    assert s.onRq == t.onRq;
  }
}
