/**
 * The list of leaf queues of one CPU, kept so that every queue precedes its
 * parent although queues join it one by one from the bottom up.
 */
module LeafList {
  import opened Common

  /** Groups are numbered in the order of creation; the root group is 0. */
  const ROOT: nat := 0

  ghost predicate Rooted(parent: map<nat, nat>) {
    ROOT !in parent && forall g :: g in parent ==> parent[g] < g
  }

  /** Every queue on the list is followed by its parent. */
  ghost predicate Ordered(list: seq<nat>, parent: map<nat, nat>) {
    list == [] ||
    (list[0] !in list[1..] && (list[0] == ROOT || (list[0] in parent && parent[list[0]] in list[1..])) && Ordered(list[1..], parent))
  }

  /** A chain of queues, each followed by its parent, the last of which ends the chain. */
  ghost predicate Chain(branch: seq<nat>, parent: map<nat, nat>) {
    && branch != [] && (forall i :: 0 <= i < |branch| ==> branch[i] in parent)
    && forall i :: 0 <= i < |branch| - 1 ==> parent[branch[i]] == branch[i + 1]
  }

  /** In the middle of a walk: a branch that its tree does not know of yet leads the list. */
  ghost predicate Alone(branch: seq<nat>, rest: seq<nat>, parent: map<nat, nat>) {
    && Chain(branch, parent) && Ordered(rest, parent)
    && (forall g :: g in branch ==> g !in rest)
    && parent[branch[|branch| - 1]] !in branch + rest
  }

  /** list_add_tail: q goes right before a. */
  function InsertBefore(list: seq<nat>, q: nat, a: nat): seq<nat> {
    if list == [] then [q]
    else if list[0] == a then [q] + list
    else [list[0]] + InsertBefore(list[1..], q, a)
  }

  /** list_add: q goes right after a, or to the head of the list. */
  function InsertAfter(list: seq<nat>, q: nat, a: Option<nat>): seq<nat> {
    if a.None? || list == [] then [q] + list
    else if list[0] == a.value then [list[0], q] + list[1..]
    else [list[0]] + InsertAfter(list[1..], q, a)
  }

  function Deleted(list: seq<nat>, q: nat): seq<nat> {
    if list == [] then [] else if list[0] == q then list[1..] else [list[0]] + Deleted(list[1..], q)
  }

  lemma {:induction false} InsertBeforeHas(list: seq<nat>, q: nat, a: nat)
    ensures forall g :: g in InsertBefore(list, q, a) <==> g == q || g in list
  {
    if list != [] && list[0] != a {
      InsertBeforeHas(list[1..], q, a);
      assert forall g :: g in list <==> g == list[0] || g in list[1..];
    }
  }

  lemma {:induction false} InsertBeforeOrdered(list: seq<nat>, q: nat, parent: map<nat, nat>)
    requires Ordered(list, parent) && q !in list && q in parent && parent[q] in list
    ensures Ordered(InsertBefore(list, q, parent[q]), parent)
  {
    var a := parent[q];
    if list[0] == a {
      assert ([q] + list)[1..] == list;
    } else {
      InsertBeforeOrdered(list[1..], q, parent);
      InsertBeforeHas(list[1..], q, a);
      assert ([list[0]] + InsertBefore(list[1..], q, a))[1..] == InsertBefore(list[1..], q, a);
    }
  }

  lemma {:induction false} AppendRoot(list: seq<nat>, parent: map<nat, nat>)
    requires Ordered(list, parent) && ROOT !in list
    ensures Ordered(list + [ROOT], parent)
  {
    if list == [] {
      assert [ROOT][1..] == [];
    } else {
      AppendRoot(list[1..], parent);
      assert (list + [ROOT])[1..] == list[1..] + [ROOT];
    }
  }

  /** The branch and what follows it are in order once the parent of its last queue follows. */
  lemma {:induction false} Connect(branch: seq<nat>, rest: seq<nat>, parent: map<nat, nat>)
    requires Rooted(parent) && Chain(branch, parent) && Ordered(rest, parent)
    requires forall g :: g in branch ==> g !in rest
    requires parent[branch[|branch| - 1]] in rest
    ensures Ordered(branch + rest, parent)
  {
    var list := branch + rest;
    assert list[1..] == branch[1..] + rest;
    if |branch| == 1 {
      assert branch[1..] == [];
    } else {
      assert forall i :: 0 <= i < |branch| - 1 ==> branch[1..][i] == branch[i + 1];
      assert branch[1..][|branch| - 2] == branch[|branch| - 1];
      Connect(branch[1..], rest, parent);
      ChainFalls(branch, parent);
      assert branch[1] in list[1..];
    }
  }

  /** Numbers fall along a chain, so nothing repeats on it. */
  lemma {:induction false} ChainFalls(branch: seq<nat>, parent: map<nat, nat>)
    requires Rooted(parent) && Chain(branch, parent)
    ensures forall g :: g in branch[1..] ==> g < branch[0]
    ensures branch[|branch| - 1] <= branch[0]
    ensures parent[branch[|branch| - 1]] !in branch
  {
    if |branch| > 1 {
      var tail := branch[1..];
      assert forall i :: 0 <= i < |tail| ==> tail[i] == branch[i + 1];
      assert parent[branch[0]] == branch[1] == tail[0];
      ChainFalls(tail, parent);
      assert tail[|tail| - 1] == branch[|branch| - 1];
      assert forall g :: g in tail ==> g == tail[0] || g in tail[1..];
      assert forall g :: g in branch ==> g == branch[0] || g in tail;
    }
  }

  lemma {:induction false} InsertBeforeSkips(branch: seq<nat>, rest: seq<nat>, q: nat, a: nat)
    requires a !in branch
    ensures InsertBefore(branch + rest, q, a) == branch + InsertBefore(rest, q, a)
  {
    if branch == [] {
      assert branch + rest == rest;
    } else {
      assert (branch + rest)[1..] == branch[1..] + rest;
      InsertBeforeSkips(branch[1..], rest, q, a);
    }
  }

  lemma {:induction false} InsertAfterBranch(branch: seq<nat>, rest: seq<nat>, q: nat)
    requires branch != [] && forall i :: 0 <= i < |branch| - 1 ==> branch[i] != branch[|branch| - 1]
    ensures InsertAfter(branch + rest, q, Some(branch[|branch| - 1])) == branch + [q] + rest
  {
    var last, tail := branch[|branch| - 1], branch[1..];
    var list := branch + rest;
    assert list[1..] == tail + rest && list[0] == branch[0];
    if |branch| == 1 {
      assert tail + rest == rest;
      assert InsertAfter(list, q, Some(last)) == [last, q] + rest;
    } else {
      assert branch[0] != last && tail[|tail| - 1] == last;
      forall i | 0 <= i < |tail| - 1
        ensures tail[i] != tail[|tail| - 1]
      {
        assert tail[i] == branch[i + 1];
      }
      InsertAfterBranch(tail, rest, q);
      assert [branch[0]] + (tail + [q] + rest) == branch + [q] + rest;
    }
  }

  /** Deleting a queue that nothing listed has for a parent keeps the order. */
  lemma {:induction false} DeleteOrdered(list: seq<nat>, q: nat, parent: map<nat, nat>)
    requires Ordered(list, parent) && q != ROOT && forall g :: g in list && g in parent ==> parent[g] != q
    ensures Ordered(Deleted(list, q), parent - {q})
    ensures forall g :: g in Deleted(list, q) <==> g in list && g != q
  {
    if list != [] {
      assert forall g :: g in list <==> g == list[0] || g in list[1..];
      DeleteOrdered(list[1..], q, parent);
      if list[0] == q {
        NotDeleted(list[1..], q);
      } else {
        assert ([list[0]] + Deleted(list[1..], q))[1..] == Deleted(list[1..], q);
      }
    }
  }

  lemma {:induction false} NotDeleted(list: seq<nat>, q: nat)
    requires q !in list
    ensures Deleted(list, q) == list
  {
    if list != [] {
      NotDeleted(list[1..], q);
    }
  }

  lemma {:induction false} MoreParents(list: seq<nat>, parent: map<nat, nat>, more: map<nat, nat>)
    requires Ordered(list, parent) && forall g :: g in parent ==> g in more && more[g] == parent[g]
    ensures Ordered(list, more)
  {
    if list != [] {
      MoreParents(list[1..], parent, more);
    }
  }

  lemma {:induction false} OrderedHas(list: seq<nat>, parent: map<nat, nat>, g: nat)
    requires Ordered(list, parent) && g in list
    ensures g == ROOT || (g in parent && parent[g] in list)
  {
    if g != list[0] {
      OrderedHas(list[1..], parent, g);
    }
  }

  /** What update_blocked_averages relies on: going through the list meets every child before its parent. */
  lemma {:induction false} ChildrenFirst(list: seq<nat>, parent: map<nat, nat>, i: nat, j: nat)
    requires Rooted(parent) && Ordered(list, parent) && i < |list| && j < |list|
    requires list[i] in parent && list[j] == parent[list[i]]
    ensures i < j
  {
    if i > 0 && j > 0 {
      ChildrenFirst(list[1..], parent, i - 1, j - 1);
    } else if j == 0 && i > 0 {
      OrderedHas(list[1..], parent, list[1..][i - 1]);
      assert false;
    }
  }

  /** Where an enqueue walk from g stops. */
  function Stop(g: nat, parent: map<nat, nat>, nrRunning: map<nat, nat>, throttled: set<nat>): nat {
    if g in throttled || g == ROOT || g !in nrRunning || nrRunning[g] > 0 || g !in parent || parent[g] >= g then g
    else Stop(parent[g], parent, nrRunning, throttled)
  }

  /** The queues that an enqueue walk from g puts an entity on. */
  function Visited(g: nat, parent: map<nat, nat>, nrRunning: map<nat, nat>, throttled: set<nat>): set<nat> {
    if g in throttled || g == ROOT || g !in nrRunning || nrRunning[g] > 0 || g !in parent || parent[g] >= g then {g}
    else {g} + Visited(parent[g], parent, nrRunning, throttled)
  }

  lemma Onwards(g: nat, parent: map<nat, nat>, nrRunning: map<nat, nat>, throttled: set<nat>)
    requires g in nrRunning && (g == ROOT || (g in parent && parent[g] < g))
    ensures g in throttled || g == ROOT || nrRunning[g] > 0 ==>
              Stop(g, parent, nrRunning, throttled) == g && Visited(g, parent, nrRunning, throttled) == {g}
    ensures !(g in throttled || g == ROOT || nrRunning[g] > 0) ==>
              Stop(g, parent, nrRunning, throttled) == Stop(parent[g], parent, nrRunning, throttled)
              && Visited(g, parent, nrRunning, throttled) == {g} + Visited(parent[g], parent, nrRunning, throttled)
  {
  }

  lemma CountedNone(nrRunning: map<nat, nat>)
    ensures Counted(nrRunning, {}) == nrRunning
  {
  }

  lemma CountedMore(nrRunning: map<nat, nat>, seen: set<nat>, g: nat)
    requires g in nrRunning && g !in seen
    ensures g in Counted(nrRunning, seen) && Counted(nrRunning, seen)[g] == nrRunning[g]
    ensures Counted(nrRunning, seen + {g}) == Counted(nrRunning, seen)[g := nrRunning[g] + 1]
  {
  }

  ghost function Counted(nrRunning: map<nat, nat>, more: set<nat>): (r: map<nat, nat>)
    ensures r.Keys == nrRunning.Keys
  {
    map g | g in nrRunning :: nrRunning[g] + if g in more then 1 else 0
  }

  /** Only existing groups are listed. */
  ghost predicate ListedOnly(list: seq<nat>, parent: map<nat, nat>, nrRunning: map<nat, nat>) {
    && nrRunning.Keys == parent.Keys + {ROOT}
    && (forall g :: g in parent ==> parent[g] in nrRunning)
    && (forall g :: g in list ==> g in nrRunning)
  }

  /** A queue with something queued on it is listed. */
  ghost predicate AllListed(list: seq<nat>, nrRunning: map<nat, nat>) {
    forall g :: g in nrRunning && nrRunning[g] > 0 ==> g in list
  }

  lemma OneMoreListed(list: seq<nat>, more: seq<nat>, parent: map<nat, nat>, nrRunning: map<nat, nat>, q: nat)
    requires ListedOnly(list, parent, nrRunning) && AllListed(list, nrRunning) && q in nrRunning
    requires forall g :: g in more <==> g == q || g in list
    ensures ListedOnly(more, parent, nrRunning[q := nrRunning[q] + 1]) && AllListed(more, nrRunning[q := nrRunning[q] + 1])
  {
  }

  class Rq {
    /** leaf_cfs_rq_list from its head, and tmp_alone_branch, None standing for the head. */
    var list: seq<nat>
    var tmpAloneBranch: Option<nat>
    var parent: map<nat, nat>
    var nrRunning: map<nat, nat>

    ghost predicate InOrder()
      reads `list, `tmpAloneBranch, `parent
    {
      Rooted(parent) && Ordered(list, parent) && tmpAloneBranch.None?
    }

    /** A walk has listed branch, whose last queue still waits for its parent. */
    ghost predicate Midway(branch: seq<nat>)
      reads `list, `tmpAloneBranch, `parent
    {
      && Rooted(parent) && 0 < |branch| <= |list| && list[..|branch|] == branch
      && Alone(branch, list[|branch|..], parent)
      && tmpAloneBranch == Some(branch[|branch| - 1])
    }

    ghost predicate Walking(branch: seq<nat>, q: nat)
      reads `list, `tmpAloneBranch, `parent
    {
      if branch == [] then InOrder() else Midway(branch) && q == parent[branch[|branch| - 1]]
    }

    /** Only existing groups are listed, and a queue with something queued on it is. */
    ghost predicate Listed()
      reads `list, `parent, `nrRunning
    {
      ListedOnly(list, parent, nrRunning)
    }

    ghost predicate OccupiedListed()
      reads `list, `nrRunning
    {
      AllListed(list, nrRunning)
    }

    ghost predicate Valid()
      reads this
    {
      InOrder() && Listed() && OccupiedListed()
    }

    constructor ()
      ensures Valid() && list == [] && nrRunning == map[ROOT := 0]
    {
      list, tmpAloneBranch, parent, nrRunning := [], None, map[], map[ROOT := 0];
    }

    /** list_add_leaf_cfs_rq. */
    method ListAdd(q: nat, ghost branch: seq<nat>) returns (ghost next: seq<nat>)
      requires Walking(branch, q) && (q == ROOT || q in parent)
      modifies `list, `tmpAloneBranch
      ensures forall g :: g in list <==> g == q || g in old(list)
      ensures if next == [] then InOrder() else Midway(next) && next[|next| - 1] == q
    {
      next := branch;
      if q in list {
        return;
      }
      ghost var rest := list[|branch|..];
      assert list == branch + rest;
      if branch != [] {
        ChainFalls(branch, parent);
      }
      if q in parent && parent[q] in list {
        InsertBeforeHas(list, q, parent[q]);
        ConnectBranch(branch, rest, q, parent);
        list := InsertBefore(list, q, parent[q]);
        tmpAloneBranch := None;
        next := [];
      } else if q == ROOT {
        AppendRoot(rest, parent);
        if branch != [] {
          Connect(branch, rest + [ROOT], parent);
        }
        assert list + [ROOT] == branch + (rest + [ROOT]);
        list := list + [ROOT];
        tmpAloneBranch := None;
        next := [];
      } else {
        next := branch + [q];
        Prolong(branch, rest, q, parent);
        assert list == [] ==> next + rest == [q];
        list := InsertAfter(list, q, tmpAloneBranch);
        tmpAloneBranch := Some(q);
        assert list[..|next|] == next && list[|next|..] == rest;
      }
    }

    lemma StillAlone(branch: seq<nat>)
      requires Midway(branch)
      ensures var last := branch[|branch| - 1]; last != ROOT && last in parent && parent[last] !in list && !InOrder()
    {
      assert list == branch + list[|branch|..];
    }

    lemma WalkingRooted(branch: seq<nat>, q: nat)
      requires Walking(branch, q)
      ensures Rooted(parent)
      ensures branch != [] ==> q !in list
      ensures branch == [] ==> InOrder()
    {
      if branch != [] {
        StillAlone(branch);
      }
    }

    lemma InOrderHas(q: nat)
      requires InOrder() && q in list
      ensures q == ROOT || (q in parent && parent[q] in list)
    {
      OrderedHas(list, parent, q);
    }

    lemma Downwards(q: nat)
      requires Listed() && q in nrRunning && Rooted(parent)
      ensures q != ROOT ==> q in parent && parent[q] < q && parent[q] in nrRunning
    {
    }

    /** What enqueue_entity does to the list: the first entity of a queue gets it listed. */
    method EnqueueOn(q: nat, ghost branch: seq<nat>) returns (ghost next: seq<nat>)
      requires Walking(branch, q) && Listed() && OccupiedListed() && q in nrRunning
      modifies `list, `tmpAloneBranch, `nrRunning
      ensures Listed() && OccupiedListed() && nrRunning == old(nrRunning)[q := old(nrRunning)[q] + 1] && q in list
      ensures forall g :: g in list <==> g == q || g in old(list)
      ensures if next == [] then InOrder() else Midway(next) && next[|next| - 1] == q
      ensures old(nrRunning)[q] > 0 ==> next == []
    {
      hide Ordered, Alone, Rooted, Midway, InOrder, ListedOnly;
      WalkingRooted(branch, q);
      Downwards(q);
      ghost var before, nr := list, nrRunning;
      next := branch;
      nrRunning := nrRunning[q := nrRunning[q] + 1];
      if nrRunning[q] == 1 {
        next := ListAdd(q, branch);
      }
      OneMoreListed(before, list, parent, nr, q);
    }

    /**
     * The part of an enqueue walk that concerns the list: from start up, every
     * queue gets an entity, and is listed with its first one, until a throttled
     * queue, the root, or a queue whose own entity is queued already. Where
     * that is can be told beforehand, and the list is back in order exactly
     * when the walk reaches the root or a queue whose parent was listed before.
     */
    method EnqueueWalk(start: nat, throttled: set<nat>) returns (last: nat, cut: bool)
      requires Valid() && start in nrRunning
      modifies this
      ensures parent == old(parent) && last == Stop(start, parent, old(nrRunning), throttled)
      ensures cut <==> last in throttled
      ensures !cut ==> Valid()
      ensures Valid() <==> last == ROOT || (last in parent && parent[last] in old(list))
      ensures forall g :: g in list <==> g in old(list) || g in Visited(start, parent, old(nrRunning), throttled)
      ensures nrRunning == Counted(old(nrRunning), Visited(start, parent, old(nrRunning), throttled))
    {
      hide Ordered, Rooted, Midway, InOrder, Listed, OccupiedListed, Stop, Visited, Counted;
      CountedNone(nrRunning);
      ghost var nr, before := nrRunning, list;
      var q: nat := start;
      ghost var branch: seq<nat> := [];
      ghost var seen: set<nat> := {};
      while true
        invariant Walking(branch, q) && Listed() && OccupiedListed()
        invariant q in nr && q in nrRunning && parent == old(parent)
        invariant nrRunning == Counted(nr, seen) && forall g :: g in seen ==> g > q
        invariant forall g :: g in list <==> g in before || g in seen
        invariant Stop(q, parent, nr, throttled) == Stop(start, parent, nr, throttled)
        invariant seen + Visited(q, parent, nr, throttled) == Visited(start, parent, nr, throttled)
        decreases q
      {
        WalkingRooted(branch, q);
        Downwards(q);
        Onwards(q, parent, nr, throttled);
        CountedMore(nr, seen, q);
        var was := nrRunning[q];
        branch := EnqueueOn(q, branch);
        seen := seen + {q};
        last := q;
        if branch == [] {
          InOrderHas(q);
        } else {
          StillAlone(branch);
        }
        if q in throttled {
          return q, true;
        }
        if q == ROOT || was > 0 {
          return q, false;
        }
        q := parent[q];
      }
    }

    /** Something leaves a queue; the queue stays listed. */
    method Leave(q: nat)
      requires Valid() && q in nrRunning && nrRunning[q] > 0
      modifies `nrRunning
      ensures Valid() && nrRunning == old(nrRunning)[q := old(nrRunning)[q] - 1]
    {
      nrRunning := nrRunning[q := nrRunning[q] - 1];
    }

    /** A new group below another one. */
    method Create(g: nat, above: nat)
      requires Valid() && g !in nrRunning && above in nrRunning && above < g
      modifies `parent, `nrRunning
      ensures Valid() && parent == old(parent)[g := above] && nrRunning == old(nrRunning)[g := 0]
    {
      MoreParents(list, parent, parent[g := above]);
      parent, nrRunning := parent[g := above], nrRunning[g := 0];
    }

    /** unregister_fair_sched_group: only groups without members and children are destroyed. */
    method Destroy(g: nat)
      requires Valid() && g in parent && nrRunning[g] == 0
      requires forall h :: h in parent ==> parent[h] != g
      modifies `list, `parent, `nrRunning
      ensures Valid() && parent == old(parent) - {g} && g !in nrRunning && g !in list
      ensures forall h :: h in list <==> h in old(list) && h != g
    {
      DeleteOrdered(list, g, parent);
      if g in list {
        list := Deleted(list, g);
      } else {
        NotDeleted(list, g);
      }
      parent, nrRunning := parent - {g}, nrRunning - {g};
    }
  }

  /** Once q's parent is listed, putting q before it connects the branch to its tree. */
  lemma ConnectBranch(branch: seq<nat>, rest: seq<nat>, q: nat, parent: map<nat, nat>)
    requires Rooted(parent) && Ordered(rest, parent) && q in parent && q !in branch + rest && parent[q] in branch + rest
    requires branch != [] ==> Alone(branch, rest, parent) && q == parent[branch[|branch| - 1]]
    ensures Ordered(InsertBefore(branch + rest, q, parent[q]), parent)
  {
    var a := parent[q];
    if branch == [] {
      assert branch + rest == rest;
      InsertBeforeOrdered(rest, q, parent);
    } else {
      BranchAbove(branch, parent);
      assert branch[|branch| - 1] > q > a;
      InsertBeforeSkips(branch, rest, q, a);
      InsertBeforeOrdered(rest, q, parent);
      InsertBeforeHas(rest, q, a);
      Connect(branch, InsertBefore(rest, q, a), parent);
    }
  }

  lemma {:induction false} BranchAbove(branch: seq<nat>, parent: map<nat, nat>)
    requires Rooted(parent) && Chain(branch, parent)
    ensures forall i :: 0 <= i < |branch| - 1 ==> branch[i] > branch[|branch| - 1]
  {
    if |branch| > 1 {
      var tail := branch[1..];
      assert forall i :: 0 <= i < |tail| ==> tail[i] == branch[i + 1];
      BranchAbove(tail, parent);
      assert branch[0] > branch[1];
      assert forall i :: 0 < i < |branch| - 1 ==> branch[i] == tail[i - 1];
    }
  }

  /** Without its parent listed, q prolongs the branch. */
  lemma Prolong(branch: seq<nat>, rest: seq<nat>, q: nat, parent: map<nat, nat>)
    requires Rooted(parent) && Ordered(rest, parent) && q in parent && q !in branch + rest && parent[q] !in branch + rest
    requires branch != [] ==> Alone(branch, rest, parent) && q == parent[branch[|branch| - 1]]
    ensures InsertAfter(branch + rest, q, if branch == [] then None else Some(branch[|branch| - 1])) == branch + [q] + rest
    ensures Alone(branch + [q], rest, parent)
  {
    if branch != [] {
      BranchAbove(branch, parent);
      InsertAfterBranch(branch, rest, q);
    }
    ProlongedAlone(branch, rest, q, parent);
  }

  lemma ProlongedAlone(branch: seq<nat>, rest: seq<nat>, q: nat, parent: map<nat, nat>)
    requires Rooted(parent) && Ordered(rest, parent) && q in parent && q !in branch + rest && parent[q] !in branch + rest
    requires branch != [] ==> Alone(branch, rest, parent) && q == parent[branch[|branch| - 1]]
    ensures Alone(branch + [q], rest, parent)
  {
    var more := branch + [q];
    assert forall i :: 0 <= i < |more| ==> more[i] == if i < |branch| then branch[i] else q;
    assert Chain(more, parent);
  }

  /** A walk cut short two levels below the root leaves a queue listed whose parent is not. */
  method CutShort() returns (rq: Rq)
    ensures fresh(rq) && !rq.Valid() && !Ordered(rq.list, rq.parent)
    ensures 2 in rq.list && rq.parent == map[1 := ROOT, 2 := 1] && 1 !in rq.list
  {
    rq := new Rq();
    rq.Create(1, ROOT);
    rq.Create(2, 1);
    var last, cut := rq.EnqueueWalk(2, {2});
    assert rq.list != [] && rq.list[0] in rq.list;
  }
}
