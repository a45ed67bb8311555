/**
 * Finite sums of integers indexed by a set.
 */
module Sums {

  ghost function Sum<T>(s: set<T>, f: map<T, int>): int
    requires s <= f.Keys
  {
    if s == {} then 0
    else
      var e :| e in s;
      f[e] + Sum(s - {e}, f)
  }

  lemma {:induction false} SumRemove<T>(s: set<T>, e: T, f: map<T, int>)
    requires s <= f.Keys && e in s
    ensures Sum(s, f) == f[e] + Sum(s - {e}, f)
  {
    var d :| d in s && Sum(s, f) == f[d] + Sum(s - {d}, f);
    if d != e {
      SumRemove(s - {d}, e, f);
      SumRemove(s - {e}, d, f);
      assert s - {d} - {e} == s - {e} - {d};
    }
  }

  lemma SumInsert<T>(s: set<T>, e: T, f: map<T, int>)
    requires s <= f.Keys && e in f.Keys && e !in s
    ensures Sum(s + {e}, f) == f[e] + Sum(s, f)
  {
    SumRemove(s + {e}, e, f);
    assert s + {e} - {e} == s;
  }

  lemma {:induction false} SumAgree<T>(s: set<T>, f: map<T, int>, g: map<T, int>)
    requires s <= f.Keys && s <= g.Keys
    requires forall e :: e in s ==> f[e] == g[e]
    ensures Sum(s, f) == Sum(s, g)
  {
    if s != {} {
      var e :| e in s;
      SumRemove(s, e, f);
      SumRemove(s, e, g);
      SumAgree(s - {e}, f, g);
    }
  }

  /** Raising one summand by d raises exactly the sums it belongs to. */
  lemma SumBump<T>(s: set<T>, e: T, f: map<T, int>, g: map<T, int>, d: int)
    requires s <= f.Keys && s <= g.Keys
    requires forall x :: x in s ==> g[x] == f[x] + if x == e then d else 0
    ensures Sum(s, g) == Sum(s, f) + if e in s then d else 0
  {
    if e in s {
      SumRemove(s, e, f);
      SumRemove(s, e, g);
      SumAgree(s - {e}, f, g);
    } else {
      SumAgree(s, f, g);
    }
  }

  lemma {:induction false} SumAtLeast<T>(s: set<T>, f: map<T, int>, low: nat)
    requires s <= f.Keys
    requires forall e :: e in s ==> f[e] >= low
    ensures Sum(s, f) >= |s| * low
  {
    if s != {} {
      var e :| e in s;
      SumRemove(s, e, f);
      SumAtLeast(s - {e}, f, low);
      assert |s| * low == (|s| - 1) * low + low;
    }
  }
}
