/**
 * Handing runtime to throttled queues one after the other: what one pass over
 * the list of throttled queues does, as values.
 */
module RuntimeDistribution {
  import opened Arithmetic

  /** The bandwidth side of a queue: what runtime it has left, or owes, and whether it is throttled. */
  datatype Account = Account(remaining: int, throttled: bool)

  datatype Pass = Pass(queues: seq<Account>, left: nat)

  /** -runtime_remaining + 1 in an unsigned 64-bit variable. */
  function Wanted(remaining: int): nat {
    (1 - remaining) % TWO64
  }

  /** A throttled queue takes what it wants, or what is left, and runs again if that leaves it anything. */
  function ServeOne(q: Account, left: nat): (r: (Account, nat))
    ensures r.1 <= left
  {
    if !q.throttled then (q, left)
    else
      var given := Min(Wanted(q.remaining), left);
      (Account(q.remaining + given, q.remaining + given <= 0), left - given)
  }

  /** One pass over the list: it ends early when nothing is left. */
  function Serve(qs: seq<Account>, left: nat): (r: Pass)
    ensures |r.queues| == |qs| && r.left <= left
  {
    if qs == [] then Pass([], left)
    else
      var (q, rest) := ServeOne(qs[0], left);
      if rest == 0 then Pass([q] + qs[1..], 0)
      else
        var r := Serve(qs[1..], rest);
        Pass([q] + r.queues, r.left)
  }

  function Total(qs: seq<Account>): int {
    if qs == [] then 0 else qs[0].remaining + Total(qs[1..])
  }

  /** What leaves the amount to distribute arrives at the queues. */
  lemma {:induction false} PassConserves(qs: seq<Account>, left: nat)
    ensures Total(Serve(qs, left).queues) - Total(qs) == left - Serve(qs, left).left
  {
    if qs != [] {
      var (q, rest) := ServeOne(qs[0], left);
      if rest == 0 {
        assert ([q] + qs[1..])[1..] == qs[1..];
      } else {
        PassConserves(qs[1..], rest);
        var r := Serve(qs[1..], rest);
        assert ([q] + r.queues)[1..] == r.queues;
      }
    }
  }

  /** Every account is a signed 64-bit number. */
  ghost predicate Fits64(qs: seq<Account>) {
    forall i :: 0 <= i < |qs| ==> -TWO63 <= qs[i].remaining < TWO63
  }

  /** If anything is left, no queue on the list is throttled any more, whatever it owed. */
  lemma {:induction false} LeftoverMeansAllServed(qs: seq<Account>, left: nat)
    requires Fits64(qs) && Serve(qs, left).left > 0
    ensures forall i :: 0 <= i < |qs| ==> !Serve(qs, left).queues[i].throttled
  {
    if qs != [] {
      var (q, rest) := ServeOne(qs[0], left);
      assert forall i :: 0 <= i < |qs[1..]| ==> qs[1..][i] == qs[i + 1];
      LeftoverMeansAllServed(qs[1..], rest);
      assert -TWO63 <= qs[0].remaining < TWO63;
      assert Wanted(qs[0].remaining) == if qs[0].remaining <= 1 then 1 - qs[0].remaining else TWO64 + 1 - qs[0].remaining;
    }
  }

  /** The queues owe runtime: none has more than one unit, and what they owe fits 64 bits. */
  ghost predicate Owing(qs: seq<Account>) {
    forall i :: 0 <= i < |qs| && qs[i].throttled ==> -TWO63 <= qs[i].remaining <= 1
  }

  /** How many queues from the head of the list on are dealt with completely. */
  function Done(qs: seq<Account>, left: nat): (k: nat)
    ensures k <= |qs|
  {
    if qs == [] then 0
    else
      var (q, rest) := ServeOne(qs[0], left);
      if q.throttled then 0
      else if rest == 0 then 1
      else 1 + Done(qs[1..], rest)
  }

  /**
   * Queues that owe runtime are served in the order of the list: those dealt
   * with have exactly one unit and run again, at most one gets a part of what
   * it wants and stays throttled, and the others are not touched.
   */
  lemma {:induction false} ServedInOrder(qs: seq<Account>, left: nat)
    requires Owing(qs)
    ensures var r, k := Serve(qs, left), Done(qs, left);
            && (forall i :: 0 <= i < k ==> r.queues[i] == if qs[i].throttled then Account(1, false) else qs[i])
            && (forall i :: k < i < |qs| ==> r.queues[i] == qs[i])
            && (k < |qs| ==> r.left == 0 && r.queues[k].throttled == qs[k].throttled
                             && qs[k].remaining <= r.queues[k].remaining)
            && (k < |qs| && qs[k].throttled ==> r.queues[k].remaining <= 1)
  {
    if qs != [] {
      var (q, rest) := ServeOne(qs[0], left);
      ServedOne(qs[0], left);
      var r, tail := Serve(qs, left), qs[1..];
      if !q.throttled && rest > 0 {
        assert forall i :: 0 <= i < |tail| ==> tail[i] == qs[i + 1];
        ServedInOrder(tail, rest);
        var s := Serve(tail, rest);
        assert r == Pass([q] + s.queues, s.left) && Done(qs, left) == 1 + Done(tail, rest);
        hide Serve, ServeOne, Done;
        assert forall i :: 0 < i < |qs| ==> r.queues[i] == s.queues[i - 1] && qs[i] == tail[i - 1];
      } else {
        StopsHere(qs, left);
      }
    }
  }

  lemma StopsHere(qs: seq<Account>, left: nat)
    requires qs != [] && (ServeOne(qs[0], left).0.throttled ==> ServeOne(qs[0], left).1 == 0)
    requires ServeOne(qs[0], left).0.throttled || ServeOne(qs[0], left).1 == 0
    ensures Serve(qs, left) == Pass([ServeOne(qs[0], left).0] + qs[1..], 0)
    ensures Done(qs, left) == if ServeOne(qs[0], left).0.throttled then 0 else 1
  {
  }

  lemma ServedOne(q: Account, left: nat)
    requires q.throttled ==> -TWO63 <= q.remaining <= 1
    ensures var (r, rest) := ServeOne(q, left);
            q.throttled ==> if r.throttled then rest == 0 && q.remaining <= r.remaining <= 0 else r == Account(1, false)
  {
    if q.throttled {
      assert Wanted(q.remaining) == 1 - q.remaining;
    }
  }

  /**
   * A queue that is handed all it needs ends up with exactly one unit if and
   * only if it had no more than that before: with more, the amount wanted
   * wraps around and the queue takes everything.
   */
  lemma ServedToOneIff(remaining: int, left: nat)
    requires -TWO63 <= remaining < TWO63 && 0 < left < TWO63 && 1 - remaining <= left
    ensures ServeOne(Account(remaining, true), left).0 == Account(1, false) <==> remaining <= 1
    ensures remaining > 1 ==> ServeOne(Account(remaining, true), left) == (Account(remaining + left, false), 0)
  {
    if remaining > 1 {
      assert Wanted(remaining) == TWO64 + 1 - remaining;
    } else {
      assert Wanted(remaining) == 1 - remaining;
    }
  }

  // -------------------------------------------------- a pass, queue by queue

  /** The first i queues have been dealt with and left remains. */
  ghost predicate Partway(before: seq<Account>, now: seq<Account>, i: nat, left: nat, start: nat) {
    && i <= |before| == |now| && now[i..] == before[i..]
    && Serve(before, start) == Pass(now[..i] + Serve(before[i..], left).queues, Serve(before[i..], left).left)
    && (i == |before| ==> Serve(before, start) == Pass(now, left))
  }

  lemma PartwayStart(before: seq<Account>, start: nat)
    ensures Partway(before, before, 0, start, start)
  {
    assert before[0..] == before;
    assert [] + Serve(before, start).queues == Serve(before, start).queues;
  }

  lemma PartwayLength(before: seq<Account>, now: seq<Account>, i: nat, left: nat, start: nat)
    requires Partway(before, now, i, left, start)
    ensures |before| == |now|
  {
  }

  lemma PartwayEnd(before: seq<Account>, now: seq<Account>, left: nat, start: nat)
    requires Partway(before, now, |before|, left, start)
    ensures Serve(before, start) == Pass(now, left)
  {
  }

  lemma PartwayStep(before: seq<Account>, now: seq<Account>, i: nat, left: nat, start: nat)
    requires Partway(before, now, i, left, start) && i < |before|
    ensures var (q, rest) := ServeOne(now[i], left);
            var next := now[i := q];
            if rest == 0 then Serve(before, start) == Pass(next, 0) else Partway(before, next, i + 1, rest, start)
  {
    var (q, rest) := ServeOne(now[i], left);
    var next := now[i := q];
    assert before[i..][0] == now[i..][0] == now[i] && before[i..][1..] == before[i + 1..] == now[i..][1..];
    if rest == 0 {
      assert now[..i] + ([q] + before[i + 1..]) == next;
    } else {
      var tail := Serve(before[i + 1..], rest);
      assert now[..i] + ([q] + tail.queues) == next[..i + 1] + tail.queues;
      assert i + 1 == |before| ==> next[..i + 1] + tail.queues == next;
    }
  }
}
