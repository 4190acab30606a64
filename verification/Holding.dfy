// A list of items held until their time: what is due and what stays.
module Holding {

  function Due<T>(queue: seq<(int, T)>, nowMs: int): seq<(int, T)> {
    if queue == [] then []
    else
      var last := queue[|queue| - 1];
      Due(queue[..|queue| - 1], nowMs) + (if last.0 <= nowMs then [last] else [])
  }

  function NotDue<T>(queue: seq<(int, T)>, nowMs: int): seq<(int, T)> {
    if queue == [] then []
    else
      var last := queue[|queue| - 1];
      NotDue(queue[..|queue| - 1], nowMs) + (if last.0 > nowMs then [last] else [])
  }

  function ItemsOf<T>(queue: seq<(int, T)>): seq<T> {
    seq(|queue|, i requires 0 <= i < |queue| => queue[i].1)
  }

  lemma ItemsOfConcat<T>(a: seq<(int, T)>, b: seq<(int, T)>)
    ensures ItemsOf(a + b) == ItemsOf(a) + ItemsOf(b)
  {
  }

  /** Every released item had come due, and what stays is later than now. */
  lemma {:induction false} ReleasedOnTime<T>(queue: seq<(int, T)>, nowMs: int)
    ensures forall p :: p in Due(queue, nowMs) ==> p.0 <= nowMs
    ensures forall p :: p in NotDue(queue, nowMs) ==> p.0 > nowMs
  {
    if queue != [] {
      ReleasedOnTime(queue[..|queue| - 1], nowMs);
    }
  }

  /** Nothing is lost or made up. */
  lemma {:induction false} DueKeepsAll<T>(queue: seq<(int, T)>, nowMs: int)
    ensures multiset(Due(queue, nowMs)) + multiset(NotDue(queue, nowMs)) == multiset(queue)
  {
    if queue != [] {
      var front, last := queue[..|queue| - 1], queue[|queue| - 1];
      DueKeepsAll(front, nowMs);
      assert multiset(queue) == multiset(front) + multiset{last} by { assert queue == front + [last]; }
      if last.0 <= nowMs {
        assert Due(queue, nowMs) == Due(front, nowMs) + [last] && NotDue(queue, nowMs) == NotDue(front, nowMs);
      } else {
        assert NotDue(queue, nowMs) == NotDue(front, nowMs) + [last] && Due(queue, nowMs) == Due(front, nowMs);
      }
      hide Due, NotDue;
    }
  }

  function Without<T>(queue: seq<(int, T)>, i: nat): seq<(int, T)>
    requires i < |queue|
  {
    queue[..i] + queue[i + 1..]
  }

  lemma TakeOut<T>(queue: seq<(int, T)>, i: nat)
    requires i < |queue|
    ensures multiset(queue) == multiset(Without(queue, i)) + multiset{queue[i]}
    ensures multiset(ItemsOf(queue)) == multiset(ItemsOf(Without(queue, i))) + multiset{queue[i].1}
  {
    var before, one, after := queue[..i], [queue[i]], queue[i + 1..];
    assert queue == before + one + after;
    ItemsOfConcat(before, one);
    ItemsOfConcat(before + one, after);
    ItemsOfConcat(before, after);
    assert ItemsOf(one) == [queue[i].1];
  }

  lemma OneLess<T>(m: multiset<T>, n: multiset<T>, x: T)
    requires m + multiset{x} == n + multiset{x}
    ensures m == n
  {
    forall e ensures m[e] == n[e] {
      assert (m + multiset{x})[e] == (n + multiset{x})[e];
    }
  }

  /** Lists with the same entries have the same items. */
  lemma {:induction false} SameEntriesSameItems<T>(a: seq<(int, T)>, b: seq<(int, T)>)
    requires multiset(a) == multiset(b)
    ensures multiset(ItemsOf(a)) == multiset(ItemsOf(b))
    decreases |a|
  {
    if a == [] {
      assert |multiset(b)| == 0;
    } else {
      assert a[0] in multiset(b);
      var i :| 0 <= i < |b| && b[i] == a[0];
      TakeOut(a, 0);
      TakeOut(b, i);
      OneLess(multiset(Without(a, 0)), multiset(Without(b, i)), a[0]);
      SameEntriesSameItems(Without(a, 0), Without(b, i));
    }
  }

  /** As items: what is due and what stays are what was queued. */
  lemma DueKeepsItems<T>(queue: seq<(int, T)>, nowMs: int)
    ensures multiset(ItemsOf(Due(queue, nowMs))) + multiset(ItemsOf(NotDue(queue, nowMs))) == multiset(ItemsOf(queue))
  {
    var due, later := Due(queue, nowMs), NotDue(queue, nowMs);
    DueKeepsAll(queue, nowMs);
    SameEntriesSameItems(due + later, queue);
    ItemsOfConcat(due, later);
  }
}
