/** The final reordering of the output sheet: `sort_values(by=["_p", "_s"])`
    with `_s` the row's original position, which orders rows by their
    priority and keeps the original order among rows of equal priority.
    The permutation is computed on row positions. */
module Ranking {

  /** Row `i` goes before row `j`: lower priority value first, then the
      earlier original position. */
  predicate Before(ranks: seq<int>, i: nat, j: nat)
    requires i < |ranks| && j < |ranks|
  {
    ranks[i] < ranks[j] || (ranks[i] == ranks[j] && i < j)
  }

  /** `order` lists row positions of `ranks`, each strictly before the next. */
  predicate SortedBy(ranks: seq<int>, order: seq<nat>) {
    (forall k :: 0 <= k < |order| ==> order[k] < |ranks|) &&
    forall a, b :: 0 <= a < b < |order| ==> Before(ranks, order[a], order[b])
  }

  /** Inserts position `x` in front of the first position it goes before. */
  function Insert(ranks: seq<int>, x: nat, order: seq<nat>): (r: seq<nat>)
    requires x < |ranks| && forall k :: 0 <= k < |order| ==> order[k] < |ranks|
    ensures |r| == |order| + 1
    ensures forall k :: 0 <= k < |r| ==> r[k] < |ranks|
    ensures forall y :: y in r <==> y == x || y in order
    decreases |order|
  {
    if order == [] || Before(ranks, x, order[0]) then [x] + order
    else [order[0]] + Insert(ranks, x, order[1..])
  }

  lemma {:induction false} InsertSorted(ranks: seq<int>, x: nat, order: seq<nat>)
    requires x < |ranks| && SortedBy(ranks, order) && x !in order
    ensures SortedBy(ranks, Insert(ranks, x, order))
    decreases |order|
  {
    if order == [] || Before(ranks, x, order[0]) {
    } else {
      var rest := order[1..];
      SortedTail(ranks, order);
      assert x !in rest;
      InsertSorted(ranks, x, rest);
      var ins := Insert(ranks, x, rest);
      forall k | 0 <= k < |ins| ensures Before(ranks, order[0], ins[k]) {
        assert ins[k] in ins;
        if ins[k] != x {
          var m :| 0 <= m < |rest| && rest[m] == ins[k];
          assert order[m + 1] == rest[m];
        }
      }
      SortedCons(ranks, order[0], ins);
    }
  }

  /** Dropping the first position keeps a sorted list sorted. */
  lemma SortedTail(ranks: seq<int>, order: seq<nat>)
    requires SortedBy(ranks, order) && order != []
    ensures SortedBy(ranks, order[1..])
  {
    var rest := order[1..];
    forall a, b | 0 <= a < b < |rest| ensures Before(ranks, rest[a], rest[b]) {
      assert rest[a] == order[a + 1] && rest[b] == order[b + 1];
    }
  }

  /** A position before every position of a sorted list can go in front. */
  lemma SortedCons(ranks: seq<int>, h: nat, order: seq<nat>)
    requires h < |ranks| && SortedBy(ranks, order)
    requires forall k :: 0 <= k < |order| ==> Before(ranks, h, order[k])
    ensures SortedBy(ranks, [h] + order)
  {
    var r := [h] + order;
    forall a, b | 0 <= a < b < |r| ensures Before(ranks, r[a], r[b]) {
      if a > 0 {
        assert r[a] == order[a - 1] && r[b] == order[b - 1];
      } else {
        assert r[b] == order[b - 1];
      }
    }
  }

  /** The first `n` positions, sorted. */
  function SortPrefix(ranks: seq<int>, n: nat): (r: seq<nat>)
    requires n <= |ranks|
    ensures |r| == n
    ensures forall k :: 0 <= k < |r| ==> r[k] < |ranks|
    ensures forall y :: y in r <==> 0 <= y < n
  {
    if n == 0 then [] else Insert(ranks, n - 1, SortPrefix(ranks, n - 1))
  }

  lemma {:induction false} SortPrefixSorted(ranks: seq<int>, n: nat)
    requires n <= |ranks|
    ensures SortedBy(ranks, SortPrefix(ranks, n))
  {
    if n > 0 {
      SortPrefixSorted(ranks, n - 1);
      InsertSorted(ranks, n - 1, SortPrefix(ranks, n - 1));
    }
  }

  /** The order in which the rows come out of the sort. */
  function RankOrder(ranks: seq<int>): seq<nat> {
    SortPrefix(ranks, |ranks|)
  }

  /** The output holds every row exactly once, in priority order, rows of
      equal priority keeping their original order. */
  lemma RankOrderFacts(ranks: seq<int>)
    ensures var order := RankOrder(ranks);
            |order| == |ranks| &&
            (forall i :: 0 <= i < |ranks| ==> i in order) &&
            (forall a, b :: 0 <= a < b < |order| ==> order[a] != order[b]) &&
            (forall a, b :: 0 <= a < b < |order| ==> ranks[order[a]] <= ranks[order[b]]) &&
            (forall a, b :: 0 <= a < b < |order| && ranks[order[a]] == ranks[order[b]] ==> order[a] < order[b])
  {
    SortPrefixSorted(ranks, |ranks|);
  }

  /** The sheet after sorting: row `k` of the output is row `order[k]` of
      the input. */
  function Reorder<T>(rows: seq<T>, order: seq<nat>): (r: seq<T>)
    requires forall k :: 0 <= k < |order| ==> order[k] < |rows|
    ensures |r| == |order|
    ensures forall k :: 0 <= k < |order| ==> r[k] == rows[order[k]]
  {
    seq(|order|, k requires 0 <= k < |order| => rows[order[k]])
  }

  /** Reordering by `a + b` lists the rows picked by `a`, then those picked
      by `b`. */
  lemma ReorderAppend<T>(rows: seq<T>, a: seq<nat>, b: seq<nat>)
    requires forall k :: 0 <= k < |a| ==> a[k] < |rows|
    requires forall k :: 0 <= k < |b| ==> b[k] < |rows|
    ensures Reorder(rows, a + b) == Reorder(rows, a) + Reorder(rows, b)
  {
    var l, r := Reorder(rows, a + b), Reorder(rows, a) + Reorder(rows, b);
    forall k | 0 <= k < |l| ensures l[k] == r[k] {
      if k < |a| {
        assert (a + b)[k] == a[k];
      } else {
        assert (a + b)[k] == b[k - |a|];
      }
    }
  }

  /** Two position lists holding the same positions pick the same rows, in
      some order. */
  lemma {:induction false} ReorderSamePositions<T>(rows: seq<T>, o1: seq<nat>, o2: seq<nat>)
    requires forall k :: 0 <= k < |o1| ==> o1[k] < |rows|
    requires forall k :: 0 <= k < |o2| ==> o2[k] < |rows|
    requires multiset(o1) == multiset(o2)
    ensures multiset(Reorder(rows, o1)) == multiset(Reorder(rows, o2))
    decreases |o1|
  {
    if o1 == [] {
      assert |o2| == |multiset(o2)| == 0;
    } else {
      assert o1[0] in multiset(o2);
      var p :| 0 <= p < |o2| && o2[p] == o1[0];
      var rest := o2[..p] + o2[p + 1..];
      RemoveSame(o1, o2, p);
      ReorderSamePositions(rows, o1[1..], rest);
      ReorderFirst(rows, o1);
      ReorderPick(rows, o2, p);
    }
  }

  /** Taking the first position off `o1` and the same position off `o2`
      leaves lists with the same positions. */
  lemma RemoveSame(o1: seq<nat>, o2: seq<nat>, p: nat)
    requires o1 != [] && p < |o2| && o2[p] == o1[0] && multiset(o1) == multiset(o2)
    ensures multiset(o1[1..]) == multiset(o2[..p] + o2[p + 1..])
  {
    var x, front, back := o1[0], o2[..p], o2[p + 1..];
    assert o1 == [x] + o1[1..];
    assert o2 == front + [x] + back;
    assert multiset(o1) == multiset{x} + multiset(o1[1..]);
    assert multiset(o2) == multiset(front) + multiset{x} + multiset(back);
    assert multiset(front + back) == multiset(front) + multiset(back);
    forall y ensures multiset(o1[1..])[y] == multiset(front + back)[y] {
      assert multiset(o1)[y] == multiset(o2)[y];
    }
  }

  /** The rows picked by a list are its first row and those picked by the rest. */
  lemma ReorderFirst<T>(rows: seq<T>, o: seq<nat>)
    requires o != [] && forall k :: 0 <= k < |o| ==> o[k] < |rows|
    ensures multiset(Reorder(rows, o)) == multiset{rows[o[0]]} + multiset(Reorder(rows, o[1..]))
  {
    assert o == [o[0]] + o[1..];
    ReorderAppend(rows, [o[0]], o[1..]);
    ReorderOne(rows, o[0]);
  }

  /** One position picks one row. */
  lemma ReorderOne<T>(rows: seq<T>, x: nat)
    requires x < |rows|
    ensures multiset(Reorder(rows, [x])) == multiset{rows[x]}
  {
    assert Reorder(rows, [x]) == [rows[x]];
  }

  /** The rows picked by a list are its row at `p` and those picked by the
      list without position `p`. */
  lemma ReorderPick<T>(rows: seq<T>, o: seq<nat>, p: nat)
    requires p < |o| && forall k :: 0 <= k < |o| ==> o[k] < |rows|
    ensures multiset(Reorder(rows, o)) == multiset{rows[o[p]]} + multiset(Reorder(rows, o[..p] + o[p + 1..]))
  {
    var front, back := o[..p], o[p + 1..];
    assert o == front + [o[p]] + back;
    ReorderAppend(rows, front + [o[p]], back);
    ReorderAppend(rows, front, [o[p]]);
    ReorderAppend(rows, front, back);
    ReorderOne(rows, o[p]);
  }

  /** `0, 1, ..., n - 1` */
  function Positions(n: nat): (r: seq<nat>)
    ensures |r| == n && forall i :: 0 <= i < n ==> r[i] == i
  {
    if n == 0 then [] else Positions(n - 1) + [n - 1]
  }

  /** In a list without repeats every position occurs at most once. */
  lemma {:induction false} DistinctCount(s: seq<nat>, x: nat)
    requires forall a, b :: 0 <= a < b < |s| ==> s[a] != s[b]
    ensures multiset(s)[x] == if x in s then 1 else 0
  {
    if s != [] {
      assert s == [s[0]] + s[1..];
      DistinctCount(s[1..], x);
      if x == s[0] {
        assert x !in s[1..];
      }
    }
  }

  /** A sorted order of the rows holds each row position exactly once. */
  lemma OrderIsPermutation(ranks: seq<int>, order: seq<nat>)
    requires SortedByRank(ranks, order)
    ensures multiset(order) == multiset(Positions(|ranks|))
  {
    var all := Positions(|ranks|);
    forall x: nat ensures multiset(order)[x] == multiset(all)[x] {
      DistinctCount(order, x);
      DistinctCount(all, x);
      if x in all {
        assert x < |ranks|;
      }
      if x in order {
        assert x < |ranks|;
        assert all[x] == x;
      }
    }
    assert multiset(order) == multiset(all);
  }

  /** The sheet written after sorting holds exactly the input rows: a
      permutation of them, whatever order ties take. */
  lemma SheetIsPermutation<T>(ranks: seq<int>, rows: seq<T>, order: seq<nat>)
    requires |rows| == |ranks| && SortedByRank(ranks, order)
    ensures multiset(Reorder(rows, order)) == multiset(rows)
  {
    OrderIsPermutation(ranks, order);
    ReorderSamePositions(rows, order, Positions(|rows|));
    assert Reorder(rows, Positions(|rows|)) == rows;
  }

  /** What a single-key `sort_values(...)` with pandas' default (unstable)
      quicksort promises: every row exactly once, by non-decreasing priority
      value, rows of equal priority in some order. */
  predicate SortedByRank(ranks: seq<int>, order: seq<nat>) {
    |order| == |ranks| &&
    (forall k :: 0 <= k < |order| ==> order[k] < |ranks|) &&
    (forall i :: 0 <= i < |ranks| ==> i in order) &&
    (forall a, b :: 0 <= a < b < |order| ==> order[a] != order[b]) &&
    (forall a, b :: 0 <= a < b < |order| ==> ranks[order[a]] <= ranks[order[b]])
  }

  /** The stable order is one of the orders an unstable sort may produce. */
  lemma RankOrderSortedByRank(ranks: seq<int>)
    ensures SortedByRank(ranks, RankOrder(ranks))
  {
    RankOrderFacts(ranks);
  }

  /** In any order sorted by priority, a row of strictly lower priority
      value comes out strictly earlier. */
  lemma LowerRankFirst(ranks: seq<int>, order: seq<nat>, a: nat, b: nat)
    requires SortedByRank(ranks, order)
    requires a < |order| && b < |order| && ranks[order[a]] < ranks[order[b]]
    ensures a < b
  {
  }
}
