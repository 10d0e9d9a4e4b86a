/** Sequence vocabulary for the extractors: truncation (`xs[:k]`),
    order-preserving de-duplication (`list(dict.fromkeys(xs))`) and the
    subsequence relation used to say "in document order". */
module Seqs {

  predicate Distinct<T(==)>(xs: seq<T>) {
    forall i, j :: 0 <= i < j < |xs| ==> xs[i] != xs[j]
  }

  /** `xs[:k]` for a non-negative `k`; nothing for a negative one. */
  function Take<T>(xs: seq<T>, k: int): (r: seq<T>)
    ensures |r| == if k <= 0 then 0 else if k < |xs| then k else |xs|
    ensures r <= xs
  {
    if k <= 0 then [] else if k < |xs| then xs[..k] else xs
  }

  /** Taking as many elements as a prefix holds gives that prefix. */
  lemma TakeOfAppend<T>(xs: seq<T>, ys: seq<T>, k: int)
    requires |xs| == k
    ensures Take(xs + ys, k) == xs
  {
    assert (xs + ys)[..k] == xs;
  }

  /** One step of a loop that appends, in order, the pieces of `all`:
      `rest` is what is still to come and begins with `head`. */
  lemma AppendStep<T>(done: seq<T>, head: seq<T>, rest: seq<T>, tail: seq<T>, all: seq<T>)
    requires done + rest == all && rest == head + tail
    ensures (done + head) + tail == all
  {
  }

  /** `xs` with every element of `seen` and every repeated element dropped,
      keeping first occurrences in their original order. */
  function DedupFrom<T(==)>(xs: seq<T>, seen: set<T>): (r: seq<T>)
    ensures |r| <= |xs|
    decreases |xs|
  {
    if xs == [] then []
    else if xs[0] in seen then DedupFrom(xs[1..], seen)
    else [xs[0]] + DedupFrom(xs[1..], seen + {xs[0]})
  }

  /** De-duplication keeps exactly the elements outside `seen`, once each. */
  lemma {:induction false} DedupFacts<T>(xs: seq<T>, seen: set<T>)
    ensures var r := DedupFrom(xs, seen);
            Distinct(r) &&
            (forall i :: 0 <= i < |r| ==> r[i] in xs && r[i] !in seen) &&
            (forall i :: 0 <= i < |xs| && xs[i] !in seen ==> xs[i] in r)
    decreases |xs|
  {
    if xs != [] {
      if xs[0] in seen {
        DedupFacts(xs[1..], seen);
        assert forall i :: 1 <= i < |xs| ==> xs[i] == xs[1..][i - 1];
      } else {
        DedupFacts(xs[1..], seen + {xs[0]});
        var rest := DedupFrom(xs[1..], seen + {xs[0]});
        assert forall i :: 1 <= i < |xs| ==> xs[i] == xs[1..][i - 1];
        assert forall i :: 0 <= i < |rest| ==> rest[i] != xs[0];
      }
    }
  }

  /** `xs` can be obtained from `ys` by deleting elements. */
  predicate IsSubsequence<T(==)>(xs: seq<T>, ys: seq<T>)
    decreases |ys|
  {
    |xs| <= |ys| &&
    (xs == [] ||
     (xs[0] == ys[0] && IsSubsequence(xs[1..], ys[1..])) ||
     IsSubsequence(xs, ys[1..]))
  }

  lemma {:induction false} SubsequenceRefl<T>(xs: seq<T>)
    ensures IsSubsequence(xs, xs)
    decreases |xs|
  {
    if xs != [] {
      SubsequenceRefl(xs[1..]);
    }
  }

  lemma {:induction false} SubsequenceCons<T>(xs: seq<T>, y: T, ys: seq<T>)
    requires IsSubsequence(xs, ys)
    ensures IsSubsequence(xs, [y] + ys)
  {
    assert ([y] + ys)[1..] == ys;
  }

  lemma {:induction false} PrefixIsSubsequence<T>(xs: seq<T>, ys: seq<T>)
    requires xs <= ys
    ensures IsSubsequence(xs, ys)
    decreases |ys|
  {
    if xs != [] {
      assert xs[1..] <= ys[1..];
      PrefixIsSubsequence(xs[1..], ys[1..]);
    }
  }

  lemma {:induction false} SubsequenceTrans<T>(xs: seq<T>, ys: seq<T>, zs: seq<T>)
    requires IsSubsequence(xs, ys) && IsSubsequence(ys, zs)
    ensures IsSubsequence(xs, zs)
    decreases |zs|
  {
    if xs == [] {
    } else if ys[0] == zs[0] && IsSubsequence(ys[1..], zs[1..]) {
      if xs[0] == ys[0] && IsSubsequence(xs[1..], ys[1..]) {
        SubsequenceTrans(xs[1..], ys[1..], zs[1..]);
      } else {
        SubsequenceTrans(xs, ys[1..], zs[1..]);
      }
    } else {
      SubsequenceTrans(xs, ys, zs[1..]);
    }
  }

  /** De-duplication keeps first occurrences in order. */
  lemma {:induction false} DedupIsSubsequence<T>(xs: seq<T>, seen: set<T>)
    ensures IsSubsequence(DedupFrom(xs, seen), xs)
    decreases |xs|
  {
    if xs == [] {
    } else if xs[0] in seen {
      DedupIsSubsequence(xs[1..], seen);
      SubsequenceCons(DedupFrom(xs[1..], seen), xs[0], xs[1..]);
      assert [xs[0]] + xs[1..] == xs;
    } else {
      DedupIsSubsequence(xs[1..], seen + {xs[0]});
      assert DedupFrom(xs, seen)[1..] == DedupFrom(xs[1..], seen + {xs[0]});
    }
  }

  /** A subsequence of a sequence without repetitions has none either. */
  lemma {:induction false} SubsequenceDistinct<T>(xs: seq<T>, ys: seq<T>)
    requires IsSubsequence(xs, ys) && Distinct(ys)
    ensures Distinct(xs)
    ensures forall x :: x in xs ==> x in ys
    decreases |ys|
  {
    if xs == [] {
    } else if xs[0] == ys[0] && IsSubsequence(xs[1..], ys[1..]) {
      SubsequenceDistinct(xs[1..], ys[1..]);
      assert forall x :: x in xs[1..] ==> x in ys[1..];
      assert xs[0] !in ys[1..];
      assert forall x :: x in xs <==> x == xs[0] || x in xs[1..];
      forall i, j | 0 <= i < j < |xs| ensures xs[i] != xs[j] {
        if i == 0 {
          assert xs[j] in xs[1..];
        } else {
          assert xs[i] == xs[1..][i - 1] && xs[j] == xs[1..][j - 1];
        }
      }
    } else {
      SubsequenceDistinct(xs, ys[1..]);
    }
  }
}
