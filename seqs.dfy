/** Sequence combinators that the ledger code uses everywhere: JavaScript's
    `Array.prototype.filter` (an order-preserving selection) and the
    `reduce((acc, x) => keep(x) ? acc + qty(x) : acc, 0)` idiom (a guarded sum). */
module Seqs {

  /** The elements of `xs` that satisfy `p`, in their original order. */
  function Filter<T(!new)>(xs: seq<T>, p: T -> bool): (r: seq<T>)
    ensures |r| <= |xs|
    ensures forall x :: x in r <==> x in xs && p(x)
    decreases |xs|
  {
    if xs == [] then []
    else
      var rest := Filter(xs[1..], p);
      if p(xs[0]) then [xs[0]] + rest else rest
  }

  /** Each kept value occurs in the result exactly as often as in `xs`, each
      dropped one not at all: the result is a sub-multiset selected by `p`. */
  lemma {:induction false} FilterCounts<T(!new)>(xs: seq<T>, p: T -> bool, x: T)
    ensures multiset(Filter(xs, p))[x] == if p(x) then multiset(xs)[x] else 0
    decreases |xs|
  {
    if xs != [] {
      FilterCounts(xs[1..], p, x);
      assert xs == [xs[0]] + xs[1..];
    }
  }

  /** Filtering distributes over concatenation: the selection keeps store order. */
  lemma {:induction false} FilterAppend<T(!new)>(xs: seq<T>, ys: seq<T>, p: T -> bool)
    ensures Filter(xs + ys, p) == Filter(xs, p) + Filter(ys, p)
    decreases |xs|
  {
    if xs == [] {
      assert xs + ys == ys;
    } else {
      assert (xs + ys)[1..] == xs[1..] + ys;
      FilterAppend(xs[1..], ys, p);
    }
  }

  /** A filter whose predicate holds everywhere on `xs` is the identity. */
  lemma {:induction false} FilterKeepsAll<T(!new)>(xs: seq<T>, p: T -> bool)
    requires forall x :: x in xs ==> p(x)
    ensures Filter(xs, p) == xs
    decreases |xs|
  {
    if xs != [] {
      FilterKeepsAll(xs[1..], p);
    }
  }

  /** The records of `xs` carry the ids `first`, `first + 1`, ... in store order. */
  predicate NumberedFrom<T>(xs: seq<T>, id: T -> int, first: int) {
    forall i :: 0 <= i < |xs| ==> id(xs[i]) == first + i
  }

  /** Appending a record whose id is `first + |xs|` keeps the numbering. */
  lemma NumberedAppend<T>(xs: seq<T>, x: T, id: T -> int, first: int)
    requires NumberedFrom(xs, id, first)
    ensures NumberedFrom(xs + [x], id, first) <==> id(x) == first + |xs|
  {
    if id(x) == first + |xs| {
      forall i | 0 <= i < |xs| + 1
        ensures id((xs + [x])[i]) == first + i
      {
        if i < |xs| { assert (xs + [x])[i] == xs[i]; }
      }
    } else {
      assert (xs + [x])[|xs|] == x;
    }
  }

  /** Sum of `qty(x)` over the elements `x` of `xs` that satisfy `keep`. */
  function Sum<T>(xs: seq<T>, keep: T -> bool, qty: T -> int): int
    decreases |xs|
  {
    if xs == [] then 0
    else (if keep(xs[0]) then qty(xs[0]) else 0) + Sum(xs[1..], keep, qty)
  }

  /** A sum is additive over concatenation. */
  lemma {:induction false} SumAppend<T>(xs: seq<T>, ys: seq<T>, keep: T -> bool, qty: T -> int)
    ensures Sum(xs + ys, keep, qty) == Sum(xs, keep, qty) + Sum(ys, keep, qty)
    decreases |xs|
  {
    if xs == [] {
      assert xs + ys == ys;
    } else {
      assert (xs + ys)[1..] == xs[1..] + ys;
      SumAppend(xs[1..], ys, keep, qty);
    }
  }

  /** A guard that no element satisfies gives the empty sum, 0. */
  lemma {:induction false} SumNone<T>(xs: seq<T>, keep: T -> bool, qty: T -> int)
    ensures (forall x :: x in xs ==> !keep(x)) ==> Sum(xs, keep, qty) == 0
    decreases |xs|
  {
    if xs != [] {
      SumNone(xs[1..], keep, qty);
    }
  }

  /** Guards and quantities that agree on the elements of `xs` give the same sum. */
  lemma {:induction false} SumCongruent<T>(xs: seq<T>, keep: T -> bool, keep': T -> bool, qty: T -> int, qty': T -> int)
    requires forall x :: x in xs ==> keep(x) == keep'(x)
    requires forall x :: x in xs && keep(x) ==> qty(x) == qty'(x)
    ensures Sum(xs, keep, qty) == Sum(xs, keep', qty')
    decreases |xs|
  {
    if xs != [] {
      SumCongruent(xs[1..], keep, keep', qty, qty');
    }
  }

  /** Summing over a filtered sequence is summing under the conjoined guard:
      `xs.filter(p).reduce(...)` equals one `reduce` whose guard tests `p` too. */
  lemma {:induction false} SumOfFilter<T(!new)>(xs: seq<T>, p: T -> bool, keep: T -> bool, both: T -> bool, qty: T -> int)
    requires forall x :: both(x) == (p(x) && keep(x))
    ensures Sum(Filter(xs, p), keep, qty) == Sum(xs, both, qty)
    decreases |xs|
  {
    if xs != [] {
      SumOfFilter(xs[1..], p, keep, both, qty);
    }
  }

  /** A sum of non-negative quantities is non-negative. */
  lemma {:induction false} SumNonNegative<T>(xs: seq<T>, keep: T -> bool, qty: T -> int)
    ensures (forall x :: x in xs && keep(x) ==> qty(x) >= 0) ==> Sum(xs, keep, qty) >= 0
    decreases |xs|
  {
    if xs != [] {
      SumNonNegative(xs[1..], keep, qty);
    }
  }

  /** With positive quantities a sum is positive iff some element is kept. */
  lemma {:induction false} SumPositive<T>(xs: seq<T>, keep: T -> bool, qty: T -> int)
    requires forall x :: x in xs && keep(x) ==> qty(x) > 0
    ensures Sum(xs, keep, qty) > 0 <==> exists x :: x in xs && keep(x)
    decreases |xs|
  {
    if xs != [] {
      SumPositive(xs[1..], keep, qty);
      SumNonNegative(xs[1..], keep, qty);
      assert xs == [xs[0]] + xs[1..];
    }
  }
}
