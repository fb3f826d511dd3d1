/** Generic sequence helpers: JavaScript's `Array.prototype.filter` and the
    notion of "a subsequence in the same order" used to state what it keeps. */
module Seqs {

  /** The elements of `xs` for which `p` holds, in their original order
      (`xs.filter(p)`). */
  function Filter<T(!new)>(p: T -> bool, xs: seq<T>): (r: seq<T>)
    ensures |r| <= |xs|
    ensures forall x :: x in r <==> x in xs && p(x)
  {
    if xs == [] then []
    else (if p(xs[0]) then [xs[0]] else []) + Filter(p, xs[1..])
  }

  /** Filtering distributes over concatenation. */
  lemma {:induction false} FilterAppend<T(!new)>(p: T -> bool, a: seq<T>, b: seq<T>)
    ensures Filter(p, a + b) == Filter(p, a) + Filter(p, b)
  {
    if a == [] {
      assert a + b == b;
    } else {
      assert (a + b)[0] == a[0];
      assert (a + b)[1..] == a[1..] + b;
      FilterAppend(p, a[1..], b);
    }
  }

  /** A predicate that holds of every element lets `filter` return its input. */
  lemma {:induction false} FilterAll<T(!new)>(p: T -> bool, xs: seq<T>)
    requires forall x :: x in xs ==> p(x)
    ensures Filter(p, xs) == xs
  {
    if xs != [] {
      FilterAll(p, xs[1..]);
      assert [xs[0]] + xs[1..] == xs;
    }
  }

  /** A predicate that holds of no element makes `filter` return nothing. */
  lemma {:induction false} FilterNone<T(!new)>(p: T -> bool, xs: seq<T>)
    requires forall x :: x in xs ==> !p(x)
    ensures Filter(p, xs) == []
  {
    if xs != [] {
      FilterNone(p, xs[1..]);
    }
  }

  /** Filters whose predicates agree on the elements give the same result. */
  lemma {:induction false} FilterCongruent<T(!new)>(p: T -> bool, q: T -> bool, xs: seq<T>)
    requires forall x :: x in xs ==> p(x) == q(x)
    ensures Filter(p, xs) == Filter(q, xs)
  {
    if xs != [] {
      FilterCongruent(p, q, xs[1..]);
    }
  }

  /** The positions `j >= i` of `xs` whose element satisfies `p`, in
      increasing order: exactly the positions of `xs[i..]` that `filter` keeps. */
  function FilterIndices<T>(p: T -> bool, xs: seq<T>, i: nat): (ix: seq<nat>)
    requires i <= |xs|
    ensures forall k :: 0 <= k < |ix| ==> i <= ix[k] < |xs| && p(xs[ix[k]])
    ensures forall k, l :: 0 <= k < l < |ix| ==> ix[k] < ix[l]
    ensures forall j :: i <= j < |xs| && p(xs[j]) ==> j in ix
    decreases |xs| - i
  {
    if i == |xs| then []
    else (if p(xs[i]) then [i] else []) + FilterIndices(p, xs, i + 1)
  }

  /** `ix` maps each position of `sub` to the position of `xs` it came from,
      strictly increasing, so `sub` is `xs` with some elements dropped and the
      rest in their original order. */
  ghost predicate Embedding<T>(ix: seq<nat>, sub: seq<T>, xs: seq<T>)
  {
    && |ix| == |sub|
    && (forall k :: 0 <= k < |ix| ==> ix[k] < |xs| && sub[k] == xs[ix[k]])
    && (forall k, l :: 0 <= k < l < |ix| ==> ix[k] < ix[l])
  }

  ghost predicate IsSubsequence<T>(sub: seq<T>, xs: seq<T>)
  {
    exists ix: seq<nat> :: Embedding(ix, sub, xs)
  }

  /** `filter` keeps exactly the matching positions, in order. */
  lemma {:induction false} FilterEmbedding<T(!new)>(p: T -> bool, xs: seq<T>, i: nat)
    requires i <= |xs|
    ensures Embedding(FilterIndices(p, xs, i), Filter(p, xs[i..]), xs)
    decreases |xs| - i
  {
    if i < |xs| {
      FilterEmbedding(p, xs, i + 1);
      assert xs[i..][0] == xs[i];
      assert xs[i..][1..] == xs[i + 1..];
    }
  }

  /** The output of `filter` is a subsequence of its input. */
  lemma FilterIsSubsequence<T(!new)>(p: T -> bool, xs: seq<T>)
    ensures IsSubsequence(Filter(p, xs), xs)
  {
    FilterEmbedding(p, xs, 0);
    assert xs[0..] == xs;
  }
}
