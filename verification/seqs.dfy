/** Small facts about sequences, proved once and called where the solver would
    otherwise have to rediscover them in a large context. */
module Seqs {

  /** No element occurs twice. */
  predicate Distinct<T(==)>(xs: seq<T>) {
    forall i, j :: 0 <= i < j < |xs| ==> xs[i] != xs[j]
  }

  lemma DistinctSnoc<T>(xs: seq<T>, x: T)
    requires Distinct(xs) && x !in xs
    ensures Distinct(xs + [x])
  {
  }

  /** The elements of `xs + [x]` are those of `xs` and `x`. */
  lemma ElementsSnoc<T>(xs: seq<T>, x: T)
    ensures (set k | k in xs + [x]) == (set k | k in xs) + {x}
  {
  }

  lemma ConcatAssoc<T>(a: seq<T>, b: seq<T>, c: seq<T>)
    ensures a + b + c == a + (b + c)
  {
  }

  lemma SnocTwice<T>(xs: seq<T>, x: T, y: T)
    ensures xs + [x] + [y] == xs + [x, y]
  {
  }

  /** The part of `xs` after position `i` of its prefix `p`: the rest of `p`
      followed by what `xs` adds to `p`. */
  lemma SplitAfterPrefix<T>(xs: seq<T>, p: seq<T>, i: nat)
    requires i <= |p| <= |xs| && xs[..|p|] == p
    ensures xs[i..] == p[i..] + xs[|p|..]
  {
    assert xs[i..] == xs[i..|p|] + xs[|p|..];
  }

  lemma PrefixSnoc<T>(xs: seq<T>, j: nat)
    requires j < |xs|
    ensures xs[..j + 1] == xs[..j] + [xs[j]]
  {
  }
}
