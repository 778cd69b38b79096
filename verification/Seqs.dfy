/** Small facts about sequences, stated once so that proofs can ask for exactly
    the one they need. */
module Seqs {

  lemma Assoc<T>(a: seq<T>, b: seq<T>, c: seq<T>)
    ensures a + b + c == a + (b + c)
  {
  }

  /** Taking the last element off again. */
  lemma Front<T>(xs: seq<T>, x: T)
    ensures |xs + [x]| == |xs| + 1 && (xs + [x])[..|xs|] == xs && (xs + [x])[|xs|] == x
  {
  }

  lemma Unsnoc<T>(xs: seq<T>)
    requires xs != []
    ensures xs == xs[..|xs| - 1] + [xs[|xs| - 1]]
  {
  }

  lemma Uncons<T>(xs: seq<T>, ys: seq<T>)
    requires xs != []
    ensures (xs + ys)[0] == xs[0] && (xs + ys)[1..] == xs[1..] + ys
  {
  }

  lemma SplitAt<T>(xs: seq<T>, i: nat)
    requires i < |xs|
    ensures xs == (xs[..i] + [xs[i]]) + xs[i + 1..]
  {
  }

  /** Dropping the first of a sequence of two or more keeps its last. */
  lemma TailFront<T>(xs: seq<T>)
    requires |xs| > 1
    ensures xs[1..] == xs[..|xs| - 1][1..] + [xs[|xs| - 1]]
  {
  }

  lemma UpdateEnd<T>(xs: seq<T>, x: T)
    requires xs != []
    ensures xs[|xs| - 1 := x] == xs[..|xs| - 1] + [x]
  {
  }

  lemma InConcat<T>(a: seq<T>, b: seq<T>, x: T)
    ensures x in a + b <==> x in a || x in b
  {
  }
}
