/** Facts about sequences that the solver does not find cheaply on its own. */
module Seqs {
  /** Concatenation is associative; stated once so that proofs can cite it instead of rediscovering it. */
  lemma AppendAssoc<T>(a: seq<T>, b: seq<T>, c: seq<T>)
    ensures (a + b) + c == a + (b + c)
  {
  }

  /** A non-empty prefix is the head followed by a prefix of the tail. */
  lemma TakeCons<T>(xs: seq<T>, k: nat)
    requires 1 <= k <= |xs|
    ensures xs[..k] == [xs[0]] + xs[1..][..k - 1]
  {
  }

  /** The tail of a suffix is the next suffix. */
  lemma DropNext<T>(xs: seq<T>, n: nat)
    requires n < |xs|
    ensures xs[n..][0] == xs[n] && xs[n..][1..] == xs[n + 1..]
  {
  }

  /** An element appended at the end is the last element, after the old sequence. */
  lemma Snoc<T>(xs: seq<T>, x: T)
    ensures (xs + [x])[..|xs|] == xs && (xs + [x])[|xs|] == x
  {
  }

  lemma AppendEmpty<T>(xs: seq<T>)
    ensures xs + [] == xs
  {
  }

  /** Slicing inside the first part of a concatenation ignores the second. */
  lemma SliceAppend<T>(xs: seq<T>, ys: seq<T>, k: nat)
    requires k <= |xs|
    ensures (xs + ys)[..k] == xs[..k] && (xs + ys)[k..] == xs[k..] + ys
  {
  }
}
