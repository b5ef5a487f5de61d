/** Slicing helpers on sequences, written as Python's list slices. */
module Seqs {

  /** `xs[:n]`: the first n elements, or all of them when there are fewer. */
  function Take<T>(xs: seq<T>, n: nat): (r: seq<T>)
    ensures |r| == if |xs| <= n then |xs| else n
    ensures r == xs[..|r|]
  {
    if |xs| <= n then xs else xs[..n]
  }

  /** `xs[-n:]` for n > 0: the last n elements, or all of them when there are fewer. */
  function Last<T>(xs: seq<T>, n: nat): (r: seq<T>)
    ensures |r| == if |xs| <= n then |xs| else n
    ensures r == xs[|xs| - |r|..]
  {
    if |xs| <= n then xs else xs[|xs| - n..]
  }

  /** `list(reversed(xs))` */
  function Reversed<T>(xs: seq<T>): (r: seq<T>)
    ensures |r| == |xs|
  {
    if xs == [] then [] else Reversed(xs[1..]) + [xs[0]]
  }

  lemma {:induction false} ReversedAt<T>(xs: seq<T>, k: nat)
    requires k < |xs|
    ensures Reversed(xs)[k] == xs[|xs| - 1 - k]
  {
    if k < |xs| - 1 {
      ReversedAt(xs[1..], k);
    }
  }

  lemma {:induction false} ReversedAppend<T>(xs: seq<T>, x: T)
    ensures Reversed(xs + [x]) == [x] + Reversed(xs)
  {
    if xs != [] {
      assert (xs + [x])[1..] == xs[1..] + [x];
      ReversedAppend(xs[1..], x);
    } else {
      assert Reversed([x]) == Reversed([x][1..]) + [x];
    }
  }

  /** Cutting before pushing at the front keeps the same first n elements. */
  lemma TakePush<T>(x: T, xs: seq<T>, n: nat)
    requires n > 0
    ensures Take([x] + Take(xs, n), n) == Take([x] + xs, n)
  {
    var t := Take(xs, n);
    if |xs| > n {
      assert ([x] + t)[..n] == ([x] + xs)[..n];
    }
  }

  /** Cutting before appending at the back keeps the same last n elements. */
  lemma LastAppend<T>(xs: seq<T>, x: T, n: nat)
    requires n > 0
    ensures Last(Last(xs, n) + [x], n) == Last(xs + [x], n)
  {
    var l := Last(xs, n);
    if |xs| > n {
      assert (l + [x])[|l + [x]| - n..] == (xs + [x])[|xs + [x]| - n..];
    }
  }

  /** Only the suffix matters to the last n elements once it has at least n. */
  lemma LastOfSuffix<T>(older: seq<T>, recent: seq<T>, n: nat)
    requires |recent| >= n
    ensures Last(older + recent, n) == Last(recent, n)
  {
    var h := older + recent;
    assert h[|h| - n..] == recent[|recent| - n..];
  }
}
