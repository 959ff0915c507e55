/** Small facts about finite sequences that the other modules share. */
module Seqs {

  datatype Option<+T> = None | Some(value: T)

  /** Number of elements of `xs` that satisfy `p`. */
  function Count<T>(xs: seq<T>, p: T -> bool): (n: nat)
    ensures n <= |xs|
  {
    if xs == [] then 0 else Count(xs[..|xs| - 1], p) + (if p(xs[|xs| - 1]) then 1 else 0)
  }

  function RemoveAt<T>(xs: seq<T>, i: nat): seq<T>
    requires i < |xs|
  {
    xs[..i] + xs[i + 1..]
  }

  lemma RemoveAtFacts<T>(xs: seq<T>, i: nat, x: T)
    requires i < |xs|
    ensures RemoveAt(xs[i := x], i) == RemoveAt(xs, i)
    ensures RemoveAt(xs + [x], i) == RemoveAt(xs, i) + [x]
  {
  }

  lemma RemoveAtLast<T>(xs: seq<T>, i: nat)
    requires i < |xs| - 1
    ensures RemoveAt(xs, i)[|xs| - 2] == xs[|xs| - 1]
  {
  }

  /** What is left after a removal was at another position before. */
  lemma RemoveAtOrigin<T>(xs: seq<T>, i: nat, x: T) returns (j: nat)
    requires i < |xs| && x in RemoveAt(xs, i)
    ensures j < |xs| && j != i && xs[j] == x
  {
    var k :| 0 <= k < |RemoveAt(xs, i)| && RemoveAt(xs, i)[k] == x;
    j := if k < i then k else k + 1;
  }

  lemma CountAppend<T>(xs: seq<T>, x: T, p: T -> bool)
    ensures Count(xs + [x], p) == Count(xs, p) + (if p(x) then 1 else 0)
  {
    assert (xs + [x])[..|xs|] == xs;
  }

  lemma {:induction false} CountRemove<T>(xs: seq<T>, i: nat, p: T -> bool)
    requires i < |xs|
    ensures Count(RemoveAt(xs, i), p) == Count(xs, p) - (if p(xs[i]) then 1 else 0)
  {
    var n := |xs| - 1;
    if i == n {
      assert RemoveAt(xs, i) == xs[..n];
    } else {
      CountRemove(xs[..n], i, p);
      assert RemoveAt(xs, i) == RemoveAt(xs[..n], i) + [xs[n]];
      CountAppend(RemoveAt(xs[..n], i), xs[n], p);
    }
  }

  /** Replacing an element by one that `p` treats alike leaves the count. */
  lemma {:induction false} CountUpdate<T>(xs: seq<T>, i: nat, x: T, p: T -> bool)
    requires i < |xs|
    ensures Count(xs[i := x], p) == Count(xs, p) - (if p(xs[i]) then 1 else 0) + (if p(x) then 1 else 0)
  {
    var n := |xs| - 1;
    if i == n {
      assert xs[i := x][..n] == xs[..n];
    } else {
      CountUpdate(xs[..n], i, x, p);
      assert xs[i := x][..n] == xs[..n][i := x];
    }
  }

  lemma {:induction false} CountMember<T>(xs: seq<T>, i: nat, p: T -> bool)
    requires i < |xs| && p(xs[i])
    ensures Count(xs, p) >= 1
  {
    CountRemove(xs, i, p);
  }

  lemma {:induction false} CountWitness<T>(xs: seq<T>, p: T -> bool) returns (i: nat)
    requires Count(xs, p) > 0
    ensures i < |xs| && p(xs[i])
  {
    var n := |xs| - 1;
    if p(xs[n]) {
      i := n;
    } else {
      i := CountWitness(xs[..n], p);
    }
  }
}
