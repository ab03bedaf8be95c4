// Weighted sums over sequences. A count such as "how many requests hold the key of trace t" is the sum of a
// 0/1 weight over the requests, so one update lemma serves every invariant that counts.
module Counting {

  function Sum<T>(weight: T -> nat, xs: seq<T>): nat {
    if xs == [] then 0 else weight(xs[0]) + Sum(weight, xs[1..])
  }

  lemma {:induction false} SumUpdate<T>(weight: T -> nat, xs: seq<T>, i: nat, x: T)
    requires i < |xs|
    ensures Sum(weight, xs[i := x]) + weight(xs[i]) == Sum(weight, xs) + weight(x)
  {
    if i == 0 {
      assert xs[0 := x][1..] == xs[1..];
    } else {
      assert xs[i := x][1..] == xs[1..][i - 1 := x];
      SumUpdate(weight, xs[1..], i - 1, x);
    }
  }

  // One element never outweighs the whole.
  lemma {:induction false} SumAt<T>(weight: T -> nat, xs: seq<T>, i: nat)
    requires i < |xs|
    ensures weight(xs[i]) <= Sum(weight, xs)
  {
    if i > 0 { SumAt(weight, xs[1..], i - 1); }
  }

  // Neither do two different elements together.
  lemma {:induction false} SumPair<T>(weight: T -> nat, xs: seq<T>, i: nat, j: nat)
    requires i < j < |xs|
    ensures weight(xs[i]) + weight(xs[j]) <= Sum(weight, xs)
  {
    if i == 0 {
      SumAt(weight, xs[1..], j - 1);
    } else {
      SumPair(weight, xs[1..], i - 1, j - 1);
    }
  }

  lemma {:induction false} SumZero<T>(weight: T -> nat, xs: seq<T>)
    requires forall i :: 0 <= i < |xs| ==> weight(xs[i]) == 0
    ensures Sum(weight, xs) == 0
  {
    if xs != [] {
      assert forall i :: 0 <= i < |xs[1..]| ==> xs[1..][i] == xs[i + 1];
      SumZero(weight, xs[1..]);
    }
  }
}
