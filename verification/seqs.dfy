/** Sequence operations the handlers are built from: JavaScript's
    `Array.prototype.indexOf` and `splice(i, 1)`. */
module Seqs {

  /** `xs.indexOf(x)`: the first index holding `x`, or -1 when there is none. */
  function IndexOf<T(==)>(xs: seq<T>, x: T): (r: int)
    ensures -1 <= r < |xs|
    ensures r < 0 <==> x !in xs
    ensures 0 <= r ==> xs[r] == x && x !in xs[..r]
  {
    if |xs| == 0 then -1
    else if xs[0] == x then 0
    else
      var k := IndexOf(xs[1..], x);
      if k < 0 then -1 else k + 1
  }

  /** `xs.splice(i, 1)` on a copy: the element at `i` is dropped, the others
      keep their order. */
  function RemoveAt<T>(xs: seq<T>, i: nat): (r: seq<T>)
    requires i < |xs|
    ensures |r| == |xs| - 1
    ensures forall j :: 0 <= j < i ==> r[j] == xs[j]
    ensures forall j :: i <= j < |r| ==> r[j] == xs[j + 1]
    ensures multiset(r) + multiset{xs[i]} == multiset(xs)
  {
    assert xs == xs[..i] + [xs[i]] + xs[i + 1..];
    xs[..i] + xs[i + 1..]
  }

  /** Every element other than the removed one survives the removal. */
  lemma RemoveAtKeepsOthers<T>(xs: seq<T>, i: nat, x: T)
    requires i < |xs|
    requires x in xs && x != xs[i]
    ensures x in RemoveAt(xs, i)
  {
    var k :| 0 <= k < |xs| && xs[k] == x;
    if k < i {
      assert RemoveAt(xs, i)[k] == x;
    } else {
      assert RemoveAt(xs, i)[k - 1] == x;
    }
  }
}
