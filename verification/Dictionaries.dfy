/** Keys of an insertion-ordered dictionary, shared by the graph queries. */
module Dictionaries {

  predicate Distinct<T(==)>(xs: seq<T>) {
    forall i, j :: 0 <= i < j < |xs| ==> xs[i] != xs[j]
  }

  /** The distinct elements among the first k, in order of first appearance. */
  function KeysOf<T(==)>(xs: seq<T>, k: nat): (r: seq<T>)
    requires k <= |xs|
    ensures Distinct(r) && |r| <= k
    ensures forall i :: 0 <= i < |r| ==> r[i] in xs
    ensures forall i :: 0 <= i < k ==> xs[i] in r
  {
    if k == 0 then []
    else
      var r, x := KeysOf(xs, k - 1), xs[k - 1];
      if x in r then r else r + [x]
  }

  function Keys<T(==)>(xs: seq<T>): seq<T> {
    KeysOf(xs, |xs|)
  }
}
