/**
 * The index order that a stable ascending argsort returns.  The three facts
 * in IsStableOrder determine it uniquely; Argsort is one way to compute it.
 */
module StableOrder {

  ghost predicate IsPermutation(order: seq<nat>, n: nat) {
    && |order| == n
    && (forall k :: 0 <= k < n ==> order[k] < n)
    && (forall j, k :: 0 <= j < k < n ==> order[j] != order[k])
  }

  /** i comes before j: smaller key, or the same key and the smaller index. */
  predicate Before(keys: seq<real>, i: nat, j: nat)
    requires i < |keys| && j < |keys|
  {
    keys[i] < keys[j] || (keys[i] == keys[j] && i < j)
  }

  ghost predicate IsStableOrder(keys: seq<real>, order: seq<nat>) {
    && IsPermutation(order, |keys|)
    && (forall j, k :: 0 <= j < k < |order| ==> Before(keys, order[j], order[k]))
  }

  /** Insert index i, larger than every index in order, behind its equals. */
  function Insert(keys: seq<real>, order: seq<nat>, i: nat): (r: seq<nat>)
    requires i < |keys|
    requires forall k :: 0 <= k < |order| ==> order[k] < i
    requires forall j, k :: 0 <= j < k < |order| ==> Before(keys, order[j], order[k])
    ensures |r| == |order| + 1
    ensures forall k :: 0 <= k < |r| ==> r[k] == i || r[k] in order
    ensures forall j, k :: 0 <= j < k < |r| ==> Before(keys, r[j], r[k])
  {
    if order == [] then [i]
    else
      var last := order[|order| - 1];
      assert forall k :: 0 <= k < |order| - 1 ==> Before(keys, order[k], last);
      if keys[last] <= keys[i] then order + [i] else
      var rest := Insert(keys, order[..|order| - 1], i);
      assert forall k :: 0 <= k < |rest| ==> Before(keys, rest[k], last);
      rest + [last]
  }

  function ArgsortPrefix(keys: seq<real>, n: nat): (order: seq<nat>)
    requires n <= |keys|
    ensures |order| == n
    ensures forall k :: 0 <= k < n ==> order[k] < n
    ensures forall j, k :: 0 <= j < k < n ==> Before(keys, order[j], order[k])
  {
    if n == 0 then [] else Insert(keys, ArgsortPrefix(keys, n - 1), n - 1)
  }

  function Argsort(keys: seq<real>): (order: seq<nat>)
    ensures IsStableOrder(keys, order)
  {
    ArgsortPrefix(keys, |keys|)
  }

  /** The values of s read in the given order. */
  function Gather<T>(s: seq<T>, order: seq<nat>): (r: seq<T>)
    requires forall k :: 0 <= k < |order| ==> order[k] < |s|
    ensures |r| == |order|
    ensures forall k :: 0 <= k < |r| ==> r[k] == s[order[k]]
  {
    seq(|order|, k requires 0 <= k < |order| => s[order[k]])
  }

  /** A permutation is onto: every index has a rank. */
  lemma {:induction false} Rank(order: seq<nat>, i: nat) returns (k: nat)
    requires IsPermutation(order, |order|) && i < |order|
    ensures k < |order| && order[k] == i
  {
    if forall j :: 0 <= j < |order| ==> order[j] != i {
      UsedSize(order, |order|);
      BelowSize(|order|);
      SubsetSize(Used(order, |order|), Below(|order|) - {i});
    }
    k :| 0 <= k < |order| && order[k] == i;
  }

  ghost function Used(order: seq<nat>, k: nat): set<nat>
    requires k <= |order|
  {
    set j | 0 <= j < k :: order[j]
  }

  lemma {:induction false} UsedSize(order: seq<nat>, k: nat)
    requires k <= |order|
    requires forall i, j :: 0 <= i < j < |order| ==> order[i] != order[j]
    ensures |Used(order, k)| == k
  {
    if k > 0 {
      UsedSize(order, k - 1);
      assert Used(order, k) == Used(order, k - 1) + {order[k - 1]};
    }
  }

  ghost function Below(n: nat): set<nat> {
    if n == 0 then {} else Below(n - 1) + {n - 1}
  }

  lemma {:induction false} BelowSize(n: nat)
    ensures |Below(n)| == n && forall i :: i in Below(n) <==> 0 <= i < n
  {
    if n > 0 {
      BelowSize(n - 1);
    }
  }

  lemma {:induction false} SubsetSize<T>(a: set<T>, b: set<T>)
    requires a <= b
    ensures |a| <= |b|
    decreases |a|
  {
    if a != {} {
      var x :| x in a;
      SubsetSize(a - {x}, b - {x});
    }
  }

  /** There is only one stable order of given keys. */
  lemma {:induction false} StableOrderUnique(keys: seq<real>, a: seq<nat>, b: seq<nat>, k: nat)
    requires IsStableOrder(keys, a) && IsStableOrder(keys, b) && k <= |keys|
    ensures a[..k] == b[..k]
    decreases k
  {
    if k > 0 {
      StableOrderUnique(keys, a, b, k - 1);
      var i := Rank(a, b[k - 1]);
      var j := Rank(b, a[k - 1]);
      assert forall m :: 0 <= m < k - 1 ==> a[m] == a[..k - 1][m] == b[..k - 1][m] == b[m];
      assert i >= k - 1 && j >= k - 1;
      assert a[k - 1] == b[k - 1];
      assert a[..k] == a[..k - 1] + [a[k - 1]] && b[..k] == b[..k - 1] + [b[k - 1]];
    }
  }

  // ------------------------------------------------------- sorting permuted data

  ghost predicate Sorts(keys: seq<real>, order: seq<nat>) {
    IsPermutation(order, |keys|) && forall j, k :: 0 <= j < k < |order| ==> keys[order[j]] <= keys[order[k]]
  }

  /** Two sorting orders read the same key at every position, whatever they do with ties. */
  lemma {:induction false} SortedKeysAgree(keys: seq<real>, a: seq<nat>, b: seq<nat>, k: nat)
    requires Sorts(keys, a) && Sorts(keys, b) && k < |keys|
    ensures keys[a[k]] == keys[b[k]]
  {
    NoLater(keys, a, b, k);
    NoLater(keys, b, a, k);
  }

  lemma {:induction false} NoLater(keys: seq<real>, a: seq<nat>, b: seq<nat>, k: nat)
    requires Sorts(keys, a) && Sorts(keys, b) && k < |keys|
    ensures keys[a[k]] >= keys[b[k]]
  {
    if keys[a[k]] < keys[b[k]] {
      forall i | i in Used(a, k + 1) ensures i in Used(b, k) {
        var j :| 0 <= j <= k && a[j] == i;
        RankBelow(keys, a, b, k, j);
      }
      UsedSize(a, k + 1);
      UsedSize(b, k);
      SubsetSize(Used(a, k + 1), Used(b, k));
    }
  }

  lemma {:induction false} RankBelow(keys: seq<real>, a: seq<nat>, b: seq<nat>, k: nat, j: nat)
    requires Sorts(keys, a) && Sorts(keys, b) && j <= k < |keys| && keys[a[k]] < keys[b[k]]
    ensures a[j] in Used(b, k)
  {
    var m := Rank(b, a[j]);
    LaterNotSmaller(keys, a, j, k);
    LaterNotSmaller(keys, b, k, m);
  }

  lemma {:induction false} LaterNotSmaller(keys: seq<real>, a: seq<nat>, j: nat, k: nat)
    requires Sorts(keys, a) && j < |keys| && k < |keys|
    ensures j <= k ==> keys[a[j]] <= keys[a[k]]
  {
  }
}
