/** Questions asked of a payment graph: which receivers a bank pays most. */
module GraphQueries {
  import opened StableOrder
  import opened Dictionaries
  import opened PaymentGraph
  import opened RealSums

  function Receivers(es: seq<PaymentEdge>): (r: seq<Bic>)
    ensures |r| == |es| && forall i :: 0 <= i < |r| ==> r[i] == es[i].p.receiver
  {
    seq(|es|, i requires 0 <= i < |es| => es[i].p.receiver)
  }

  function Volume(es: seq<PaymentEdge>): real {
    if es == [] then 0.0 else Volume(es[..|es| - 1]) + es[|es| - 1].p.amount
  }

  /** Corridor volumes of one sender, negated so that ascending is largest first. */
  function NegatedVolumes(out: seq<PaymentEdge>, names: seq<Bic>): (v: seq<real>)
    ensures |v| == |names| && forall i :: 0 <= i < |v| ==> v[i] == -Volume(Received(out, names[i]))
  {
    seq(|names|, i requires 0 <= i < |names| => -Volume(Received(out, names[i])))
  }

  /** Receivers by falling volume; equal volumes keep their order of first payment. */
  function Neighbors(out: seq<PaymentEdge>, k: int): (r: seq<Bic>)
    ensures |r| == SliceSize(k, |Keys(Receivers(out))|)
  {
    var names := Keys(Receivers(out));
    Top(names, NegatedVolumes(out, names), k)
  }

  /** How many of n a slice up to k keeps: a negative k counts from the end. */
  function SliceSize(k: int, n: nat): (m: nat)
    ensures m <= n
  {
    if k > n then n else if k >= 0 then k else if n + k >= 0 then n + k else 0
  }

  /** The names in stable order of their keys, sliced up to k. */
  function Top(names: seq<Bic>, keys: seq<real>, k: int): (r: seq<Bic>)
    requires |names| == |keys|
    ensures |r| == SliceSize(k, |names|) && forall i :: 0 <= i < |r| ==> r[i] == names[Argsort(keys)[i]]
  {
    seq(SliceSize(k, |names|), i requires 0 <= i < SliceSize(k, |names|) => names[Argsort(keys)[i]])
  }

  /** The i-th neighbour is the i-th ranked receiver. */
  lemma {:induction false} NeighborAt(out: seq<PaymentEdge>, k: int, i: nat)
    requires i < |Neighbors(out, k)|
    ensures var names := Keys(Receivers(out));
            var keys := NegatedVolumes(out, names);
            && i < |names| && Argsort(keys)[i] < |names|
            && Neighbors(out, k)[i] == names[Argsort(keys)[i]]
            && Volume(Received(out, Neighbors(out, k)[i])) == -keys[Argsort(keys)[i]]
  {
  }

  // ------------------------------------------------------- what a query returns

  ghost function ReceiverSet(out: seq<PaymentEdge>): set<Bic> {
    set i | 0 <= i < |out| :: out[i].p.receiver
  }

  /** All that was paid to b. */
  function Paid(out: seq<PaymentEdge>, b: Bic): real {
    Sum(AmountsTo(Payments(out), b))
  }

  lemma {:induction false} VolumeIsPaid(out: seq<PaymentEdge>, b: Bic)
    ensures Volume(Received(out, b)) == Paid(out, b)
  {
    if out != [] {
      var init := out[..|out| - 1];
      VolumeIsPaid(init, b);
      SumAgree(AmountsTo(Payments(out), b), AmountsTo(Payments(init), b), 0, |init|);
      assert (Received(init, b) + [out[|init|]])[..|Received(init, b)|] == Received(init, b);
    }
  }

  lemma {:induction false} DistinctSize<T>(xs: seq<T>, k: nat, elements: set<T>)
    requires k <= |xs| && Distinct(xs) && elements == set i | 0 <= i < k :: xs[i]
    ensures |elements| == k
  {
    if k > 0 {
      var before := set i | 0 <= i < k - 1 :: xs[i];
      DistinctSize(xs, k - 1, before);
      assert elements == before + {xs[k - 1]};
    }
  }

  lemma {:induction false} ReceiverCount(out: seq<PaymentEdge>)
    ensures |Keys(Receivers(out))| == |ReceiverSet(out)|
  {
    var names := Keys(Receivers(out));
    assert forall i :: 0 <= i < |out| ==> Receivers(out)[i] in names;
    assert ReceiverSet(out) == set i | 0 <= i < |names| :: names[i];
    DistinctSize(names, |names|, ReceiverSet(out));
  }

  /**
   * Main result: of m receivers the first k are returned, all but the last -k for
   * a negative k; they are distinct, in falling order of what was paid to them,
   * and no receiver left out was paid more than one returned.
   */
  lemma {:induction false} NeighborsAreLargest(out: seq<PaymentEdge>, k: int)
    ensures var r, m := Neighbors(out, k), |ReceiverSet(out)|;
            && (0 <= k <= m ==> |r| == k) && (k > m ==> |r| == m)
            && (-m <= k < 0 ==> |r| == m + k) && (k < -m ==> r == [])
            && Distinct(r)
            && (forall i :: 0 <= i < |r| ==> r[i] in ReceiverSet(out))
            && (forall i, j :: 0 <= i < j < |r| ==> Paid(out, r[i]) >= Paid(out, r[j]))
            && (forall b, i :: b in ReceiverSet(out) && b !in r && 0 <= i < |r| ==> Paid(out, b) <= Paid(out, r[i]))
  {
    var r := Neighbors(out, k);
    ReceiverCount(out);
    forall i | 0 <= i < |r|
      ensures r[i] in ReceiverSet(out)
    {
      NeighborAt(out, k, i);
    }
    forall i, j | 0 <= i < j < |r|
      ensures r[i] != r[j] && Paid(out, r[i]) >= Paid(out, r[j])
    {
      NeighborsFall(out, k, i, j);
    }
    forall b, i | b in ReceiverSet(out) && b !in r && 0 <= i < |r|
      ensures Paid(out, b) <= Paid(out, r[i])
    {
      OmittedPaidLess(out, k, b, i);
    }
  }

  lemma {:induction false} NeighborsFall(out: seq<PaymentEdge>, k: int, i: nat, j: nat)
    requires i < j < |Neighbors(out, k)|
    ensures var r := Neighbors(out, k); r[i] != r[j] && Paid(out, r[i]) >= Paid(out, r[j])
  {
    NeighborAt(out, k, i);
    NeighborAt(out, k, j);
    VolumeIsPaid(out, Neighbors(out, k)[i]);
    VolumeIsPaid(out, Neighbors(out, k)[j]);
  }

  lemma {:induction false} OmittedPaidLess(out: seq<PaymentEdge>, k: int, b: Bic, i: nat)
    requires b in ReceiverSet(out) && b !in Neighbors(out, k) && i < |Neighbors(out, k)|
    ensures Paid(out, b) <= Paid(out, Neighbors(out, k)[i])
  {
    IsReceiver(out, b);
    OmittedIsSmaller(out, k, b, i);
    VolumeIsPaid(out, b);
    VolumeIsPaid(out, Neighbors(out, k)[i]);
  }

  lemma {:induction false} IsReceiver(out: seq<PaymentEdge>, b: Bic)
    requires b in ReceiverSet(out)
    ensures b in Receivers(out)
  {
    var i :| 0 <= i < |out| && out[i].p.receiver == b;
    assert Receivers(out)[i] == b;
  }

  /** Some element is x, before any is y. */
  ghost predicate FirstBefore<T(!new)>(xs: seq<T>, x: T, y: T) {
    exists a :: 0 <= a < |xs| && xs[a] == x && forall b :: 0 <= b <= a ==> xs[b] != y
  }

  lemma {:induction false} KeysInOrder<T(!new)>(xs: seq<T>, k: nat, p: nat, q: nat)
    requires k <= |xs| && p < q < |KeysOf(xs, k)|
    ensures FirstBefore(xs, KeysOf(xs, k)[p], KeysOf(xs, k)[q])
  {
    var before := KeysOf(xs, k - 1);
    if q < |before| {
      KeysInOrder(xs, k - 1, p, q);
    } else {
      var a := KeyStands(xs, k - 1, p);
      LastKeyIsNew(xs, k, a);
    }
  }

  /** The last key, if it is not one of the keys before, does not stand before the end. */
  lemma {:induction false} LastKeyIsNew<T(!new)>(xs: seq<T>, k: nat, a: nat)
    requires a + 1 < k <= |xs| && xs[k - 1] !in KeysOf(xs, k - 1)
    ensures forall b :: 0 <= b <= a ==> xs[b] != xs[k - 1]
  {
    assert forall b :: 0 <= b < k - 1 ==> xs[b] in KeysOf(xs, k - 1);
  }

  lemma {:induction false} KeyStands<T(!new)>(xs: seq<T>, k: nat, p: nat) returns (a: nat)
    requires k <= |xs| && p < |KeysOf(xs, k)|
    ensures a < k && xs[a] == KeysOf(xs, k)[p]
  {
    if p < |KeysOf(xs, k - 1)| {
      a := KeyStands(xs, k - 1, p);
    } else {
      a := k - 1;
    }
  }

  /** Of two receivers that were paid the same, the one paid first comes first. */
  lemma {:induction false} EqualsKeepOrder(out: seq<PaymentEdge>, k: int, i: nat, j: nat)
    requires i < j < |Neighbors(out, k)| && Paid(out, Neighbors(out, k)[i]) == Paid(out, Neighbors(out, k)[j])
    ensures FirstBefore(Receivers(out), Neighbors(out, k)[i], Neighbors(out, k)[j])
  {
    var names := Keys(Receivers(out));
    var order := Argsort(NegatedVolumes(out, names));
    NeighborAt(out, k, i);
    NeighborAt(out, k, j);
    VolumeIsPaid(out, Neighbors(out, k)[i]);
    VolumeIsPaid(out, Neighbors(out, k)[j]);
    assert Before(NegatedVolumes(out, names), order[i], order[j]);
    KeysInOrder(Receivers(out), |out|, order[i], order[j]);
  }

  lemma {:induction false} OmittedIsSmaller(out: seq<PaymentEdge>, k: int, b: Bic, i: nat)
    requires b in Receivers(out) && b !in Neighbors(out, k) && i < |Neighbors(out, k)|
    ensures Volume(Received(out, b)) <= Volume(Received(out, Neighbors(out, k)[i]))
  {
    var names := Keys(Receivers(out));
    var keys, r := NegatedVolumes(out, names), Neighbors(out, k);
    var order := Argsort(keys);
    var m :| 0 <= m < |names| && names[m] == b;
    var at := Rank(order, m);
    if at < |r| {
      NeighborAt(out, k, at);
    }
    NeighborAt(out, k, i);
    assert Before(keys, order[i], order[at]);
  }

  /** One entry per receiver: the volume of its adjacency row. */
  method CorridorVolumes(row: Index, names: seq<Bic>, ghost out: seq<PaymentEdge>) returns (negated: seq<real>)
    requires forall i :: 0 <= i < |names| ==> Get(row, names[i]) == Received(out, names[i])
    ensures negated == NegatedVolumes(out, names)
  {
    negated := [];
    for i := 0 to |names|
      invariant |negated| == i
      invariant forall j :: 0 <= j < i ==> negated[j] == -Volume(Received(out, names[j]))
    {
      negated := negated + [-Volume(Get(row, names[i]))];
    }
  }

  /** A bank without an adjacency row has no neighbours. */
  method GetNeighbors(g: Graph, bic: Bic, k: int) returns (r: seq<Bic>)
    requires Sound(g)
    ensures r == Neighbors(Sent(g.allEdges, bic), k)
  {
    ghost var out := Sent(g.allEdges, bic);
    OutIndexIsSent(g.allEdges, bic);
    NoRowNoEdges(g.allEdges, bic);
    if bic !in g.adjacency {
      assert out == [] && Keys(Receivers(out)) == [];
      return [];
    }
    var names := Keys(Receivers(Get(g.outEdges, bic)));
    RowIsReceived(g.allEdges, bic, names);
    var negated := CorridorVolumes(g.adjacency[bic], names, out);
    r := Top(names, negated, k);
  }

  lemma {:induction false} RowIsReceived(es: seq<PaymentEdge>, s: Bic, names: seq<Bic>)
    requires s in Corridors(es)
    ensures forall i :: 0 <= i < |names| ==> Get(Corridors(es)[s], names[i]) == Received(Sent(es, s), names[i])
  {
    forall i | 0 <= i < |names|
      ensures Get(Corridors(es)[s], names[i]) == Received(Sent(es, s), names[i])
    {
      CorridorIsSentReceived(es, s, names[i]);
    }
  }

  /** A sender without an adjacency row has sent nothing. */
  lemma {:induction false} NoRowNoEdges(es: seq<PaymentEdge>, s: Bic)
    ensures s !in Corridors(es) ==> Sent(es, s) == []
  {
    if es != [] {
      NoRowNoEdges(es[..|es| - 1], s);
    }
  }
}
