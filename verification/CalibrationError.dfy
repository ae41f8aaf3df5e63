/**
 * Expected calibration error over equal-width bins, and what binning can and
 * cannot hide.
 */
module CalibrationError {
  import opened RealSums

  function Edge(k: nat, bins: nat): real
    requires bins >= 1
  {
    k as real / bins as real
  }

  predicate InBin(p: real, k: nat, bins: nat)
    requires bins >= 1
  {
    Edge(k, bins) <= p < Edge(k + 1, bins)
  }

  /** Sum of v[i] over the first n points whose prediction is in [lo, hi). */
  function Masked(v: seq<real>, prob: seq<real>, lo: real, hi: real, n: nat): real
    requires n <= |v| && n <= |prob|
  {
    if n == 0 then 0.0
    else Masked(v, prob, lo, hi, n - 1) + (if lo <= prob[n - 1] < hi then v[n - 1] else 0.0)
  }

  function MaskSize(prob: seq<real>, lo: real, hi: real, n: nat): nat
    requires n <= |prob|
  {
    if n == 0 then 0
    else MaskSize(prob, lo, hi, n - 1) + (if lo <= prob[n - 1] < hi then 1 else 0)
  }

  /** Signed miss of every prediction: p_i - y_i. */
  function Misses(y: seq<real>, prob: seq<real>): (d: seq<real>)
    requires |y| == |prob|
    ensures |d| == |y| && forall i :: 0 <= i < |d| ==> d[i] == prob[i] - y[i]
  {
    seq(|y|, i requires 0 <= i < |y| => prob[i] - y[i])
  }

  function AbsAll(d: seq<real>): (a: seq<real>)
    ensures |a| == |d| && forall i :: 0 <= i < |a| ==> a[i] == Abs(d[i])
  {
    seq(|d|, i requires 0 <= i < |d| => Abs(d[i]))
  }

  /** Total over bins start..stop-1 of the absolute net miss in the bin. */
  function BinTotal(d: seq<real>, prob: seq<real>, bins: nat, start: nat, stop: nat): real
    requires |d| == |prob| && bins >= 1 && start <= stop
    decreases stop
  {
    if start == stop then 0.0
    else BinTotal(d, prob, bins, start, stop - 1)
         + Abs(Masked(d, prob, Edge(stop - 1, bins), Edge(stop, bins), |d|))
  }

  /** The calibration error, stated without bin sizes or bin means. */
  function Ece(y: seq<real>, prob: seq<real>, bins: nat): real
    requires |y| == |prob|
  {
    if y == [] || bins == 0 then 0.0
    else BinTotal(Misses(y, prob), prob, bins, 0, bins) / |y| as real
  }

  // ---------------------------------------------------------------- method

  lemma {:induction false} MaskedMisses(y: seq<real>, prob: seq<real>, lo: real, hi: real, n: nat)
    requires |y| == |prob| && n <= |y|
    ensures Masked(Misses(y, prob), prob, lo, hi, n) == Masked(prob, prob, lo, hi, n) - Masked(y, prob, lo, hi, n)
    ensures MaskSize(prob, lo, hi, n) == 0 ==>
              Masked(prob, prob, lo, hi, n) == 0.0 && Masked(y, prob, lo, hi, n) == 0.0
  {
    if n > 0 {
      MaskedMisses(y, prob, lo, hi, n - 1);
    }
  }

  /** Weighting |mean - mean| by the bin's share leaves |sum - sum| over n. */
  lemma ShareOfBin(size: nat, n: nat, sumP: real, sumY: real)
    requires size >= 1 && n >= 1
    ensures (size as real / n as real) * Abs(sumP / size as real - sumY / size as real)
            == Abs(sumP - sumY) / n as real
  {
    var s := size as real;
    var diff := sumP / s - sumY / s;
    assert diff * s == sumP - sumY;
    ScaledAbs(diff, s);
    assert s * Abs(diff) == Abs(sumP - sumY);
    assert (s / n as real) * Abs(diff) == (s * Abs(diff)) / n as real;
  }

  lemma ScaledAbs(x: real, s: real)
    requires s > 0.0
    ensures Abs(x * s) == s * Abs(x)
  {
    if x > 0.0 {
      MulPositive(x, s);
    } else if x < 0.0 {
      MulPositive(-x, s);
    }
  }

  lemma {:induction false} AddShares(total: real, part: real, n: real)
    requires n > 0.0
    ensures total / n + part / n == (total + part) / n
  {
  }

  /** One bin: what the source adds is the bin's absolute net miss over n, and nothing when it is empty. */
  lemma {:induction false} BinAdds(y: seq<real>, prob: seq<real>, lo: real, hi: real)
    requires |y| == |prob| > 0
    ensures var n, size := |y|, MaskSize(prob, lo, hi, |y|);
            var miss := Abs(Masked(Misses(y, prob), prob, lo, hi, n));
            if size == 0 then miss == 0.0
            else BinPart(size, n, Masked(prob, prob, lo, hi, n), Masked(y, prob, lo, hi, n)) == miss / n as real
  {
    var n, size := |y|, MaskSize(prob, lo, hi, |y|);
    MaskedMisses(y, prob, lo, hi, n);
    if size > 0 {
      PartIsMiss(size, n, Masked(prob, prob, lo, hi, n), Masked(y, prob, lo, hi, n), Masked(Misses(y, prob), prob, lo, hi, n));
    }
  }

  lemma {:induction false} PartIsMiss(size: nat, n: nat, sumP: real, sumY: real, miss: real)
    requires size >= 1 && n >= 1 && miss == sumP - sumY
    ensures BinPart(size, n, sumP, sumY) == Abs(miss) / n as real
  {
    ShareOfBin(size, n, sumP, sumY);
  }

  /** The share of a bin times the distance of its two means. */
  function BinPart(size: nat, n: nat, sumP: real, sumY: real): real
    requires size >= 1 && n >= 1
  {
    (size as real / n as real) * Abs(sumP / size as real - sumY / size as real)
  }

  /** The total of the first k bins, over n. */
  function EceUpTo(y: seq<real>, prob: seq<real>, bins: nat, k: nat): real
    requires |y| == |prob|
  {
    if y == [] || bins == 0 then 0.0 else BinTotal(Misses(y, prob), prob, bins, 0, k) / |y| as real
  }

  lemma {:induction false} EceGrows(y: seq<real>, prob: seq<real>, bins: nat, k: nat)
    requires |y| == |prob| > 0 && bins > 0
    ensures var lo, hi := Edge(k, bins), Edge(k + 1, bins);
            EceUpTo(y, prob, bins, k + 1)
            == EceUpTo(y, prob, bins, k) + Abs(Masked(Misses(y, prob), prob, lo, hi, |y|)) / |y| as real
  {
    var d := Misses(y, prob);
    AddShares(BinTotal(d, prob, bins, 0, k), Abs(Masked(d, prob, Edge(k, bins), Edge(k + 1, bins), |y|)), |y| as real);
  }

  /** Bins with no prediction are skipped; predictions of exactly 1 are in no bin. */
  method ComputeEce(y: seq<real>, prob: seq<real>, bins: nat) returns (ece: real)
    requires |y| == |prob|
    ensures ece == Ece(y, prob, bins)
  {
    ece := 0.0;
    var n := |y|;
    for k := 0 to bins
      invariant ece == EceUpTo(y, prob, bins, k)
    {
      var lo, hi := Edge(k, bins), Edge(k + 1, bins);
      var size := MaskSize(prob, lo, hi, n);
      if n > 0 {
        EceGrows(y, prob, bins, k);
        BinAdds(y, prob, lo, hi);
      }
      if size == 0 {
        continue;
      }
      ece := ece + BinPart(size, n, Masked(prob, prob, lo, hi, n), Masked(y, prob, lo, hi, n));
    }
  }

  // ------------------------------------------------------------ properties

  lemma EdgeOrder(k: nat, bins: nat)
    requires bins >= 1
    ensures Edge(0, bins) == 0.0 && Edge(bins, bins) == 1.0 && Edge(k, bins) < Edge(k + 1, bins)
  {
    assert Edge(k, bins) * bins as real == k as real;
    assert Edge(k + 1, bins) * bins as real == (k + 1) as real;
    if Edge(k, bins) >= Edge(k + 1, bins) {
      MulMonotone(Edge(k + 1, bins), Edge(k, bins), bins as real);
    }
  }

  /** Exactly the predictions in [0,1) are binned, and each in one bin only. */
  lemma BinnedOnce(p: real, bins: nat)
    requires bins >= 1
    ensures 0.0 <= p < 1.0 <==> exists k: nat :: k < bins && InBin(p, k, bins)
    ensures forall j: nat, k: nat :: InBin(p, j, bins) && InBin(p, k, bins) ==> j == k
  {
    var f := (p * bins as real).Floor;
    UnitScaled(p, bins);
    if 0.0 <= p < 1.0 {
      BinIndex(p, f, bins);
      assert InBin(p, f, bins);
    }
    forall k: nat | InBin(p, k, bins)
      ensures k == f
    {
      BinIndex(p, k, bins);
    }
  }

  lemma UnitScaled(p: real, bins: nat)
    requires bins >= 1
    ensures 0.0 <= p < 1.0 <==> 0 <= (p * bins as real).Floor < bins
  {
    ScaledSign(p, bins as real);
    ScaledSign(1.0 - p, bins as real);
    assert (1.0 - p) * bins as real == bins as real - p * bins as real;
  }

  lemma ScaledSign(p: real, b: real)
    requires b > 0.0
    ensures p >= 0.0 <==> p * b >= 0.0
    ensures p > 0.0 <==> p * b > 0.0
  {
    if p > 0.0 {
      MulPositive(p, b);
    } else if p < 0.0 {
      MulPositive(-p, b);
    }
  }

  lemma BinIndex(p: real, k: nat, bins: nat)
    requires bins >= 1
    ensures InBin(p, k, bins) <==> (p * bins as real).Floor == k
  {
    ScaleEdge(p, k, bins);
    ScaleEdge(p, k + 1, bins);
  }

  lemma ScaleEdge(p: real, k: nat, bins: nat)
    requires bins >= 1
    ensures Edge(k, bins) <= p <==> k as real <= p * bins as real
  {
    var e, b := Edge(k, bins), bins as real;
    assert e * b == k as real;
    if e <= p {
      MulMonotone(e, p, b);
    } else {
      MulPositive(e - p, b);
    }
  }

  // ------------------------------------------------- the error, prediction by prediction

  /** The bin of a prediction: the whole part of bins times the prediction. */
  function BinOf(p: real, bins: nat): int {
    (p * bins as real).Floor
  }

  /** Net miss of the first n predictions that fall in bin k. */
  function NetMiss(y: seq<real>, prob: seq<real>, bins: nat, k: int, n: nat): real
    requires n <= |y| && n <= |prob|
  {
    if n == 0 then 0.0
    else NetMiss(y, prob, bins, k, n - 1) + (if BinOf(prob[n - 1], bins) == k then prob[n - 1] - y[n - 1] else 0.0)
  }

  function NetMisses(y: seq<real>, prob: seq<real>, bins: nat): (m: seq<real>)
    requires |y| == |prob|
    ensures |m| == bins && forall k :: 0 <= k < bins ==> m[k] == Abs(NetMiss(y, prob, bins, k, |y|))
  {
    seq(bins, k requires 0 <= k < bins => Abs(NetMiss(y, prob, bins, k, |y|)))
  }

  lemma {:induction false} MaskedIsNetMiss(y: seq<real>, prob: seq<real>, bins: nat, k: nat, n: nat)
    requires |y| == |prob| && n <= |y| && bins >= 1
    ensures Masked(Misses(y, prob), prob, Edge(k, bins), Edge(k + 1, bins), n) == NetMiss(y, prob, bins, k, n)
  {
    if n > 0 {
      MaskedIsNetMiss(y, prob, bins, k, n - 1);
      BinIndex(prob[n - 1], k, bins);
    }
  }

  lemma {:induction false} TotalIsNetMisses(y: seq<real>, prob: seq<real>, bins: nat, k: nat)
    requires |y| == |prob| && k <= bins && bins >= 1
    ensures BinTotal(Misses(y, prob), prob, bins, 0, k) == SumRange(NetMisses(y, prob, bins), 0, k)
  {
    if k > 0 {
      TotalIsNetMisses(y, prob, bins, k - 1);
      MaskedIsNetMiss(y, prob, bins, k - 1, |y|);
    }
  }

  /** Main result: the error is the mean, over all predictions, of what the net misses of their bins amount to. */
  lemma {:induction false} EceIsNetMiss(y: seq<real>, prob: seq<real>, bins: nat)
    requires |y| == |prob| > 0 && bins >= 1
    ensures Ece(y, prob, bins) * |y| as real == Sum(NetMisses(y, prob, bins))
  {
    TotalIsNetMisses(y, prob, bins, bins);
  }

  /** No two of the first n predictions in a bin. */
  ghost predicate Apart(prob: seq<real>, bins: nat) {
    forall i, j :: 0 <= i < j < |prob| ==> BinOf(prob[i], bins) != BinOf(prob[j], bins)
  }

  lemma {:induction false} EmptyBinMasksAll(d: seq<real>, prob: seq<real>, bins: nat, k: nat, n: nat)
    requires |d| == |prob| && n <= |d| && bins >= 1 && forall i :: 0 <= i < n ==> BinOf(prob[i], bins) != k
    ensures Masked(d, prob, Edge(k, bins), Edge(k + 1, bins), n) == 0.0
  {
    if n > 0 {
      EmptyBinMasksAll(d, prob, bins, k, n - 1);
      BinIndex(prob[n - 1], k, bins);
    }
  }

  lemma {:induction false} ApartMasks(d: seq<real>, prob: seq<real>, bins: nat, k: nat, n: nat)
    requires |d| == |prob| && n <= |d| && bins >= 1 && Apart(prob, bins)
    ensures var lo, hi := Edge(k, bins), Edge(k + 1, bins);
            Abs(Masked(d, prob, lo, hi, n)) == Masked(AbsAll(d), prob, lo, hi, n)
  {
    if n > 0 {
      BinIndex(prob[n - 1], k, bins);
      if BinOf(prob[n - 1], bins) == k {
        EmptyBinMasksAll(d, prob, bins, k, n - 1);
        EmptyBinMasksAll(AbsAll(d), prob, bins, k, n - 1);
      } else {
        ApartMasks(d, prob, bins, k, n - 1);
      }
    }
  }

  lemma {:induction false} ApartTotal(d: seq<real>, prob: seq<real>, bins: nat, stop: nat)
    requires |d| == |prob| && bins >= 1 && Apart(prob, bins)
    ensures BinTotal(d, prob, bins, 0, stop) == Masked(AbsAll(d), prob, 0.0, Edge(stop, bins), |d|)
    decreases stop
  {
    EdgeOrder(stop, bins);
    if stop == 0 {
      MaskedSplit(AbsAll(d), prob, 0.0, 0.0, 0.0, |d|);
    } else {
      ApartTotal(d, prob, bins, stop - 1);
      ApartMasks(d, prob, bins, stop - 1, |d|);
      EdgesRise(0, stop - 1, bins);
      EdgeOrder(stop - 1, bins);
      MaskedSplit(AbsAll(d), prob, 0.0, Edge(stop - 1, bins), Edge(stop, bins), |d|);
    }
  }

  /** The upper bound is met: with a bin for every prediction nothing cancels out. */
  lemma {:induction false} BinsOfTheirOwn(y: seq<real>, prob: seq<real>, bins: nat)
    requires |y| == |prob| > 0 && bins >= 1 && Apart(prob, bins)
    requires forall i :: 0 <= i < |prob| ==> 0.0 <= prob[i] < 1.0
    ensures Ece(y, prob, bins) == Sum(AbsAll(Misses(y, prob))) / |y| as real
  {
    var d := Misses(y, prob);
    ApartTotal(d, prob, bins, bins);
    EdgeOrder(0, bins);
    MaskedAll(AbsAll(d), prob, |d|);
  }

  // ---------------------------------------------------- what binning can hide

  lemma {:induction false} MaskedSplit(v: seq<real>, prob: seq<real>, lo: real, mid: real, hi: real, n: nat)
    requires n <= |v| && n <= |prob| && lo <= mid <= hi
    ensures Masked(v, prob, lo, hi, n) == Masked(v, prob, lo, mid, n) + Masked(v, prob, mid, hi, n)
  {
    if n > 0 {
      MaskedSplit(v, prob, lo, mid, hi, n - 1);
    }
  }

  lemma {:induction false} MaskedAll(v: seq<real>, prob: seq<real>, n: nat)
    requires n <= |v| && n <= |prob|
    requires forall i :: 0 <= i < n ==> 0.0 <= prob[i] < 1.0
    ensures Masked(v, prob, 0.0, 1.0, n) == SumRange(v, 0, n)
  {
    if n > 0 {
      MaskedAll(v, prob, n - 1);
    }
  }

  lemma {:induction false} MaskedAbs(d: seq<real>, prob: seq<real>, lo: real, hi: real, n: nat)
    requires n <= |d| && n <= |prob|
    ensures Abs(Masked(d, prob, lo, hi, n)) <= Masked(AbsAll(d), prob, lo, hi, n) <= SumRange(AbsAll(d), 0, n)
  {
    if n > 0 {
      MaskedAbs(d, prob, lo, hi, n - 1);
    }
  }

  lemma {:induction false} EdgesRise(start: nat, stop: nat, bins: nat)
    requires bins >= 1 && start <= stop
    ensures Edge(start, bins) <= Edge(stop, bins)
    decreases stop
  {
    if start < stop {
      EdgesRise(start, stop - 1, bins);
      EdgeOrder(stop - 1, bins);
    }
  }

  /** The net miss over a run of bins never exceeds the total over those bins. */
  lemma {:induction false} NetWithinTotal(d: seq<real>, prob: seq<real>, bins: nat, start: nat, stop: nat)
    requires |d| == |prob| && bins >= 1 && start <= stop
    ensures Abs(Masked(d, prob, Edge(start, bins), Edge(stop, bins), |d|)) <= BinTotal(d, prob, bins, start, stop)
    decreases stop
  {
    if start == stop {
      MaskedSplit(d, prob, Edge(stop, bins), Edge(stop, bins), Edge(stop, bins), |d|);
    } else {
      NetWithinTotal(d, prob, bins, start, stop - 1);
      EdgesRise(start, stop - 1, bins);
      EdgeOrder(stop - 1, bins);
      MaskedSplit(d, prob, Edge(start, bins), Edge(stop - 1, bins), Edge(stop, bins), |d|);
    }
  }

  lemma {:induction false} TotalWithinAbs(d: seq<real>, prob: seq<real>, bins: nat, stop: nat)
    requires |d| == |prob| && bins >= 1
    ensures BinTotal(d, prob, bins, 0, stop) <= Masked(AbsAll(d), prob, 0.0, Edge(stop, bins), |d|)
    decreases stop
  {
    EdgeOrder(stop, bins);
    if stop == 0 {
      MaskedSplit(AbsAll(d), prob, 0.0, 0.0, 0.0, |d|);
    } else {
      TotalWithinAbs(d, prob, bins, stop - 1);
      MaskedAbs(d, prob, Edge(stop - 1, bins), Edge(stop, bins), |d|);
      EdgesRise(0, stop - 1, bins);
      EdgeOrder(stop - 1, bins);
      MaskedSplit(AbsAll(d), prob, 0.0, Edge(stop - 1, bins), Edge(stop, bins), |d|);
    }
  }

  /** Never above the mean absolute miss, whatever the predictions are. */
  lemma EceAtMostMeanMiss(y: seq<real>, prob: seq<real>, bins: nat)
    requires |y| == |prob| > 0
    ensures Ece(y, prob, bins) <= Sum(AbsAll(Misses(y, prob))) / |y| as real
  {
    var d := Misses(y, prob);
    MaskedAbs(d, prob, 0.0, 0.0, |d|);
    if bins > 0 {
      TotalWithinAbs(d, prob, bins, bins);
      EdgeOrder(0, bins);
      MaskedAbs(d, prob, 0.0, 1.0, |d|);
      DivideBoth(BinTotal(d, prob, bins, 0, bins), Sum(AbsAll(d)), |y| as real);
    } else {
      DivideBoth(0.0, Sum(AbsAll(d)), |y| as real);
    }
  }

  /** With every prediction in [0,1), never below the miss of the two means. */
  lemma EceAtLeastMeanGap(y: seq<real>, prob: seq<real>, bins: nat)
    requires |y| == |prob| > 0 && bins >= 1
    requires forall i :: 0 <= i < |prob| ==> 0.0 <= prob[i] < 1.0
    ensures Abs(Sum(Misses(y, prob))) / |y| as real <= Ece(y, prob, bins)
  {
    var d := Misses(y, prob);
    EdgeOrder(0, bins);
    NetWithinTotal(d, prob, bins, 0, bins);
    MaskedAll(d, prob, |d|);
    DivideBoth(Abs(Sum(d)), BinTotal(d, prob, bins, 0, bins), |y| as real);
  }

  /** The one value the bins lose: a prediction of exactly 1 costs nothing. */
  lemma PredictionOfOneIsFree(y: real, bins: nat)
    ensures Ece([y], [1.0], bins) == 0.0
  {
    if bins > 0 {
      OneUnbinned(y, bins, bins);
    }
  }

  lemma {:induction false} OneUnbinned(y: real, bins: nat, stop: nat)
    requires 1 <= bins && stop <= bins
    ensures BinTotal(Misses([y], [1.0]), [1.0], bins, 0, stop) == 0.0
    decreases stop
  {
    if stop > 0 {
      OneUnbinned(y, bins, stop - 1);
      EdgeOrder(stop - 1, bins);
      EdgesRise(stop, bins, bins);
      assert Masked(Misses([y], [1.0]), [1.0], Edge(stop - 1, bins), Edge(stop, bins), 1)
          == Masked(Misses([y], [1.0]), [1.0], Edge(stop - 1, bins), Edge(stop, bins), 0) + 0.0;
    }
  }

  /** Splitting every bin into parts equal pieces never lowers the error. */
  lemma RefiningRaisesEce(y: seq<real>, prob: seq<real>, bins: nat, parts: nat)
    requires |y| == |prob| && bins >= 1 && parts >= 1
    ensures Ece(y, prob, bins) <= Ece(y, prob, bins * parts)
  {
    if y != [] {
      var d := Misses(y, prob);
      RefinedTotal(d, prob, bins, parts, bins);
      DivideBoth(BinTotal(d, prob, bins, 0, bins), BinTotal(d, prob, bins * parts, 0, bins * parts), |y| as real);
    }
  }

  lemma {:induction false} RefinedTotal(d: seq<real>, prob: seq<real>, bins: nat, parts: nat, stop: nat)
    requires |d| == |prob| && bins >= 1 && parts >= 1
    ensures bins * parts >= 1 && stop * parts >= 0
    ensures BinTotal(d, prob, bins, 0, stop) <= BinTotal(d, prob, bins * parts, 0, stop * parts)
    decreases stop
  {
    ProductAtLeastOne(bins, parts);
    if stop > 0 {
      RefinedTotal(d, prob, bins, parts, stop - 1);
      var a, b := (stop - 1) * parts, stop * parts;
      assert b == a + parts;
      RefinedEdge(stop - 1, bins, parts);
      RefinedEdge(stop, bins, parts);
      NetWithinTotal(d, prob, bins * parts, a, b);
      BinTotalSplit(d, prob, bins * parts, 0, a, b);
    }
  }

  lemma ProductAtLeastOne(a: nat, b: nat)
    requires a >= 1 && b >= 1
    ensures a * b >= 1
  {
  }

  lemma RefinedEdge(k: nat, bins: nat, parts: nat)
    requires bins >= 1 && parts >= 1
    ensures bins * parts >= 1 && k * parts >= 0 && Edge(k * parts, bins * parts) == Edge(k, bins)
  {
    ProductAtLeastOne(bins, parts);
    var kr, br, pr := k as real, bins as real, parts as real;
    assert (k * parts) as real == kr * pr && (bins * parts) as real == br * pr;
    MulPositive(br, pr);
    assert Edge(k, bins) * br == kr;
    assert Edge(k, bins) * (br * pr) == kr * pr;
  }

  lemma {:induction false} BinTotalSplit(d: seq<real>, prob: seq<real>, bins: nat, start: nat, mid: nat, stop: nat)
    requires |d| == |prob| && bins >= 1 && start <= mid <= stop
    ensures BinTotal(d, prob, bins, start, stop) == BinTotal(d, prob, bins, start, mid) + BinTotal(d, prob, bins, mid, stop)
    decreases stop
  {
    if mid < stop {
      BinTotalSplit(d, prob, bins, start, mid, stop - 1);
    }
  }

  lemma DivideBoth(a: real, b: real, n: real)
    requires a <= b && n > 0.0
    ensures a / n <= b / n
  {
  }
}
