/**
 * Isotonic calibration by pooling adjacent violators: the block stack that
 * fit maintains, the step function that predict evaluates, and the proof that
 * the fitted values are the unique least-squares non-decreasing sequence.
 */
module IsotonicCalibration {
  import opened RealSums
  import opened StableOrder
  import opened Options

  // ---------------------------------------------------------------- blocks

  /** One pooled block: label sum, number of points, mean raw score. */
  datatype Block = Block(sumY: real, count: nat, meanX: real)

  function Mean(b: Block): real
    requires b.count >= 1
  {
    b.sumY / b.count as real
  }

  function Merge(prev: Block, curr: Block): Block
    requires prev.count >= 1 && curr.count >= 1
  {
    var cnt := prev.count + curr.count;
    Block(prev.sumY + curr.sumY, cnt,
          (prev.meanX * prev.count as real + curr.meanX * curr.count as real) / cnt as real)
  }

  predicate AllPositive(blocks: seq<Block>) {
    forall i :: 0 <= i < |blocks| ==> blocks[i].count >= 1
  }

  /** Pool the top of the stack while the block below it has a larger mean. */
  function Settle(blocks: seq<Block>): (r: seq<Block>)
    requires AllPositive(blocks)
    ensures AllPositive(r)
    decreases |blocks|
  {
    var k := |blocks|;
    if k >= 2 && Mean(blocks[k - 2]) > Mean(blocks[k - 1]) then
      Settle(blocks[..k - 2] + [Merge(blocks[k - 2], blocks[k - 1])])
    else blocks
  }

  /** The stack after the first n points. */
  function Pava(xs: seq<real>, ys: seq<real>, n: nat): (r: seq<Block>)
    requires n <= |xs| && n <= |ys|
    ensures AllPositive(r)
  {
    if n == 0 then []
    else Settle(Pava(xs, ys, n - 1) + [Block(ys[n - 1], 1, xs[n - 1])])
  }

  // ------------------------------------------------------- block invariant

  /**
   * b pools exactly the points lo..hi-1, and every proper prefix of the block
   * has a mean above that of the block.
   */
  ghost predicate Pools(b: Block, xs: seq<real>, ys: seq<real>, lo: nat, hi: nat)
    requires lo <= hi <= |xs| && hi <= |ys|
  {
    && b.count == hi - lo >= 1
    && b.sumY == SumRange(ys, lo, hi)
    && b.meanX * b.count as real == SumRange(xs, lo, hi)
    && PrefixesAbove(ys, lo, hi, Mean(b))
  }

  ghost predicate PrefixesAbove(ys: seq<real>, lo: nat, hi: nat, m: real)
    requires lo <= hi <= |ys|
  {
    forall k :: lo < k < hi ==> SumRange(ys, lo, k) > Times(m, k - lo)
  }

  /** The stack partitions points 0..n-1 into contiguous pooled runs. */
  ghost predicate Partitions(blocks: seq<Block>, xs: seq<real>, ys: seq<real>, n: nat)
    requires n <= |xs| && n <= |ys|
  {
    if blocks == [] then n == 0
    else
      var b := blocks[|blocks| - 1];
      && b.count <= n
      && Pools(b, xs, ys, n - b.count, n)
      && Partitions(blocks[..|blocks| - 1], xs, ys, n - b.count)
  }

  ghost predicate MeansRise(blocks: seq<Block>)
    requires AllPositive(blocks)
  {
    forall i, j :: 0 <= i < j < |blocks| ==> Mean(blocks[i]) <= Mean(blocks[j])
  }

  lemma MeanTimesCount(b: Block)
    requires b.count >= 1
    ensures Mean(b) * b.count as real == b.sumY
  {
  }

  /** Merging a violating pair puts the mean between the two. */
  lemma MergedMeanBetween(p: Block, c: Block)
    requires p.count >= 1 && c.count >= 1 && Mean(p) > Mean(c)
    ensures var m := Mean(Merge(p, c));
            Mean(c) < m < Mean(p)
            && (Mean(p) - m) * p.count as real == (m - Mean(c)) * c.count as real
  {
    var m, u, v := Mean(Merge(p, c)), p.count as real, c.count as real;
    MeanTimesCount(p); MeanTimesCount(c); MeanTimesCount(Merge(p, c));
    assert m * (u + v) == Mean(p) * u + Mean(c) * v;
    WeightedBetween(Mean(p), Mean(c), m, u, v);
  }

  lemma WeightedBetween(high: real, low: real, m: real, u: real, v: real)
    requires high > low && u > 0.0 && v > 0.0
    requires m * (u + v) == high * u + low * v
    ensures low < m < high && (high - m) * u == (m - low) * v
  {
    assert (high - m) * u == (m - low) * v;
    assert (m - low) * (u + v) == (high - low) * u;
    assert (high - m) * (u + v) == (high - low) * v;
    assert (high - low) * u > 0.0 && (high - low) * v > 0.0;
  }

  lemma MergedTotals(p: Block, c: Block)
    requires p.count >= 1 && c.count >= 1
    ensures var b := Merge(p, c);
            b.meanX * b.count as real == p.meanX * p.count as real + c.meanX * c.count as real
  {
  }

  /** The prefix property survives a merge. */
  lemma {:induction false} MergePools(p: Block, c: Block, xs: seq<real>, ys: seq<real>, lo: nat, mid: nat, hi: nat)
    requires lo <= mid <= hi <= |xs| && hi <= |ys|
    requires Pools(p, xs, ys, lo, mid) && Pools(c, xs, ys, mid, hi)
    requires Mean(p) > Mean(c)
    ensures Pools(Merge(p, c), xs, ys, lo, hi)
  {
    var b := Merge(p, c);
    assert b.sumY == SumRange(ys, lo, hi) by {
      SumSplit(ys, lo, mid, hi);
    }
    assert b.meanX * b.count as real == SumRange(xs, lo, hi) by {
      SumSplit(xs, lo, mid, hi);
      MergedTotals(p, c);
    }
    assert PrefixesAbove(ys, lo, hi, Mean(b)) by {
      PooledSum(p, xs, ys, lo, mid);
      MergedMeanBetween(p, c);
      MergePrefixes(ys, lo, mid, hi, Mean(p), Mean(c), Mean(b));
    }
  }

  /** A pooled run sums to its mean taken once per point. */
  lemma {:induction false} PooledSum(b: Block, xs: seq<real>, ys: seq<real>, lo: nat, hi: nat)
    requires lo <= hi <= |xs| && hi <= |ys| && Pools(b, xs, ys, lo, hi)
    ensures SumRange(ys, lo, hi) == Times(Mean(b), hi - lo)
  {
    MeanAddsUp(b);
  }

  lemma {:induction false} MeanAddsUp(b: Block)
    requires b.count >= 1
    ensures Times(Mean(b), b.count) == b.sumY
  {
    TimesIsProduct(Mean(b), b.count);
    DivideBack(b.sumY, b.count as real);
  }

  lemma {:induction false} DivideBack(s: real, n: real)
    requires n > 0.0
    ensures s / n * n == s
  {
  }

  lemma {:induction false} MergePrefixes(ys: seq<real>, lo: nat, mid: nat, hi: nat, high: real, low: real, m: real)
    requires lo < mid < hi <= |ys|
    requires SumRange(ys, lo, mid) == Times(high, mid - lo)
    requires PrefixesAbove(ys, lo, mid, high) && PrefixesAbove(ys, mid, hi, low)
    requires low < m < high
    requires (high - m) * (mid - lo) as real == (m - low) * (hi - mid) as real
    ensures PrefixesAbove(ys, lo, hi, m)
  {
    forall k | lo < k < hi
      ensures SumRange(ys, lo, k) > Times(m, k - lo)
    {
      if k <= mid {
        TimesStrict(m, high, k - lo);
        assert k < mid ==> SumRange(ys, lo, k) > Times(high, k - lo);
      } else {
        SumSplit(ys, lo, mid, k);
        assert SumRange(ys, mid, k) > Times(low, k - mid);
        PrefixAcross(high, low, m, mid - lo, hi - mid, k - mid);
        assert (mid - lo) + (k - mid) == k - lo;
      }
    }
  }

  lemma {:induction false} TimesMonotone(a: real, b: real, n: nat)
    requires a <= b
    ensures Times(a, n) <= Times(b, n)
  {
    if n > 0 {
      TimesMonotone(a, b, n - 1);
    }
  }

  lemma {:induction false} TimesStrict(a: real, b: real, n: nat)
    requires a < b && n > 0
    ensures Times(a, n) < Times(b, n)
  {
    TimesMonotone(a, b, n - 1);
  }

  lemma PrefixAcross(high: real, low: real, m: real, u: nat, v: nat, j: nat)
    requires low < m && j <= v
    requires (high - m) * u as real == (m - low) * v as real
    ensures Times(high, u) + Times(low, j) >= Times(m, u + j)
  {
    TimesIsProduct(high, u);
    TimesIsProduct(low, j);
    TimesIsProduct(m, u + j);
    assert (u + j) as real == u as real + j as real;
    ExchangeStep(high, low, m, u as real, v as real, j as real);
  }

  lemma ExchangeStep(high: real, low: real, m: real, u: real, v: real, j: real)
    requires low < m && j <= v
    requires (high - m) * u == (m - low) * v
    ensures high * u + low * j >= m * (u + j)
  {
    MulNonNegative(m - low, v - j);
  }

  lemma {:induction false} SettlePartitions(blocks: seq<Block>, xs: seq<real>, ys: seq<real>, n: nat)
    requires n <= |xs| && n <= |ys|
    requires AllPositive(blocks) && Partitions(blocks, xs, ys, n)
    requires |blocks| > 0 ==> MeansRise(blocks[..|blocks| - 1])
    ensures Partitions(Settle(blocks), xs, ys, n) && MeansRise(Settle(blocks))
    decreases |blocks|
  {
    var k := |blocks|;
    if k >= 2 && Mean(blocks[k - 2]) > Mean(blocks[k - 1]) {
      var next := blocks[..k - 2] + [Merge(blocks[k - 2], blocks[k - 1])];
      MergeTop(blocks, xs, ys, n);
      var below := blocks[..k - 1];
      forall i, j | 0 <= i < j < k - 2
        ensures Mean(next[i]) <= Mean(next[j])
      {
        assert Mean(below[i]) <= Mean(below[j]);
      }
      assert next[..|next| - 1] == blocks[..k - 2];
      SettlePartitions(next, xs, ys, n);
    } else if k >= 2 {
      var below := blocks[..k - 1];
      forall i, j | 0 <= i < j < k
        ensures Mean(blocks[i]) <= Mean(blocks[j])
      {
        assert i <= k - 2 && Mean(below[i]) <= Mean(below[k - 2]);
        if j < k - 1 {
          assert Mean(below[i]) <= Mean(below[j]);
        }
      }
    }
  }

  /** Pooling the two top blocks keeps a partition. */
  lemma {:induction false} MergeTop(blocks: seq<Block>, xs: seq<real>, ys: seq<real>, n: nat)
    requires n <= |xs| && n <= |ys| && |blocks| >= 2
    requires AllPositive(blocks) && Partitions(blocks, xs, ys, n)
    requires Mean(blocks[|blocks| - 2]) > Mean(blocks[|blocks| - 1])
    ensures var k := |blocks|;
            Partitions(blocks[..k - 2] + [Merge(blocks[k - 2], blocks[k - 1])], xs, ys, n)
  {
    var k := |blocks|;
    var p, c := blocks[k - 2], blocks[k - 1];
    var below, next := blocks[..k - 1], blocks[..k - 2] + [Merge(p, c)];
    assert below[k - 2] == p && below[..k - 2] == blocks[..k - 2];
    assert next[k - 2] == Merge(p, c) && next[..k - 2] == blocks[..k - 2];
    MergePools(p, c, xs, ys, n - c.count - p.count, n - c.count, n);
  }

  lemma SinglePools(xs: seq<real>, ys: seq<real>, n: nat)
    requires n < |xs| && n < |ys|
    ensures Pools(Block(ys[n], 1, xs[n]), xs, ys, n, n + 1)
  {
    assert SumRange(ys, n, n + 1) == SumRange(ys, n, n) + ys[n];
    assert SumRange(xs, n, n + 1) == SumRange(xs, n, n) + xs[n];
  }

  /** What pushing a point and settling keeps holds of the stack after any number of points. */
  lemma {:induction false} StackInvariant(xs: seq<real>, ys: seq<real>, n: nat, keeps: (seq<Block>, nat) -> bool)
    requires n <= |xs| && n <= |ys| && keeps([], 0)
    requires forall blocks: seq<Block>, k: nat :: keeps(blocks, k) && AllPositive(blocks) && k < n ==>
               keeps(Settle(blocks + [Block(ys[k], 1, xs[k])]), k + 1)
    ensures keeps(Pava(xs, ys, n), n)
  {
    if n > 0 {
      StackInvariant(xs, ys, n - 1, keeps);
      assert keeps(Pava(xs, ys, n - 1), n - 1);
    }
  }

  /** After any number of points the stack is a partition with rising means. */
  lemma {:induction false} PavaPartitions(xs: seq<real>, ys: seq<real>, n: nat)
    requires n <= |xs| && n <= |ys|
    ensures Partitions(Pava(xs, ys, n), xs, ys, n)
    ensures MeansRise(Pava(xs, ys, n))
  {
    var keeps := (blocks: seq<Block>, k: nat) =>
      k <= n && AllPositive(blocks) && Partitions(blocks, xs, ys, k) && MeansRise(blocks);
    var none: seq<Block> := [];
    assert AllPositive(none) && Partitions(none, xs, ys, 0) && MeansRise(none);
    assert keeps(none, 0);
    forall blocks: seq<Block>, k: nat | keeps(blocks, k) && AllPositive(blocks) && k < n
      ensures keeps(Settle(blocks + [Block(ys[k], 1, xs[k])]), k + 1)
    {
      PushSettles(blocks, Block(ys[k], 1, xs[k]), xs, ys, k);
    }
    StackInvariant(xs, ys, n, keeps);
  }

  lemma {:induction false} PushSettles(blocks: seq<Block>, b: Block, xs: seq<real>, ys: seq<real>, n: nat)
    requires n < |xs| && n < |ys| && AllPositive(blocks) && Partitions(blocks, xs, ys, n) && MeansRise(blocks)
    requires b == Block(ys[n], 1, xs[n])
    ensures Partitions(Settle(blocks + [b]), xs, ys, n + 1) && MeansRise(Settle(blocks + [b]))
  {
    PushPartitions(blocks, xs, ys, n);
    assert (blocks + [b])[..|blocks|] == blocks;
    SettlePartitions(blocks + [b], xs, ys, n + 1);
  }

  /** A new point is a block of its own. */
  lemma {:induction false} PushPartitions(blocks: seq<Block>, xs: seq<real>, ys: seq<real>, n: nat)
    requires n < |xs| && n < |ys| && Partitions(blocks, xs, ys, n)
    ensures Partitions(blocks + [Block(ys[n], 1, xs[n])], xs, ys, n + 1)
  {
    var pushed := blocks + [Block(ys[n], 1, xs[n])];
    assert pushed[..|pushed| - 1] == blocks;
    SinglePools(xs, ys, n);
  }

  // --------------------------------------------- there is only one such stack

  /** From inside a pooled run to its end the labels do not sum above its mean. */
  lemma {:induction false} SuffixBelow(b: Block, xs: seq<real>, ys: seq<real>, lo: nat, hi: nat, k: nat)
    requires lo <= hi <= |xs| && hi <= |ys| && Pools(b, xs, ys, lo, hi) && lo <= k <= hi
    ensures SumRange(ys, k, hi) <= Times(Mean(b), hi - k)
    ensures lo < k < hi ==> SumRange(ys, k, hi) < Times(Mean(b), hi - k)
  {
    PooledSum(b, xs, ys, lo, hi);
    SumSplit(ys, lo, k, hi);
    TimesAdds(Mean(b), k - lo, hi - k);
    assert (k - lo) + (hi - k) == hi - lo;
    assert lo < k < hi ==> SumRange(ys, lo, k) > Times(Mean(b), k - lo);
  }

  /** Nor from anywhere to the end of a stack of rising means, above the last of them. */
  lemma {:induction false} TailBelow(blocks: seq<Block>, xs: seq<real>, ys: seq<real>, n: nat, k: nat, m: real)
    requires n <= |xs| && n <= |ys| && k <= n
    requires AllPositive(blocks) && Partitions(blocks, xs, ys, n)
    requires forall i :: 0 <= i < |blocks| ==> Mean(blocks[i]) <= m
    ensures SumRange(ys, k, n) <= Times(m, n - k)
  {
    if blocks != [] {
      var init, b := blocks[..|blocks| - 1], blocks[|blocks| - 1];
      var start := n - b.count;
      var from := if k <= start then start else k;
      SuffixBelow(b, xs, ys, start, n, from);
      TimesMonotone(Mean(b), m, n - from);
      if k <= start {
        assert forall i :: 0 <= i < |init| ==> init[i] == blocks[i];
        TailBelow(init, xs, ys, start, k, m);
        SumSplit(ys, k, start, n);
        TimesAdds(m, start - k, n - start);
        assert (start - k) + (n - start) == n - k;
      }
    }
  }

  /** So of two such stacks neither has the longer last block. */
  lemma {:induction false} NoLongerBlock(a: seq<Block>, b: seq<Block>, xs: seq<real>, ys: seq<real>, n: nat)
    requires n <= |xs| && n <= |ys| && a != [] && b != []
    requires AllPositive(a) && Partitions(a, xs, ys, n)
    requires AllPositive(b) && Partitions(b, xs, ys, n) && MeansRise(b)
    ensures a[|a| - 1].count <= b[|b| - 1].count
  {
    var p, q := a[|a| - 1], b[|b| - 1];
    if p.count > q.count {
      var lo, mid, init := n - p.count, n - q.count, b[..|b| - 1];
      assert SumRange(ys, lo, mid) > Times(Mean(p), mid - lo);
      SuffixBelow(p, xs, ys, lo, n, mid);
      PooledSum(q, xs, ys, mid, n);
      if Mean(p) <= Mean(q) {
        TimesMonotone(Mean(p), Mean(q), n - mid);
      }
      assert forall i :: 0 <= i < |init| ==> Mean(init[i]) <= Mean(q);
      TailBelow(init, xs, ys, mid, lo, Mean(q));
      TimesMonotone(Mean(q), Mean(p), mid - lo);
    }
  }

  lemma {:induction false} SamePool(p: Block, q: Block, xs: seq<real>, ys: seq<real>, lo: nat, hi: nat)
    requires lo <= hi <= |xs| && hi <= |ys| && Pools(p, xs, ys, lo, hi) && Pools(q, xs, ys, lo, hi)
    ensures p == q
  {
    SameFactor(p.meanX, q.meanX, p.count as real, SumRange(xs, lo, hi));
  }

  lemma {:induction false} SameFactor(a: real, b: real, n: real, total: real)
    requires n > 0.0 && a * n == total && b * n == total
    ensures a == b
  {
    MulCancel(a, b, n);
    MulCancel(b, a, n);
  }

  lemma {:induction false} StacksAgree(a: seq<Block>, b: seq<Block>, xs: seq<real>, ys: seq<real>, n: nat)
    requires n <= |xs| && n <= |ys|
    requires AllPositive(a) && Partitions(a, xs, ys, n) && MeansRise(a)
    requires AllPositive(b) && Partitions(b, xs, ys, n) && MeansRise(b)
    ensures a == b
  {
    if a != [] && b != [] {
      var p, q := a[|a| - 1], b[|b| - 1];
      NoLongerBlock(a, b, xs, ys, n);
      NoLongerBlock(b, a, xs, ys, n);
      SamePool(p, q, xs, ys, n - p.count, n);
      InitRises(a);
      InitRises(b);
      StacksAgree(a[..|a| - 1], b[..|b| - 1], xs, ys, n - p.count);
    }
  }

  lemma {:induction false} InitRises(a: seq<Block>)
    requires a != [] && AllPositive(a) && MeansRise(a)
    ensures AllPositive(a[..|a| - 1]) && MeansRise(a[..|a| - 1])
  {
    var init := a[..|a| - 1];
    assert forall i :: 0 <= i < |init| ==> init[i] == a[i];
  }

  /**
   * Main result: the stack is the only way to split the points into runs of
   * rising means none of which has a proper prefix with a mean as low as its own;
   * so knots and levels do not depend on how, or in which order, pairs are pooled.
   */
  lemma {:induction false} OnlyStack(xs: seq<real>, ys: seq<real>, n: nat, blocks: seq<Block>)
    requires n <= |xs| && n <= |ys|
    ensures blocks == Pava(xs, ys, n) <==> AllPositive(blocks) && Partitions(blocks, xs, ys, n) && MeansRise(blocks)
  {
    PavaPartitions(xs, ys, n);
    if AllPositive(blocks) && Partitions(blocks, xs, ys, n) && MeansRise(blocks) {
      StacksAgree(blocks, Pava(xs, ys, n), xs, ys, n);
    }
  }

  // ------------------------------------------- the least-squares optimum

  /** The fitted value of each training point, in sorted-score order. */
  function FitValues(blocks: seq<Block>): (r: seq<real>)
    requires AllPositive(blocks)
  {
    if blocks == [] then []
    else
      var b := blocks[|blocks| - 1];
      FitValues(blocks[..|blocks| - 1]) + seq(b.count, _ => Mean(b))
  }

  /** Squared distance of two sequences over lo..hi-1. */
  function SqDist(a: seq<real>, b: seq<real>, lo: nat, hi: nat): real
    requires lo <= hi <= |a| && hi <= |b|
    decreases hi
  {
    if lo == hi then 0.0 else SqDist(a, b, lo, hi - 1) + Sq(a[hi - 1] - b[hi - 1])
  }

  /** A zero distance means equal elements, and no distance is negative. */
  lemma {:induction false} SqDistDefinite(a: seq<real>, b: seq<real>, lo: nat, hi: nat)
    requires lo <= hi <= |a| && hi <= |b|
    ensures SqDist(a, b, lo, hi) >= 0.0
    ensures SqDist(a, b, lo, hi) == 0.0 ==> forall i :: lo <= i < hi ==> a[i] == b[i]
    decreases hi
  {
    if lo < hi {
      SqDistDefinite(a, b, lo, hi - 1);
      SqDefinite(a[hi - 1] - b[hi - 1]);
    }
  }

  /**
   * What the squared error of z gains over that of fit plus the distance of
   * fit and z, term by term; GapIsDifference sums it up.
   */
  function Gap(ys: seq<real>, fit: seq<real>, z: seq<real>, lo: nat, hi: nat): real
    requires lo <= hi <= |ys| && hi <= |fit| && hi <= |z|
    decreases hi
  {
    if lo == hi then 0.0
    else Gap(ys, fit, z, lo, hi - 1) + GapTerm(ys[hi - 1], fit[hi - 1], z[hi - 1])
  }

  function GapTerm(y: real, m: real, w: real): real {
    Sq(y - w) - Sq(y - m) - Sq(m - w)
  }

  lemma {:induction false} GapIsDifference(ys: seq<real>, fit: seq<real>, z: seq<real>, lo: nat, hi: nat)
    requires lo <= hi <= |ys| && hi <= |fit| && hi <= |z|
    ensures Gap(ys, fit, z, lo, hi)
         == SqDist(ys, z, lo, hi) - SqDist(ys, fit, lo, hi) - SqDist(fit, z, lo, hi)
    decreases hi
  {
    if lo < hi {
      GapIsDifference(ys, fit, z, lo, hi - 1);
    }
  }

  /** The gap term of a point y of a block with mean m. */
  function Pull(y: real, m: real, w: real): real {
    2.0 * ((y - m) * (m - w))
  }

  /** How far the labels lo..k-1 sum above k - lo copies of m. */
  function Surplus(ys: seq<real>, lo: nat, k: nat, m: real): real
    requires lo <= k <= |ys|
    decreases k
  {
    if k == lo then 0.0 else Surplus(ys, lo, k - 1, m) + (ys[k - 1] - m)
  }

  lemma {:induction false} SurplusIsExcess(ys: seq<real>, lo: nat, k: nat, m: real)
    requires lo <= k <= |ys|
    ensures Surplus(ys, lo, k, m) == SumRange(ys, lo, k) - Times(m, k - lo)
    decreases k
  {
    if lo < k {
      SurplusIsExcess(ys, lo, k - 1, m);
      assert Times(m, k - lo) == Times(m, k - lo - 1) + m;
    }
  }

  /** Twice a surplus times a distance. */
  function Bound(surplus: real, distance: real): real {
    2.0 * (surplus * distance)
  }

  lemma {:induction false} BoundStep(s: real, y: real, m: real, next: real, before: real, w: real)
    requires s >= 0.0 && next == s + (y - m) && before <= w
    ensures Bound(next, m - w) <= Bound(s, m - before) + Pull(y, m, w)
  {
    MulNonNegative(s, w - before);
    assert next * (m - w) == s * (m - w) + (y - m) * (m - w);
  }

  lemma {:induction false} BoundStart(y: real, m: real, next: real, w: real)
    requires next == y - m
    ensures Bound(next, m - w) == Pull(y, m, w)
  {
  }

  /** What the points contribute, and the bounds on their sums. */
  function Pulls(ys: seq<real>, z: seq<real>, m: real): (r: seq<real>)
    requires |ys| <= |z|
    ensures |r| == |ys|
  {
    seq(|ys|, i requires 0 <= i < |ys| => Pull(ys[i], m, z[i]))
  }

  function Bounds(ys: seq<real>, z: seq<real>, lo: nat, m: real): (r: seq<real>)
    requires |ys| <= |z|
    ensures |r| == |ys| + 1
  {
    seq(|ys| + 1, i requires 0 <= i <= |ys| => if i <= lo then 0.0 else Bound(Surplus(ys, lo, i, m), m - z[i - 1]))
  }

  /** Term i - 1 covers the growth of the bound up to i. */
  ghost predicate Covered(terms: seq<real>, bounds: seq<real>, i: nat) {
    0 < i <= |terms| && i < |bounds| && bounds[i] <= bounds[i - 1] + terms[i - 1]
  }

  /** Summation by parts: if every term covers the growth of its bound, their sum covers the last. */
  lemma {:induction false} Telescopes(terms: seq<real>, bounds: seq<real>, lo: nat, k: nat)
    requires lo <= k <= |terms| && k < |bounds| && bounds[lo] == 0.0
    requires forall i: nat :: lo < i <= k ==> Covered(terms, bounds, i)
    ensures bounds[k] <= SumRange(terms, lo, k)
    decreases k
  {
    if lo < k {
      Telescopes(terms, bounds, lo, k - 1);
      assert Covered(terms, bounds, k);
    }
  }

  /** One step inside a pooled run: the surplus so far is not negative, and z does not fall. */
  lemma {:induction false} PullCovers(ys: seq<real>, z: seq<real>, lo: nat, i: nat, m: real)
    requires lo < i <= |ys| <= |z|
    requires i > lo + 1 ==> Surplus(ys, lo, i - 1, m) >= 0.0 && z[i - 2] <= z[i - 1]
    ensures Covered(Pulls(ys, z, m), Bounds(ys, z, lo, m), i)
  {
    var s, y, w := Surplus(ys, lo, i - 1, m), ys[i - 1], z[i - 1];
    if i == lo + 1 {
      BoundStart(y, m, Surplus(ys, lo, i, m), w);
    } else {
      BoundStep(s, y, m, Surplus(ys, lo, i, m), z[i - 2], w);
    }
  }

  lemma {:induction false} GapIsPulls(ys: seq<real>, fit: seq<real>, z: seq<real>, lo: nat, hi: nat, m: real)
    requires lo <= hi <= |ys| <= |z| && hi <= |fit|
    requires forall i :: lo <= i < hi ==> fit[i] == m
    ensures Gap(ys, fit, z, lo, hi) == SumRange(Pulls(ys, z, m), lo, hi)
    decreases hi
  {
    if lo < hi {
      GapIsPulls(ys, fit, z, lo, hi - 1, m);
      GapTermFactors(ys[hi - 1], m, z[hi - 1]);
    }
  }

  lemma {:induction false} GapTermFactors(y: real, m: real, w: real)
    ensures GapTerm(y, m, w) == Pull(y, m, w)
  {
  }

  /**
   * One block: over a pooled run the gap to any non-decreasing z is not
   * negative, because the surplus never is and ends at zero.
   */
  lemma {:induction false} BlockGap(ys: seq<real>, z: seq<real>, lo: nat, hi: nat, m: real)
    requires lo < hi <= |ys| <= |z|
    requires PrefixesAbove(ys, lo, hi, m) && SumRange(ys, lo, hi) == Times(m, hi - lo) && NonDecreasing(z)
    ensures SumRange(Pulls(ys, z, m), lo, hi) >= 0.0
  {
    forall i: nat | lo < i <= hi
      ensures Covered(Pulls(ys, z, m), Bounds(ys, z, lo, m), i)
    {
      SurplusIsExcess(ys, lo, i - 1, m);
      PullCovers(ys, z, lo, i, m);
    }
    Telescopes(Pulls(ys, z, m), Bounds(ys, z, lo, m), lo, hi);
    SurplusIsExcess(ys, lo, hi, m);
    assert Bounds(ys, z, lo, m)[hi] == Bound(0.0, m - z[hi - 1]);
  }

  lemma {:induction false} FitValuesShape(blocks: seq<Block>, xs: seq<real>, ys: seq<real>, n: nat)
    requires n <= |xs| && n <= |ys|
    requires AllPositive(blocks) && Partitions(blocks, xs, ys, n)
    ensures |FitValues(blocks)| == n
  {
    if blocks != [] {
      var b := blocks[|blocks| - 1];
      FitValuesShape(blocks[..|blocks| - 1], xs, ys, n - b.count);
    }
  }

  /** Any partition into pooled runs satisfies the Pythagorean inequality. */
  lemma {:induction false} PartitionGap(blocks: seq<Block>, xs: seq<real>, ys: seq<real>, n: nat, z: seq<real>)
    requires n <= |xs| && n <= |ys| && |ys| <= |z|
    requires AllPositive(blocks) && Partitions(blocks, xs, ys, n)
    requires NonDecreasing(z)
    ensures |FitValues(blocks)| == n && Gap(ys, FitValues(blocks), z, 0, n) >= 0.0
  {
    FitValuesShape(blocks, xs, ys, n);
    if blocks != [] {
      var init, b := blocks[..|blocks| - 1], blocks[|blocks| - 1];
      var mid, fit := n - b.count, FitValues(blocks);
      FitValuesShape(init, xs, ys, mid);
      PartitionGap(init, xs, ys, mid, z);
      assert forall i :: 0 <= i < mid ==> fit[i] == FitValues(init)[i];
      assert forall i :: mid <= i < n ==> fit[i] == Mean(b);
      RunGap(b, xs, ys, fit, z, mid, n);
      GapSplit(ys, fit, z, mid, n);
      GapAgree(ys, fit, FitValues(init), z, mid);
    }
  }

  /** Over a whole pooled run the surplus is used up. */
  lemma {:induction false} RunGap(b: Block, xs: seq<real>, ys: seq<real>, fit: seq<real>, z: seq<real>, lo: nat, hi: nat)
    requires lo <= hi <= |xs| && hi <= |ys| <= |z| && hi <= |fit|
    requires Pools(b, xs, ys, lo, hi) && NonDecreasing(z)
    requires forall i :: lo <= i < hi ==> fit[i] == Mean(b)
    ensures Gap(ys, fit, z, lo, hi) >= 0.0
  {
    GapIsPulls(ys, fit, z, lo, hi, Mean(b));
    PooledSum(b, xs, ys, lo, hi);
    BlockGap(ys, z, lo, hi, Mean(b));
  }

  lemma {:induction false} GapSplit(ys: seq<real>, fit: seq<real>, z: seq<real>, mid: nat, n: nat)
    requires mid <= n <= |ys| && n <= |fit| && n <= |z|
    ensures Gap(ys, fit, z, 0, n) == Gap(ys, fit, z, 0, mid) + Gap(ys, fit, z, mid, n)
  {
    if mid < n {
      GapSplit(ys, fit, z, mid, n - 1);
    }
  }

  lemma {:induction false} GapAgree(ys: seq<real>, fit: seq<real>, fit': seq<real>, z: seq<real>, n: nat)
    requires n <= |ys| && n <= |fit| && n <= |fit'| && n <= |z|
    requires forall i :: 0 <= i < n ==> fit[i] == fit'[i]
    ensures Gap(ys, fit, z, 0, n) == Gap(ys, fit', z, 0, n)
  {
    if n > 0 {
      GapAgree(ys, fit, fit', z, n - 1);
    }
  }

  /** Rising block means make the fitted values non-decreasing. */
  lemma {:induction false} FitValuesRise(blocks: seq<Block>)
    requires AllPositive(blocks) && MeansRise(blocks)
    ensures NonDecreasing(FitValues(blocks))
    ensures blocks != [] ==> forall i :: 0 <= i < |FitValues(blocks)| ==>
                               FitValues(blocks)[i] <= Mean(blocks[|blocks| - 1])
  {
    if blocks != [] {
      FitValuesRise(blocks[..|blocks| - 1]);
    }
  }

  /** The fit at the training points, in sorted-score order. */
  function Fitted(xs: seq<real>, ys: seq<real>): (m: seq<real>)
    requires |xs| <= |ys|
  {
    FitValues(Pava(xs, ys, |xs|))
  }

  /**
   * Main result: the fit is non-decreasing, and every non-decreasing z misses
   * the labels by at least as much as the fit, plus its distance to the fit.
   */
  lemma LeastSquares(xs: seq<real>, ys: seq<real>, z: seq<real>)
    requires |xs| == |ys| == |z| && NonDecreasing(z)
    ensures var m := Fitted(xs, ys);
            && |m| == |ys| && NonDecreasing(m)
            && SqDist(ys, z, 0, |ys|) >= SqDist(ys, m, 0, |ys|) + SqDist(m, z, 0, |ys|)
  {
    PavaPartitions(xs, ys, |xs|);
    FitValuesRise(Pava(xs, ys, |xs|));
    PartitionGap(Pava(xs, ys, |xs|), xs, ys, |xs|, z);
    GapIsDifference(ys, Fitted(xs, ys), z, 0, |ys|);
  }

  /** The fit is the only non-decreasing sequence with the least error. */
  lemma UniqueOptimum(xs: seq<real>, ys: seq<real>, z: seq<real>)
    requires |xs| == |ys| == |z| && NonDecreasing(z)
    ensures |Fitted(xs, ys)| == |ys|
    ensures SqDist(ys, z, 0, |ys|) <= SqDist(ys, Fitted(xs, ys), 0, |ys|) <==> z == Fitted(xs, ys)
  {
    LeastSquares(xs, ys, z);
    SqDistDefinite(Fitted(xs, ys), z, 0, |ys|);
  }

  // ------------------------------------------------ knots and the step function

  function Knots(blocks: seq<Block>): (r: seq<real>)
    ensures |r| == |blocks| && forall i :: 0 <= i < |r| ==> r[i] == blocks[i].meanX
  {
    seq(|blocks|, i requires 0 <= i < |blocks| => blocks[i].meanX)
  }

  function Levels(blocks: seq<Block>): (r: seq<real>)
    requires AllPositive(blocks)
    ensures |r| == |blocks| && forall i :: 0 <= i < |r| ==> r[i] == Mean(blocks[i])
  {
    seq(|blocks|, i requires 0 <= i < |blocks| => Mean(blocks[i]))
  }

  /** Each knot lies between the smallest and largest score of its block. */
  lemma KnotInside(b: Block, xs: seq<real>, ys: seq<real>, lo: nat, hi: nat)
    requires lo <= hi <= |xs| && hi <= |ys|
    requires Pools(b, xs, ys, lo, hi) && NonDecreasing(xs)
    ensures xs[lo] <= b.meanX <= xs[hi - 1]
  {
    SumBounds(xs, lo, hi, xs[lo], xs[hi - 1]);
    BetweenMultiples(xs[lo], b.meanX, xs[hi - 1], b.count);
  }

  lemma BetweenMultiples(low: real, v: real, high: real, n: nat)
    requires n >= 1 && Times(low, n) <= v * n as real <= Times(high, n)
    ensures low <= v <= high
  {
    TimesIsProduct(low, n);
    TimesIsProduct(high, n);
    MulCancel(low, v, n as real);
    MulCancel(v, high, n as real);
  }

  lemma {:induction false} KnotsRise(blocks: seq<Block>, xs: seq<real>, ys: seq<real>, n: nat)
    requires n <= |xs| && n <= |ys| && NonDecreasing(xs)
    requires AllPositive(blocks) && Partitions(blocks, xs, ys, n)
    ensures NonDecreasing(Knots(blocks))
    ensures forall i :: 0 <= i < |blocks| ==> n > 0 && xs[0] <= blocks[i].meanX <= xs[n - 1]
  {
    if blocks != [] {
      var init, b := blocks[..|blocks| - 1], blocks[|blocks| - 1];
      KnotsRise(init, xs, ys, n - b.count);
      KnotInside(b, xs, ys, n - b.count, n);
      assert forall i :: 0 <= i < |init| ==> init[i] == blocks[i];
      forall i | 0 <= i < |init|
        ensures blocks[i].meanX <= b.meanX
      {
        assert init[i].meanX <= xs[n - b.count - 1] <= xs[n - b.count];
      }
    }
  }

  lemma LevelBounded(b: Block, xs: seq<real>, ys: seq<real>, lo: nat, hi: nat, low: real, high: real)
    requires lo <= hi <= |xs| && hi <= |ys| && Pools(b, xs, ys, lo, hi)
    requires forall i :: lo <= i < hi ==> low <= ys[i] <= high
    ensures low <= Mean(b) <= high
  {
    SumBounds(ys, lo, hi, low, high);
    PooledSum(b, xs, ys, lo, hi);
    TimesOrder(low, Mean(b), hi - lo);
    TimesOrder(Mean(b), high, hi - lo);
  }

  lemma {:induction false} TimesOrder(a: real, b: real, n: nat)
    requires n > 0 && Times(a, n) <= Times(b, n)
    ensures a <= b
  {
    if b < a {
      TimesStrict(b, a, n);
    }
  }

  /** Labels inside an interval keep every block mean inside it. */
  lemma {:induction false} LevelsBounded(blocks: seq<Block>, xs: seq<real>, ys: seq<real>, n: nat, low: real, high: real)
    requires n <= |xs| && n <= |ys|
    requires AllPositive(blocks) && Partitions(blocks, xs, ys, n)
    requires forall i :: 0 <= i < n ==> low <= ys[i] <= high
    ensures forall i :: 0 <= i < |blocks| ==> low <= Mean(blocks[i]) <= high
  {
    if blocks != [] {
      var init, b := blocks[..|blocks| - 1], blocks[|blocks| - 1];
      LevelsBounded(init, xs, ys, n - b.count, low, high);
      LevelBounded(b, xs, ys, n - b.count, n, low, high);
      forall i | 0 <= i < |blocks|
        ensures low <= Mean(blocks[i]) <= high
      {
        if i < |init| {
          assert init[i] == blocks[i];
        }
      }
    }
  }

  /** Label sums and point counts are conserved by pooling. */
  function TotalY(blocks: seq<Block>): real {
    if blocks == [] then 0.0 else TotalY(blocks[..|blocks| - 1]) + blocks[|blocks| - 1].sumY
  }

  function TotalCount(blocks: seq<Block>): nat {
    if blocks == [] then 0 else TotalCount(blocks[..|blocks| - 1]) + blocks[|blocks| - 1].count
  }

  lemma {:induction false} Conservation(blocks: seq<Block>, xs: seq<real>, ys: seq<real>, n: nat)
    requires n <= |xs| && n <= |ys|
    requires Partitions(blocks, xs, ys, n)
    ensures TotalCount(blocks) == n && TotalY(blocks) == SumRange(ys, 0, n)
  {
    if blocks != [] {
      var b := blocks[|blocks| - 1];
      Conservation(blocks[..|blocks| - 1], xs, ys, n - b.count);
      SumSplit(ys, 0, n - b.count, n);
    }
  }

  function Clip01(v: real): real {
    if v < 0.0 then 0.0 else if v > 1.0 then 1.0 else v
  }

  /** Linear scan from the right for the last knot at or below s. */
  function LastKnotAtMost(x: seq<real>, s: real): (k: nat)
    requires |x| > 0 && x[0] <= s
    ensures k < |x| && x[k] <= s && forall j :: k < j < |x| ==> x[j] > s
  {
    if x[|x| - 1] <= s then |x| - 1 else LastKnotAtMost(x[..|x| - 1], s)
  }

  function PredictOne(x: seq<real>, y: seq<real>, s: real): real
    requires |x| == |y| > 0
  {
    Clip01(if s <= x[0] then y[0]
           else if s >= x[|x| - 1] then y[|y| - 1]
           else y[LastKnotAtMost(x, s)])
  }

  /** A calibrator whose knots and levels rise is a non-decreasing function of the score. */
  lemma PredictMonotone(x: seq<real>, y: seq<real>, s: real, t: real)
    requires |x| == |y| > 0 && NonDecreasing(x) && NonDecreasing(y) && s <= t
    ensures 0.0 <= PredictOne(x, y, s) <= PredictOne(x, y, t) <= 1.0
  {
    if x[0] < s && t < x[|x| - 1] {
      var i, j := LastKnotAtMost(x, s), LastKnotAtMost(x, t);
      assert i <= j;
    }
  }

  /**
   * The calibrated value never leaves the range of the levels around it: a
   * score between two adjacent knots gets the level of the left one.
   */
  lemma PredictBetweenKnots(x: seq<real>, y: seq<real>, s: real, k: nat)
    requires |x| == |y| && NonDecreasing(x) && NonDecreasing(y)
    requires 0 < k + 1 < |x| && x[k] <= s < x[k + 1] && x[0] < s
    ensures PredictOne(x, y, s) == Clip01(y[k])
  {
    var j := LastKnotAtMost(x, s);
    assert j <= k;
  }

  /** The knots at or below s. */
  ghost function KnotsAtMost(x: seq<real>, s: real): set<nat> {
    set j: nat | j < |x| && x[j] <= s
  }

  lemma {:induction false} RankOfScan(x: seq<real>, s: real)
    requires |x| > 0 && NonDecreasing(x) && x[0] <= s
    ensures |KnotsAtMost(x, s)| == LastKnotAtMost(x, s) + 1
  {
    var k := LastKnotAtMost(x, s);
    assert forall j :: 0 <= j < |x| ==> (x[j] <= s <==> j <= k);
    BelowSize(k + 1);
    assert KnotsAtMost(x, s) == Below(k + 1);
  }

  /**
   * Main result: the prediction for any score: with n knots at or below it, the
   * n-th level, and the first one up to the first knot; clipped to [0, 1].
   */
  lemma {:induction false} PredictionByRank(x: seq<real>, y: seq<real>, s: real)
    requires |x| == |y| > 0 && NonDecreasing(x)
    ensures var n := |KnotsAtMost(x, s)|;
            n <= |y| && PredictOne(x, y, s) == Min(1.0, Max(0.0, if s <= x[0] then y[0] else y[if n == 0 then 0 else n - 1]))
  {
    if x[0] <= s {
      RankOfScan(x, s);
    } else {
      assert KnotsAtMost(x, s) == {};
    }
  }

  // ---------------------------------------------- what a training score gets

  /** Where block k starts among the sorted points. */
  function Start(blocks: seq<Block>, k: nat): nat
    requires k <= |blocks|
  {
    if k == 0 then 0 else Start(blocks, k - 1) + blocks[k - 1].count
  }

  lemma {:induction false} StartOfPrefix(blocks: seq<Block>, m: nat, k: nat)
    requires k <= m <= |blocks|
    ensures Start(blocks[..m], k) == Start(blocks, k)
  {
    if k > 0 {
      StartOfPrefix(blocks, m, k - 1);
    }
  }

  /** Block k pools the points from its start to that of the next. */
  lemma {:induction false} BlockAt(blocks: seq<Block>, xs: seq<real>, ys: seq<real>, n: nat, k: nat)
    requires n <= |xs| && n <= |ys| && Partitions(blocks, xs, ys, n)
    ensures Start(blocks, |blocks|) == n
    ensures k < |blocks| ==>
              Start(blocks, k) <= Start(blocks, k + 1) <= n && Pools(blocks[k], xs, ys, Start(blocks, k), Start(blocks, k + 1))
  {
    if blocks != [] {
      var m, b := |blocks| - 1, blocks[|blocks| - 1];
      BlockAt(blocks[..m], xs, ys, n - b.count, k);
      StartOfPrefix(blocks, m, m);
      if k < m {
        StartOfPrefix(blocks, m, k);
        StartOfPrefix(blocks, m, k + 1);
      }
    }
  }

  /**
   * What a training score is calibrated to, k being the last block it occurs in:
   * the first level up to the first knot; beyond it the mean of block k if the
   * score is at or right of that block's knot, else that of the block before.
   */
  lemma {:induction false} TrainingPointLevel(xs: seq<real>, ys: seq<real>, blocks: seq<Block>, k: nat, i: nat)
    requires |xs| == |ys| && NonDecreasing(xs) && blocks == Pava(xs, ys, |xs|) && k < |blocks|
    requires Start(blocks, k) <= i < Start(blocks, k + 1) && i < |xs|
    requires forall j :: 0 <= j < |xs| && xs[j] == xs[i] ==> j < Start(blocks, k + 1)
    ensures PredictOne(Knots(blocks), Levels(blocks), xs[i])
         == Clip01(Levels(blocks)[if k == 0 || xs[i] <= Knots(blocks)[0] then 0 else if xs[i] >= Knots(blocks)[k] then k else k - 1])
  {
    PavaPartitions(xs, ys, |xs|);
    KnotsRise(blocks, xs, ys, |xs|);
    KnotsAround(xs, ys, blocks, k, i);
    OwnOrPrevious(Knots(blocks), Levels(blocks), xs[i], k);
  }

  lemma {:induction false} KnotsAround(xs: seq<real>, ys: seq<real>, blocks: seq<Block>, k: nat, i: nat)
    requires |xs| == |ys| && NonDecreasing(xs) && Partitions(blocks, xs, ys, |xs|) && k < |blocks|
    requires Start(blocks, k) <= i < Start(blocks, k + 1) && i < |xs|
    requires forall j :: 0 <= j < |xs| && xs[j] == xs[i] ==> j < Start(blocks, k + 1)
    ensures k > 0 ==> Knots(blocks)[k - 1] <= xs[i]
    ensures k + 1 < |blocks| ==> xs[i] < Knots(blocks)[k + 1]
  {
    var lo, hi := Start(blocks, k), Start(blocks, k + 1);
    if k > 0 {
      BlockAt(blocks, xs, ys, |xs|, k - 1);
      KnotInside(blocks[k - 1], xs, ys, Start(blocks, k - 1), lo);
      assert xs[lo - 1] <= xs[i];
    }
    if k + 1 < |blocks| {
      BlockAt(blocks, xs, ys, |xs|, k + 1);
      KnotInside(blocks[k + 1], xs, ys, hi, Start(blocks, k + 2));
      assert xs[hi] != xs[i] && xs[i] <= xs[hi];
    }
  }

  lemma {:induction false} OwnOrPrevious(x: seq<real>, y: seq<real>, s: real, k: nat)
    requires |x| == |y| && NonDecreasing(x) && k < |x|
    requires (k > 0 ==> x[k - 1] <= s) && (k + 1 < |x| ==> s < x[k + 1])
    ensures PredictOne(x, y, s) == Clip01(y[if k == 0 || s <= x[0] then 0 else if s >= x[k] then k else k - 1])
  {
    if x[0] < s < x[|x| - 1] {
      var j := LastKnotAtMost(x, s);
      assert j <= k && (s >= x[k] ==> j == k) && (k > 0 ==> j >= k - 1);
    }
  }

  /** The knots and levels that fitting produces. */
  ghost predicate Calibration(scores: seq<real>, labels: seq<real>, x: seq<real>, y: seq<real>)
    requires |scores| <= |labels|
  {
    var order := Argsort(scores);
    var blocks := Pava(Gather(scores, order), Gather(labels, order), |scores|);
    x == Knots(blocks) && y == Levels(blocks)
  }

  /** Pooling conserves the label sum and the number of points. */
  lemma PavaConserves(xs: seq<real>, ys: seq<real>)
    requires |xs| == |ys|
    ensures TotalCount(Pava(xs, ys, |xs|)) == |xs| && TotalY(Pava(xs, ys, |xs|)) == Sum(ys)
  {
    PavaPartitions(xs, ys, |xs|);
    Conservation(Pava(xs, ys, |xs|), xs, ys, |xs|);
  }

  /** A fit has rising levels and rising knots, none when there is no data. */
  lemma PavaShape(xs: seq<real>, ys: seq<real>, blocks: seq<Block>)
    requires |xs| == |ys| && NonDecreasing(xs) && blocks == Pava(xs, ys, |xs|)
    ensures |blocks| <= |xs| && (|blocks| == 0 <==> |xs| == 0)
    ensures NonDecreasing(Knots(blocks)) && NonDecreasing(Levels(blocks))
  {
    PavaPartitions(xs, ys, |xs|);
    KnotsRise(blocks, xs, ys, |xs|);
    StackNoLonger(blocks, xs, ys, |xs|);
    LevelsRise(blocks);
  }

  lemma LevelsRise(blocks: seq<Block>)
    requires AllPositive(blocks) && MeansRise(blocks)
    ensures NonDecreasing(Levels(blocks))
  {
  }

  /** Labels in [0,1] give levels in [0,1], where the final clip does nothing. */
  lemma LevelsAreProbabilities(xs: seq<real>, ys: seq<real>)
    requires |xs| == |ys|
    requires forall i :: 0 <= i < |ys| ==> 0.0 <= ys[i] <= 1.0
    ensures forall k :: 0 <= k < |Pava(xs, ys, |xs|)| ==>
              Clip01(Levels(Pava(xs, ys, |xs|))[k]) == Levels(Pava(xs, ys, |xs|))[k]
  {
    PavaPartitions(xs, ys, |xs|);
    LevelsBounded(Pava(xs, ys, |xs|), xs, ys, |xs|, 0.0, 1.0);
  }

  /** A calibration is as long as its data allows, and both rows rise. */
  lemma CalibrationShape(scores: seq<real>, labels: seq<real>, x: seq<real>, y: seq<real>)
    requires |scores| <= |labels| && Calibration(scores, labels, x, y)
    ensures |x| == |y| && |x| <= |scores| && (|x| == 0 <==> |scores| == 0)
    ensures NonDecreasing(x) && NonDecreasing(y)
  {
    var order := Argsort(scores);
    var xs, ys := Gather(scores, order), Gather(labels, order);
    PavaShape(xs, ys, Pava(xs, ys, |xs|));
  }

  /** Any stable sort of the scores leads to the same calibration. */
  lemma {:induction false} AnyStableSort(scores: seq<real>, labels: seq<real>, order: seq<nat>, x: seq<real>, y: seq<real>)
    requires |scores| <= |labels| && IsStableOrder(scores, order)
    ensures var blocks := Pava(Gather(scores, order), Gather(labels, order), |scores|);
            Calibration(scores, labels, x, y) <==> x == Knots(blocks) && y == Levels(blocks)
  {
    StableOrderUnique(scores, order, Argsort(scores), |scores|);
    assert order[..|scores|] == order && Argsort(scores)[..|scores|] == Argsort(scores);
  }

  /**
   * Permuting the data keeps knots and levels if points with equal scores have
   * equal labels; TiesDependOnOrder shows that it need not otherwise.
   */
  lemma {:induction false} PermutedDataSameFit(scores: seq<real>, labels: seq<real>, perm: seq<nat>, x: seq<real>, y: seq<real>)
    requires |scores| == |labels| && IsPermutation(perm, |scores|)
    requires forall i, j :: 0 <= i < |scores| && 0 <= j < |scores| && scores[i] == scores[j] ==> labels[i] == labels[j]
    ensures Calibration(Gather(scores, perm), Gather(labels, perm), x, y) <==> Calibration(scores, labels, x, y)
  {
    PermutedDataSameOrder(scores, labels, perm);
    SameSortedSameFit(scores, labels, Gather(scores, perm), Gather(labels, perm), x, y);
  }

  lemma {:induction false} SameSortedSameFit(scores: seq<real>, labels: seq<real>, scores': seq<real>, labels': seq<real>, x: seq<real>, y: seq<real>)
    requires |scores| == |labels| == |scores'| == |labels'|
    requires Gather(scores', Argsort(scores')) == Gather(scores, Argsort(scores))
    requires Gather(labels', Argsort(scores')) == Gather(labels, Argsort(scores))
    ensures Calibration(scores', labels', x, y) <==> Calibration(scores, labels, x, y)
  {
  }

  lemma {:induction false} PermutedDataSameOrder(scores: seq<real>, labels: seq<real>, perm: seq<nat>)
    requires |scores| == |labels| && IsPermutation(perm, |scores|)
    requires forall i, j :: 0 <= i < |scores| && 0 <= j < |scores| && scores[i] == scores[j] ==> labels[i] == labels[j]
    ensures var order, order' := Argsort(scores), Argsort(Gather(scores, perm));
            && Gather(Gather(scores, perm), order') == Gather(scores, order)
            && Gather(Gather(labels, perm), order') == Gather(labels, order)
  {
    var order' := Argsort(Gather(scores, perm));
    ComposedSorts(scores, perm);
    SortedDataAgree(scores, labels, Argsort(scores), Gather(perm, order'));
    GatherComposed(scores, perm, order');
    GatherComposed(labels, perm, order');
  }

  /** Orders that sort the scores read the same scores, and the same labels if ties agree. */
  lemma {:induction false} SortedDataAgree(scores: seq<real>, labels: seq<real>, a: seq<nat>, c: seq<nat>)
    requires |scores| == |labels| && Sorts(scores, a) && Sorts(scores, c)
    requires forall i, j :: 0 <= i < |scores| && 0 <= j < |scores| && scores[i] == scores[j] ==> labels[i] == labels[j]
    ensures Gather(scores, a) == Gather(scores, c) && Gather(labels, a) == Gather(labels, c)
  {
    forall k | 0 <= k < |scores|
      ensures scores[a[k]] == scores[c[k]] && labels[a[k]] == labels[c[k]]
    {
      SortedKeysAgree(scores, a, c, k);
    }
  }

  lemma {:induction false} ComposedSorts(scores: seq<real>, perm: seq<nat>)
    requires IsPermutation(perm, |scores|)
    ensures Sorts(scores, Argsort(scores)) && Sorts(scores, Gather(perm, Argsort(Gather(scores, perm))))
  {
  }

  lemma {:induction false} GatherComposed(v: seq<real>, perm: seq<nat>, order: seq<nat>)
    requires IsPermutation(perm, |v|) && IsPermutation(order, |v|)
    ensures Gather(Gather(v, perm), order) == Gather(v, Gather(perm, order))
  {
  }

  /** The same two points in the other order: two blocks at one knot, or one block. */
  lemma {:induction false} TiesDependOnOrder()
    ensures Calibration([0.5, 0.5], [0.0, 1.0], [0.5, 0.5], [0.0, 1.0])
    ensures Calibration([0.5, 0.5], [1.0, 0.0], [0.5], [0.5])
  {
    TiedApart(0.0, 1.0);
    TiedTogether(1.0, 0.0, 0.5);
  }

  lemma {:induction false} TiedApart(first: real, second: real)
    requires first <= second
    ensures Calibration([0.5, 0.5], [first, second], [0.5, 0.5], [first, second])
  {
    TwoApart(first, second);
    TiedFit(first, second, [0.5, 0.5], [first, second]);
  }

  lemma {:induction false} TiedTogether(first: real, second: real, mean: real)
    requires first > second && mean == (first + second) / 2.0
    ensures Calibration([0.5, 0.5], [first, second], [0.5], [mean])
  {
    TwoTogether(first, second, mean);
    TiedFit(first, second, [0.5], [mean]);
  }

  /** Tied points stay in their order. */
  lemma {:induction false} TiedFit(first: real, second: real, x: seq<real>, y: seq<real>)
    requires x == Knots(Pava([0.5, 0.5], [first, second], 2)) && y == Levels(Pava([0.5, 0.5], [first, second], 2))
    ensures Calibration([0.5, 0.5], [first, second], x, y)
  {
    TiedStaySorted(first, second);
    AnyStableSort([0.5, 0.5], [first, second], [0, 1], x, y);
  }

  lemma {:induction false} TiedStaySorted(first: real, second: real)
    ensures IsStableOrder([0.5, 0.5], [0, 1])
    ensures Gather([0.5, 0.5], [0, 1]) == [0.5, 0.5] && Gather([first, second], [0, 1]) == [first, second]
  {
  }

  lemma {:induction false} TwoPoints(first: real, second: real)
    ensures Pava([0.5, 0.5], [first, second], 2) == Settle([Block(first, 1, 0.5), Block(second, 1, 0.5)])
  {
    var xs, ys := [0.5, 0.5], [first, second];
    var p, c := Block(first, 1, 0.5), Block(second, 1, 0.5);
    SettleFew(p, c);
    assert Pava(xs, ys, 1) == [p] by {
      assert Pava(xs, ys, 0) + [p] == [p];
    }
    assert [p] + [c] == [p, c];
  }

  lemma {:induction false} TwoApart(first: real, second: real)
    requires first <= second
    ensures var blocks := Pava([0.5, 0.5], [first, second], 2); Knots(blocks) == [0.5, 0.5] && Levels(blocks) == [first, second]
  {
    var p, c := Block(first, 1, 0.5), Block(second, 1, 0.5);
    assert Pava([0.5, 0.5], [first, second], 2) == [p, c] by {
      TwoPoints(first, second);
      MergedPair(first, second);
      SettleFew(p, c);
    }
    assert Mean(p) == first && Mean(c) == second by {
      MergedPair(first, second);
    }
  }

  lemma {:induction false} TwoTogether(first: real, second: real, mean: real)
    requires first > second && mean == (first + second) / 2.0
    ensures var blocks := Pava([0.5, 0.5], [first, second], 2); Knots(blocks) == [0.5] && Levels(blocks) == [mean]
  {
    var p, c := Block(first, 1, 0.5), Block(second, 1, 0.5);
    assert Pava([0.5, 0.5], [first, second], 2) == [Merge(p, c)] by {
      TwoPoints(first, second);
      MergedPair(first, second);
      SettleFew(p, c);
    }
    assert Knots([Merge(p, c)]) == [0.5] && Levels([Merge(p, c)]) == [mean] by {
      MergedPair(first, second);
      OneBlock(Merge(p, c), 0.5, mean);
    }
  }

  lemma {:induction false} OneBlock(b: Block, x: real, level: real)
    requires b.count >= 1 && b.meanX == x && Mean(b) == level
    ensures Knots([b]) == [x] && Levels([b]) == [level]
  {
    assert |Knots([b])| == 1 && |Levels([b])| == 1;
  }

  lemma {:induction false} SettleFew(p: Block, c: Block)
    requires p.count >= 1 && c.count >= 1
    ensures Settle([p]) == [p]
    ensures Settle([p, c]) == if Mean(p) > Mean(c) then [Merge(p, c)] else [p, c]
  {
    assert [p, c][..0] + [Merge(p, c)] == [Merge(p, c)];
  }

  lemma {:induction false} MergedPair(first: real, second: real)
    ensures var p, c := Block(first, 1, 0.5), Block(second, 1, 0.5);
            Mean(p) == first && Mean(c) == second && Mean(Merge(p, c)) == (first + second) / 2.0 && Merge(p, c).meanX == 0.5
  {
  }

  function Apply(g: real -> real, xs: seq<real>): (z: seq<real>)
    ensures |z| == |xs| && forall i :: 0 <= i < |z| ==> z[i] == g(xs[i])
  {
    seq(|xs|, i requires 0 <= i < |xs| => g(xs[i]))
  }

  /** No non-decreasing rule from score to probability has less squared error. */
  lemma BeatsEveryMonotoneRule(scores: seq<real>, labels: seq<real>, g: real -> real)
    requires |scores| <= |labels|
    requires forall s, t :: s <= t ==> g(s) <= g(t)
    ensures var order := Argsort(scores);
            var xs, ys := Gather(scores, order), Gather(labels, order);
            && |Fitted(xs, ys)| == |xs|
            && SqDist(ys, Apply(g, xs), 0, |xs|) >= SqDist(ys, Fitted(xs, ys), 0, |xs|)
                                                     + SqDist(Fitted(xs, ys), Apply(g, xs), 0, |xs|)
  {
    var order := Argsort(scores);
    var xs, ys := Gather(scores, order), Gather(labels, order);
    LeastSquares(xs, ys, Apply(g, xs));
  }

  lemma {:induction false} StackNoLonger(blocks: seq<Block>, xs: seq<real>, ys: seq<real>, n: nat)
    requires n <= |xs| && n <= |ys| && Partitions(blocks, xs, ys, n)
    ensures |blocks| <= n && (blocks == [] <==> n == 0)
  {
    if blocks != [] {
      StackNoLonger(blocks[..|blocks| - 1], xs, ys, n - blocks[|blocks| - 1].count);
    }
  }

  // ------------------------------------------------------------ the class

  datatype Outcome<T> = Returned(value: T) | NotFitted | IndexError

  /** Binary search: the number of knots at or below s. */
  method SearchSortedRight(x: seq<real>, s: real) returns (r: nat)
    requires NonDecreasing(x)
    ensures r <= |x|
    ensures forall j :: 0 <= j < r ==> x[j] <= s
    ensures forall j :: r <= j < |x| ==> x[j] > s
  {
    var lo, hi := 0, |x|;
    while lo < hi
      invariant 0 <= lo <= hi <= |x|
      invariant forall j :: 0 <= j < lo ==> x[j] <= s
      invariant forall j :: hi <= j < |x| ==> x[j] > s
    {
      var mid := (lo + hi) / 2;
      if x[mid] <= s {
        lo := mid + 1;
      } else {
        hi := mid;
      }
    }
    r := lo;
  }

  /**
   * The pooling loop of fit: push one block per point, then pool the top pair
   * while it violates.  Every merge removes one block.
   */
  method PoolAdjacent(xs: seq<real>, ys: seq<real>) returns (blocks: seq<Block>, ghost merges: nat)
    requires |xs| == |ys|
    ensures blocks == Pava(xs, ys, |xs|)
    ensures merges + |blocks| == |xs|
  {
    blocks, merges := [], 0;
    for i := 0 to |xs|
      invariant blocks == Pava(xs, ys, i)
      invariant merges + |blocks| == i
    {
      blocks := blocks + [Block(ys[i], 1, xs[i])];
      while |blocks| >= 2 && Mean(blocks[|blocks| - 2]) > Mean(blocks[|blocks| - 1])
        invariant AllPositive(blocks) && Settle(blocks) == Pava(xs, ys, i + 1)
        invariant merges + |blocks| == i + 1
        decreases |blocks|
      {
        var k := |blocks|;
        var prev, curr := blocks[k - 2], blocks[k - 1];
        blocks := blocks[..k - 2] + [Merge(prev, curr)];
        merges := merges + 1;
      }
    }
  }

  lemma SearchIsScan(x: seq<real>, s: real, r: nat)
    requires 0 < |x| && r <= |x| && x[0] <= s
    requires forall j :: 0 <= j < r ==> x[j] <= s
    requires forall j :: r <= j < |x| ==> x[j] > s
    ensures r >= 1 && LastKnotAtMost(x, s) == r - 1
  {
    assert r != 0;
    var k := LastKnotAtMost(x, s);
    assert x[k] <= s && x[r - 1] <= s;
  }

  class IsotonicCalibrator {
    var knots: Option<seq<real>>
    var levels: Option<seq<real>>
    var isFitted: bool

    ghost predicate Valid()
      reads this
    {
      isFitted ==> && knots.Some? && levels.Some?
                   && |knots.value| == |levels.value|
                   && NonDecreasing(knots.value) && NonDecreasing(levels.value)
    }

    constructor ()
      ensures Valid() && !isFitted
    {
      knots, levels, isFitted := None, None, false;
    }

    /**
     * Fewer labels than scores is an index error that leaves the calibrator as
     * it was; labels beyond the scores are ignored.
     */
    method Fit(scores: seq<real>, labels: seq<real>) returns (ok: bool, ghost merges: nat)
      requires Valid()
      modifies this
      ensures Valid() && (ok <==> |scores| <= |labels|)
      ensures !ok ==> knots == old(knots) && levels == old(levels) && isFitted == old(isFitted)
      ensures ok ==> isFitted && Calibration(scores, labels, knots.value, levels.value)
      ensures ok ==> merges + |knots.value| == |scores|
    {
      ok, merges := |scores| <= |labels|, 0;
      if !ok {
        return;
      }
      var order := Argsort(scores);
      var blocks;
      blocks, merges := PoolAdjacent(Gather(scores, order), Gather(labels, order));
      knots, levels, isFitted := Some(Knots(blocks)), Some(Levels(blocks)), true;
      CalibrationShape(scores, labels, knots.value, levels.value);
    }

    method Predict(scores: seq<real>) returns (r: Outcome<seq<real>>)
      requires Valid()
      ensures !isFitted ==> r == NotFitted
      ensures isFitted && knots.value == [] && scores != [] ==> r == IndexError
      ensures isFitted && (knots.value != [] || scores == []) ==>
                && r.Returned? && |r.value| == |scores|
                && forall i :: 0 <= i < |scores| ==>
                     knots.value != [] && r.value[i] == PredictOne(knots.value, levels.value, scores[i])
    {
      if !isFitted || knots == None || levels == None {
        return NotFitted;
      }
      var x, y := knots.value, levels.value;
      if x == [] && scores != [] {
        return IndexError;
      }
      var result := new real[|scores|];
      for i := 0 to |scores|
        invariant forall j :: 0 <= j < i ==> x != [] && result[j] == PredictOne(x, y, scores[j])
      {
        var s := scores[i];
        if s <= x[0] {
          result[i] := Clip01(y[0]);
        } else if s >= x[|x| - 1] {
          result[i] := Clip01(y[|y| - 1]);
        } else {
          var k := SearchSortedRight(x, s);
          SearchIsScan(x, s, k);
          result[i] := Clip01(y[k - 1]);
        }
      }
      r := Returned(result[..]);
    }
  }
}
