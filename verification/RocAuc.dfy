/**
 * ROC-AUC by the trapezoidal rule over cumulative counts, and its meaning as
 * the number of correctly ranked (positive, negative) pairs.
 */
module RocAuc {
  import opened RealSums
  import opened StableOrder
  import opened IndexSets

  // --------------------------------------------------------- the computation

  /** An order an unstable descending argsort may return: ties in any order. */
  ghost predicate IsDescendingOrder(scores: seq<real>, order: seq<nat>) {
    && IsPermutation(order, |scores|)
    && (forall a, b :: 0 <= a < b < |order| ==> scores[order[a]] >= scores[order[b]])
  }

  /** Number of labels equal to c among the first k: the cumulative counts. */
  function Count(labels: seq<bool>, c: bool, k: nat): nat
    requires k <= |labels|
  {
    if k == 0 then 0 else Count(labels, c, k - 1) + (if labels[k - 1] == c then 1 else 0)
  }

  /** One trapezoid between the points after t', f' and after t, f labels. */
  function Trapezoid(t: nat, t': nat, f: nat, f': nat, pos: nat, neg: nat): real
    requires pos > 0 && neg > 0
  {
    (f as real / neg as real - f' as real / neg as real)
    * (t as real / pos as real + t' as real / pos as real) / 2.0
  }

  /** Trapezoids between consecutive points, starting at the first point. */
  function Trapezoids(ranked: seq<bool>, pos: nat, neg: nat, k: nat): real
    requires k <= |ranked| && pos > 0 && neg > 0
  {
    if k <= 1 then 0.0
    else Trapezoids(ranked, pos, neg, k - 1)
         + Trapezoid(Count(ranked, true, k), Count(ranked, true, k - 1),
                     Count(ranked, false, k), Count(ranked, false, k - 1), pos, neg)
  }

  /** The returned value: one half when a class is missing, else clamped area. */
  function Auc(labels: seq<bool>, order: seq<nat>): real
    requires IsPermutation(order, |labels|)
  {
    var pos, neg := Count(labels, true, |labels|), Count(labels, false, |labels|);
    if pos == 0 || neg == 0 then 0.5
    else
      var area := Abs(Trapezoids(Gather(labels, order), pos, neg, |labels|));
      if area > 1.0 then 1.0 else area
  }

  // ------------------------------------------------------- counting by sets

  ghost function Members(labels: seq<bool>, c: bool, k: nat): set<nat>
    requires k <= |labels|
  {
    set i: nat | i < k && labels[i] == c
  }

  lemma {:induction false} CountIsCardinality(labels: seq<bool>, c: bool, k: nat)
    requires k <= |labels|
    ensures Count(labels, c, k) == |Members(labels, c, k)|
  {
    if k > 0 {
      CountIsCardinality(labels, c, k - 1);
      Grows(Members(labels, c, k - 1), Members(labels, c, k), k - 1, labels[k - 1] == c);
    } else {
      assert Members(labels, c, 0) == {};
    }
  }

  /** Renaming by an injective index map keeps the size of a set of pairs. */
  lemma {:induction false} PairImage(pairs: set<(nat, nat)>, image: set<(nat, nat)>, order: seq<nat>)
    requires forall p :: p in pairs ==> p.0 < |order| && p.1 < |order|
    requires forall j, k :: 0 <= j < k < |order| ==> order[j] != order[k]
    requires image == set p | p in pairs :: (order[p.0], order[p.1])
    ensures |image| == |pairs|
    decreases |pairs|
  {
    if pairs != {} {
      var p :| p in pairs;
      var rest := pairs - {p};
      var image' := set q | q in rest :: (order[q.0], order[q.1]);
      PairImage(rest, image', order);
      var moved := (order[p.0], order[p.1]);
      assert moved !in image';
      assert image == image' + {moved};
    }
  }

  // --------------------------------------------------- area counts the pairs

  /** Pairs ranked in the right order: a positive before a negative. */
  ghost function RankedPairs(ranked: seq<bool>, k: nat): set<(nat, nat)>
    requires k <= |ranked|
  {
    set a: nat, b: nat | a < b < k && ranked[a] && !ranked[b] :: (a, b)
  }

  lemma PairsNext(ranked: seq<bool>, k: nat)
    requires 0 < k <= |ranked|
    ensures |RankedPairs(ranked, k)| == |RankedPairs(ranked, k - 1)|
                                        + (if ranked[k - 1] then 0 else Count(ranked, true, k - 1))
  {
    if ranked[k - 1] {
      assert RankedPairs(ranked, k) == RankedPairs(ranked, k - 1);
    } else {
      var col := Column(Members(ranked, true, k - 1), k - 1);
      assert RankedPairs(ranked, k) == RankedPairs(ranked, k - 1) + col;
      assert RankedPairs(ranked, k - 1) !! col;
      ColumnSize(Members(ranked, true, k - 1), k - 1);
      CountIsCardinality(ranked, true, k - 1);
    }
  }

  /** Each negative adds the positives ranked above it. */
  function Tally(ranked: seq<bool>, k: nat): nat
    requires k <= |ranked|
  {
    if k == 0 then 0 else Tally(ranked, k - 1) + (if ranked[k - 1] then 0 else Count(ranked, true, k - 1))
  }

  lemma {:induction false} TallyCountsPairs(ranked: seq<bool>, k: nat)
    requires k <= |ranked|
    ensures |RankedPairs(ranked, k)| == Tally(ranked, k)
  {
    if k == 0 {
      assert RankedPairs(ranked, 0) == {};
    } else {
      TallyCountsPairs(ranked, k - 1);
      PairsNext(ranked, k);
    }
  }

  /** The area one correctly ranked pair contributes. */
  function PairArea(pos: nat, neg: nat): real
    requires pos > 0 && neg > 0
  {
    1.0 / (pos as real * neg as real)
  }

  /** A step over a positive adds no area; over a negative, one unit per positive above. */
  lemma StepArea(t: nat, t': nat, f: nat, f': nat, pos: nat, neg: nat)
    requires pos > 0 && neg > 0
    requires (t == t' && f == f' + 1) || f == f'
    ensures Trapezoid(t, t', f, f', pos, neg) == if f == f' then 0.0 else Times(PairArea(pos, neg), t)
  {
    if f == f' {
      assert f as real / neg as real - f' as real / neg as real == 0.0;
    } else {
      TimesIsProduct(PairArea(pos, neg), t);
      assert f as real == f' as real + 1.0;
      UnitStep(t as real, f' as real, pos as real, neg as real);
    }
  }

  lemma UnitStep(t: real, f: real, p: real, n: real)
    requires p > 0.0 && n > 0.0
    ensures ((f + 1.0) / n - f / n) * (t / p + t / p) / 2.0 == 1.0 / (p * n) * t
  {
    assert (f + 1.0) / n - f / n == 1.0 / n;
    assert (t / p + t / p) / 2.0 == t / p;
    assert 1.0 / n * (t / p) == t / (p * n);
  }

  lemma {:induction false} AreaIsTally(ranked: seq<bool>, pos: nat, neg: nat, k: nat)
    requires k <= |ranked| && pos > 0 && neg > 0
    ensures Trapezoids(ranked, pos, neg, k) == Times(PairArea(pos, neg), Tally(ranked, k))
    decreases k
  {
    if k > 0 {
      AreaIsTally(ranked, pos, neg, k - 1);
      StepArea(Count(ranked, true, k), Count(ranked, true, k - 1),
               Count(ranked, false, k), Count(ranked, false, k - 1), pos, neg);
      if !ranked[k - 1] {
        TimesAdds(PairArea(pos, neg), Tally(ranked, k - 1), Count(ranked, true, k - 1));
      }
    }
  }

  // ---------------------------------------------------------- main results

  /** Pairs in which the positive has the strictly larger score. */
  ghost function Wins(labels: seq<bool>, scores: seq<real>): set<(nat, nat)>
    requires |labels| == |scores|
  {
    set i: nat, j: nat | i < |labels| && j < |labels| && labels[i] && !labels[j] && scores[i] > scores[j] :: (i, j)
  }

  /** Pairs in which the positive has a score at least as large. */
  ghost function WinsOrTies(labels: seq<bool>, scores: seq<real>): set<(nat, nat)>
    requires |labels| == |scores|
  {
    set i: nat, j: nat | i < |labels| && j < |labels| && labels[i] && !labels[j] && scores[i] >= scores[j] :: (i, j)
  }

  ghost function AllPairs(labels: seq<bool>): set<(nat, nat)> {
    set i: nat, j: nat | i < |labels| && j < |labels| && labels[i] && !labels[j] :: (i, j)
  }

  lemma AllPairsSize(labels: seq<bool>)
    ensures |AllPairs(labels)| == Count(labels, true, |labels|) * Count(labels, false, |labels|)
  {
    var n := |labels|;
    CountIsCardinality(labels, true, n);
    CountIsCardinality(labels, false, n);
    var rows, cols := Members(labels, true, n), Members(labels, false, n);
    GridSize(rows, cols);
    assert Grid(rows, cols) == AllPairs(labels);
  }

  /** The pairs a descending order ranks correctly, in original indices. */
  ghost function RankedWell(labels: seq<bool>, order: seq<nat>): set<(nat, nat)>
    requires IsPermutation(order, |labels|)
  {
    set p | p in RankedPairs(Gather(labels, order), |labels|) :: (order[p.0], order[p.1])
  }

  lemma RankedBetweenWinsAndTies(labels: seq<bool>, scores: seq<real>, order: seq<nat>)
    requires |labels| == |scores| && IsDescendingOrder(scores, order)
    ensures Wins(labels, scores) <= RankedWell(labels, order) <= WinsOrTies(labels, scores)
  {
    forall p | p in Wins(labels, scores)
      ensures p in RankedWell(labels, order)
    {
      var a := Rank(order, p.0);
      var b := Rank(order, p.1);
      assert (a, b) in RankedPairs(Gather(labels, order), |labels|);
    }
  }

  /** Set sizes only: won pairs, well ranked pairs, pairs not lost, all pairs. */
  lemma PairCounts(labels: seq<bool>, scores: seq<real>, order: seq<nat>)
    requires |labels| == |scores| && IsDescendingOrder(scores, order)
    ensures |Wins(labels, scores)| <= |RankedWell(labels, order)| <= |WinsOrTies(labels, scores)| <= |AllPairs(labels)|
    ensures Untied(labels, scores) ==> |WinsOrTies(labels, scores)| == |Wins(labels, scores)|
  {
    RankedBetweenWinsAndTies(labels, scores, order);
    SubsetSize(Wins(labels, scores), RankedWell(labels, order));
    SubsetSize(RankedWell(labels, order), WinsOrTies(labels, scores));
    assert WinsOrTies(labels, scores) <= AllPairs(labels);
    SubsetSize(WinsOrTies(labels, scores), AllPairs(labels));
    if Untied(labels, scores) {
      assert WinsOrTies(labels, scores) == Wins(labels, scores);
    }
  }

  ghost predicate BothClasses(labels: seq<bool>) {
    Count(labels, true, |labels|) > 0 && Count(labels, false, |labels|) > 0
  }

  /** The unclamped area, with the class sizes as divisors. */
  function Area(labels: seq<bool>, order: seq<nat>): real
    requires IsPermutation(order, |labels|)
    requires Count(labels, true, |labels|) > 0 && Count(labels, false, |labels|) > 0
  {
    Trapezoids(Gather(labels, order), Count(labels, true, |labels|), Count(labels, false, |labels|), |labels|)
  }

  /** k out of n as a fraction. */
  function Share(k: nat, n: nat): real
    requires n > 0
  {
    k as real / n as real
  }

  lemma TimesIsShare(pos: nat, neg: nat, k: nat)
    requires pos > 0 && neg > 0
    ensures pos * neg > 0 && Times(PairArea(pos, neg), k) == Share(k, pos * neg)
  {
    TimesIsProduct(PairArea(pos, neg), k);
    assert (pos * neg) as real == pos as real * neg as real;
    MulPositive(pos as real, neg as real);
  }

  lemma ShareMonotone(j: nat, k: nat, n: nat)
    requires j <= k <= n && n > 0
    ensures 0.0 <= Share(j, n) <= Share(k, n) <= 1.0
  {
  }

  lemma {:induction false} ShareComplement(j: nat, k: nat, n: nat)
    requires j + k == n && n > 0
    ensures Share(j, n) == 1.0 - Share(k, n)
  {
    assert j as real + k as real == n as real;
    FractionsComplete(j as real, k as real, n as real);
  }

  lemma {:induction false} SumTimes(p: real, q: real, n: real)
    ensures (p + q) * n == p * n + q * n
  {
  }

  lemma {:induction false} FractionsComplete(a: real, b: real, n: real)
    requires n > 0.0 && a + b == n
    ensures a / n == 1.0 - b / n
  {
    var p, q := a / n, b / n;
    assert p * n == a && q * n == b;
    SumTimes(p, q, n);
    MulCancel(p + q, 1.0, n);
    MulCancel(1.0, p + q, n);
  }

  /** The area is the share of all pairs that the order ranks well. */
  lemma AreaIsRankedShare(labels: seq<bool>, order: seq<nat>)
    requires IsPermutation(order, |labels|) && BothClasses(labels)
    ensures |AllPairs(labels)| > 0
    ensures Area(labels, order) == Share(|RankedWell(labels, order)|, |AllPairs(labels)|)
  {
    var pos, neg := Count(labels, true, |labels|), Count(labels, false, |labels|);
    var ranked := Gather(labels, order);
    AreaIsTally(ranked, pos, neg, |labels|);
    TallyCountsPairs(ranked, |labels|);
    PairImage(RankedPairs(ranked, |labels|), RankedWell(labels, order), order);
    AllPairsSize(labels);
    TimesIsShare(pos, neg, |RankedWell(labels, order)|);
  }

  /** The absolute value and the clamp never change the area. */
  lemma ClampIsIdle(labels: seq<bool>, scores: seq<real>, order: seq<nat>)
    requires |labels| == |scores| && IsDescendingOrder(scores, order) && BothClasses(labels)
    ensures 0.0 <= Area(labels, order) <= 1.0 && Auc(labels, order) == Area(labels, order)
  {
    AreaIsRankedShare(labels, order);
    PairCounts(labels, scores, order);
    ShareMonotone(0, |RankedWell(labels, order)|, |AllPairs(labels)|);
  }

  /**
   * With both classes present, and whatever the order of ties, AUC lies between
   * the share of strictly won pairs and the share of pairs not lost; without
   * ties across classes it is exactly the share of won pairs.
   */
  lemma AucIsShareOfWins(labels: seq<bool>, scores: seq<real>, order: seq<nat>)
    requires |labels| == |scores| && IsDescendingOrder(scores, order) && BothClasses(labels)
    ensures var n := |AllPairs(labels)|;
            && n == Count(labels, true, |labels|) * Count(labels, false, |labels|) && n > 0
            && Share(|Wins(labels, scores)|, n) <= Auc(labels, order) <= Share(|WinsOrTies(labels, scores)|, n)
            && (Untied(labels, scores) ==> Auc(labels, order) == Share(|Wins(labels, scores)|, n))
  {
    ClampIsIdle(labels, scores, order);
    AreaIsRankedShare(labels, order);
    PairCounts(labels, scores, order);
    AllPairsSize(labels);
    ShareMonotone(|Wins(labels, scores)|, |RankedWell(labels, order)|, |AllPairs(labels)|);
    ShareMonotone(|RankedWell(labels, order)|, |WinsOrTies(labels, scores)|, |AllPairs(labels)|);
  }

  /** No positive has the same score as a negative. */
  ghost predicate Untied(labels: seq<bool>, scores: seq<real>)
    requires |labels| == |scores|
  {
    forall i, j :: 0 <= i < |labels| && 0 <= j < |labels| && labels[i] && !labels[j] ==> scores[i] != scores[j]
  }

  /** A strictly increasing rescaling of untied scores keeps the AUC. */
  lemma AucInvariant(labels: seq<bool>, s: seq<real>, t: seq<real>, order: seq<nat>, order': seq<nat>)
    requires |labels| == |s| == |t| && Untied(labels, s)
    requires forall i, j :: 0 <= i < |s| && 0 <= j < |s| ==> (s[i] < s[j] <==> t[i] < t[j])
    requires IsDescendingOrder(s, order) && IsDescendingOrder(t, order')
    ensures Auc(labels, order) == Auc(labels, order')
  {
    if BothClasses(labels) {
      AucIsShareOfWins(labels, s, order);
      AucIsShareOfWins(labels, t, order');
      SameWins(labels, s, t);
    }
  }

  lemma SameWins(labels: seq<bool>, s: seq<real>, t: seq<real>)
    requires |labels| == |s| == |t| && Untied(labels, s)
    requires forall i, j :: 0 <= i < |s| && 0 <= j < |s| ==> (s[i] < s[j] <==> t[i] < t[j])
    ensures |Wins(labels, s)| == |Wins(labels, t)| && Untied(labels, t)
  {
    assert Wins(labels, s) == Wins(labels, t);
  }

  /** Negating untied scores turns AUC into 1 - AUC (a lone class stays at 1/2). */
  lemma AucNegated(labels: seq<bool>, s: seq<real>, t: seq<real>, order: seq<nat>, order': seq<nat>)
    requires |labels| == |s| == |t| && Untied(labels, s)
    requires forall i :: 0 <= i < |s| ==> t[i] == -s[i]
    requires IsDescendingOrder(s, order) && IsDescendingOrder(t, order')
    ensures Auc(labels, order') == 1.0 - Auc(labels, order)
  {
    if BothClasses(labels) {
      AucIsShareOfWins(labels, s, order);
      AucIsShareOfWins(labels, t, order');
      OppositeWins(labels, s, t);
      ShareComplement(|Wins(labels, t)|, |Wins(labels, s)|, |AllPairs(labels)|);
    }
  }

  lemma OppositeWins(labels: seq<bool>, s: seq<real>, t: seq<real>)
    requires |labels| == |s| == |t| && Untied(labels, s)
    requires forall i :: 0 <= i < |s| ==> t[i] == -s[i]
    ensures |Wins(labels, s)| + |Wins(labels, t)| == |AllPairs(labels)| && Untied(labels, t)
  {
    assert Wins(labels, s) + Wins(labels, t) == AllPairs(labels);
    assert Wins(labels, s) !! Wins(labels, t);
  }
}
