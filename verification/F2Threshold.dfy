/**
 * The decision threshold with the best F2 score: a scan over the observed
 * scores is optimal over every real threshold.
 */
module F2Threshold {
  import opened IndexSets

  /** Cases counted by the three confusion sums at one threshold. */
  datatype Cell = TruePositive | FalsePositive | FalseNegative

  predicate Falls(truth: real, score: real, thresh: real, cell: Cell) {
    match cell
    case TruePositive => score >= thresh && truth == 1.0
    case FalsePositive => score >= thresh && truth == 0.0
    case FalseNegative => score < thresh && truth == 1.0
  }

  /** Cases of a cell among the first k. */
  function CountCell(y: seq<real>, s: seq<real>, thresh: real, cell: Cell, k: nat): nat
    requires |y| == |s| && k <= |y|
  {
    if k == 0 then 0
    else CountCell(y, s, thresh, cell, k - 1) + (if Falls(y[k - 1], s[k - 1], thresh, cell) then 1 else 0)
  }

  /** F2 from the three counts; 0 when there is nothing to count. */
  function FScore(tp: nat, fp: nat, fn: nat): real {
    var denom := 5 * tp + 4 * fn + fp;
    if denom > 0 then (5 * tp) as real / denom as real else 0.0
  }

  /** F2 of predicting failure at or above a threshold. */
  function F2(y: seq<real>, s: seq<real>, thresh: real): real
    requires |y| == |s|
  {
    FScore(CountCell(y, s, thresh, TruePositive, |y|),
           CountCell(y, s, thresh, FalsePositive, |y|),
           CountCell(y, s, thresh, FalseNegative, |y|))
  }

  ghost predicate Increasing(t: seq<real>) {
    forall i, j :: 0 <= i < j < |t| ==> t[i] < t[j]
  }

  /** The distinct scores in increasing order. */
  function Insert(t: seq<real>, v: real): (r: seq<real>)
    requires Increasing(t)
    ensures Increasing(r)
    ensures forall x :: x in r <==> x == v || x in t
  {
    if t == [] then [v]
    else if v < t[0] then [v] + t
    else if v == t[0] then t
    else
      var rest := Insert(t[1..], v);
      assert forall x :: x in t <==> x == t[0] || x in t[1..];
      assert forall i :: 0 <= i < |rest| ==> rest[i] in rest;
      [t[0]] + rest
  }

  function Unique(s: seq<real>): (t: seq<real>)
    ensures Increasing(t)
    ensures forall x :: x in t <==> x in s
  {
    if s == [] then [] else Insert(Unique(s[1..]), s[0])
  }

  /** The scan of the source: keep the first threshold that is strictly better. */
  method SelectF2Threshold(y: seq<real>, s: seq<real>) returns (best: real)
    requires |y| == |s|
    ensures s == [] ==> best == 0.5
    ensures s != [] ==> best in s
    ensures s != [] ==> forall t: real :: F2(y, s, t) <= F2(y, s, best)
    ensures forall t :: t in s && t < best ==> F2(y, s, t) < F2(y, s, best)
    ensures Separated(y, s) && 1.0 in y && (forall i :: 0 <= i < |y| ==> y[i] == 0.0 || y[i] == 1.0) ==>
              && (exists i :: 0 <= i < |y| && y[i] == 1.0 && s[i] == best)
              && (forall i :: 0 <= i < |y| && y[i] == 1.0 ==> s[i] >= best)
  {
    var thresholds := Unique(s);
    best := 0.5;
    var bestF2 := -1.0;
    for i := 0 to |thresholds|
      invariant i == 0 ==> best == 0.5 && bestF2 == -1.0
      invariant i > 0 ==> best in thresholds[..i] && bestF2 == F2(y, s, best)
      invariant forall j :: 0 <= j < i ==> F2(y, s, thresholds[j]) <= bestF2
      invariant forall j :: 0 <= j < i && thresholds[j] < best ==> F2(y, s, thresholds[j]) < bestF2
    {
      var f2 := F2(y, s, thresholds[i]);
      F2NonNegative(y, s, thresholds[i]);
      if f2 > bestF2 {
        bestF2 := f2;
        best := thresholds[i];
      }
    }
    if s != [] {
      assert s[0] in thresholds;
      forall t: real
        ensures F2(y, s, t) <= F2(y, s, best)
      {
        AnyThreshold(y, s, thresholds, t, best);
      }
      assert forall t :: t in s ==> t in thresholds;
      if Separated(y, s) && 1.0 in y && forall i :: 0 <= i < |y| ==> y[i] == 0.0 || y[i] == 1.0 {
        BestOfSeparated(y, s, best);
      }
    }
  }

  lemma F2NonNegative(y: seq<real>, s: seq<real>, t: real)
    requires |y| == |s|
    ensures F2(y, s, t) >= 0.0
  {
  }

  /** Every real threshold does no better than some observed score. */
  lemma AnyThreshold(y: seq<real>, s: seq<real>, thresholds: seq<real>, t: real, best: real)
    requires |y| == |s| && s != []
    requires Increasing(thresholds) && forall x :: x in thresholds <==> x in s
    requires forall j :: 0 <= j < |thresholds| ==> F2(y, s, thresholds[j]) <= F2(y, s, best)
    ensures F2(y, s, t) <= F2(y, s, best)
  {
    var k := FirstAtLeast(thresholds, t);
    if k == |thresholds| {
      forall i | 0 <= i < |s|
        ensures s[i] < t
      {
        var m := Position(s, thresholds, i);
      }
      NonePredicted(y, s, t);
      var m := Position(s, thresholds, 0);
      F2NonNegative(y, s, thresholds[m]);
    } else {
      forall i | 0 <= i < |s|
        ensures s[i] >= t <==> s[i] >= thresholds[k]
      {
        var m := Position(s, thresholds, i);
      }
      SameF2(y, s, t, thresholds[k]);
    }
  }

  lemma Position(s: seq<real>, thresholds: seq<real>, i: nat) returns (m: nat)
    requires forall x :: x in thresholds <==> x in s
    requires i < |s|
    ensures m < |thresholds| && thresholds[m] == s[i]
  {
    assert s[i] in s;
    m :| 0 <= m < |thresholds| && thresholds[m] == s[i];
  }

  lemma SameF2(y: seq<real>, s: seq<real>, t: real, t': real)
    requires |y| == |s|
    requires forall i :: 0 <= i < |s| ==> (s[i] >= t <==> s[i] >= t')
    ensures F2(y, s, t) == F2(y, s, t')
  {
    SamePredictions(y, s, t, t', TruePositive, |y|);
    SamePredictions(y, s, t, t', FalsePositive, |y|);
    SamePredictions(y, s, t, t', FalseNegative, |y|);
  }

  function FirstAtLeast(ts: seq<real>, t: real): (k: nat)
    ensures k <= |ts|
    ensures forall j :: 0 <= j < k ==> ts[j] < t
    ensures k < |ts| ==> ts[k] >= t
  {
    if ts == [] || ts[0] >= t then 0 else 1 + FirstAtLeast(ts[1..], t)
  }

  /** Thresholds that split the scores alike have equal confusion counts. */
  lemma {:induction false} SamePredictions(y: seq<real>, s: seq<real>, t: real, t': real, cell: Cell, k: nat)
    requires |y| == |s| && k <= |y|
    requires forall i :: 0 <= i < |s| ==> (s[i] >= t <==> s[i] >= t')
    ensures CountCell(y, s, t, cell, k) == CountCell(y, s, t', cell, k)
  {
    if k > 0 {
      SamePredictions(y, s, t, t', cell, k - 1);
    }
  }

  /** Above every score nothing is predicted positive, so F2 is 0. */
  lemma NonePredicted(y: seq<real>, s: seq<real>, t: real)
    requires |y| == |s|
    requires forall i :: 0 <= i < |s| ==> s[i] < t
    ensures F2(y, s, t) == 0.0
  {
    NoTruePositive(y, s, t, |y|);
  }

  lemma {:induction false} NoTruePositive(y: seq<real>, s: seq<real>, t: real, k: nat)
    requires |y| == |s| && k <= |y|
    requires forall i :: 0 <= i < |s| ==> s[i] < t
    ensures CountCell(y, s, t, TruePositive, k) == 0
  {
    if k > 0 {
      NoTruePositive(y, s, t, k - 1);
    }
  }

  // ------------------------------------------------------- what the counts are

  /** Failures predicted, others predicted, and failures missed, predicting at or above t. */
  ghost function Hits(y: seq<real>, s: seq<real>, t: real): set<nat>
    requires |y| == |s|
  {
    set i: nat | i < |y| && y[i] == 1.0 && s[i] >= t
  }

  ghost function FalseAlarms(y: seq<real>, s: seq<real>, t: real): set<nat>
    requires |y| == |s|
  {
    set i: nat | i < |y| && y[i] == 0.0 && s[i] >= t
  }

  ghost function Misses(y: seq<real>, s: seq<real>, t: real): set<nat>
    requires |y| == |s|
  {
    set i: nat | i < |y| && y[i] == 1.0 && s[i] < t
  }

  ghost function CellSet(y: seq<real>, s: seq<real>, t: real, cell: Cell, k: nat): set<nat>
    requires |y| == |s| && k <= |y|
  {
    set i: nat | i < k && Falls(y[i], s[i], t, cell)
  }

  lemma {:induction false} CountIsCardinality(y: seq<real>, s: seq<real>, t: real, cell: Cell, k: nat)
    requires |y| == |s| && k <= |y|
    ensures CountCell(y, s, t, cell, k) == |CellSet(y, s, t, cell, k)|
  {
    if k == 0 {
      assert CellSet(y, s, t, cell, 0) == {};
    } else {
      CountIsCardinality(y, s, t, cell, k - 1);
      Grows(CellSet(y, s, t, cell, k - 1), CellSet(y, s, t, cell, k), k - 1, Falls(y[k - 1], s[k - 1], t, cell));
    }
  }

  /** Main result: F2 = 5 tp / (5 tp + 4 fn + fp) of the sizes of the three sets; 0 without hits. */
  lemma {:induction false} F2IsOfSets(y: seq<real>, s: seq<real>, t: real)
    requires |y| == |s|
    ensures var tp, fp, fn := |Hits(y, s, t)|, |FalseAlarms(y, s, t)|, |Misses(y, s, t)|;
            F2(y, s, t) == if tp == 0 then 0.0 else (5 * tp) as real / (5 * tp + 4 * fn + fp) as real
  {
    CountIsCardinality(y, s, t, TruePositive, |y|);
    CountIsCardinality(y, s, t, FalsePositive, |y|);
    CountIsCardinality(y, s, t, FalseNegative, |y|);
    assert CellSet(y, s, t, TruePositive, |y|) == Hits(y, s, t);
    assert CellSet(y, s, t, FalsePositive, |y|) == FalseAlarms(y, s, t);
    assert CellSet(y, s, t, FalseNegative, |y|) == Misses(y, s, t);
  }

  /** A threshold that splits the classes, failures above, is perfect; no other one is. */
  lemma {:induction false} PerfectIffSplits(y: seq<real>, s: seq<real>, t: real)
    requires |y| == |s|
    ensures F2(y, s, t) <= 1.0
    ensures F2(y, s, t) == 1.0 <==> 1.0 in y && forall i :: 0 <= i < |y| ==> (y[i] == 1.0 ==> s[i] >= t) && (y[i] == 0.0 ==> s[i] < t)
  {
    var tp, fp, fn := |Hits(y, s, t)|, |FalseAlarms(y, s, t)|, |Misses(y, s, t)|;
    F2IsOfSets(y, s, t);
    PerfectScore(tp, fp, fn);
    if tp > 0 && fp == 0 && fn == 0 {
      var i :| i in Hits(y, s, t);
      assert y[i] in y;
      forall i: nat | i < |y| ensures (y[i] == 1.0 ==> s[i] >= t) && (y[i] == 0.0 ==> s[i] < t) {
        assert i !in FalseAlarms(y, s, t) && i !in Misses(y, s, t);
      }
    }
    if 1.0 in y && forall i :: 0 <= i < |y| ==> (y[i] == 1.0 ==> s[i] >= t) && (y[i] == 0.0 ==> s[i] < t) {
      var i: nat :| i < |y| && y[i] == 1.0;
      assert i in Hits(y, s, t) && FalseAlarms(y, s, t) == {} && Misses(y, s, t) == {};
    }
  }

  lemma {:induction false} PerfectScore(tp: nat, fp: nat, fn: nat)
    ensures tp > 0 ==> (5 * tp) as real / (5 * tp + 4 * fn + fp) as real <= 1.0
    ensures tp > 0 ==> ((5 * tp) as real / (5 * tp + 4 * fn + fp) as real == 1.0 <==> fp == 0 && fn == 0)
  {
  }

  /** Every failure scores higher than everything else. */
  ghost predicate Separated(y: seq<real>, s: seq<real>)
    requires |y| == |s|
  {
    forall i, j :: 0 <= i < |y| && 0 <= j < |y| && y[i] == 1.0 && y[j] == 0.0 ==> s[i] > s[j]
  }

  /**
   * On separated classes the choice, the smallest score with the best F2, is the
   * smallest score of a failure.
   */
  lemma {:induction false} BestOfSeparated(y: seq<real>, s: seq<real>, best: real)
    requires |y| == |s| && Separated(y, s) && 1.0 in y && forall i :: 0 <= i < |y| ==> y[i] == 0.0 || y[i] == 1.0
    requires best in s && (forall t: real :: F2(y, s, t) <= F2(y, s, best))
    requires forall t :: t in s && t < best ==> F2(y, s, t) < F2(y, s, best)
    ensures exists i :: 0 <= i < |y| && y[i] == 1.0 && s[i] == best
    ensures forall i :: 0 <= i < |y| && y[i] == 1.0 ==> s[i] >= best
  {
    var m := LowestFailure(y, s);
    PerfectIffSplits(y, s, s[m]);
    PerfectIffSplits(y, s, best);
    assert s[m] in s;
  }

  lemma {:induction false} LowestFailure(y: seq<real>, s: seq<real>) returns (m: nat)
    requires |y| == |s| && 1.0 in y
    ensures m < |y| && y[m] == 1.0 && forall i :: 0 <= i < |y| && y[i] == 1.0 ==> s[i] >= s[m]
  {
    var n := |y| - 1;
    if 1.0 in y[..n] {
      m := LowestFailure(y[..n], s[..n]);
      if y[n] == 1.0 && s[n] < s[m] {
        m := n;
      }
    } else {
      m := n;
    }
  }

  /** The counting formula is the F-measure with beta = 2. */
  lemma FScoreIsFMeasure(tp: nat, fp: nat, fn: nat)
    requires tp > 0
    ensures var precision, recall := tp as real / (tp + fp) as real, tp as real / (tp + fn) as real;
            4.0 * precision + recall > 0.0
            && FScore(tp, fp, fn) == 5.0 * precision * recall / (4.0 * precision + recall)
  {
    assert (5 * tp + 4 * fn + fp) as real == 4.0 * (tp + fn) as real + (tp + fp) as real;
    assert (5 * tp) as real == 5.0 * tp as real;
    FMeasureIdentity(tp as real, (tp + fp) as real, (tp + fn) as real);
  }

  lemma FMeasureIdentity(tp: real, a: real, b: real)
    requires tp > 0.0 && a > 0.0 && b > 0.0
    ensures 4.0 * (tp / a) + tp / b > 0.0
    ensures 5.0 * tp / (4.0 * b + a) == 5.0 * (tp / a) * (tp / b) / (4.0 * (tp / a) + tp / b)
  {
    var p, r := tp / a, tp / b;
    assert p * a == tp && r * b == tp;
    assert p > 0.0 && r > 0.0;
    assert 5.0 * p * r * (4.0 * b + a) == 20.0 * p * (r * b) + 5.0 * r * (p * a);
    assert 5.0 * tp * (4.0 * p + r) == 5.0 * p * r * (4.0 * b + a);
    CrossDivide(5.0 * tp, 4.0 * b + a, 5.0 * p * r, 4.0 * p + r);
  }

  lemma CrossDivide(a: real, b: real, c: real, d: real)
    requires b > 0.0 && d > 0.0 && a * d == c * b
    ensures a / b == c / d
  {
  }
}
