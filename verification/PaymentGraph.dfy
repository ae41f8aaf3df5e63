/**
 * The incremental payment graph: one edge object enters four indexes and the
 * running totals, and is scored with a prior that feeds on earlier scores.
 */
module PaymentGraph {
  import opened RealSums
  import opened IndexSets

  const SMOOTHING_K: nat := 5
  const DEPENDENCY_PRIOR_DEFAULT: real := 0.10

  /** A bank identifier code. */
  datatype Bic = Bic(code: string)

  /** What never changes about a payment. */
  datatype Payment = Payment(uetr: string, sender: Bic, receiver: Bic, amount: real,
                             currencyPair: string, timestamp: real)

  /** A payment in the graph, with the score and count written when it entered. */
  datatype PaymentEdge = PaymentEdge(p: Payment, dependencyScore: real, observationCount: nat)

  // ------------------------------------------------------- scores, purely

  /** Payments to r among the first k, and their volume. */
  function InCount(ps: seq<Payment>, k: nat, r: Bic): nat
    requires k <= |ps|
  {
    if k == 0 then 0 else InCount(ps, k - 1, r) + (if ps[k - 1].receiver == r then 1 else 0)
  }

  function InVolume(ps: seq<Payment>, k: nat, r: Bic): real
    requires k <= |ps|
  {
    if k == 0 then 0.0 else InVolume(ps, k - 1, r) + (if ps[k - 1].receiver == r then ps[k - 1].amount else 0.0)
  }

  /** No payment leaves its receiver's running volume at zero. */
  ghost predicate Scorable(ps: seq<Payment>) {
    forall k {:trigger ps[k]} :: 0 <= k < |ps| ==> InVolume(ps, k + 1, ps[k].receiver) != 0.0
  }

  function Raw(ps: seq<Payment>, k: nat): real
    requires k < |ps| && Scorable(ps)
  {
    ps[k].amount / InVolume(ps, k + 1, ps[k].receiver)
  }

  function Smooth(n: nat, raw: real, prior: real): real {
    (n as real * raw + SMOOTHING_K as real * prior) / (n + SMOOTHING_K) as real
  }

  /** Mean score of the first k payments, the default when there is none. */
  function Prior(ps: seq<Payment>, k: nat): real
    requires k <= |ps| && Scorable(ps)
    decreases k, 1
  {
    if k == 0 then DEPENDENCY_PRIOR_DEFAULT else ScoreSum(ps, k) / k as real
  }

  function ScoreSum(ps: seq<Payment>, k: nat): real
    requires k <= |ps| && Scorable(ps)
    decreases k, 0
  {
    if k == 0 then 0.0 else ScoreSum(ps, k - 1) + Score(ps, k - 1)
  }

  /** The dependency score of payment k, given the payments before it. */
  function Score(ps: seq<Payment>, k: nat): real
    requires k < |ps| && Scorable(ps)
    decreases k, 2
  {
    Smooth(InCount(ps, k, ps[k].receiver), Raw(ps, k), Prior(ps, k))
  }

  ghost predicate PositiveAmounts(ps: seq<Payment>) {
    forall k :: 0 <= k < |ps| ==> ps[k].amount > 0.0
  }

  lemma {:induction false} VolumePositive(ps: seq<Payment>, k: nat, r: Bic)
    requires k <= |ps| && PositiveAmounts(ps)
    ensures InVolume(ps, k, r) >= 0.0
    ensures InCount(ps, k, r) > 0 <==> InVolume(ps, k, r) > 0.0
  {
    if k > 0 {
      VolumePositive(ps, k - 1, r);
    }
  }

  /** Positive amounts never divide by zero. */
  lemma {:induction false} PositiveIsScorable(ps: seq<Payment>)
    requires PositiveAmounts(ps)
    ensures Scorable(ps)
  {
    forall k {:trigger ps[k]} | 0 <= k < |ps|
      ensures InVolume(ps, k + 1, ps[k].receiver) != 0.0
    {
      VolumePositive(ps, k, ps[k].receiver);
    }
  }

  /** A raw ratio is a share of the volume: all of it only for a first payment. */
  lemma {:induction false} RawIsShare(ps: seq<Payment>, k: nat)
    requires k < |ps| && Scorable(ps) && PositiveAmounts(ps)
    ensures 0.0 < Raw(ps, k) <= 1.0
    ensures InCount(ps, k, ps[k].receiver) > 0 ==> Raw(ps, k) < 1.0
  {
    var r := ps[k].receiver;
    VolumePositive(ps, k, r);
    RatioBounds(ps[k].amount, InVolume(ps, k, r));
  }

  lemma {:induction false} RatioBounds(a: real, v: real)
    requires a > 0.0 && v >= 0.0
    ensures 0.0 < a / (v + a) <= 1.0 && (v > 0.0 ==> a / (v + a) < 1.0)
  {
    var q := a / (v + a);
    assert q * (v + a) == a;
    if q <= 0.0 {
      MulNonNegative(-q, v + a);
    } else if q >= 1.0 {
      MulNonNegative(q - 1.0, v + a);
    }
  }

  lemma {:induction false} SmoothInside(n: nat, raw: real, prior: real)
    requires 0.0 < raw <= 1.0 && 0.0 < prior < 1.0 && (n > 0 ==> raw < 1.0)
    ensures 0.0 < Smooth(n, raw, prior) < 1.0
  {
    var w, s := n as real, Smooth(n, raw, prior);
    assert (n + SMOOTHING_K) as real == w + 5.0;
    assert s * (w + 5.0) == w * raw + 5.0 * prior;
    MulNonNegative(w, raw);
    MulNonNegative(w, 1.0 - raw);
    assert 0.0 < s * (w + 5.0) < w + 5.0;
    if s <= 0.0 {
      MulNonNegative(-s, w + 5.0);
    } else if s >= 1.0 {
      MulNonNegative(s - 1.0, w + 5.0);
    }
  }

  /**
   * Main result: with positive amounts every score and every prior stays
   * strictly between 0 and 1, although each prior is the mean of earlier scores.
   */
  lemma {:induction false} ScoresStayInside(ps: seq<Payment>, k: nat)
    requires k <= |ps| && Scorable(ps) && PositiveAmounts(ps)
    ensures forall j :: 0 <= j < k ==> 0.0 < Score(ps, j) < 1.0
    ensures 0.0 < Prior(ps, k) < 1.0
    ensures k > 0 ==> 0.0 < ScoreSum(ps, k) < k as real
  {
    if k > 0 {
      ScoresStayInside(ps, k - 1);
      RawIsShare(ps, k - 1);
      SmoothInside(InCount(ps, k - 1, ps[k - 1].receiver), Raw(ps, k - 1), Prior(ps, k - 1));
      assert 0.0 < Score(ps, k - 1) < 1.0;
      assert ScoreSum(ps, k) == ScoreSum(ps, k - 1) + Score(ps, k - 1);
      MeanInside(ScoreSum(ps, k), k);
    }
  }

  lemma {:induction false} MeanInside(sum: real, k: nat)
    requires k > 0 && 0.0 < sum < k as real
    ensures 0.0 < sum / k as real < 1.0
  {
    RatioBounds(sum, k as real - sum);
  }

  /** A receiver's first payment is scored with the prior alone. */
  lemma {:induction false} FirstPaymentScoresPrior(ps: seq<Payment>, k: nat)
    requires k < |ps| && Scorable(ps) && InCount(ps, k, ps[k].receiver) == 0
    ensures Score(ps, k) == Prior(ps, k)
  {
  }

  /** With n earlier payments the smoothed score is within 5/(n+5) of the raw ratio. */
  lemma {:induction false} SmoothingFades(ps: seq<Payment>, k: nat)
    requires k < |ps| && Scorable(ps) && PositiveAmounts(ps)
    ensures var n := InCount(ps, k, ps[k].receiver);
            Abs(Score(ps, k) - Raw(ps, k)) < SMOOTHING_K as real / (n + SMOOTHING_K) as real
  {
    ScoresStayInside(ps, k);
    RawIsShare(ps, k);
    SmoothDistance(InCount(ps, k, ps[k].receiver), Raw(ps, k), Prior(ps, k));
  }

  lemma {:induction false} SmoothDistance(n: nat, raw: real, prior: real)
    requires 0.0 < raw <= 1.0 && 0.0 < prior < 1.0
    ensures Abs(Smooth(n, raw, prior) - raw) < SMOOTHING_K as real / (n + SMOOTHING_K) as real
  {
    var w := n as real + 5.0;
    var d, u := Smooth(n, raw, prior) - raw, 5.0 / w;
    assert (n + SMOOTHING_K) as real == w;
    assert d * w == 5.0 * (prior - raw);
    assert u * w == 5.0;
    if d >= u {
      MulMonotone(u, d, w);
    } else if -d >= u {
      MulMonotone(u, -d, w);
    }
  }

  // ------------------------------------------------------- what a score is made of

  /** Earlier payments to the receiver of payment k. */
  ghost function Earlier(ps: seq<Payment>, k: nat): set<nat>
    requires k < |ps|
  {
    set i: nat | i < k && ps[i].receiver == ps[k].receiver
  }

  ghost function PaymentsTo(ps: seq<Payment>, k: nat, r: Bic): set<nat>
    requires k <= |ps|
  {
    set i: nat | i < k && ps[i].receiver == r
  }

  lemma {:induction false} InCountIsCardinality(ps: seq<Payment>, k: nat, r: Bic)
    requires k <= |ps|
    ensures InCount(ps, k, r) == |PaymentsTo(ps, k, r)|
  {
    if k == 0 {
      assert PaymentsTo(ps, 0, r) == {};
    } else {
      InCountIsCardinality(ps, k - 1, r);
      Grows(PaymentsTo(ps, k - 1, r), PaymentsTo(ps, k, r), k - 1, ps[k - 1].receiver == r);
    }
  }

  /** The amounts of the payments to r, and zero for every other payment. */
  function AmountsTo(ps: seq<Payment>, r: Bic): (a: seq<real>)
    ensures |a| == |ps| && forall i :: 0 <= i < |a| ==> a[i] == if ps[i].receiver == r then ps[i].amount else 0.0
  {
    seq(|ps|, i requires 0 <= i < |ps| => if ps[i].receiver == r then ps[i].amount else 0.0)
  }

  lemma {:induction false} InVolumeIsSum(ps: seq<Payment>, k: nat, r: Bic)
    requires k <= |ps|
    ensures InVolume(ps, k, r) == SumRange(AmountsTo(ps, r), 0, k)
  {
    if k > 0 {
      InVolumeIsSum(ps, k - 1, r);
    }
  }

  lemma {:induction false} ScoreSumIsSum(ps: seq<Payment>, k: nat)
    requires k <= |ps| && Scorable(ps)
    ensures ScoreSum(ps, k) == SumRange(Scores(ps), 0, k)
  {
    if k > 0 {
      ScoreSumIsSum(ps, k - 1);
    }
  }

  lemma {:induction false} SmoothWeighs(n: nat, raw: real, prior: real)
    ensures (n as real + 5.0) * Smooth(n, raw, prior) == n as real * raw + 5.0 * prior
  {
    assert (n + SMOOTHING_K) as real == n as real + 5.0;
  }

  lemma {:induction false} ScoreIsSmooth(ps: seq<Payment>, k: nat)
    requires k < |ps| && Scorable(ps)
    ensures Score(ps, k) == Smooth(|Earlier(ps, k)|, Raw(ps, k), Prior(ps, k))
  {
    InCountIsCardinality(ps, k, ps[k].receiver);
    assert PaymentsTo(ps, k, ps[k].receiver) == Earlier(ps, k);
  }

  /**
   * Main result: a score weighs the payment's share of its receiver's volume,
   * once for every earlier payment to it, against a prior that counts five times.
   */
  lemma {:induction false} ScoreWeighs(ps: seq<Payment>, k: nat)
    requires k < |ps| && Scorable(ps)
    ensures (|Earlier(ps, k)| as real + 5.0) * Score(ps, k) == |Earlier(ps, k)| as real * Raw(ps, k) + 5.0 * Prior(ps, k)
  {
    ScoreIsSmooth(ps, k);
    SmoothWeighs(|Earlier(ps, k)|, Raw(ps, k), Prior(ps, k));
  }

  /** The share is taken of all amounts to the receiver so far, this one included. */
  lemma {:induction false} ShareOfVolume(ps: seq<Payment>, k: nat)
    requires k < |ps| && Scorable(ps)
    ensures Raw(ps, k) * SumRange(AmountsTo(ps, ps[k].receiver), 0, k + 1) == ps[k].amount
  {
    InVolumeIsSum(ps, k + 1, ps[k].receiver);
    assert InVolume(ps, k + 1, ps[k].receiver) != 0.0;
  }

  /** The prior is 0.10 at first, and then the mean of all scores before. */
  lemma {:induction false} PriorIsMean(ps: seq<Payment>, k: nat)
    requires k <= |ps| && Scorable(ps)
    ensures if k == 0 then Prior(ps, k) == 0.10 else Prior(ps, k) * k as real == SumRange(Scores(ps), 0, k)
  {
    ScoreSumIsSum(ps, k);
  }

  // ------------------------------------------------------------- the class

  type Index = map<Bic, seq<PaymentEdge>>

  function Get<T>(m: map<Bic, seq<T>>, k: Bic): seq<T> {
    if k in m then m[k] else []
  }

  function Nested(m: map<Bic, Index>, s: Bic, r: Bic): seq<PaymentEdge> {
    if s in m then Get(m[s], r) else []
  }

  /** Edges from s, to r, and from s to r, in order of arrival. */
  function Sent(es: seq<PaymentEdge>, s: Bic): (x: seq<PaymentEdge>)
    ensures forall i :: 0 <= i < |x| ==> x[i] in es && x[i].p.sender == s
  {
    if es == [] then []
    else if es[|es| - 1].p.sender == s then Sent(es[..|es| - 1], s) + [es[|es| - 1]]
    else Sent(es[..|es| - 1], s)
  }

  function Received(es: seq<PaymentEdge>, r: Bic): (x: seq<PaymentEdge>)
    ensures forall i :: 0 <= i < |x| ==> x[i] in es && x[i].p.receiver == r
  {
    if es == [] then []
    else if es[|es| - 1].p.receiver == r then Received(es[..|es| - 1], r) + [es[|es| - 1]]
    else Received(es[..|es| - 1], r)
  }

  function Payments(es: seq<PaymentEdge>): (ps: seq<Payment>)
    ensures |ps| == |es| && forall i :: 0 <= i < |ps| ==> ps[i] == es[i].p
  {
    seq(|es|, i requires 0 <= i < |es| => es[i].p)
  }

  function Append(m: Index, k: Bic, e: PaymentEdge): Index {
    m[k := Get(m, k) + [e]]
  }

  /** The rows that entering the edges one by one builds up. */
  function OutIndex(es: seq<PaymentEdge>): Index {
    if es == [] then map[]
    else Append(OutIndex(es[..|es| - 1]), es[|es| - 1].p.sender, es[|es| - 1])
  }

  function InIndex(es: seq<PaymentEdge>): Index {
    if es == [] then map[]
    else Append(InIndex(es[..|es| - 1]), es[|es| - 1].p.receiver, es[|es| - 1])
  }

  function Row(m: map<Bic, Index>, s: Bic): Index {
    if s in m then m[s] else map[]
  }

  function Corridors(es: seq<PaymentEdge>): map<Bic, Index> {
    if es == [] then map[]
    else
      var m, e := Corridors(es[..|es| - 1]), es[|es| - 1];
      m[e.p.sender := Append(Row(m, e.p.sender), e.p.receiver, e)]
  }

  function VolumeIndex(ps: seq<Payment>): map<Bic, real> {
    if ps == [] then map[]
    else
      var m, p := VolumeIndex(ps[..|ps| - 1]), ps[|ps| - 1];
      m[p.receiver := VolumeOf(m, p.receiver) + p.amount]
  }

  function Touch(m: map<Bic, real>, bic: Bic, t: real): map<Bic, real> {
    m[bic := if bic in m && m[bic] < t then m[bic] else t]
  }

  function FirstSeen(ps: seq<Payment>): map<Bic, real> {
    if ps == [] then map[]
    else
      var p := ps[|ps| - 1];
      Touch(Touch(FirstSeen(ps[..|ps| - 1]), p.sender, p.timestamp), p.receiver, p.timestamp)
  }

  function Scores(ps: seq<Payment>): (x: seq<real>)
    requires Scorable(ps)
    ensures |x| == |ps| && forall i :: 0 <= i < |x| ==> x[i] == Score(ps, i)
  {
    seq(|ps|, i requires 0 <= i < |ps| => Score(ps, i))
  }

  function Counts(ps: seq<Payment>): (x: seq<nat>)
    ensures |x| == |ps| && forall i :: 0 <= i < |x| ==> x[i] == InCount(ps, i, ps[i].receiver)
  {
    seq(|ps|, i requires 0 <= i < |ps| => InCount(ps, i, ps[i].receiver))
  }

  /** Every edge carries the score and count of its position. */
  ghost predicate Carry(es: seq<PaymentEdge>, scores: seq<real>, counts: seq<nat>) {
    && |es| == |scores| == |counts|
    && forall i :: 0 <= i < |es| ==> es[i].dependencyScore == scores[i] && es[i].observationCount == counts[i]
  }

  /** The fields of a builder at one moment. */
  datatype Graph = Graph(
    outEdges: Index, inEdges: Index, adjacency: map<Bic, Index>,
    firstSeen: map<Bic, real>, maxTimestamp: real, inVolumes: map<Bic, real>,
    allEdges: seq<PaymentEdge>, depScoreSum: real, depScoreCount: nat)

  /** All indexes and totals are those of allEdges, and every edge carries its score. */
  ghost predicate Sound(g: Graph) {
    Indexed(g) && ScoresKept(g.allEdges, g.depScoreSum, g.depScoreCount)
  }

  ghost predicate Indexed(g: Graph) {
    && g.outEdges == OutIndex(g.allEdges) && g.inEdges == InIndex(g.allEdges)
    && g.adjacency == Corridors(g.allEdges)
    && g.inVolumes == VolumeIndex(Payments(g.allEdges)) && g.firstSeen == FirstSeen(Payments(g.allEdges))
  }

  ghost predicate ScoresKept(es: seq<PaymentEdge>, sum: real, count: nat) {
    var ps := Payments(es);
    && Scorable(ps)
    && count == |ps| && sum == ScoreSum(ps, |ps|)
    && Carry(es, Scores(ps), Counts(ps))
  }

  /** The amounts received by r so far, where r may be new to the graph. */
  function VolumeOf(m: map<Bic, real>, r: Bic): real {
    if r in m then m[r] else 0.0
  }

  /** A payment scored from its receiver's history and the running totals. */
  function ScoredEdge(p: Payment, n: nat, volume: real, scoreSum: real, scoreCount: nat): PaymentEdge
    requires volume != 0.0
  {
    var raw := p.amount / volume;
    var prior := if scoreCount == 0 then DEPENDENCY_PRIOR_DEFAULT else scoreSum / scoreCount as real;
    PaymentEdge(p, Smooth(n, raw, prior), n)
  }

  function NextEdge(g: Graph, p: Payment): PaymentEdge
    requires VolumeOf(g.inVolumes, p.receiver) + p.amount != 0.0
  {
    ScoredEdge(p, |Get(g.inEdges, p.receiver)|, VolumeOf(g.inVolumes, p.receiver) + p.amount,
               g.depScoreSum, g.depScoreCount)
  }

  /** The graph with one more edge: first the totals of its payment, then the scored edge in every row. */
  function Enter(g: Graph, e: PaymentEdge): Graph {
    Rowed(Totalled(g, e.p), e)
  }

  function Totalled(g: Graph, p: Payment): Graph {
    g.(firstSeen := Touch(Touch(g.firstSeen, p.sender, p.timestamp), p.receiver, p.timestamp),
       maxTimestamp := if p.timestamp > g.maxTimestamp then p.timestamp else g.maxTimestamp,
       inVolumes := g.inVolumes[p.receiver := VolumeOf(g.inVolumes, p.receiver) + p.amount])
  }

  function Rowed(g: Graph, e: PaymentEdge): Graph {
    g.(outEdges := Append(g.outEdges, e.p.sender, e), inEdges := Append(g.inEdges, e.p.receiver, e),
       adjacency := g.adjacency[e.p.sender := Append(Row(g.adjacency, e.p.sender), e.p.receiver, e)],
       allEdges := g.allEdges + [e],
       depScoreSum := g.depScoreSum + e.dependencyScore, depScoreCount := g.depScoreCount + 1)
  }

  function NewGraph(now: real): Graph {
    Graph(map[], map[], map[], map[], now, map[], [], 0.0, 0)
  }

  class BICGraphBuilder {
    var outEdges: Index
    var inEdges: Index
    var adjacency: map<Bic, Index>
    var firstSeen: map<Bic, real>
    var maxTimestamp: real
    var inVolumes: map<Bic, real>
    var allEdges: seq<PaymentEdge>
    var depScoreSum: real
    var depScoreCount: nat

    function View(): Graph
      reads this
    {
      Graph(outEdges, inEdges, adjacency, firstSeen, maxTimestamp, inVolumes, allEdges, depScoreSum, depScoreCount)
    }

    constructor (now: real)
      ensures View() == NewGraph(now)
    {
      outEdges, inEdges, adjacency, firstSeen := map[], map[], map[], map[];
      maxTimestamp, inVolumes, allEdges := now, map[], [];
      depScoreSum, depScoreCount := 0.0, 0;
    }

    /**
     * The payment must not leave its receiver's volume at zero, where the
     * source divides by zero.
     */
    method AddPayment(p: Payment)
      requires VolumeOf(inVolumes, p.receiver) + p.amount != 0.0
      modifies this
      ensures View() == Enter(old(View()), NextEdge(old(View()), p))
    {
      var n := |Get(inEdges, p.receiver)|;
      AddTotals(p);
      var e := ScoredEdge(p, n, inVolumes[p.receiver], depScoreSum, depScoreCount);
      assert e == NextEdge(old(View()), p);
      AddToRows(e);
    }

    /** Timestamps, first appearances and the receiver's volume. */
    method AddTotals(p: Payment)
      modifies this
      ensures View() == Totalled(old(View()), p)
    {
      if p.timestamp > maxTimestamp {
        maxTimestamp := p.timestamp;
      }
      firstSeen := Touch(firstSeen, p.sender, p.timestamp);
      firstSeen := Touch(firstSeen, p.receiver, p.timestamp);
      inVolumes := inVolumes[p.receiver := VolumeOf(inVolumes, p.receiver) + p.amount];
    }

    /** The scored edge enters every row, the list and the running totals. */
    method AddToRows(e: PaymentEdge)
      modifies this
      ensures View() == Rowed(old(View()), e)
    {
      depScoreSum := depScoreSum + e.dependencyScore;
      depScoreCount := depScoreCount + 1;
      outEdges := Append(outEdges, e.p.sender, e);
      inEdges := Append(inEdges, e.p.receiver, e);
      adjacency := adjacency[e.p.sender := Append(Row(adjacency, e.p.sender), e.p.receiver, e)];
      allEdges := allEdges + [e];
    }
  }

  // ----------------------------------------------------- adding keeps it sound

  lemma {:induction false} EnterIsSound(g: Graph, p: Payment)
    requires Sound(g) && VolumeOf(g.inVolumes, p.receiver) + p.amount != 0.0
    ensures Sound(Enter(g, NextEdge(g, p)))
    ensures Payments(Enter(g, NextEdge(g, p)).allEdges) == Payments(g.allEdges) + [p]
  {
    EnterIndexed(g, NextEdge(g, p));
    EnterKeepsScores(g, p);
    PaymentsExtended(g.allEdges, NextEdge(g, p));
  }

  lemma {:induction false} PaymentsExtended(es: seq<PaymentEdge>, e: PaymentEdge)
    ensures Payments(es + [e]) == Payments(es) + [e.p]
  {
  }

  lemma {:induction false} EnterKeepsScores(g: Graph, p: Payment)
    requires Sound(g) && VolumeOf(g.inVolumes, p.receiver) + p.amount != 0.0
    ensures var e := NextEdge(g, p);
            ScoresKept(g.allEdges + [e], g.depScoreSum + e.dependencyScore, g.depScoreCount + 1)
  {
    NextEdgeIsScored(g, p);
    EnterScored(g.allEdges, g.depScoreSum, g.depScoreCount, NextEdge(g, p));
  }

  lemma {:induction false} EnterIndexed(g: Graph, e: PaymentEdge)
    requires Indexed(g)
    ensures Indexed(Enter(g, e))
  {
    EnterRows(g, e);
    EnterCorridors(g, e);
    EnterTotals(g, e);
  }

  lemma {:induction false} EnterRows(g: Graph, e: PaymentEdge)
    requires g.outEdges == OutIndex(g.allEdges) && g.inEdges == InIndex(g.allEdges)
    ensures Enter(g, e).outEdges == OutIndex(g.allEdges + [e]) && Enter(g, e).inEdges == InIndex(g.allEdges + [e])
  {
    RowsExtended(g.allEdges, e);
  }

  lemma {:induction false} EnterCorridors(g: Graph, e: PaymentEdge)
    requires g.adjacency == Corridors(g.allEdges)
    ensures Enter(g, e).adjacency == Corridors(g.allEdges + [e])
  {
    CorridorsExtended(g.allEdges, e);
  }

  lemma {:induction false} EnterTotals(g: Graph, e: PaymentEdge)
    requires g.inVolumes == VolumeIndex(Payments(g.allEdges)) && g.firstSeen == FirstSeen(Payments(g.allEdges))
    ensures Enter(g, e).inVolumes == VolumeIndex(Payments(g.allEdges + [e]))
    ensures Enter(g, e).firstSeen == FirstSeen(Payments(g.allEdges + [e]))
  {
    PaymentsExtended(g.allEdges, e);
    TotalsExtended(Payments(g.allEdges), e.p);
  }

  lemma {:induction false} NextEdgeIsScored(g: Graph, p: Payment)
    requires Sound(g) && VolumeOf(g.inVolumes, p.receiver) + p.amount != 0.0
    ensures var ps := Payments(g.allEdges);
            && Scorable(ps + [p])
            && NextEdge(g, p).dependencyScore == Score(ps + [p], |ps|)
            && NextEdge(g, p).observationCount == InCount(ps, |ps|, p.receiver)
  {
    var ps := Payments(g.allEdges);
    IncomingBefore(g.allEdges, p.receiver);
    ScorableExtended(ps, p);
    LastScore(ps, p);
  }

  lemma {:induction false} EnterScored(es: seq<PaymentEdge>, sum: real, count: nat, e: PaymentEdge)
    requires ScoresKept(es, sum, count) && Scorable(Payments(es) + [e.p])
    requires e.dependencyScore == Score(Payments(es) + [e.p], |es|)
    requires e.observationCount == InCount(Payments(es), |es|, e.p.receiver)
    ensures ScoresKept(es + [e], sum + e.dependencyScore, count + 1)
  {
    var ps, ps' := Payments(es), Payments(es + [e]);
    assert ps' == ps + [e.p];
    assert sum + e.dependencyScore == ScoreSum(ps', |ps'|) by {
      ScoresExtended(ps, e.p);
    }
    assert Carry(es + [e], Scores(ps'), Counts(ps')) by {
      ScoresExtended(ps, e.p);
      CountsExtended(ps, e.p);
      CarryExtended(es, Scores(ps), Counts(ps), e);
    }
    KeepIntro(es + [e], sum + e.dependencyScore, count + 1, ps');
  }

  lemma {:induction false} KeepIntro(es: seq<PaymentEdge>, sum: real, count: nat, ps: seq<Payment>)
    requires ps == Payments(es) && Scorable(ps)
    requires count == |ps| && sum == ScoreSum(ps, |ps|)
    requires Carry(es, Scores(ps), Counts(ps))
    ensures ScoresKept(es, sum, count)
  {
  }

  lemma {:induction false} CarryExtended(es: seq<PaymentEdge>, scores: seq<real>, counts: seq<nat>, e: PaymentEdge)
    requires Carry(es, scores, counts)
    ensures Carry(es + [e], scores + [e.dependencyScore], counts + [e.observationCount])
  {
  }

  lemma {:induction false} ScoresExtended(ps: seq<Payment>, p: Payment)
    requires Scorable(ps) && Scorable(ps + [p])
    ensures Scores(ps + [p]) == Scores(ps) + [Score(ps + [p], |ps|)]
    ensures ScoreSum(ps + [p], |ps| + 1) == ScoreSum(ps, |ps|) + Score(ps + [p], |ps|)
  {
    PrefixScores(ps, ps + [p], |ps|);
  }

  lemma {:induction false} CountsExtended(ps: seq<Payment>, p: Payment)
    ensures Counts(ps + [p]) == Counts(ps) + [InCount(ps, |ps|, p.receiver)]
  {
    var ps' := ps + [p];
    var x, y := Counts(ps'), Counts(ps) + [InCount(ps, |ps|, p.receiver)];
    forall i | 0 <= i < |ps'|
      ensures x[i] == y[i]
    {
      PrefixTotals(ps, ps', i, ps'[i].receiver);
      assert x[i] == InCount(ps', i, ps'[i].receiver);
    }
  }

  /**
   * Main result: entering any payments one by one, from an empty graph, gives a
   * graph whose indexes, totals and scores are exactly those of the payments.
   */
  function Built(now: real, ps: seq<Payment>): (g: Graph)
    requires Scorable(ps)
    ensures Sound(g) && Payments(g.allEdges) == ps && g.maxTimestamp == Latest(now, ps)
    decreases |ps|
  {
    if ps == [] then NewGraph(now)
    else
      var init, p := ps[..|ps| - 1], ps[|ps| - 1];
      InitScorable(ps);
      var g := Built(now, init);
      LastVolume(ps);
      EnterIsSound(g, p);
      assert ps == init + [p];
      Enter(g, NextEdge(g, p))
  }

  /** The time the graph is up to: its creation, or the latest payment after it. */
  ghost predicate IsLatest(t: real, now: real, ps: seq<Payment>) {
    && t >= now && (forall i :: 0 <= i < |ps| ==> t >= ps[i].timestamp)
    && (t == now || exists i :: 0 <= i < |ps| && t == ps[i].timestamp)
  }

  function Latest(now: real, ps: seq<Payment>): real {
    if ps == [] then now
    else
      var t, p := Latest(now, ps[..|ps| - 1]), ps[|ps| - 1];
      if p.timestamp > t then p.timestamp else t
  }

  lemma {:induction false} LatestIsLatest(now: real, ps: seq<Payment>)
    ensures IsLatest(Latest(now, ps), now, ps)
  {
    if ps != [] {
      var init := ps[..|ps| - 1];
      LatestIsLatest(now, init);
      LaterPayment(Latest(now, init), now, init, ps[|ps| - 1]);
      assert ps == init + [ps[|ps| - 1]];
    }
  }

  /** A built graph is up to the latest of its payments. */
  lemma {:induction false} BuiltUpTo(now: real, ps: seq<Payment>)
    requires Scorable(ps)
    ensures IsLatest(Built(now, ps).maxTimestamp, now, ps)
  {
    LatestIsLatest(now, ps);
  }

  lemma {:induction false} LaterPayment(t: real, now: real, ps: seq<Payment>, p: Payment)
    requires IsLatest(t, now, ps)
    ensures IsLatest(if p.timestamp > t then p.timestamp else t, now, ps + [p])
  {
    assert (ps + [p])[|ps|] == p;
    if t != now {
      var i :| 0 <= i < |ps| && t == ps[i].timestamp;
      assert (ps + [p])[i] == ps[i];
    }
  }

  lemma {:induction false} LastVolume(ps: seq<Payment>)
    requires ps != [] && Scorable(ps)
    ensures var init, p := ps[..|ps| - 1], ps[|ps| - 1];
            VolumeOf(VolumeIndex(init), p.receiver) + p.amount != 0.0
  {
    var init, p := ps[..|ps| - 1], ps[|ps| - 1];
    VolumeIndexIsVolume(init, p.receiver);
    PrefixTotals(init, ps, |init|, p.receiver);
    assert InVolume(ps, |init| + 1, ps[|init|].receiver) != 0.0;
  }

  lemma {:induction false} InitScorable(ps: seq<Payment>)
    requires ps != [] && Scorable(ps)
    ensures Scorable(ps[..|ps| - 1])
  {
    var init := ps[..|ps| - 1];
    forall k {:trigger init[k]} | 0 <= k < |init|
      ensures InVolume(init, k + 1, init[k].receiver) != 0.0
    {
      PrefixTotals(init, ps, k + 1, init[k].receiver);
      assert ps[k] == init[k];
    }
  }

  // ------------------------------------------------- the indexes describe the edges

  lemma {:induction false} IncomingBefore(es: seq<PaymentEdge>, r: Bic)
    ensures |Get(InIndex(es), r)| == InCount(Payments(es), |es|, r)
    ensures VolumeOf(VolumeIndex(Payments(es)), r) == InVolume(Payments(es), |es|, r)
  {
    InIndexIsReceived(es, r);
    ReceivedCount(es, r);
    VolumeIndexIsVolume(Payments(es), r);
  }

  lemma {:induction false} RowsExtended(es: seq<PaymentEdge>, e: PaymentEdge)
    ensures OutIndex(es + [e]) == Append(OutIndex(es), e.p.sender, e)
    ensures InIndex(es + [e]) == Append(InIndex(es), e.p.receiver, e)
  {
    assert (es + [e])[..|es|] == es;
  }

  lemma {:induction false} CorridorsExtended(es: seq<PaymentEdge>, e: PaymentEdge)
    ensures Corridors(es + [e]) == Corridors(es)[e.p.sender := Append(Row(Corridors(es), e.p.sender), e.p.receiver, e)]
  {
    assert (es + [e])[..|es|] == es;
  }

  lemma {:induction false} TotalsExtended(ps: seq<Payment>, p: Payment)
    ensures VolumeIndex(ps + [p]) == VolumeIndex(ps)[p.receiver := VolumeOf(VolumeIndex(ps), p.receiver) + p.amount]
    ensures FirstSeen(ps + [p]) == Touch(Touch(FirstSeen(ps), p.sender, p.timestamp), p.receiver, p.timestamp)
  {
    assert (ps + [p])[..|ps|] == ps;
  }

  lemma {:induction false} InIndexIsReceived(es: seq<PaymentEdge>, r: Bic)
    ensures Get(InIndex(es), r) == Received(es, r)
    ensures r in InIndex(es) ==> InIndex(es)[r] != []
  {
    if es != [] {
      InIndexIsReceived(es[..|es| - 1], r);
    }
  }

  lemma {:induction false} OutIndexIsSent(es: seq<PaymentEdge>, s: Bic)
    ensures Get(OutIndex(es), s) == Sent(es, s)
    ensures s in OutIndex(es) ==> OutIndex(es)[s] != []
  {
    if es != [] {
      OutIndexIsSent(es[..|es| - 1], s);
    }
  }

  lemma {:induction false} CorridorIsSentReceived(es: seq<PaymentEdge>, s: Bic, r: Bic)
    ensures Nested(Corridors(es), s, r) == Received(Sent(es, s), r)
    ensures s in Corridors(es) && r in Corridors(es)[s] ==> Corridors(es)[s][r] != []
  {
    if es != [] {
      var init, e := es[..|es| - 1], es[|es| - 1];
      CorridorIsSentReceived(init, s, r);
      assert (Sent(init, s) + [e])[..|Sent(init, s)|] == Sent(init, s);
    }
  }

  /** A corridor's row can be read off its sender's row or its receiver's. */
  lemma {:induction false} SentReceivedCommute(es: seq<PaymentEdge>, s: Bic, r: Bic)
    ensures Received(Sent(es, s), r) == Sent(Received(es, r), s)
  {
    if es != [] {
      var init, e := es[..|es| - 1], es[|es| - 1];
      SentReceivedCommute(init, s, r);
      assert (Sent(init, s) + [e])[..|Sent(init, s)|] == Sent(init, s);
      assert (Received(init, r) + [e])[..|Received(init, r)|] == Received(init, r);
    }
  }

  lemma {:induction false} VolumeIndexIsVolume(ps: seq<Payment>, r: Bic)
    ensures VolumeOf(VolumeIndex(ps), r) == InVolume(ps, |ps|, r)
  {
    if ps != [] {
      VolumeIndexIsVolume(ps[..|ps| - 1], r);
      PrefixTotals(ps[..|ps| - 1], ps, |ps| - 1, r);
    }
  }

  /** A bank is first seen at the earliest of its payments, in either role. */
  lemma {:induction false} FirstSeenIsEarliest(ps: seq<Payment>, bic: Bic)
    ensures bic in FirstSeen(ps) <==> exists i :: 0 <= i < |ps| && (ps[i].sender == bic || ps[i].receiver == bic)
    ensures bic in FirstSeen(ps) ==>
              && (exists i :: 0 <= i < |ps| && (ps[i].sender == bic || ps[i].receiver == bic)
                              && ps[i].timestamp == FirstSeen(ps)[bic])
              && (forall i :: 0 <= i < |ps| && (ps[i].sender == bic || ps[i].receiver == bic) ==>
                    FirstSeen(ps)[bic] <= ps[i].timestamp)
  {
    if ps != [] {
      var init, p := ps[..|ps| - 1], ps[|ps| - 1];
      FirstSeenIsEarliest(init, bic);
      assert ps[|ps| - 1] == p && forall i :: 0 <= i < |init| ==> ps[i] == init[i];
    }
  }

  /** Every index holds every edge exactly as often as the list of all edges. */
  lemma {:induction false} IndexesHoldSameEdges(es: seq<PaymentEdge>, e: PaymentEdge)
    ensures multiset(es)[e] == multiset(Get(OutIndex(es), e.p.sender))[e]
                            == multiset(Get(InIndex(es), e.p.receiver))[e]
                            == multiset(Nested(Corridors(es), e.p.sender, e.p.receiver))[e]
  {
    OutIndexIsSent(es, e.p.sender);
    InIndexIsReceived(es, e.p.receiver);
    CorridorIsSentReceived(es, e.p.sender, e.p.receiver);
    SentKeepsCopies(es, e);
    ReceivedKeepsCopies(es, e);
    ReceivedKeepsCopies(Sent(es, e.p.sender), e);
  }

  /** Rows keep the order of arrival: what a row held before any later edge is where it starts. */
  lemma {:induction false} RowsOnlyGrow(es: seq<PaymentEdge>, k: nat, b: Bic)
    requires k <= |es|
    ensures Sent(es[..k], b) <= Sent(es, b) && Received(es[..k], b) <= Received(es, b)
  {
    if k == |es| {
      assert es[..k] == es;
    } else {
      RowsOnlyGrow(es[..|es| - 1], k, b);
      assert es[..|es| - 1][..k] == es[..k];
    }
  }

  lemma {:induction false} SentKeepsCopies(es: seq<PaymentEdge>, e: PaymentEdge)
    ensures multiset(Sent(es, e.p.sender))[e] == multiset(es)[e]
  {
    if es != [] {
      SentKeepsCopies(es[..|es| - 1], e);
      assert es == es[..|es| - 1] + [es[|es| - 1]];
    }
  }

  lemma {:induction false} ReceivedKeepsCopies(es: seq<PaymentEdge>, e: PaymentEdge)
    ensures multiset(Received(es, e.p.receiver))[e] == multiset(es)[e]
  {
    if es != [] {
      ReceivedKeepsCopies(es[..|es| - 1], e);
      assert es == es[..|es| - 1] + [es[|es| - 1]];
    }
  }

  /** Scores and totals of a prefix do not depend on what follows it. */
  lemma {:induction false} PrefixTotals(ps: seq<Payment>, ps': seq<Payment>, k: nat, r: Bic)
    requires k <= |ps| && ps <= ps'
    ensures InCount(ps', k, r) == InCount(ps, k, r) && InVolume(ps', k, r) == InVolume(ps, k, r)
  {
    if k > 0 {
      PrefixTotals(ps, ps', k - 1, r);
    }
  }

  lemma {:induction false} PrefixScores(ps: seq<Payment>, ps': seq<Payment>, k: nat)
    requires k <= |ps| && ps <= ps' && Scorable(ps) && Scorable(ps')
    ensures ScoreSum(ps', k) == ScoreSum(ps, k) && Prior(ps', k) == Prior(ps, k)
    ensures forall i :: 0 <= i < k ==> Score(ps', i) == Score(ps, i)
  {
    if k > 0 {
      PrefixScores(ps, ps', k - 1);
      PrefixTotals(ps, ps', k - 1, ps[k - 1].receiver);
      PrefixTotals(ps, ps', k, ps[k - 1].receiver);
    }
  }

  lemma {:induction false} ScorableExtended(ps: seq<Payment>, p: Payment)
    requires Scorable(ps) && InVolume(ps, |ps|, p.receiver) + p.amount != 0.0
    ensures Scorable(ps + [p])
  {
    var ps' := ps + [p];
    forall k {:trigger ps'[k]} | 0 <= k < |ps'|
      ensures InVolume(ps', k + 1, ps'[k].receiver) != 0.0
    {
      if k < |ps| {
        PrefixTotals(ps, ps', k + 1, ps[k].receiver);
        assert ps[k] == ps'[k];
      } else {
        PrefixTotals(ps, ps', k, p.receiver);
      }
    }
  }

  lemma {:induction false} LastScore(ps: seq<Payment>, p: Payment)
    requires Scorable(ps) && Scorable(ps + [p])
    requires InVolume(ps, |ps|, p.receiver) + p.amount != 0.0
    ensures Score(ps + [p], |ps|)
         == Smooth(InCount(ps, |ps|, p.receiver), p.amount / (InVolume(ps, |ps|, p.receiver) + p.amount), Prior(ps, |ps|))
  {
    var ps' := ps + [p];
    PrefixScores(ps, ps', |ps|);
    PrefixTotals(ps, ps', |ps|, p.receiver);
    assert ps'[|ps|] == p;
    assert InVolume(ps', |ps| + 1, p.receiver) == InVolume(ps', |ps|, p.receiver) + p.amount;
  }

  lemma {:induction false} ReceivedCount(es: seq<PaymentEdge>, r: Bic)
    ensures |Received(es, r)| == InCount(Payments(es), |es|, r)
  {
    if es != [] {
      var init := es[..|es| - 1];
      ReceivedCount(init, r);
      PrefixTotals(Payments(init), Payments(es), |init|, r);
    }
  }
}
