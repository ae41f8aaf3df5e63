/** Currency concentration of a bank's outgoing payments. */
module CurrencyHhi {
  import opened RealSums
  import opened Dictionaries
  import opened IndexSets

  /** Copies of x among the first k elements. */
  function CountOf<T(==)>(xs: seq<T>, k: nat, x: T): nat
    requires k <= |xs|
  {
    if k == 0 then 0 else CountOf(xs, k - 1, x) + (if xs[k - 1] == x then 1 else 0)
  }

  /** Sum of the squared shares of the first k names among xs. */
  function SquaredShares<T(==)>(xs: seq<T>, names: seq<T>, k: nat): real
    requires k <= |names| && |xs| > 0
  {
    if k == 0 then 0.0
    else SquaredShares(xs, names, k - 1) + Sq(CountOf(xs, |xs|, names[k - 1]) as real / |xs| as real)
  }

  /** Herfindahl-Hirschman index of the currency pairs of some edges. */
  function Concentration<T(==)>(pairs: seq<T>): real {
    if pairs == [] then 0.0 else SquaredShares(pairs, Keys(pairs), |Keys(pairs)|)
  }

  /** The dictionary counts the first k pairs. */
  ghost predicate Counts<T(!new)>(pairs: seq<T>, k: nat, counts: map<T, nat>)
    requires k <= |pairs|
  {
    && (forall j :: 0 <= j < k ==> pairs[j] in counts)
    && (forall x | x in counts :: counts[x] == CountOf(pairs, k, x))
  }

  function Counted<T(==)>(counts: map<T, nat>, x: T): map<T, nat> {
    counts[x := if x in counts then counts[x] + 1 else 1]
  }

  lemma {:induction false} CountsNext<T(!new)>(pairs: seq<T>, k: nat, counts: map<T, nat>)
    requires k < |pairs| && Counts(pairs, k, counts)
    ensures Counts(pairs, k + 1, Counted(counts, pairs[k]))
  {
    if pairs[k] !in counts {
      NoCopies(pairs, k, pairs[k]);
    }
  }

  /** Count the pairs in a dictionary. */
  method CountPairs<T(==, !new)>(pairs: seq<T>) returns (keys: seq<T>, counts: map<T, nat>)
    ensures keys == Keys(pairs)
    ensures Counts(pairs, |pairs|, counts)
  {
    counts, keys := map[], [];
    for i := 0 to |pairs|
      invariant keys == KeysOf(pairs, i)
      invariant Counts(pairs, i, counts)
    {
      CountsNext(pairs, i, counts);
      var pair := pairs[i];
      if pair !in keys {
        keys := keys + [pair];
      }
      counts := Counted(counts, pair);
    }
  }

  lemma {:induction false} NoCopies<T>(xs: seq<T>, k: nat, x: T)
    requires k <= |xs| && forall j :: 0 <= j < k ==> xs[j] != x
    ensures CountOf(xs, k, x) == 0
  {
    if k > 0 {
      NoCopies(xs, k - 1, x);
    }
  }

  /** The concentration feature: squared shares of the counted pairs. */
  method CurrencyConcentration<T(==, !new)>(pairs: seq<T>) returns (hhi: real)
    ensures hhi == Concentration(pairs)
  {
    var keys, counts := CountPairs(pairs);
    hhi := 0.0;
    for j := 0 to |keys|
      invariant pairs != [] ==> hhi == SquaredShares(pairs, keys, j)
      invariant pairs == [] ==> hhi == 0.0
    {
      assert keys[j] in keys;
      hhi := hhi + Sq(counts[keys[j]] as real / |pairs| as real);
    }
  }

  /** Totals over the first k names, counting among the first n elements. */
  function SumCounts<T(==)>(xs: seq<T>, n: nat, names: seq<T>, k: nat): nat
    requires n <= |xs| && k <= |names|
  {
    if k == 0 then 0 else SumCounts(xs, n, names, k - 1) + CountOf(xs, n, names[k - 1])
  }

  function SumSquares<T(==)>(xs: seq<T>, names: seq<T>, k: nat): nat
    requires k <= |names|
  {
    if k == 0 then 0
    else SumSquares(xs, names, k - 1) + CountOf(xs, |xs|, names[k - 1]) * CountOf(xs, |xs|, names[k - 1])
  }

  /** One more element adds one to the count of one name. */
  lemma {:induction false} SumCountsStep<T>(xs: seq<T>, n: nat, names: seq<T>, k: nat, at: nat)
    requires n < |xs| && k <= |names| && Distinct(names)
    requires at < |names| && names[at] == xs[n]
    ensures SumCounts(xs, n + 1, names, k) == SumCounts(xs, n, names, k) + (if at < k then 1 else 0)
  {
    if k > 0 {
      SumCountsStep(xs, n, names, k - 1, at);
      assert at != k - 1 ==> names[at] != names[k - 1];
    }
  }

  /** Every element is counted under exactly one name. */
  lemma {:induction false} CountsAddUp<T>(xs: seq<T>, n: nat, names: seq<T>)
    requires n <= |xs| && Distinct(names)
    requires forall i :: 0 <= i < n ==> xs[i] in names
    ensures SumCounts(xs, n, names, |names|) == n
  {
    if n == 0 {
      EmptyCounts(xs, names, |names|);
    } else {
      CountsAddUp(xs, n - 1, names);
      var at :| 0 <= at < |names| && names[at] == xs[n - 1];
      SumCountsStep(xs, n - 1, names, |names|, at);
    }
  }

  lemma {:induction false} EmptyCounts<T>(xs: seq<T>, names: seq<T>, k: nat)
    requires k <= |names|
    ensures SumCounts(xs, 0, names, k) == 0
  {
    if k > 0 {
      EmptyCounts(xs, names, k - 1);
    }
  }

  /** The distance of every count from x, squared and added up, is not negative. */
  lemma {:induction false} SpreadNotNegative<T>(xs: seq<T>, names: seq<T>, k: nat, x: int)
    requires k <= |names|
    ensures SumSquares(xs, names, k) - 2 * x * SumCounts(xs, |xs|, names, k) + k * (x * x) >= 0
  {
    if k > 0 {
      SpreadNotNegative(xs, names, k - 1, x);
      var c := CountOf(xs, |xs|, names[k - 1]);
      SquareExpands(c, x);
      SpreadStep(SumSquares(xs, names, k - 1), SumCounts(xs, |xs|, names, k - 1), k - 1, c, x);
    }
  }

  lemma {:induction false} SquareExpands(c: int, x: int)
    ensures c * c - 2 * x * c + x * x >= 0
  {
    var d := c - x;
    assert d * d >= 0;
    assert d * d == c * c - 2 * x * c + x * x;
  }

  lemma {:induction false} SpreadStep(q: int, s: int, k: int, c: int, x: int)
    requires q - 2 * x * s + k * (x * x) >= 0 && c * c - 2 * x * c + x * x >= 0
    ensures (q + c * c) - 2 * x * (s + c) + (k + 1) * (x * x) >= 0
  {
    assert 2 * x * (s + c) == 2 * x * s + 2 * x * c;
    assert (k + 1) * (x * x) == k * (x * x) + x * x;
  }

  /** The square of the total is at most k times, and at least, the sum of squares. */
  lemma {:induction false} SquareOfSum<T>(xs: seq<T>, names: seq<T>, k: nat)
    requires k <= |names|
    ensures var s, q := SumCounts(xs, |xs|, names, k), SumSquares(xs, names, k);
            q <= s * s <= k * q
  {
    if k > 0 {
      SquareOfSum(xs, names, k - 1);
      var c := CountOf(xs, |xs|, names[k - 1]);
      var s, q := SumCounts(xs, |xs|, names, k - 1), SumSquares(xs, names, k - 1);
      SpreadNotNegative(xs, names, k - 1, c);
      CauchyStep(s, q, k - 1, c);
    }
  }

  lemma {:induction false} CauchyStep(s: nat, q: nat, k: nat, c: nat)
    requires q <= s * s <= k * q && q - 2 * c * s + k * (c * c) >= 0
    ensures q + c * c <= (s + c) * (s + c) <= (k + 1) * (q + c * c)
  {
    assert (s + c) * (s + c) == s * s + 2 * c * s + c * c;
    assert (k + 1) * (q + c * c) == k * q + k * (c * c) + q + c * c;
    assert 2 * c * s >= 0;
  }

  lemma {:induction false} SharesAreSquares<T>(xs: seq<T>, names: seq<T>, k: nat)
    requires k <= |names| && |xs| > 0
    ensures SquaredShares(xs, names, k) == SumSquares(xs, names, k) as real / (|xs| * |xs|) as real
  {
    if k > 0 {
      SharesAreSquares(xs, names, k - 1);
      ShareSquared(SumSquares(xs, names, k - 1), CountOf(xs, |xs|, names[k - 1]), |xs|);
    }
  }

  lemma {:induction false} ShareSquared(q: nat, c: nat, n: nat)
    requires n > 0
    ensures n * n > 0
    ensures q as real / (n * n) as real + Sq(c as real / n as real) == (q + c * c) as real / (n * n) as real
  {
    assert (n * n) as real == n as real * n as real && (c * c) as real == c as real * c as real;
    assert n * n > 0;
    assert (c as real / n as real) * (c as real / n as real) == (c as real * c as real) / (n as real * n as real);
  }

  /**
   * Main result: with m >= 1 distinct currency pairs the concentration lies
   * between 1/m (all equally frequent) and 1 (a single pair).
   */
  lemma {:induction false} ConcentrationBounds<T>(pairs: seq<T>)
    requires pairs != []
    ensures |Keys(pairs)| >= 1
    ensures 1.0 / |Keys(pairs)| as real <= Concentration(pairs) <= 1.0
  {
    var names := Keys(pairs);
    assert pairs[0] in names;
    CountsAddUp(pairs, |pairs|, names);
    SquareOfSum(pairs, names, |names|);
    SharesAreSquares(pairs, names, |names|);
    ShareBounds(SumSquares(pairs, names, |names|), |pairs|, |names|);
  }

  lemma {:induction false} ShareBounds(q: nat, n: nat, m: nat)
    requires n > 0 && m > 0 && q <= n * n <= m * q
    ensures n * n > 0 && 1.0 / m as real <= q as real / (n * n) as real <= 1.0
  {
    assert n * n > 0;
    FractionOrder(q, n * n, m);
  }

  lemma {:induction false} FractionOrder(a: nat, b: nat, m: nat)
    requires b > 0 && m > 0 && a <= b <= m * a
    ensures 1.0 / m as real <= a as real / b as real <= 1.0
  {
    var share, unit := a as real / b as real, 1.0 / m as real;
    assert share * b as real == a as real && unit * m as real == 1.0;
    MulCancel(share, 1.0, b as real);
    assert b as real <= m as real * a as real by {
      RealOfProduct(m, a);
      assert b as real <= (m * a) as real;
    }
    UnitFraction(a as real, b as real, m as real);
  }

  lemma {:induction false} RealOfProduct(m: nat, a: nat)
    ensures (m * a) as real == m as real * a as real
  {
  }

  lemma {:induction false} UnitFraction(a: real, b: real, m: real)
    requires a >= 0.0 && b > 0.0 && m > 0.0 && b <= m * a
    ensures 1.0 / m <= a / b
  {
    var u := 1.0 / m;
    assert u * m == 1.0;
    MulMonotone(b, m * a, u);
    assert (m * a) * u == a;
    assert (a / b) * b == a;
    assert u * b <= (a / b) * b;
    MulCancel(u, a / b, b);
  }

  // ------------------------------------------------- what concentration measures

  ghost function Positions<T(!new)>(xs: seq<T>, k: nat, x: T): set<nat>
    requires k <= |xs|
  {
    set i: nat | i < k && xs[i] == x
  }

  lemma {:induction false} CountIsPositions<T(!new)>(xs: seq<T>, k: nat, x: T)
    requires k <= |xs|
    ensures CountOf(xs, k, x) == |Positions(xs, k, x)|
  {
    if k == 0 {
      assert Positions(xs, 0, x) == {};
    } else {
      CountIsPositions(xs, k - 1, x);
      Grows(Positions(xs, k - 1, x), Positions(xs, k, x), k - 1, xs[k - 1] == x);
    }
  }

  /** The ordered pairs of equal elements, those that are one of the first k names. */
  ghost function EqualPairsOf<T(!new)>(xs: seq<T>, names: seq<T>, k: nat): set<(nat, nat)>
    requires k <= |names|
  {
    set i: nat, j: nat | i < |xs| && j < |xs| && xs[i] == xs[j] && xs[i] in names[..k] :: (i, j)
  }

  ghost function EqualPairs<T(!new)>(xs: seq<T>): set<(nat, nat)> {
    set i: nat, j: nat | i < |xs| && j < |xs| && xs[i] == xs[j] :: (i, j)
  }

  lemma {:induction false} SquaresArePairs<T(!new)>(xs: seq<T>, names: seq<T>, k: nat)
    requires k <= |names| && Distinct(names)
    ensures SumSquares(xs, names, k) == |EqualPairsOf(xs, names, k)|
  {
    if k == 0 {
      assert EqualPairsOf(xs, names, 0) == {};
    } else {
      SquaresArePairs(xs, names, k - 1);
      var x := names[k - 1];
      var at := Positions(xs, |xs|, x);
      CountIsPositions(xs, |xs|, x);
      GridSize(at, at);
      PairsOfNext(xs, names, k);
    }
  }

  lemma {:induction false} PairsOfNext<T(!new)>(xs: seq<T>, names: seq<T>, k: nat)
    requires 0 < k <= |names| && Distinct(names)
    ensures var at := Positions(xs, |xs|, names[k - 1]);
            |EqualPairsOf(xs, names, k)| == |EqualPairsOf(xs, names, k - 1)| + |Grid(at, at)|
  {
    var at := Positions(xs, |xs|, names[k - 1]);
    assert names[..k] == names[..k - 1] + [names[k - 1]];
    assert names[k - 1] !in names[..k - 1];
    assert EqualPairsOf(xs, names, k) == EqualPairsOf(xs, names, k - 1) + Grid(at, at);
    assert EqualPairsOf(xs, names, k - 1) !! Grid(at, at);
  }

  /**
   * Main result: the concentration is the share, among all ordered pairs of
   * payments, of those in one currency pair: the chance that two payments drawn
   * one after the other, with return, agree.
   */
  lemma {:induction false} ConcentrationIsAgreement<T(!new)>(pairs: seq<T>)
    requires pairs != []
    ensures |pairs| * |pairs| > 0
    ensures Concentration(pairs) == |EqualPairs(pairs)| as real / (|pairs| * |pairs|) as real
  {
    var names := Keys(pairs);
    SharesAreSquares(pairs, names, |names|);
    SquaresArePairs(pairs, names, |names|);
    assert names[..|names|] == names;
    assert EqualPairsOf(pairs, names, |names|) == EqualPairs(pairs);
    ShareSquared(0, 0, |pairs|);
  }
}
