/** Finite sums of reals over an index range, shared by the numeric models. */
module RealSums {

  /** s[lo] + ... + s[hi-1] */
  function SumRange(s: seq<real>, lo: nat, hi: nat): real
    requires lo <= hi <= |s|
    decreases hi
  {
    if lo == hi then 0.0 else SumRange(s, lo, hi - 1) + s[hi - 1]
  }

  function Sum(s: seq<real>): real {
    SumRange(s, 0, |s|)
  }

  /** n copies of m added up; TimesIsProduct says it is m * n. */
  function Times(m: real, n: nat): real {
    if n == 0 then 0.0 else Times(m, n - 1) + m
  }

  lemma {:induction false} TimesIsProduct(m: real, n: nat)
    ensures Times(m, n) == m * n as real
  {
    if n > 0 {
      TimesIsProduct(m, n - 1);
      assert n as real == (n - 1) as real + 1.0;
      assert m * ((n - 1) as real + 1.0) == m * (n - 1) as real + m;
    }
  }

  lemma {:induction false} TimesAdds(m: real, j: nat, k: nat)
    ensures Times(m, j + k) == Times(m, j) + Times(m, k)
  {
    if k > 0 {
      TimesAdds(m, j, k - 1);
      assert j + k - 1 == j + (k - 1);
    }
  }

  function Product(a: real, b: real): real {
    a * b
  }

  function Sq(d: real): real {
    Product(d, d)
  }

  lemma MulPositive(a: real, b: real)
    requires a > 0.0 && b > 0.0
    ensures a * b > 0.0
  {
  }

  lemma MulNonNegative(a: real, b: real)
    requires a >= 0.0 && b >= 0.0
    ensures a * b >= 0.0
  {
  }

  lemma MulMonotone(a: real, b: real, c: real)
    requires a <= b && c >= 0.0
    ensures a * c <= b * c
  {
    MulNonNegative(b - a, c);
  }

  lemma MulCancel(a: real, b: real, c: real)
    requires a * c <= b * c && c > 0.0
    ensures a <= b
  {
    if a > b {
      MulPositive(a - b, c);
    }
  }

  lemma ProductPositive(a: real, b: real)
    requires a > 0.0 && b > 0.0
    ensures Product(a, b) > 0.0
  {
  }

  lemma SqDefinite(d: real)
    ensures Sq(d) >= 0.0 && (d != 0.0 ==> Sq(d) > 0.0)
  {
    if d > 0.0 {
      ProductPositive(d, d);
    } else if d < 0.0 {
      ProductPositive(-d, -d);
      assert Product(-d, -d) == Product(d, d);
    }
  }

  function Min(a: real, b: real): real {
    if a <= b then a else b
  }

  function Max(a: real, b: real): real {
    if a >= b then a else b
  }

  function Abs(x: real): real {
    if x < 0.0 then -x else x
  }

  ghost predicate NonDecreasing(s: seq<real>) {
    forall i, j :: 0 <= i <= j < |s| ==> s[i] <= s[j]
  }

  lemma {:induction false} SumSplit(s: seq<real>, lo: nat, mid: nat, hi: nat)
    requires lo <= mid <= hi <= |s|
    ensures SumRange(s, lo, hi) == SumRange(s, lo, mid) + SumRange(s, mid, hi)
    decreases hi
  {
    if mid < hi {
      SumSplit(s, lo, mid, hi - 1);
    }
  }

  /** Sums over a range depend only on the elements in that range. */
  lemma {:induction false} SumAgree(s: seq<real>, t: seq<real>, lo: nat, hi: nat)
    requires lo <= hi <= |s| && hi <= |t|
    requires forall i :: lo <= i < hi ==> s[i] == t[i]
    ensures SumRange(s, lo, hi) == SumRange(t, lo, hi)
    decreases hi
  {
    if lo < hi {
      SumAgree(s, t, lo, hi - 1);
    }
  }

  /** Every element between low and high puts the sum between the multiples. */
  lemma {:induction false} SumBounds(s: seq<real>, lo: nat, hi: nat, low: real, high: real)
    requires lo <= hi <= |s|
    requires forall i :: lo <= i < hi ==> low <= s[i] <= high
    ensures Times(low, hi - lo) <= SumRange(s, lo, hi) <= Times(high, hi - lo)
    decreases hi
  {
    if lo < hi {
      SumBounds(s, lo, hi - 1, low, high);
    }
  }
}
