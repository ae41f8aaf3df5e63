/**
 * Fee arithmetic on exact reals: rounding modes, floors, the cascade discount,
 * and how rounding behaves when fees are split or added up.
 */
module Fees {
  import opened RealSums

  const FEE_FLOOR_BPS: real := 300.0
  const FEE_FLOOR_BPS_SUBDAY: real := 1200.0
  const SUBDAY_THRESHOLD_HOURS: real := 48.0
  const WAREHOUSE_FLOOR_BPS: real := 800.0
  const FEE_FLOOR_ABSOLUTE_USD: real := 25.0
  const CASCADE_DISCOUNT_CAP: real := 0.30
  const DEFAULT_MATURITY_HOURS: real := 168.0

  // -------------------------------------------------------------- rounding

  /** Nearest integer; a tie goes away from zero. */
  function HalfUp(x: real): int {
    if x >= 0.0 then (x + 0.5).Floor else -((-x + 0.5).Floor)
  }

  /** Nearest integer; a tie goes to the even one. */
  function HalfEven(x: real): int {
    var f := x.Floor;
    var d := x - f as real;
    if d < 0.5 || (d == 0.5 && f % 2 == 0) then f else f + 1
  }

  /** Quantize to one decimal, and to cents. */
  function ToTenth(x: real): real {
    HalfUp(x * 10.0) as real / 10.0
  }

  function ToCents(x: real): real {
    HalfUp(x * 100.0) as real / 100.0
  }

  lemma {:induction false} HalfUpNear(x: real)
    ensures -0.5 <= x - HalfUp(x) as real <= 0.5
    ensures x >= 0.0 ==> HalfUp(x) >= 0
  {
  }

  lemma {:induction false} HalfUpMonotone(x: real, y: real)
    requires x <= y
    ensures HalfUp(x) <= HalfUp(y)
  {
  }

  /** Exactly the values less than a half from n round to n, and of the ties the one nearer to zero. */
  lemma {:induction false} HalfUpExactly(x: real, n: int)
    ensures HalfUp(x) == n <==> if x >= 0.0 then -0.5 <= x - n as real < 0.5 else -0.5 < x - n as real <= 0.5
  {
  }

  /** Half-even differs on ties only: both ties next to an even n round to it. */
  lemma {:induction false} HalfEvenExactly(x: real, n: int)
    ensures HalfEven(x) == n <==> -0.5 < x - n as real < 0.5 || (n % 2 == 0 && (x - n as real == 0.5 || x - n as real == -0.5))
  {
  }

  /** Integers are rounded to themselves. */
  lemma {:induction false} HalfUpFixed(n: int)
    ensures HalfUp(n as real) == n && HalfEven(n as real) == n
  {
  }

  lemma {:induction false} HalfEvenNear(x: real)
    ensures -0.5 <= x - HalfEven(x) as real <= 0.5
  {
  }

  lemma {:induction false} HalfEvenMonotone(x: real, y: real)
    requires x <= y
    ensures HalfEven(x) <= HalfEven(y)
  {
    if x.Floor < y.Floor {
      assert HalfEven(x) <= x.Floor + 1 <= y.Floor <= HalfEven(y);
    }
  }

  lemma {:induction false} ToTenthNear(x: real)
    ensures -0.05 <= x - ToTenth(x) <= 0.05
  {
    HalfUpNear(x * 10.0);
  }

  lemma {:induction false} ToTenthMonotone(x: real, y: real)
    requires x <= y
    ensures ToTenth(x) <= ToTenth(y)
  {
    HalfUpMonotone(x * 10.0, y * 10.0);
  }

  lemma {:induction false} ToTenthFixed(n: int)
    ensures ToTenth(n as real) == n as real
  {
    HalfUpFixed(n * 10);
    assert n as real * 10.0 == (n * 10) as real;
  }

  // ------------------------------------------------------------ fee in bps

  function FloorFor(maturityHours: real): real {
    if maturityHours < SUBDAY_THRESHOLD_HOURS then FEE_FLOOR_BPS_SUBDAY else FEE_FLOOR_BPS
  }

  /** Annualized fee in basis points from expected loss, floored and rounded. */
  function FeeBps(pd: real, lgd: real, maturityHours: real): real {
    ToTenth(Max(pd * lgd * 10000.0, FloorFor(maturityHours)))
  }

  /** What PD inference reports: the fee as an integer, half-even. */
  function FeeBpsInt(pd: real, lgd: real): int {
    HalfEven(FeeBps(pd, lgd, DEFAULT_MATURITY_HOURS))
  }

  /** The unrounded expected-loss rate, monotone in both factors. */
  lemma {:induction false} ExpectedLossMonotone(pd: real, lgd: real, pd': real, lgd': real)
    requires 0.0 <= pd <= pd' && 0.0 <= lgd <= lgd'
    ensures pd * lgd * 10000.0 <= pd' * lgd' * 10000.0
  {
    MulMonotone(pd, pd', lgd);
    MulMonotone(lgd, lgd', pd');
  }

  /**
   * Main result: the two roundings composed are monotone in PD and LGD, never
   * below the floor, and within 0.55 bps of the unrounded fee.
   */
  lemma {:induction false} IntegerFeeSound(pd: real, lgd: real, pd': real, lgd': real)
    requires 0.0 <= pd <= pd' && 0.0 <= lgd <= lgd'
    ensures 300 <= FeeBpsInt(pd, lgd) <= FeeBpsInt(pd', lgd')
    ensures var exact := Max(pd * lgd * 10000.0, FEE_FLOOR_BPS);
            -0.55 <= FeeBpsInt(pd, lgd) as real - exact <= 0.55
  {
    FeeSound(pd, lgd, pd', lgd', DEFAULT_MATURITY_HOURS);
    HalfEvenMonotone(FeeBps(pd, lgd, DEFAULT_MATURITY_HOURS), FeeBps(pd', lgd', DEFAULT_MATURITY_HOURS));
    HalfEvenMonotone(300.0, FeeBps(pd, lgd, DEFAULT_MATURITY_HOURS));
    HalfUpFixed(300);
    HalfEvenNear(FeeBps(pd, lgd, DEFAULT_MATURITY_HOURS));
  }

  /** A fee is at least its floor, monotone, and within 0.05 bps of the exact rate. */
  lemma {:induction false} FeeSound(pd: real, lgd: real, pd': real, lgd': real, hours: real)
    requires 0.0 <= pd <= pd' && 0.0 <= lgd <= lgd'
    ensures FloorFor(hours) <= FeeBps(pd, lgd, hours) <= FeeBps(pd', lgd', hours)
    ensures -0.05 <= FeeBps(pd, lgd, hours) - Max(pd * lgd * 10000.0, FloorFor(hours)) <= 0.05
  {
    ExpectedLossMonotone(pd, lgd, pd', lgd');
    var x, y := Max(pd * lgd * 10000.0, FloorFor(hours)), Max(pd' * lgd' * 10000.0, FloorFor(hours));
    ToTenthMonotone(x, y);
    ToTenthMonotone(FloorFor(hours), x);
    ToTenthFixed(300);
    ToTenthFixed(1200);
    ToTenthNear(x);
  }

  /** A multiple of a tenth nearest to a positive x, a tie going up: there is one such fee. */
  ghost predicate NearestTenth(fee: real, x: real) {
    -0.05 <= x - fee < 0.05 && (fee * 10.0).Floor as real == fee * 10.0
  }

  lemma {:induction false} NearestTenthUnique(fee: real, fee': real, x: real)
    requires NearestTenth(fee, x) && NearestTenth(fee', x)
    ensures fee == fee'
  {
    assert -1.0 < ((fee * 10.0).Floor - (fee' * 10.0).Floor) as real < 1.0;
  }

  lemma {:induction false} ToTenthNearest(x: real)
    requires x >= 0.0
    ensures NearestTenth(ToTenth(x), x)
  {
    HalfUpExactly(x * 10.0, HalfUp(x * 10.0));
    assert ToTenth(x) * 10.0 == HalfUp(x * 10.0) as real;
  }

  /** The fee is the larger of expected loss and floor, to the nearest tenth. */
  lemma {:induction false} FeeBpsExactly(pd: real, lgd: real, hours: real)
    ensures NearestTenth(FeeBps(pd, lgd, hours), Max(pd * lgd * 10000.0, if hours < 48.0 then 1200.0 else 300.0))
  {
    ToTenthNearest(Max(pd * lgd * 10000.0, FloorFor(hours)));
  }

  /** The floor binds exactly when the expected loss rounds no higher than it: 300 bps, and 1200 below two days. */
  lemma {:induction false} FloorBinds(pd: real, lgd: real, hours: real)
    ensures var floor := if hours < 48.0 then 1200.0 else 300.0;
            FeeBps(pd, lgd, hours) == floor <==> pd * lgd * 10000.0 < floor + 0.05
  {
    FeeBpsExactly(pd, lgd, hours);
    ToTenthFixed(300);
    ToTenthFixed(1200);
    ToTenthNearest(FloorFor(hours));
    if pd * lgd * 10000.0 < FloorFor(hours) + 0.05 {
      assert FloorFor(hours) == 300.0 || FloorFor(hours) == 1200.0;
      NearestTenthUnique(FeeBps(pd, lgd, hours), FloorFor(hours), Max(pd * lgd * 10000.0, FloorFor(hours)));
    }
  }

  // ------------------------------------------------------------ cash fees

  /** Fee for a stretch of days, in cents: exact amount, then rounded. */
  function ExactFee(amount: real, feeBps: real, days: real): real {
    amount * (feeBps / 10000.0) * (days / 365.0)
  }

  function LoanFee(amount: real, feeBps: real, days: real): real {
    ToCents(ExactFee(amount, feeBps, days))
  }

  /** A fee is the pro-rata share of a year's, to the nearest cent; a tie goes up. */
  lemma {:induction false} LoanFeeExactly(amount: real, feeBps: real, days: real)
    requires amount * feeBps * days >= 0.0
    ensures var fee := LoanFee(amount, feeBps, days);
            && fee == FeeCents(amount, feeBps, days) as real / 100.0
            && -0.005 <= amount * feeBps * days / 3650000.0 - fee < 0.005
  {
    ProRata(amount, feeBps, days);
    HalfUpExactly(ExactFee(amount, feeBps, days) * 100.0, FeeCents(amount, feeBps, days));
  }

  lemma {:induction false} ProRata(amount: real, feeBps: real, days: real)
    ensures ExactFee(amount, feeBps, days) == amount * feeBps * days / 3650000.0
  {
    var r, t := feeBps / 10000.0, days / 365.0;
    assert feeBps == 10000.0 * r && days == 365.0 * t;
    assert amount * (10000.0 * r) * (365.0 * t) == 3650000.0 * (amount * r * t);
  }

  /** The three worked examples of the fee's documentation, to the cent. */
  lemma {:induction false} DocumentedFees()
    ensures LoanFee(1000000.0, 300.0, 7.0) == 575.34
    ensures LoanFee(1000000.0, 400.0, 7.0) == 767.12
    ensures LoanFee(1000000.0, 600.0, 7.0) == 1150.68
  {
  }

  /** Cents as a whole number. */
  function FeeCents(amount: real, feeBps: real, days: real): int {
    HalfUp(ExactFee(amount, feeBps, days) * 100.0)
  }

  function SumInt(xs: seq<int>): int {
    if xs == [] then 0 else SumInt(xs[..|xs| - 1]) + xs[|xs| - 1]
  }

  function PartFees(amount: real, feeBps: real, parts: seq<real>): (r: seq<int>)
    ensures |r| == |parts| && forall i :: 0 <= i < |r| ==> r[i] == FeeCents(amount, feeBps, parts[i])
  {
    seq(|parts|, i requires 0 <= i < |parts| => FeeCents(amount, feeBps, parts[i]))
  }

  lemma {:induction false} ExactFeeAdds(amount: real, feeBps: real, d: real, e: real)
    ensures ExactFee(amount, feeBps, d + e) == ExactFee(amount, feeBps, d) + ExactFee(amount, feeBps, e)
    ensures ExactFee(amount, feeBps, 0.0) == 0.0
  {
    assert (d + e) / 365.0 == d / 365.0 + e / 365.0;
    Distributes(amount * (feeBps / 10000.0), d / 365.0, e / 365.0);
  }

  lemma {:induction false} Distributes(a: real, b: real, c: real)
    ensures a * (b + c) == a * b + a * c && a * 0.0 == 0.0
  {
  }

  /** The rounded part fees miss the exact fee of the whole by at most half a cent each. */
  lemma {:induction false} PartsNearExact(amount: real, feeBps: real, parts: seq<real>)
    ensures var k := |parts| as real;
            -(k / 2.0) <= SumInt(PartFees(amount, feeBps, parts)) as real
                          - ExactFee(amount, feeBps, Sum(parts)) * 100.0 <= k / 2.0
  {
    if parts == [] {
      ExactFeeAdds(amount, feeBps, 0.0, 0.0);
    } else {
      var init, last := parts[..|parts| - 1], parts[|parts| - 1];
      PartsNearExact(amount, feeBps, init);
      SumAgree(parts, init, 0, |init|);
      ExactFeeAdds(amount, feeBps, Sum(init), last);
      HalfUpNear(ExactFee(amount, feeBps, last) * 100.0);
      var fees := PartFees(amount, feeBps, parts);
      assert fees[..|fees| - 1] == PartFees(amount, feeBps, init);
      assert |parts| as real == |init| as real + 1.0;
    }
  }

  /**
   * Main result: charging a tenor in k parts changes the total by at most
   * floor((k + 1) / 2) cents.
   */
  lemma {:induction false} SplittingTenor(amount: real, feeBps: real, parts: seq<real>)
    ensures var split, whole := SumInt(PartFees(amount, feeBps, parts)), FeeCents(amount, feeBps, Sum(parts));
            -((|parts| + 1) / 2) <= split - whole <= (|parts| + 1) / 2
  {
    PartsNearExact(amount, feeBps, parts);
    HalfUpNear(ExactFee(amount, feeBps, Sum(parts)) * 100.0);
    var split, whole := SumInt(PartFees(amount, feeBps, parts)), FeeCents(amount, feeBps, Sum(parts));
    HalfBound(split - whole, |parts|);
  }

  lemma {:induction false} HalfBound(d: int, k: nat)
    requires -((k as real + 1.0) / 2.0) <= d as real <= (k as real + 1.0) / 2.0
    ensures -((k + 1) / 2) <= d <= (k + 1) / 2
  {
    assert (2 * d) as real <= (k + 1) as real && (-2 * d) as real <= (k + 1) as real;
  }

  /** A positive fee below the operational floor is raised to it; others stay. */
  function AbsoluteFloor(fee: real): real {
    if fee <= 0.0 then fee else Max(fee, FEE_FLOOR_ABSOLUTE_USD)
  }

  /**
   * The floor is applied to the rounded fee, so it reaches exactly the fees of
   * at least half a cent: a smaller positive fee goes out as zero.
   */
  lemma {:induction false} FloorReachesFee(amount: real, feeBps: real, days: real)
    ensures AbsoluteFloor(LoanFee(amount, feeBps, days)) >= FEE_FLOOR_ABSOLUTE_USD
            <==> ExactFee(amount, feeBps, days) >= 0.005
  {
    var x := ExactFee(amount, feeBps, days) * 100.0;
    assert HalfUp(x) >= 1 <==> x >= 0.5;
  }

  /** Such a fee exists: a dollar lent for a day. */
  lemma {:induction false} TinyFeeGoesOutAsZero()
    ensures 0.0 < ExactFee(1.0, 300.0, 1.0) < 0.005
    ensures AbsoluteFloor(LoanFee(1.0, 300.0, 1.0)) == 0.0
  {
  }

  // -------------------------------------------------------------- royalties

  /** The exact share of a fee, before rounding. */
  function Share(feeCents: int, rate: real): real {
    feeCents as real * rate
  }

  function RoyaltyCents(feeCents: int, rate: real): int {
    HalfUp(Share(feeCents, rate))
  }

  function Royalties(fees: seq<int>, rate: real): (r: seq<int>)
    ensures |r| == |fees| && forall i :: 0 <= i < |r| ==> r[i] == RoyaltyCents(fees[i], rate)
  {
    seq(|fees|, i requires 0 <= i < |fees| => RoyaltyCents(fees[i], rate))
  }

  /** A royalty never exceeds its fee and is never negative. */
  lemma {:induction false} RoyaltyWithinFee(fee: nat, rate: real)
    requires 0.0 <= rate <= 1.0
    ensures 0 <= RoyaltyCents(fee, rate) <= fee
  {
    MulMonotone(rate, 1.0, fee as real);
    MulNonNegative(fee as real, rate);
    HalfUpMonotone(fee as real * rate, fee as real);
    HalfUpMonotone(0.0, fee as real * rate);
    HalfUpFixed(fee);
    HalfUpFixed(0);
  }

  /** Main result: n royalties total within n/2 cents of the rate times the fees. */
  lemma {:induction false} RoyaltiesTotal(fees: seq<int>, rate: real)
    ensures -(|fees| as real / 2.0) <= SumInt(Royalties(fees, rate)) as real - SumInt(fees) as real * rate <= |fees| as real / 2.0
  {
    RoyaltiesNearShare(fees, rate);
  }

  lemma {:induction false} RoyaltiesNearShare(fees: seq<int>, rate: real)
    ensures -(|fees| as real / 2.0) <= SumInt(Royalties(fees, rate)) as real - Share(SumInt(fees), rate) <= |fees| as real / 2.0
  {
    if fees == [] {
      ShareAdds(0, 0, rate);
    } else {
      var init, last := fees[..|fees| - 1], fees[|fees| - 1];
      RoyaltiesNearShare(init, rate);
      RoyaltyNear(last, rate);
      var rs := Royalties(fees, rate);
      assert rs[..|rs| - 1] == Royalties(init, rate);
      ShareAdds(SumInt(init), last, rate);
      assert |fees| as real == |init| as real + 1.0;
    }
  }

  lemma {:induction false} RoyaltyNear(fee: int, rate: real)
    ensures -0.5 <= RoyaltyCents(fee, rate) as real - Share(fee, rate) <= 0.5
  {
    HalfUpNear(Share(fee, rate));
  }

  lemma {:induction false} ShareAdds(a: int, b: int, rate: real)
    ensures Share(a + b, rate) == Share(a, rate) + Share(b, rate) && Share(0, rate) == 0.0
  {
    Distributes(rate, a as real, b as real);
    assert (a + b) as real == a as real + b as real;
  }

  // -------------------------------------------------------- cascade pricing

  datatype Pricing = Pricing(basePd: real, adjustedPd: real, discount: real, baseFee: real, adjustedFee: real)

  datatype PricingResult = Priced(p: Pricing) | PdOutOfRange | BelowWarehouseFloor(fee: real)

  function Discount(prevented: real, cost: real): real {
    if cost > 0.0 && prevented > 0.0 then Min(prevented / (10.0 * cost), CASCADE_DISCOUNT_CAP) else 0.0
  }

  function AdjustedPd(pd: real, discount: real): real {
    pd * (1.0 - discount)
  }

  function CascadePrice(basePd: real, prevented: real, cost: real, lgd: real): PricingResult {
    if !(0.0 <= basePd <= 1.0) then PdOutOfRange
    else
      var discount := Discount(prevented, cost);
      var adjustedPd := AdjustedPd(basePd, discount);
      var baseFee := FeeBps(basePd, lgd, DEFAULT_MATURITY_HOURS);
      var adjustedFee := FeeBps(adjustedPd, lgd, DEFAULT_MATURITY_HOURS);
      if adjustedFee < WAREHOUSE_FLOOR_BPS then BelowWarehouseFloor(adjustedFee)
      else Priced(Pricing(basePd, adjustedPd, discount, baseFee, adjustedFee))
  }

  lemma {:induction false} DiscountBounds(prevented: real, cost: real)
    ensures 0.0 <= Discount(prevented, cost) <= CASCADE_DISCOUNT_CAP
  {
    if cost > 0.0 && prevented > 0.0 {
      QuotientMonotone(0.0, prevented, 10.0 * cost);
    }
  }

  lemma {:induction false} QuotientMonotone(a: real, b: real, c: real)
    requires a <= b && c > 0.0
    ensures a / c <= b / c
  {
  }

  /** What the discount is: the cap, or as much as one tenth of the prevented value buys. */
  lemma {:induction false} DiscountIsShare(prevented: real, cost: real)
    ensures var d := Discount(prevented, cost);
            if cost > 0.0 && prevented > 0.0 then
              d * (10.0 * cost) <= prevented && (d == CASCADE_DISCOUNT_CAP || d * (10.0 * cost) == prevented)
            else d == 0.0
  {
    if cost > 0.0 && prevented > 0.0 {
      var q := prevented / (10.0 * cost);
      assert q * (10.0 * cost) == prevented;
      if q > CASCADE_DISCOUNT_CAP {
        MulMonotone(CASCADE_DISCOUNT_CAP, q, 10.0 * cost);
      }
    }
  }

  lemma {:induction false} DiscountMonotone(prevented: real, more: real, cost: real)
    requires prevented <= more
    ensures Discount(prevented, cost) <= Discount(more, cost)
  {
    DiscountBounds(more, cost);
    if cost > 0.0 && prevented > 0.0 {
      QuotientMonotone(prevented, more, 10.0 * cost);
    }
  }

  /** Discounting lowers a non-negative PD, by no more than the cap allows. */
  lemma {:induction false} AdjustedPdBounds(pd: real, prevented: real, cost: real)
    requires 0.0 <= pd
    ensures 0.0 <= AdjustedPd(pd, Discount(prevented, cost)) <= pd
    ensures AdjustedPd(pd, CASCADE_DISCOUNT_CAP) <= AdjustedPd(pd, Discount(prevented, cost))
  {
    var d := Discount(prevented, cost);
    DiscountBounds(prevented, cost);
    MulNonNegative(pd, 1.0 - d);
    MulNonNegative(pd, d);
    MulNonNegative(pd, CASCADE_DISCOUNT_CAP - d);
  }

  /**
   * Main result: a price that is returned meets the warehouse floor, never
   * exceeds the base fee, and gives away no more than the capped discount.
   */
  lemma {:induction false} CascadePriceSound(basePd: real, prevented: real, cost: real, lgd: real)
    requires lgd >= 0.0 && CascadePrice(basePd, prevented, cost, lgd).Priced?
    ensures var p := CascadePrice(basePd, prevented, cost, lgd).p;
            && 0.0 <= p.discount <= CASCADE_DISCOUNT_CAP
            && 0.0 <= p.adjustedPd <= basePd <= 1.0
            && WAREHOUSE_FLOOR_BPS <= p.adjustedFee <= p.baseFee
            && p.adjustedFee >= (1.0 - CASCADE_DISCOUNT_CAP) * p.baseFee - 0.1
  {
    var p := CascadePrice(basePd, prevented, cost, lgd).p;
    DiscountBounds(prevented, cost);
    AdjustedPdBounds(basePd, prevented, cost);
    FeesKeepShare(basePd, p.adjustedPd, lgd);
  }

  /**
   * Main result: what is returned.  The fees before and after the discount are
   * those of the two expected losses, and the discount is the cap or the share
   * at which ten times the cost takes up the prevented value.
   */
  lemma {:induction false} CascadePriceExactly(basePd: real, prevented: real, cost: real, lgd: real)
    ensures match CascadePrice(basePd, prevented, cost, lgd)
            case PdOutOfRange => basePd < 0.0 || basePd > 1.0
            case BelowWarehouseFloor(fee) =>
              && 0.0 <= basePd <= 1.0 && fee < 800.0
              && IsDiscount(Discount(prevented, cost), prevented, cost)
              && IsFee(fee, basePd * (1.0 - Discount(prevented, cost)), lgd)
            case Priced(p) =>
              && 0.0 <= p.basePd == basePd <= 1.0
              && IsDiscount(p.discount, prevented, cost) && p.adjustedPd == basePd * (1.0 - p.discount)
              && IsFee(p.baseFee, basePd, lgd) && IsFee(p.adjustedFee, basePd * (1.0 - p.discount), lgd) && p.adjustedFee >= 800.0
  {
    DiscountIsOne(prevented, cost);
    WeekFeeExactly(basePd, lgd);
    WeekFeeExactly(AdjustedPd(basePd, Discount(prevented, cost)), lgd);
  }

  /** The fee of a week: the expected loss in basis points, at least 300, to the nearest tenth. */
  ghost predicate IsFee(fee: real, pd: real, lgd: real) {
    NearestTenth(fee, Max(pd * lgd * 10000.0, 300.0))
  }

  lemma {:induction false} WeekFeeExactly(pd: real, lgd: real)
    ensures IsFee(FeeBps(pd, lgd, DEFAULT_MATURITY_HOURS), pd, lgd)
  {
    FeeBpsExactly(pd, lgd, DEFAULT_MATURITY_HOURS);
  }

  lemma {:induction false} DiscountIsOne(prevented: real, cost: real)
    ensures IsDiscount(Discount(prevented, cost), prevented, cost)
  {
    DiscountIsShare(prevented, cost);
    DiscountBounds(prevented, cost);
  }

  /** The discount is 30 %, or less and all that the prevented value buys; none without cost or value. */
  ghost predicate IsDiscount(d: real, prevented: real, cost: real) {
    if cost > 0.0 && prevented > 0.0 then
      0.0 <= d <= 0.30 && d * (10.0 * cost) <= prevented && (d == 0.30 || d * (10.0 * cost) == prevented)
    else d == 0.0
  }

  /**
   * When a price is returned: the base PD is a probability and the discounted
   * expected loss rounds to the warehouse floor or more. The 300 bps floor never helps.
   */
  lemma {:induction false} PricedExactlyWhen(basePd: real, prevented: real, cost: real, lgd: real)
    ensures CascadePrice(basePd, prevented, cost, lgd).Priced?
            <==> 0.0 <= basePd <= 1.0 && AdjustedPd(basePd, Discount(prevented, cost)) * lgd * 10000.0 >= 799.95
  {
    TenthReaches(Max(AdjustedPd(basePd, Discount(prevented, cost)) * lgd * 10000.0, FEE_FLOOR_BPS));
  }

  lemma {:induction false} TenthReaches(x: real)
    ensures ToTenth(x) >= WAREHOUSE_FLOOR_BPS <==> x >= 799.95
  {
    assert ToTenth(x) >= 800.0 <==> HalfUp(x * 10.0) >= 8000;
  }

  /** If a lower PD keeps the uncapped share of a PD, so does its fee, up to 0.1 bps of rounding. */
  lemma {:induction false} FeesKeepShare(pd: real, lower: real, lgd: real)
    requires 0.0 <= lgd && 0.0 <= lower <= pd && AdjustedPd(pd, CASCADE_DISCOUNT_CAP) <= lower
    ensures var base, adjusted := FeeBps(pd, lgd, DEFAULT_MATURITY_HOURS), FeeBps(lower, lgd, DEFAULT_MATURITY_HOURS);
            (1.0 - CASCADE_DISCOUNT_CAP) * base - 0.1 <= adjusted <= base
  {
    FeeSound(lower, lgd, pd, lgd, DEFAULT_MATURITY_HOURS);
    FeeSound(pd, lgd, pd, lgd, DEFAULT_MATURITY_HOURS);
    MulMonotone(AdjustedPd(pd, CASCADE_DISCOUNT_CAP), lower, lgd);
    ScaledLoss(pd, lgd, 1.0 - CASCADE_DISCOUNT_CAP);
    CapKeepsShare(pd * lgd * 10000.0, lower * lgd * 10000.0,
                  FeeBps(pd, lgd, DEFAULT_MATURITY_HOURS), FeeBps(lower, lgd, DEFAULT_MATURITY_HOURS));
  }

  lemma {:induction false} ScaledLoss(pd: real, lgd: real, s: real)
    ensures (pd * s) * lgd == s * (pd * lgd)
  {
  }

  lemma {:induction false} CapKeepsShare(base: real, adjusted: real, baseFee: real, adjustedFee: real)
    requires adjusted >= (1.0 - CASCADE_DISCOUNT_CAP) * base
    requires -0.05 <= baseFee - Max(base, 300.0) <= 0.05
    requires -0.05 <= adjustedFee - Max(adjusted, 300.0) <= 0.05
    ensures adjustedFee >= (1.0 - CASCADE_DISCOUNT_CAP) * baseFee - 0.1
  {
  }

  /** Preventing more never raises the fee: if the larger claim is priced, the smaller one is, at no lower fee. */
  lemma {:induction false} MorePreventedNeverDearer(basePd: real, prevented: real, more: real, cost: real, lgd: real)
    requires lgd >= 0.0 && prevented <= more && CascadePrice(basePd, more, cost, lgd).Priced?
    ensures CascadePrice(basePd, prevented, cost, lgd).Priced?
    ensures CascadePrice(basePd, more, cost, lgd).p.adjustedFee <= CascadePrice(basePd, prevented, cost, lgd).p.adjustedFee
  {
    DiscountMonotone(prevented, more, cost);
    AdjustedPdBounds(basePd, more, cost);
    MulMonotone(1.0 - Discount(more, cost), 1.0 - Discount(prevented, cost), basePd);
    FeeSound(AdjustedPd(basePd, Discount(more, cost)), lgd,
             AdjustedPd(basePd, Discount(prevented, cost)), lgd, DEFAULT_MATURITY_HOURS);
  }
}
