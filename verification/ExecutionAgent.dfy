/**
 * C7: the agent that decides on a bridge loan and hands its offer to the desk.
 * The pipeline asks it for a decision on every payment that passed the checks,
 * and for a log entry on every payment that was blocked.
 */
module ExecutionAgent {
  import opened PaymentStates
  import opened OfferDesk
  import opened Fees
  import opened RealSums
  import opened Options

  datatype Offer = Offer(id: string, parent: Option<string>)

  /**
   * What is handed to the desk.  The desk stamps a substitute reference when
   * that of the payment is not well formed.
   */
  datatype Terms = Terms(offerId: string, amount: real, feeBps: int, maturityDays: int, expiry: real,
                         elo: string, substitute: Option<string>)

  /** The statuses that end a payment without an offer. */
  datatype C7Status =
    | ComplianceHoldBlocksBridge | Halted | AwaitingReview
    | Decline | Blocked | CurrencyNotSupported | BorrowerNotEnrolled
    | BelowMinLoanAmount | BelowMinCashFee | LoanAmountMismatch

  /**
   * A reply without a status raises where it is read; any status not listed is
   * an offer.  An offer is handed over on the way to returning it, and C7 may
   * still raise after that.
   */
  datatype C7Reply =
    | C7Raises(handed: Option<Terms>) | NoStatus | Refuses(status: C7Status)
    | Offers(offer: Option<Offer>, handed: Option<Terms>)

  function Handed(r: C7Reply): Option<Terms> {
    if r.C7Raises? || r.Offers? then r.handed else None
  }

  /** What the pipeline tells C7 about a payment; a missing key has its default. */
  datatype PaymentContext = PaymentContext(
    uetr: string, probability: real, amount: real, original: real, feeBps: int, maturityDays: nat,
    cls: Option<RejectionClass>, disputed: bool, amlPassed: bool, holdCode: bool, approved: bool,
    entity: string, beneficiary: string, sendingBic: string, receivingBic: string)

  function DeliveryOf(ctx: PaymentContext, terms: Terms): Delivery {
    Delivery(terms.offerId, if terms.substitute.Some? then terms.substitute.value else ctx.uetr,
             terms.amount, terms.feeBps, terms.maturityDays,
             ctx.entity, ctx.beneficiary, ctx.sendingBic, ctx.receivingBic, terms.elo, terms.expiry)
  }

  function AfterReply(k: Desk, ctx: PaymentContext, r: C7Reply): Desk {
    if Handed(r).Some? then Delivered(k, DeliveryOf(ctx, Handed(r).value)) else k
  }

  // ------------------------------------------------------------ the agent itself

  const MIN_LOAN_AMOUNT_CLASS_A: real := 1500000.0
  const MIN_LOAN_AMOUNT_CLASS_B: real := 700000.0
  const MIN_LOAN_AMOUNT_CLASS_C: real := 500000.0
  const MIN_LOAN_AMOUNT: real := 500000.0
  const MIN_CASH_FEE: real := 150.0
  const AMOUNT_TOLERANCE: real := 0.01
  const MIN_PROBABILITY: real := 0.10

  /**
   * What the agent finds besides the context: its license and switches, the
   * review rules, the routes of an offer, whether the decision log works, and the
   * loan hours of the rail with a predicted number of days, if there is one.
   */
  datatype AgentState = AgentState(
    tpsAllows: bool, halted: bool, enrolled: bool, needsReview: bool, supported: bool,
    licenseMinimum: real, maxLoan: real, goRouted: bool, hasDesk: bool, deskRaises: bool, logRaises: bool,
    hours: real, dynamicDays: Option<int>, offerId: string, expiry: real, substitute: Option<string>)

  function ClassMinimum(cls: Option<RejectionClass>): real {
    match cls
    case Some(ClassA) => MIN_LOAN_AMOUNT_CLASS_A
    case Some(ClassB) => MIN_LOAN_AMOUNT_CLASS_B
    case Some(ClassC) => MIN_LOAN_AMOUNT_CLASS_C
    case _ => MIN_LOAN_AMOUNT
  }

  function EffectiveMinimum(ctx: PaymentContext, a: AgentState): real {
    Max(ClassMinimum(ctx.cls), a.licenseMinimum)
  }

  function ProjectedFee(ctx: PaymentContext): real {
    LoanFee(ctx.amount, Max(FEE_FLOOR_BPS, ctx.feeBps as real), ctx.maturityDays as real)
  }

  function LargerInt(x: int, y: int): int {
    if x >= y then x else y
  }

  /** The fee is raised to the floor of the platform and of the loan's hours. */
  function OfferFeeBps(ctx: PaymentContext, a: AgentState): int {
    LargerInt(LargerInt(ctx.feeBps, FEE_FLOOR_BPS.Floor), FloorFor(a.hours).Floor)
  }

  /** A prediction only shortens a loan, and a loan of hours counts as one day. */
  function OfferDays(ctx: PaymentContext, a: AgentState): int {
    if a.hours < 24.0 then 1
    else if a.dynamicDays.Some? && a.dynamicDays.value < ctx.maturityDays then a.dynamicDays.value
    else ctx.maturityDays
  }

  function OfferTerms(ctx: PaymentContext, a: AgentState): Terms {
    Terms(a.offerId, Min(ctx.amount, a.maxLoan), OfferFeeBps(ctx, a), OfferDays(ctx, a), a.expiry, "", a.substitute)
  }

  /** A refusal that is written to the decision log first. */
  function LoggedRefusal(a: AgentState, status: C7Status): C7Reply {
    if a.logRaises then C7Raises(None) else Refuses(status)
  }

  function AgentReply(ctx: PaymentContext, a: AgentState): C7Reply {
    if ctx.uetr == "" then Refuses(Decline)
    else if !a.tpsAllows || a.halted then Refuses(Halted)
    else if !a.enrolled then LoggedRefusal(a, BorrowerNotEnrolled)
    else if !ctx.amlPassed || ctx.disputed then LoggedRefusal(a, Blocked)
    else if ctx.holdCode then LoggedRefusal(a, ComplianceHoldBlocksBridge)
    else if a.needsReview && !ctx.approved then Refuses(AwaitingReview)
    else if ctx.probability < MIN_PROBABILITY then LoggedRefusal(a, Decline)
    else if !a.supported then LoggedRefusal(a, CurrencyNotSupported)
    else if ctx.amount < EffectiveMinimum(ctx, a) then LoggedRefusal(a, BelowMinLoanAmount)
    else if ProjectedFee(ctx) < MIN_CASH_FEE then LoggedRefusal(a, BelowMinCashFee)
    else if Abs(ctx.amount - ctx.original) > AMOUNT_TOLERANCE then LoggedRefusal(a, LoanAmountMismatch)
    else OfferReply(ctx, a)
  }

  /** The desk takes the offer unless another router did; the decision is logged after that. */
  function OfferReply(ctx: PaymentContext, a: AgentState): C7Reply {
    var routed := a.goRouted || !a.hasDesk;
    if !routed && a.deskRaises then C7Raises(None)
    else
      var handed := if routed then None else Some(OfferTerms(ctx, a));
      if a.logRaises then C7Raises(handed) else Offers(Some(Offer(a.offerId, None)), handed)
  }

  class ExecutionAgent {
    const desk: OfferDeliveryService

    constructor (desk: OfferDeliveryService)
      ensures this.desk == desk
    {
      this.desk := desk;
    }

    method ProcessPayment(ctx: PaymentContext, a: AgentState) returns (reply: C7Reply)
      modifies desk
      ensures reply == AgentReply(ctx, a)
      ensures desk.View() == AfterReply(old(desk.View()), ctx, reply)
    {
      if ctx.uetr == "" {
        return Refuses(Decline);
      }
      if !a.tpsAllows || a.halted {
        return Refuses(Halted);
      }
      if !a.enrolled {
        return LoggedRefusal(a, BorrowerNotEnrolled);
      }
      if !ctx.amlPassed || ctx.disputed {
        return LoggedRefusal(a, Blocked);
      }
      if ctx.holdCode {
        return LoggedRefusal(a, ComplianceHoldBlocksBridge);
      }
      if a.needsReview && !ctx.approved {
        return Refuses(AwaitingReview);
      }
      if ctx.probability < MIN_PROBABILITY {
        return LoggedRefusal(a, Decline);
      }
      if !a.supported {
        return LoggedRefusal(a, CurrencyNotSupported);
      }
      if ctx.amount < EffectiveMinimum(ctx, a) {
        return LoggedRefusal(a, BelowMinLoanAmount);
      }
      if ProjectedFee(ctx) < MIN_CASH_FEE {
        return LoggedRefusal(a, BelowMinCashFee);
      }
      if Abs(ctx.amount - ctx.original) > AMOUNT_TOLERANCE {
        return LoggedRefusal(a, LoanAmountMismatch);
      }
      reply := MakeOffer(ctx, a);
    }

    method MakeOffer(ctx: PaymentContext, a: AgentState) returns (reply: C7Reply)
      modifies desk
      ensures reply == OfferReply(ctx, a)
      ensures desk.View() == AfterReply(old(desk.View()), ctx, reply)
    {
      var handed: Option<Terms> := None;
      if !a.goRouted && a.hasDesk {
        if a.deskRaises {
          return C7Raises(None);
        }
        handed := Some(OfferTerms(ctx, a));
        desk.Deliver(DeliveryOf(ctx, handed.value));
      }
      if a.logRaises {
        return C7Raises(handed);
      }
      reply := Offers(Some(Offer(a.offerId, None)), handed);
    }
  }

  // ------------------------------------------------- what the agent ever hands over

  /** Every gate of the agent lets the payment through. */
  predicate Clears(ctx: PaymentContext, a: AgentState) {
    && ctx.uetr != "" && a.tpsAllows && !a.halted && a.enrolled
    && ctx.amlPassed && !ctx.disputed && !ctx.holdCode
    && (a.needsReview ==> ctx.approved)
    && ctx.probability >= MIN_PROBABILITY && a.supported
    && ctx.amount >= ClassMinimum(ctx.cls) && ctx.amount >= a.licenseMinimum
    && ProjectedFee(ctx) >= MIN_CASH_FEE
    && -AMOUNT_TOLERANCE <= ctx.amount - ctx.original <= AMOUNT_TOLERANCE
  }

  /**
   * The agent hands an offer to the desk exactly if every gate lets the payment
   * through and the desk, not another router, takes it; whether its decision
   * log then works does not matter.
   */
  lemma {:induction false} AgentHandsOverIff(ctx: PaymentContext, a: AgentState)
    ensures Handed(AgentReply(ctx, a)).Some? <==> Clears(ctx, a) && !a.goRouted && a.hasDesk && !a.deskRaises
  {
  }

  /** Up to its human review nothing speaks against the payment. */
  predicate Reviewed(ctx: PaymentContext, a: AgentState) {
    && ctx.uetr != "" && a.tpsAllows && !a.halted && a.enrolled
    && ctx.amlPassed && !ctx.disputed && !ctx.holdCode && (a.needsReview ==> ctx.approved)
  }

  /** Which refusal is given: that of the first thing that speaks against the payment, if it can be logged. */
  lemma {:induction false} RefusalIff(ctx: PaymentContext, a: AgentState)
    requires !a.logRaises
    ensures var r, up := AgentReply(ctx, a), ctx.uetr != "" && a.tpsAllows && !a.halted;
            && (r == Refuses(BorrowerNotEnrolled) <==> up && !a.enrolled)
            && (r == Refuses(Blocked) <==> up && a.enrolled && (!ctx.amlPassed || ctx.disputed))
            && (r == Refuses(ComplianceHoldBlocksBridge) <==> up && a.enrolled && ctx.amlPassed && !ctx.disputed && ctx.holdCode)
            && (r == Refuses(Decline) <==> ctx.uetr == "" || (Reviewed(ctx, a) && ctx.probability < 0.10))
            && (r == Refuses(CurrencyNotSupported) <==> Reviewed(ctx, a) && ctx.probability >= 0.10 && !a.supported)
  {
  }

  /** The amount may fall short of the class or the license, the fee of 150, or the amount differ from the original. */
  lemma {:induction false} EconomicRefusalIff(ctx: PaymentContext, a: AgentState)
    requires Reviewed(ctx, a) && ctx.probability >= 0.10 && a.supported && !a.logRaises
    ensures var r, small := AgentReply(ctx, a), ctx.amount < ClassMinimum(ctx.cls) || ctx.amount < a.licenseMinimum;
            && (r == Refuses(BelowMinLoanAmount) <==> small)
            && (r == Refuses(BelowMinCashFee) <==> !small && ProjectedFee(ctx) < 150.0)
            && (r == Refuses(LoanAmountMismatch) <==>
                  !small && ProjectedFee(ctx) >= 150.0 && !(-0.01 <= ctx.amount - ctx.original <= 0.01))
  {
  }

  /** A payment blocked by AML or as a dispute never reaches the desk. */
  lemma {:induction false} AgentNeverHandsBlocked(ctx: PaymentContext, a: AgentState)
    requires !ctx.amlPassed || ctx.disputed
    ensures Handed(AgentReply(ctx, a)) == None
  {
    AgentHandsOverIff(ctx, a);
  }

  /**
   * Main result: what the agent hands over is worth making: at least the
   * smaller of the class minimum and the largest loan, at no less than the floor
   * of its hours, for a projected fee that needs no absolute floor.
   */
  lemma {:induction false} AgentOfferIsViable(ctx: PaymentContext, a: AgentState)
    requires Handed(AgentReply(ctx, a)).Some?
    ensures Handed(AgentReply(ctx, a)).value.amount >= Min(ClassMinimum(ctx.cls), a.maxLoan)
    ensures Handed(AgentReply(ctx, a)).value.feeBps as real >= FloorFor(a.hours) >= FEE_FLOOR_BPS
    ensures ctx.maturityDays > 0
    ensures ProjectedFee(ctx) >= MIN_CASH_FEE && AbsoluteFloor(ProjectedFee(ctx)) == ProjectedFee(ctx)
  {
    AgentHandsOverIff(ctx, a);
    AgentHandsTerms(ctx, a);
    OfferFeeMeetsFloor(ctx, a);
    FeeNeedsTenor(ctx);
  }

  lemma {:induction false} AgentHandsTerms(ctx: PaymentContext, a: AgentState)
    requires Handed(AgentReply(ctx, a)).Some?
    ensures Handed(AgentReply(ctx, a)) == Some(OfferTerms(ctx, a))
  {
  }

  lemma {:induction false} OfferFeeMeetsFloor(ctx: PaymentContext, a: AgentState)
    ensures OfferFeeBps(ctx, a) as real >= FloorFor(a.hours) >= FEE_FLOOR_BPS
  {
  }

  /** An unknown code has no tenor, so its projected fee is too small. */
  lemma {:induction false} FeeNeedsTenor(ctx: PaymentContext)
    requires ProjectedFee(ctx) >= MIN_CASH_FEE
    ensures ctx.maturityDays > 0 && AbsoluteFloor(ProjectedFee(ctx)) == ProjectedFee(ctx)
  {
    NoTenorNoFee(ctx.amount, Max(FEE_FLOOR_BPS, ctx.feeBps as real));
  }

  lemma {:induction false} NoTenorNoFee(amount: real, feeBps: real)
    ensures LoanFee(amount, feeBps, 0.0) == 0.0
  {
    ExactFeeAdds(amount, feeBps, 0.0, 0.0);
    HalfUpFixed(0);
  }
}
