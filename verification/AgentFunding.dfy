/**
 * The pipeline with the execution agent as C7: what its replies become, and
 * what it ever lends.
 */
module AgentFunding {
  import opened UetrTracker
  import opened OfferDesk
  import opened Options
  import opened ExecutionAgent
  import opened Fees
  import opened RealSums
  import opened PaymentStates
  import opened Pipeline
  import opened Outcomes
  import opened PipelineRuns
  import opened Funding

  /** The agent was C7 for this call: for the decision, and for the log of a block. */
  ghost predicate AgentActs(s: Settings, t: Tracker, c: Call, a: AgentState) {
    var g := GateOf(s, t, c);
    && (ReachesC7(g) ==> c.en.c7 == AgentReply(OfferContext(c), a))
    && (LogsBlock(g) ==> c.en.log == AgentReply(LogContext(g, c), a))
  }

  /** The agent was C7 throughout the run. */
  ghost predicate AgentRuns(s: Settings, w: World, actions: seq<Action>) {
    forall i: nat :: i < |actions| && actions[i].Process? ==>
      exists a: AgentState :: AgentActs(s, TrackerAt(s, w, actions, i), actions[i].c, a)
  }

  /** What the agent lends on: a payment of at least 1.5, 0.7 or 0.5 million by its class, likely to fail, as large as the original. */
  ghost predicate Bankable(ev: Event, en: Engines) {
    && ev.rejection != UnknownCode && ev.rejection != Known(Block)
    && ev.payment.amount >= (if ev.rejection == Known(ClassA) then 1500000.0 else if ev.rejection == Known(ClassC) then 500000.0 else 700000.0)
    && en.c1.Probability? && en.c1.p >= 0.10
    && (ev.original.Some? ==> -0.01 <= ev.payment.amount - ev.original.value <= 0.01)
  }

  /**
   * What it lends: the payment up to its largest loan, at the fee of C2 or the
   * floor if that is higher, for at most 3, 7 or 21 days by the class.
   */
  ghost predicate FairlyPriced(ev: Event, en: Engines, a: AgentState, amount: real, feeBps: int, days: int)
    requires en.c2.Priced?
  {
    && amount == Min(ev.payment.amount, a.maxLoan)
    && feeBps >= 300 && feeBps >= en.c2.feeBps && (a.hours < 48.0 ==> feeBps >= 1200)
    && (feeBps == en.c2.feeBps || feeBps == 300 || (a.hours < 48.0 && feeBps == 1200))
    && days <= (if ev.rejection == Known(ClassA) then 3 else if ev.rejection == Known(ClassC) then 21 else 7)
    && (a.hours < 24.0 ==> days == 1) && (a.hours >= 24.0 && a.dynamicDays == None ==> days >= 3)
  }

  /** Main result: with the agent as C7, every loan and position of a run is for a bankable payment, priced as it must be. */
  lemma {:induction false} AgentFundsViableLoans(s: Settings, w: World, actions: seq<Action>, n: nat, risk: bool, p: nat)
    returns (i: nat, a: AgentState)
    requires n <= |actions| && NewWorld(w) && AgentRuns(s, w, actions) && p < |Book(After(s, w, actions, n), risk)|
    ensures i < n && actions[i].Process? && Cleared(s, TrackerAt(s, w, actions, i), actions[i].c)
    ensures var l, c := Book(After(s, w, actions, n), risk)[p], actions[i].c;
            && Bankable(c.ev, c.en) && FairlyPriced(c.ev, c.en, a, l.principal, l.feeBps, l.maturityDays)
            && l.loanId == a.offerId && l.uetr == if a.substitute.Some? then a.substitute.value else c.ev.uetr
  {
    var d, k;
    d, i, k := LoanHasCall(s, w, actions, n, risk, p);
    var t, c := TrackerAt(s, w, actions, i), actions[i].c;
    a :| AgentActs(s, t, c, a);
    AgentHandover(s, t, c, a);
  }

  lemma {:induction false} AgentHandover(s: Settings, t: Tracker, c: Call, a: AgentState)
    requires HandsOver(s, t, c) && AgentActs(s, t, c, a)
    ensures Cleared(s, t, c) && Bankable(c.ev, c.en)
    ensures var d := HandedOffer(s, t, c);
            && FairlyPriced(c.ev, c.en, a, d.amount, d.feeBps, d.maturityDays)
            && d.offerId == a.offerId && d.uetr == if a.substitute.Some? then a.substitute.value else c.ev.uetr
  {
    var g, ctx := GateOf(s, t, c), OfferContext(c);
    GatesOfC7(s, t, c);
    if LogsBlock(g) {
      AgentLogsOnly(s, t, c);
    } else {
      AgentHandsOverIff(ctx, a);
      AgentHandsTerms(ctx, a);
      AgentOfferIsViable(ctx, a);
      ClearsIff(s, t, c, a);
      TermsArePriced(c, a);
    }
  }

  lemma {:induction false} TermsArePriced(c: Call, a: AgentState)
    requires c.en.c2.Priced? && MaturityDays(c.ev.rejection) > 0
    ensures var o := OfferTerms(OfferContext(c), a); FairlyPriced(c.ev, c.en, a, o.amount, o.feeBps, o.maturityDays)
  {
  }

  // --------------------------------------------------- what the agent's replies become

  /** The license has room, no switch is off, and the borrower is enrolled. */
  ghost predicate Serves(c: Call, a: AgentState) {
    c.ev.uetr != "" && a.tpsAllows && !a.halted && a.enrolled
  }

  /** Review is not needed, or a human has approved. */
  ghost predicate Approved(c: Call, a: AgentState) {
    a.needsReview ==> c.approved
  }

  /** Bankable, in a supported currency, within the license, and worth at least 150 in fees. */
  ghost predicate Lendable(c: Call, a: AgentState)
    requires c.en.c2.Priced?
  {
    && Bankable(c.ev, c.en) && a.supported && c.ev.payment.amount >= a.licenseMinimum
    && LoanFee(c.ev.payment.amount, Max(300.0, c.en.c2.feeBps as real), MaturityDays(c.ev.rejection) as real) >= 150.0
  }

  /** Another router takes the offer, there is no desk, or the desk takes it. */
  ghost predicate Routes(a: AgentState) {
    a.goRouted || !a.hasDesk || !a.deskRaises
  }

  /**
   * Main result: what exactly a cleared payment meets at the agent, in the words
   * of the pipeline.  A payment without a reference is declined, as is one that cannot
   * be lent on; a decision that cannot be logged is a system error, but for a
   * halt and a review.  COMPLIANCE_HOLD is never returned: codes that mean a hold
   * were turned away as disputes before.
   */
  lemma {:induction false} AgentOutcomes(s: Settings, t: Tracker, c: Call, a: AgentState)
    requires AgentActs(s, t, c, a) && Cleared(s, t, c)
    ensures var r, up := ReplyOf(s, t, c), c.ev.uetr != "" && a.tpsAllows && !a.halted;
            var parked := up && a.enrolled && !Approved(c, a);
            var lends := Serves(c, a) && Approved(c, a) && Lendable(c, a);
            && !Says(r, ComplianceHold)
            && (Says(r, Halt) <==> c.ev.uetr != "" && (!a.tpsAllows || a.halted))
            && (Says(r, PendingHumanReview) <==> parked)
            && (Says(r, SystemError) <==> up && !parked && (a.logRaises || (lends && !Routes(a))))
            && (Says(r, Offered) || Says(r, DomesticLegFailure) <==> lends && Routes(a) && !a.logRaises)
            && (Says(r, Declined) <==> c.ev.uetr == "" || (up && !parked && !lends && !a.logRaises))
  {
    assert c.en.c7 == AgentReply(OfferContext(c), a) by {
      GatesOfC7(s, t, c);
    }
    ClearedGets(s, t, c);
    ClearsIff(s, t, c, a);
    AgentExactly(OfferContext(c), a);
  }

  lemma {:induction false} ClearsIff(s: Settings, t: Tracker, c: Call, a: AgentState)
    requires Cleared(s, t, c)
    ensures Clears(OfferContext(c), a) <==> Serves(c, a) && Approved(c, a) && Lendable(c, a)
  {
    if ProjectedFee(OfferContext(c)) >= MIN_CASH_FEE {
      FeeNeedsTenor(OfferContext(c));
    }
  }

  /** The replies of the agent for a payment that no earlier gate would have blocked. */
  lemma {:induction false} AgentExactly(ctx: PaymentContext, a: AgentState)
    requires ctx.amlPassed && !ctx.disputed && !ctx.holdCode
    ensures var r, up := AgentReply(ctx, a), ctx.uetr != "" && a.tpsAllows && !a.halted;
            var parked := up && a.enrolled && a.needsReview && !ctx.approved;
            && (r == Refuses(Halted) <==> ctx.uetr != "" && (!a.tpsAllows || a.halted))
            && (r == Refuses(AwaitingReview) <==> parked)
            && (r.C7Raises? <==> up && !parked && (a.logRaises || (Clears(ctx, a) && !Routes(a))))
            && (r.Offers? <==> Clears(ctx, a) && Routes(a) && !a.logRaises)
            && r != NoStatus && r != Refuses(ComplianceHoldBlocksBridge)
  {
  }
}
