/**
 * What a caller of the pipeline is told, in the fields of the event and the
 * replies of the engines: when each outcome is returned, when the call raises,
 * and what the flags of a result mean.
 */
module Outcomes {
  import opened PaymentStates
  import opened UetrTracker
  import opened AmlGate
  import opened ExecutionAgent
  import opened OfferDesk
  import opened Options
  import opened Pipeline

  predicate Says(r: Reply, o: Outcome) {
    r.Returned? && r.result.outcome == o
  }

  // ------------------------------------------------------ how far a payment gets

  /** New, and not turned away before an engine is asked. */
  ghost predicate Enters(s: Settings, t: Tracker, c: Call) {
    && !IsRetry(t, s.ttl, c.ev.uetr, c.ev.payment, c.now)
    && c.en.stress != Raises && c.ev.rejection != Known(Block)
  }

  /** Likely enough to fail: C4 and C6 are asked. */
  ghost predicate Screened(s: Settings, t: Tracker, c: Call) {
    Enters(s, t, c) && c.en.c1.Probability? && c.en.c1.p >= s.threshold
  }

  ghost predicate Disputed(r: C4Reply) {
    r == C4Raises || r == Class(DisputeConfirmed) || r == Class(DisputePossible)
  }

  /** Neither a dispute nor unreadable. */
  ghost predicate Undisputed(r: C4Reply) {
    !Disputed(r) && r != Unreadable
  }

  /** Passed by C4 and, un-flagged, by C6, and priced: C7 is asked to decide. */
  ghost predicate Cleared(s: Settings, t: Tracker, c: Call) {
    Screened(s, t, c) && Undisputed(c.en.c4) && c.en.c6 == Checked(true, false) && c.en.c2.Priced?
  }

  // ------------------------------------------------------------ when each is returned

  /** When a payment is turned away before C4 and C6 are asked. */
  lemma {:induction false} TurnedAwayIff(s: Settings, t: Tracker, c: Call)
    ensures Says(ReplyOf(s, t, c), RetryBlocked) <==> IsRetry(t, s.ttl, c.ev.uetr, c.ev.payment, c.now)
    ensures Says(ReplyOf(s, t, c), BelowThreshold) <==> Enters(s, t, c) && c.en.c1.Probability? && c.en.c1.p < s.threshold
  {
  }

  /** Main result: when it is blocked, by its rejection code or by what C4 and C6 say of it. */
  lemma {:induction false} BlockedIff(s: Settings, t: Tracker, c: Call)
    ensures var r, en := ReplyOf(s, t, c), c.en;
            && (Says(r, AmlCheckUnavailable) <==>
                  Screened(s, t, c) && en.c4 != Unreadable && (en.c6.C6Raises? || en.c6 == C6Null))
            && (Says(r, DisputeBlockedOutcome) <==>
                  || (!IsRetry(t, s.ttl, c.ev.uetr, c.ev.payment, c.now) && en.stress != Raises && c.ev.rejection == Known(Block))
                  || (Screened(s, t, c) && Disputed(en.c4) && en.c6.Checked?))
            && (Says(r, AmlBlockedOutcome) <==>
                  Screened(s, t, c) && Undisputed(en.c4) && en.c6.Checked? && !en.c6.passed)
  {
  }

  /** Main result: and what becomes of a refusal of C7, or of a payment that C6 flags. */
  lemma {:induction false} RefusedIff(s: Settings, t: Tracker, c: Call)
    ensures var r, en := ReplyOf(s, t, c), c.en;
            && (Says(r, Halt) <==> Cleared(s, t, c) && en.c7 == Refuses(Halted))
            && (Says(r, ComplianceHold) <==>
                  Cleared(s, t, c) && en.c7 == Refuses(ComplianceHoldBlocksBridge) && en.notify != Raises)
            && (Says(r, PendingHumanReview) <==>
                  || (Screened(s, t, c) && Undisputed(en.c4) && en.c6 == Checked(true, true))
                  || (Cleared(s, t, c) && en.c7 == Refuses(AwaitingReview)))
  {
  }

  /** Every other refusal is a decline, an exception of C7 a system error, and only an offer is an offer. */
  lemma {:induction false} DecidedIff(s: Settings, t: Tracker, c: Call)
    ensures var r, en := ReplyOf(s, t, c), c.en;
            && (Says(r, Declined) <==>
                  Cleared(s, t, c) && en.c7.Refuses?
                  && en.c7.status != ComplianceHoldBlocksBridge && en.c7.status != Halted && en.c7.status != AwaitingReview)
            && (Says(r, SystemError) <==> Cleared(s, t, c) && en.c7.C7Raises?)
            && (Says(r, Offered) || Says(r, DomesticLegFailure) <==> Cleared(s, t, c) && en.c7.Offers?)
  {
  }

  /** A cleared payment gets what C7 says. */
  lemma {:induction false} ClearedGets(s: Settings, t: Tracker, c: Call)
    requires Cleared(s, t, c)
    ensures var r, c7 := ReplyOf(s, t, c), c.en.c7;
            && (Says(r, Halt) <==> c7 == Refuses(Halted))
            && (Says(r, ComplianceHold) ==> c7 == Refuses(ComplianceHoldBlocksBridge))
            && (Says(r, PendingHumanReview) <==> c7 == Refuses(AwaitingReview))
            && (Says(r, Declined) <==> c7.Refuses? && c7.status !in {ComplianceHoldBlocksBridge, Halted, AwaitingReview})
            && (Says(r, SystemError) <==> c7.C7Raises?)
            && (Says(r, Offered) || Says(r, DomesticLegFailure) <==> c7.Offers?)
  {
    RefusedIff(s, t, c);
    DecidedIff(s, t, c);
  }

  /** Main result: exactly when the caller gets an exception instead of a result. */
  lemma {:induction false} RaisedIff(s: Settings, t: Tracker, c: Call)
    ensures var en := c.en;
            ReplyOf(s, t, c) == Raised <==>
              || (!IsRetry(t, s.ttl, c.ev.uetr, c.ev.payment, c.now) && en.stress == Raises)
              || (Enters(s, t, c) && en.c1 == C1Raises)
              || (Screened(s, t, c) && (en.c6 == C6SetupRaises || en.c6 == NoVerdict || en.c4 == Unreadable))
              || (Screened(s, t, c) && Undisputed(en.c4) && en.c6 == Checked(true, false) && en.c2 == C2Raises)
              || (Cleared(s, t, c) && en.c7 == NoStatus)
              || (Cleared(s, t, c) && en.c7 == Refuses(ComplianceHoldBlocksBridge) && en.notify == Raises)
  {
  }

  // ------------------------------------------------------------------ the flags

  /**
   * Main result: the AML flags of a result.  Past C1 the payment is
   * hard-blocked unless C6 passed it, and reported as refused exactly if C6
   * refused it; no verdict is reported where C6 was not asked or did not answer.
   */
  lemma {:induction false} AmlFlags(s: Settings, t: Tracker, c: Call)
    requires ReplyOf(s, t, c).Returned?
    ensures var r := ReplyOf(s, t, c).result;
            && (Screened(s, t, c) ==>
                  && (r.amlHardBlock <==> !(c.en.c6.Checked? && c.en.c6.passed))
                  && (r.amlPassed == Some(false) <==> c.en.c6.Checked? && !c.en.c6.passed)
                  && (r.amlPassed == None <==> !c.en.c6.Checked?))
            && (!Screened(s, t, c) ==>
                  && !r.amlHardBlock && r.amlPassed != Some(false)
                  && (r.amlPassed == Some(true) <==> r.outcome == DisputeBlockedOutcome))
  {
  }

  /** The other flags, and the state a payment is left in. */
  lemma {:induction false} OtherFlags(s: Settings, t: Tracker, c: Call)
    requires ReplyOf(s, t, c).Returned?
    ensures var r := ReplyOf(s, t, c).result;
            && (r.aboveThreshold <==> Screened(s, t, c))
            && (r.disputeHardBlock <==> r.outcome == DisputeBlockedOutcome)
            && (r.complianceHold <==> r.outcome == ComplianceHold)
            && (r.anomalyFlagged <==> Screened(s, t, c) && Undisputed(c.en.c4) && c.en.c6 == Checked(true, true))
            && (r.state == None <==> r.outcome == RetryBlocked)
            && (r.state == Some(Monitoring) <==> r.outcome == BelowThreshold)
            && (r.state == Some(DisputeBlocked) <==> r.outcome == DisputeBlockedOutcome)
            && (r.state == Some(AmlBlocked) <==> r.outcome in {AmlBlockedOutcome, AmlCheckUnavailable})
            && (r.state == Some(BridgeOffered) <==> r.outcome in {Offered, DomesticLegFailure})
  {
  }

  /** The offer in a result is the one C7 returned, named after the parent if it is for a domestic leg. */
  lemma {:induction false} OfferIsC7s(s: Settings, t: Tracker, c: Call)
    requires ReplyOf(s, t, c).Returned?
    ensures var r := ReplyOf(s, t, c).result;
            && (r.offer.Some? <==> Cleared(s, t, c) && c.en.c7.Offers? && c.en.c7.offer.Some?)
            && (r.offer.Some? && r.outcome == Offered ==> r.offer == c.en.c7.offer)
            && (r.offer.Some? && r.outcome == DomesticLegFailure ==>
                  && c.ev.uetr in t.handoffs
                  && r.offer.value == Offer(c.en.c7.offer.value.id, Some(t.handoffs[c.ev.uetr].0)))
  {
  }

  // ------------------------------------------------------------------ what it writes

  /**
   * Main result: a call leaves a velocity entry exactly if C6 records and was
   * asked, and either passed the payment or raised after writing; a tenant's
   * payment leaves two, in two windows.
   */
  lemma {:induction false} WritesVelocityIff(s: Settings, w: World, c: Call)
    ensures Called(s, w, c).velocity != w.velocity <==>
              s.records && Screened(s, w.tracker, c) && (c.en.c6 == C6Raises(true) || (c.en.c6.Checked? && c.en.c6.passed))
    ensures Called(s, w, c).velocity != w.velocity && c.ev.tenant == None ==>
              Called(s, w, c).velocity == w.velocity + [Velocity(c.ev.entity, c.ev.payment.amount, c.ev.beneficiary, c.now, Direct)]
    ensures Called(s, w, c).velocity != w.velocity && c.ev.tenant.Some? ==>
              Called(s, w, c).velocity == w.velocity
                + [Velocity(c.ev.entity, c.ev.payment.amount, c.ev.beneficiary, c.now, Tenant(c.ev.tenant.value)),
                   Velocity(c.ev.entity, c.ev.payment.amount, c.ev.beneficiary, c.now, AllTenants)]
  {
  }

  /** What C7 hands over, on the way to a decision or to the log of a block. */
  ghost predicate Delivers(r: C7Reply, terms: Terms) {
    r == C7Raises(Some(terms)) || (r.Offers? && r.handed == Some(terms))
  }

  /** The block of the payment is logged with C7. */
  ghost predicate BlockLogged(s: Settings, t: Tracker, c: Call) {
    Says(ReplyOf(s, t, c), DisputeBlockedOutcome) || Says(ReplyOf(s, t, c), AmlBlockedOutcome)
    || Says(ReplyOf(s, t, c), AmlCheckUnavailable)
  }

  /** The call hands over on these terms: deciding, or logging a block. */
  ghost predicate Gives(s: Settings, t: Tracker, c: Call, terms: Terms) {
    (Cleared(s, t, c) && Delivers(c.en.c7, terms)) || (BlockLogged(s, t, c) && Delivers(c.en.log, terms))
  }

  lemma {:induction false} GatesOfC7(s: Settings, t: Tracker, c: Call)
    ensures ReachesC7(GateOf(s, t, c)) <==> Cleared(s, t, c)
    ensures LogsBlock(GateOf(s, t, c)) <==> BlockLogged(s, t, c)
  {
  }

  lemma {:induction false} GivesWhatIsHanded(s: Settings, t: Tracker, c: Call, terms: Terms)
    ensures Gives(s, t, c, terms) <==> HandedAt(GateOf(s, t, c), c.en) == Some(terms)
  {
    GatesOfC7(s, t, c);
    DeliversHanded(c.en.c7, terms);
    DeliversHanded(c.en.log, terms);
  }

  lemma {:induction false} DeliversHanded(r: C7Reply, terms: Terms)
    ensures Delivers(r, terms) <==> Handed(r) == Some(terms)
  {
  }

  /**
   * Main result: exactly when a call leaves an offer at the desk, and with what:
   * the terms of C7, and the parties of the payment unless it was being logged.
   */
  lemma {:induction false} HandsOverIff(s: Settings, t: Tracker, c: Call)
    ensures HandsOver(s, t, c) <==> exists terms: Terms :: Gives(s, t, c, terms)
    ensures forall terms: Terms :: Gives(s, t, c, terms) ==> HandsOver(s, t, c) && Carries(HandedOffer(s, t, c), terms, c.ev, Cleared(s, t, c))
  {
    forall terms: Terms | Gives(s, t, c, terms)
      ensures HandsOver(s, t, c) && Carries(HandedOffer(s, t, c), terms, c.ev, Cleared(s, t, c))
    {
      GivesWhatIsHanded(s, t, c, terms);
      GatesOfC7(s, t, c);
      ContextCarries(GateOf(s, t, c), c, terms);
    }
    if HandsOver(s, t, c) {
      GivesWhatIsHanded(s, t, c, HandedAt(GateOf(s, t, c), c.en).value);
    }
  }

  /** The delivery has these terms, for this payment; a blocked one names no parties. */
  ghost predicate Carries(d: Delivery, terms: Terms, ev: Event, parties: bool) {
    && d.offerId == terms.offerId && d.amount == terms.amount && d.feeBps == terms.feeBps
    && d.maturityDays == terms.maturityDays && d.expiry == terms.expiry && d.elo == terms.elo
    && d.uetr == (if terms.substitute.Some? then terms.substitute.value else ev.uetr)
    && (parties ==>
          && d.entity == ev.entity && d.beneficiary == ev.beneficiary
          && d.sendingBic == ev.payment.sendingBic && d.receivingBic == ev.payment.receivingBic)
    && (!parties ==> d.entity == d.beneficiary == d.sendingBic == d.receivingBic == "")
  }

  lemma {:induction false} ContextCarries(g: Gate, c: Call, terms: Terms)
    requires LogsBlock(g) || ReachesC7(g)
    ensures Carries(DeliveryOf(ContextAt(g, c), terms), terms, c.ev, ReachesC7(g))
  {
  }
}
