/**
 * From offer to money over a whole run: where every loan and every velocity
 * entry comes from.
 */
module Funding {
  import opened UetrTracker
  import opened OfferDesk
  import opened LoanRuns
  import opened AmlGate
  import opened Options
  import opened ExecutionAgent
  import opened RealSums
  import opened PaymentStates
  import opened Pipeline
  import opened Outcomes
  import opened PipelineRuns
  import opened Lockstep

  /** Nothing processed, nothing offered, nothing lent. */
  ghost predicate NewWorld(w: World) {
    w.tracker == EMPTY && w.desk == EMPTY_DESK && w.loans == [] && w.positions == []
  }

  // ------------------------------------------------- a run as the desk sees it

  function DeskActionOf(s: Settings, t: Tracker, a: Action): DeskAction {
    match a
    case Process(c) => if HandsOver(s, t, c) then Deliver(HandedOffer(s, t, c)) else Wait
    case Accept(id, operator, now, _) => DeskAction.Accept(id, operator, now)
    case Reject(id, operator, reason, now) => DeskAction.Reject(id, operator, reason, now)
    case ExpireOffers(now) => Expire(now)
  }

  function DeskActions(s: Settings, w: World, actions: seq<Action>): (acts: seq<DeskAction>)
    ensures |acts| == |actions|
    ensures forall i :: 0 <= i < |acts| ==> acts[i] == DeskActionOf(s, TrackerAt(s, w, actions, i), actions[i])
  {
    seq(|actions|, i requires 0 <= i < |actions| => DeskActionOf(s, TrackerAt(s, w, actions, i), actions[i]))
  }

  /** The two books: positions of the risk engine, or loans of C3. */
  function Book(w: World, risk: bool): seq<Loan> {
    if risk then w.positions else w.loans
  }

  predicate Reaches(s: Settings, a: Action, risk: bool) {
    a.Accept? && if risk then TakesPosition(s, a.f) else Lends(s, a.f)
  }

  function Reached(s: Settings, actions: seq<Action>, risk: bool): (lends: seq<bool>)
    ensures |lends| == |actions| && forall i :: 0 <= i < |lends| ==> lends[i] == Reaches(s, actions[i], risk)
  {
    seq(|actions|, i requires 0 <= i < |actions| => Reaches(s, actions[i], risk))
  }

  function Desks(s: Settings, w: World, actions: seq<Action>): (ks: seq<Desk>)
    ensures |ks| == |actions| + 1 && forall i :: 0 <= i < |ks| ==> ks[i] == After(s, w, actions, i).desk
  {
    seq(|actions| + 1, i requires 0 <= i <= |actions| => After(s, w, actions, i).desk)
  }

  function Books(s: Settings, w: World, actions: seq<Action>, risk: bool): (books: seq<seq<Loan>>)
    ensures |books| == |actions| + 1 && forall i :: 0 <= i < |books| ==> books[i] == Book(After(s, w, actions, i), risk)
  {
    seq(|actions| + 1, i requires 0 <= i <= |actions| => Book(After(s, w, actions, i), risk))
  }

  lemma {:induction false} StepDesk(s: Settings, w: World, a: Action)
    ensures Step(s, w, a).desk == Acted(w.desk, DeskActionOf(s, w.tracker, a))
  {
  }

  /** A call moves no money; an acceptance moves that of the offer it resolves. */
  lemma {:induction false} StepBook(s: Settings, w: World, a: Action, risk: bool)
    ensures Book(Step(s, w, a), risk)
         == Book(w, risk) + LoanMade(w.desk, DeskActionOf(s, w.tracker, a), Reaches(s, a, risk))
  {
  }

  lemma {:induction false} DeskFollows(s: Settings, w: World, actions: seq<Action>, i: nat)
    requires i < |actions|
    ensures InStep(Desks(s, w, actions), AllDesks(DeskActions(s, w, actions)), i)
  {
    StepDesk(s, After(s, w, actions, i), actions[i]);
  }

  lemma {:induction false} DeskIsRun(s: Settings, w: World, actions: seq<Action>, n: nat)
    requires n <= |actions| && NewWorld(w)
    ensures After(s, w, actions, n).desk == DeskAfter(EMPTY_DESK, DeskActions(s, w, actions), n)
  {
    var ks, all := Desks(s, w, actions), AllDesks(DeskActions(s, w, actions));
    forall i: nat | i < n ensures InStep(ks, all, i) {
      DeskFollows(s, w, actions, i);
    }
    SameSteps(ks, all, n);
  }

  lemma {:induction false} BookFollows(s: Settings, w: World, actions: seq<Action>, risk: bool, i: nat)
    requires i < |actions| && NewWorld(w)
    ensures InStep(Books(s, w, actions, risk), AllLent(DeskActions(s, w, actions), Reached(s, actions, risk)), i)
  {
    DeskIsRun(s, w, actions, i);
    StepBook(s, After(s, w, actions, i), actions[i], risk);
    LentByIsMade(DeskActions(s, w, actions), Reached(s, actions, risk), i);
  }

  /** The books of a run are the loans of its desk. */
  lemma {:induction false} BookIsLent(s: Settings, w: World, actions: seq<Action>, n: nat, risk: bool)
    requires n <= |actions| && NewWorld(w)
    ensures Book(After(s, w, actions, n), risk) == Lent(DeskActions(s, w, actions), Reached(s, actions, risk), n)
  {
    var books, all := Books(s, w, actions, risk), AllLent(DeskActions(s, w, actions), Reached(s, actions, risk));
    forall i: nat | i < n ensures InStep(books, all, i) {
      BookFollows(s, w, actions, risk, i);
    }
    SameSteps(books, all, n);
  }

  // ------------------------------------------------------- where a loan comes from

  /** Call i handed the offer over to the desk. */
  ghost predicate HandsAt(s: Settings, w: World, actions: seq<Action>, i: nat, d: Delivery) {
    && i < |actions| && actions[i].Process?
    && HandsOver(s, TrackerAt(s, w, actions, i), actions[i].c)
    && d == HandedOffer(s, TrackerAt(s, w, actions, i), actions[i].c)
  }

  /** The loan is the offer of call i, accepted by action k before it expired. */
  ghost predicate FundedBy(s: Settings, w: World, actions: seq<Action>, n: nat, risk: bool, l: Loan, d: Delivery, i: nat, k: nat)
    requires n <= |actions|
  {
    && i < k < n && HandsAt(s, w, actions, i, d) && l == LoanOf(d)
    && Reaches(s, actions[k], risk)
    && AcceptReply(After(s, w, actions, k).desk, actions[k].id, actions[k].operator, actions[k].now) == Resolved(d)
    && actions[k].id == d.offerId && actions[k].operator != "" && actions[k].now < d.expiry
  }

  /**
   * Main result: every loan and every risk position of a run is the offer of an
   * earlier call, accepted by an operator before it expired.
   */
  lemma {:induction false} LoanHasCall(s: Settings, w: World, actions: seq<Action>, n: nat, risk: bool, p: nat)
    returns (d: Delivery, i: nat, k: nat)
    requires n <= |actions| && NewWorld(w) && p < |Book(After(s, w, actions, n), risk)|
    ensures FundedBy(s, w, actions, n, risk, Book(After(s, w, actions, n), risk)[p], d, i, k)
  {
    BookIsLent(s, w, actions, n, risk);
    d, i, k := LoanHasOffer(DeskActions(s, w, actions), Reached(s, actions, risk), n, p);
    TraceIsFunding(s, w, actions, n, risk, Book(After(s, w, actions, n), risk)[p], d, i, k);
  }

  /** What is lent is what C7 handed over: its amount, fee and days, for the payment of the call or its substitute. */
  lemma {:induction false} LoanIsAsHanded(s: Settings, w: World, actions: seq<Action>, n: nat, risk: bool, p: nat)
    returns (i: nat, terms: Terms)
    requires n <= |actions| && NewWorld(w) && p < |Book(After(s, w, actions, n), risk)|
    ensures i < n && actions[i].Process? && Gives(s, TrackerAt(s, w, actions, i), actions[i].c, terms)
    ensures Book(After(s, w, actions, n), risk)[p]
         == Loan(terms.offerId, if terms.substitute.Some? then terms.substitute.value else actions[i].c.ev.uetr,
                 terms.amount, terms.feeBps, terms.maturityDays)
  {
    var d, k;
    d, i, k := LoanHasCall(s, w, actions, n, risk, p);
    var t, c := TrackerAt(s, w, actions, i), actions[i].c;
    HandsOverIff(s, t, c);
    terms :| Gives(s, t, c, terms);
  }

  lemma {:induction false} TraceIsFunding(s: Settings, w: World, actions: seq<Action>, n: nat, risk: bool, l: Loan, d: Delivery, i: nat, k: nat)
    requires n <= |actions| && NewWorld(w)
    requires Traces(DeskActions(s, w, actions), Reached(s, actions, risk), n, l, d, i, k)
    ensures FundedBy(s, w, actions, n, risk, l, d, i, k)
  {
    DeskIsRun(s, w, actions, k);
  }

  /** Main result: no offer is funded twice. */
  lemma {:induction false} OfferFundedOnce(s: Settings, w: World, actions: seq<Action>, n: nat, risk: bool, p: nat, q: nat)
    requires n <= |actions| && NewWorld(w) && p < q < |Book(After(s, w, actions, n), risk)|
    ensures Book(After(s, w, actions, n), risk)[p].loanId != Book(After(s, w, actions, n), risk)[q].loanId
  {
    BookIsLent(s, w, actions, n, risk);
    OfferLendsOnce(DeskActions(s, w, actions), Reached(s, actions, risk), n, p, q);
  }

  /** A call that hands an offer over is answered. */
  lemma {:induction false} HandoverIsAnswered(s: Settings, t: Tracker, c: Call)
    requires HandsOver(s, t, c)
    ensures Answers(GateOf(s, t, c))
  {
  }

  /**
   * Main result: an answered call that reports neither an offer nor
   * SYSTEM_ERROR hands an offer over if and only if it was blocked at a gate
   * that is logged with C7, and C7 hands one over when it is asked for the log.
   */
  lemma {:induction false} SilentHandoverIff(s: Settings, t: Tracker, c: Call)
    requires ReplyOf(s, t, c).Returned? && ReplyOf(s, t, c).result.outcome !in {RetryBlocked, SystemError, Offered, DomesticLegFailure}
    ensures HandsOver(s, t, c) <==> LogsBlock(GateOf(s, t, c)) && Handed(c.en.log).Some?
  {
    ReplyTellsGate(s, t, c);
  }

  /** If the gate is logged with C7, it is the agent that was asked. */
  ghost predicate LoggedByAgent(s: Settings, t: Tracker, c: Call) {
    var g := GateOf(s, t, c);
    LogsBlock(g) ==> exists a: AgentState :: c.en.log == AgentReply(LogContext(g, c), a)
  }

  /** The context of a log call says that the payment is blocked, so the agent hands nothing over. */
  lemma {:induction false} AgentLogsOnly(s: Settings, t: Tracker, c: Call)
    requires LoggedByAgent(s, t, c) && LogsBlock(GateOf(s, t, c))
    ensures Handed(c.en.log) == None && !HandsOver(s, t, c)
  {
    var g := GateOf(s, t, c);
    var a: AgentState :| c.en.log == AgentReply(LogContext(g, c), a);
    AgentNeverHandsBlocked(LogContext(g, c), a);
  }

  /**
   * Main result: what a call that hands an offer over has passed, if the agent
   * keeps the log: every gate, the AML check un-flagged.  It is answered, with
   * an offer exactly if C7 does not raise after handing over.
   */
  lemma {:induction false} HandoverPassedGates(s: Settings, t: Tracker, c: Call)
    requires HandsOver(s, t, c) && LoggedByAgent(s, t, c)
    ensures !IsRetry(t, s.ttl, c.ev.uetr, c.ev.payment, c.now) && EnginesAgree(s, c.(en := c.en.(c7 := Offers(None, None))))
    ensures Answers(GateOf(s, t, c))
    ensures ReplyOf(s, t, c).Returned?
    ensures ReplyOf(s, t, c).result.outcome == SystemError <==> c.en.c7.C7Raises?
    ensures OffersBridge(ReplyOf(s, t, c)) <==> !c.en.c7.C7Raises?
    ensures OffersBridge(ReplyOf(s, t, c)) <==> AllGatesOpen(s, t, c)
  {
    if LogsBlock(GateOf(s, t, c)) {
      AgentLogsOnly(s, t, c);
    }
    ReachesC7Passed(s, t, c);
  }

  lemma {:induction false} ReachesC7Passed(s: Settings, t: Tracker, c: Call)
    requires ReachesC7(GateOf(s, t, c)) && HandsOver(s, t, c)
    ensures !IsRetry(t, s.ttl, c.ev.uetr, c.ev.payment, c.now) && EnginesAgree(s, c.(en := c.en.(c7 := Offers(None, None))))
    ensures ReplyOf(s, t, c).Returned?
    ensures ReplyOf(s, t, c).result.outcome == SystemError <==> c.en.c7.C7Raises?
    ensures OffersBridge(ReplyOf(s, t, c)) <==> !c.en.c7.C7Raises?
    ensures OffersBridge(ReplyOf(s, t, c)) <==> AllGatesOpen(s, t, c)
  {
    ReplyTellsGate(s, t, c);
    OfferIffAllGatesOpen(s, t, c);
  }

  /**
   * Main result: two loans come from two calls, and if these are for one
   * payment they are at least the TTL apart.
   */
  lemma {:induction false} LoansAreTtlApart(s: Settings, w: World, actions: seq<Action>, n: nat, risk: bool, p: nat, q: nat)
    returns (d: Delivery, i: nat, e: Delivery, j: nat)
    requires n <= |actions| && NewWorld(w) && Sequential(actions) && p < q < |Book(After(s, w, actions, n), risk)|
    ensures HandsAt(s, w, actions, i, d) && LoanOf(d) == Book(After(s, w, actions, n), risk)[p]
    ensures HandsAt(s, w, actions, j, e) && LoanOf(e) == Book(After(s, w, actions, n), risk)[q]
    ensures i != j
    ensures i < j && SamePaymentAt(actions, i, j) ==> Gap(actions, i, j) >= s.ttl
    ensures j < i && SamePaymentAt(actions, j, i) ==> Gap(actions, j, i) >= s.ttl
  {
    var k, m;
    d, i, k := LoanHasCall(s, w, actions, n, risk, p);
    e, j, m := LoanHasCall(s, w, actions, n, risk, q);
    OfferFundedOnce(s, w, actions, n, risk, p, q);
    HandsIsAnswered(s, w, actions, i, d);
    HandsIsAnswered(s, w, actions, j, e);
    if i < j && SamePaymentAt(actions, i, j) {
      AnswersAreTtlApart(s, w, actions, i, j);
    } else if j < i && SamePaymentAt(actions, j, i) {
      AnswersAreTtlApart(s, w, actions, j, i);
    }
  }

  lemma {:induction false} HandsIsAnswered(s: Settings, w: World, actions: seq<Action>, i: nat, d: Delivery)
    requires HandsAt(s, w, actions, i, d)
    ensures Answered(s, w, actions, i)
  {
    HandoverIsAnswered(s, TrackerAt(s, w, actions, i), actions[i].c);
    ReplyTellsGate(s, TrackerAt(s, w, actions, i), actions[i].c);
  }

  /** An acceptance that the desk resolves is on the book exactly if it got through to it. */
  lemma {:induction false} AcceptedIsFundedIff(s: Settings, w: World, actions: seq<Action>, n: nat, risk: bool, k: nat)
    requires k < n <= |actions| && NewWorld(w) && actions[k].Accept?
    requires AcceptReply(After(s, w, actions, k).desk, actions[k].id, actions[k].operator, actions[k].now).Resolved?
    ensures var d := AcceptReply(After(s, w, actions, k).desk, actions[k].id, actions[k].operator, actions[k].now).d;
            LoanOf(d) in Book(After(s, w, actions, n), risk) <==>
              && actions[k].f.numbersParse && actions[k].f.capsParse
              && if risk then s.hasRisk && !actions[k].f.riskRaises else s.hasC3 && !actions[k].f.c3Raises
  {
    BookIsLent(s, w, actions, n, risk);
    DeskIsRun(s, w, actions, k);
    AcceptedIsLentIff(DeskActions(s, w, actions), Reached(s, actions, risk), n, k);
  }

  // -------------------------------------------------- a loan without a reported offer

  const PAYMENT: Event :=
    Event("U1", Context("AAAA", "BBBB", 1000000.0, "USD"), OtherRail("SWIFT"), Known(ClassB), "AAAA", "BBBB", None, None)

  const PLAIN: Settings := Settings(0.5, 3888000.0, true, true, true, true)

  const NEW_WORLD: World := World(EMPTY, [], EMPTY_DESK, [], [])

  const TERMS: Terms := Terms("L1", 1000000.0, 400, 7, 900.0, "", None)

  /** A call in which only the named engine replies are not those of a clean payment. */
  function CallWith(c4: C4Reply, c6: C6Reply, c7: C7Reply, log: C7Reply): Call {
    Call(PAYMENT, Engines(Works, Probability(0.9), c4, c6, Priced(400), c7, log, Absent), false, 0.0, 1.0)
  }

  const ACCEPT: Action := Action.Accept("L1", "op", 10.0, Finalization(true, true, false, false, false))

  const UNLOGGED: Call := CallWith(NoClass, Checked(true, false), C7Raises(Some(TERMS)), NoStatus)
  const DISPUTED: Call := CallWith(Class(DisputeConfirmed), Checked(true, false), NoStatus, NoStatus)
  const REFUSED: Call := CallWith(NoClass, Checked(false, false), NoStatus, Offers(None, Some(TERMS)))

  /** An offer handed over at a gate can be accepted and lent. */
  lemma {:induction false} HandedOverIsLent(c: Call, g: Gate)
    requires GateOf(PLAIN, EMPTY, c) == g && HandedAt(g, c.en) == Some(TERMS) && ContextAt(g, c).uetr == "U1"
    ensures Step(PLAIN, Step(PLAIN, NEW_WORLD, Process(c)), ACCEPT).loans == [Loan("L1", "U1", 1000000.0, 400, 7)]
  {
    var d := DeliveryOf(ContextAt(g, c), TERMS);
    assert Step(PLAIN, NEW_WORLD, Process(c)).desk == Delivered(EMPTY_DESK, d);
    assert AcceptReply(Delivered(EMPTY_DESK, d), "L1", "op", 10.0) == Resolved(d);
  }

  /**
   * The offer is handed over before C7 logs its decision.  If the log raises,
   * the caller is told SYSTEM_ERROR, and the offer can still be accepted and funded.
   */
  lemma {:induction false} SystemErrorCanBeFunded()
    ensures var r := ReplyOf(PLAIN, EMPTY, UNLOGGED);
            && r.Returned? && r.result.outcome == SystemError
            && Step(PLAIN, Step(PLAIN, NEW_WORLD, Process(UNLOGGED)), ACCEPT).loans == [Loan("L1", "U1", 1000000.0, 400, 7)]
  {
    UnloggedGate();
    HandedOverIsLent(UNLOGGED, C7Fails);
    ReplyTellsGate(PLAIN, EMPTY, UNLOGGED);
  }

  /**
   * A C7 that is asked only to log a block but makes an offer instead: the
   * caller is told AML_BLOCKED, and the offer is accepted and funded.
   */
  lemma {:induction false} AmlBlockedCanBeFunded()
    ensures var r := ReplyOf(PLAIN, EMPTY, REFUSED);
            && r.Returned? && r.result.outcome == AmlBlockedOutcome
            && Step(PLAIN, Step(PLAIN, NEW_WORLD, Process(REFUSED)), ACCEPT).loans == [Loan("L1", "U1", 1000000.0, 400, 7)]
            && Step(PLAIN, NEW_WORLD, Process(REFUSED)).velocity == []
            && !LoggedByAgent(PLAIN, EMPTY, REFUSED)
  {
    RefusedGate();
    HandedOverIsLent(REFUSED, AmlRefuses);
    RefusedIsNotLogged();
  }

  lemma {:induction false} RefusedIsNotLogged()
    ensures !LoggedByAgent(PLAIN, EMPTY, REFUSED)
  {
    RefusedGate();
    if LoggedByAgent(PLAIN, EMPTY, REFUSED) {
      AgentLogsOnly(PLAIN, EMPTY, REFUSED);
    }
  }

  lemma {:induction false} UnloggedGate()
    ensures GateOf(PLAIN, EMPTY, UNLOGGED) == C7Fails
  {
    NothingIsRetry(PLAIN, UNLOGGED);
  }

  lemma {:induction false} DisputedGate()
    ensures GateOf(PLAIN, EMPTY, DISPUTED) == Dispute
  {
    NothingIsRetry(PLAIN, DISPUTED);
  }

  lemma {:induction false} RefusedGate()
    ensures GateOf(PLAIN, EMPTY, REFUSED) == AmlRefuses
  {
    NothingIsRetry(PLAIN, REFUSED);
  }

  lemma {:induction false} NothingIsRetry(s: Settings, c: Call)
    ensures GateOf(s, EMPTY, c) == EntryGate(s.threshold, c)
  {
  }

  // ------------------------------------------------------ a payment sent for review

  const REVIEWED: Call := CallWith(NoClass, Checked(true, true), NoStatus, NoStatus)

  /** The same event again, approved, with engines that agree. */
  function Again(now: real): Call {
    REVIEWED.(en := REVIEWED.en.(c6 := Checked(true, false), c7 := Offers(None, None)), approved := true, now := now, done := now)
  }

  /** A payment stopped for its anomaly is blocked a second later, and offered once the TTL is over. */
  lemma {:induction false} ReviewedPayment(now: real)
    requires now in {2.0, 3888001.0}
    ensures var actions := [Process(REVIEWED), Process(Again(now))];
            && ReplyTo(PLAIN, NEW_WORLD, actions, 0).Returned?
            && ReplyTo(PLAIN, NEW_WORLD, actions, 0).result.outcome == PendingHumanReview
            && (now == 2.0 ==> ReplyTo(PLAIN, NEW_WORLD, actions, 1) == Returned(RETRY_RESULT))
            && (now == 3888001.0 ==> OffersBridge(ReplyTo(PLAIN, NEW_WORLD, actions, 1)))
  {
    var actions := [Process(REVIEWED), Process(Again(now))];
    ReviewedGate();
    assert ReplyTo(PLAIN, NEW_WORLD, actions, 0) == ReplyOf(PLAIN, EMPTY, REVIEWED);
    assert EnginesAgree(PLAIN, Again(now));
    ReentryAfterReview(PLAIN, NEW_WORLD, actions, 0, 1);
  }

  lemma {:induction false} ReviewedGate()
    ensures ReplyOf(PLAIN, EMPTY, REVIEWED).Returned? && ReplyOf(PLAIN, EMPTY, REVIEWED).result.outcome == PendingHumanReview
  {
    NothingIsRetry(PLAIN, REVIEWED);
    assert GateOf(PLAIN, EMPTY, REVIEWED) == Anomaly;
  }

  // ------------------------------------------------------------- velocity entries

  function WrittenAtAcceptance(s: Settings, k: Desk, a: Action): seq<Velocity> {
    if a.Accept? && AcceptReply(k, a.id, a.operator, a.now).Resolved? && WritesAtAcceptance(s, a.f) then
      [AcceptEntry(AcceptReply(k, a.id, a.operator, a.now).d, a.now)]
    else []
  }

  /** What one action writes into the velocity log. */
  function PartOf(s: Settings, w: World, a: Action): Part {
    if a.Process? then Part(if WritesAtCheck(s, w.tracker, a.c) then CheckEntries(a.c) else [], [])
    else Part([], WrittenAtAcceptance(s, w.desk, a))
  }

  function Parts(s: Settings, w: World, actions: seq<Action>): (parts: seq<Part>)
    ensures |parts| == |actions|
    ensures forall i :: 0 <= i < |parts| ==> parts[i] == PartOf(s, After(s, w, actions, i), actions[i])
  {
    seq(|actions|, i requires 0 <= i < |actions| => PartOf(s, After(s, w, actions, i), actions[i]))
  }

  function Logs(s: Settings, w: World, actions: seq<Action>): (logs: seq<seq<Velocity>>)
    ensures |logs| == |actions| + 1 && forall i :: 0 <= i < |logs| ==> logs[i] == After(s, w, actions, i).velocity
  {
    seq(|actions| + 1, i requires 0 <= i <= |actions| => After(s, w, actions, i).velocity)
  }

  lemma {:induction false} StepVelocity(s: Settings, w: World, a: Action)
    ensures Step(s, w, a).velocity == w.velocity + PartOf(s, w, a).atCheck + PartOf(s, w, a).atAcceptance
  {
  }

  lemma {:induction false} LogFollows(s: Settings, w: World, actions: seq<Action>, i: nat)
    requires i < |actions|
    ensures InStep(Logs(s, w, actions), AllLogged(w.velocity, Parts(s, w, actions)), i)
  {
    StepVelocity(s, After(s, w, actions, i), actions[i]);
  }

  /**
   * The velocity log of a run is, in order, the entries of each call that a
   * recording C6 passed and one for each acceptance that was recorded.
   */
  lemma {:induction false} VelocityIsLogged(s: Settings, w: World, actions: seq<Action>, n: nat)
    requires n <= |actions|
    ensures After(s, w, actions, n).velocity == Logged(w.velocity, Parts(s, w, actions), n)
  {
    var logs, all := Logs(s, w, actions), AllLogged(w.velocity, Parts(s, w, actions));
    forall i: nat | i < n ensures InStep(logs, all, i) {
      LogFollows(s, w, actions, i);
    }
    SameSteps(logs, all, n);
  }

  /** Call i wrote its entry while C6 was checking it. */
  predicate WritesAt(s: Settings, w: World, actions: seq<Action>, i: nat)
    requires i < |actions|
  {
    actions[i].Process? && WritesAtCheck(s, TrackerAt(s, w, actions, i), actions[i].c)
  }

  /**
   * Main result: the velocity log holds accepted offers only if and only if no
   * call wrote an entry while it was being checked: the checker does not record,
   * or no call got as far as passing it.
   */
  lemma {:induction false} VelocityIsAcceptancesIff(s: Settings, w: World, actions: seq<Action>, n: nat)
    requires n <= |actions|
    ensures After(s, w, actions, n).velocity == LoggedAtAcceptance(w.velocity, Parts(s, w, actions), n)
            <==> forall i :: 0 <= i < n ==> !WritesAt(s, w, actions, i)
  {
    VelocityIsLogged(s, w, actions, n);
    OnlyAcceptancesIff(w.velocity, Parts(s, w, actions), n);
    forall i | 0 <= i < n
      ensures WritesAt(s, w, actions, i) <==> Parts(s, w, actions)[i].atCheck != []
    {
      PartWrites(s, w, actions, i);
    }
  }

  lemma {:induction false} PartWrites(s: Settings, w: World, actions: seq<Action>, i: nat)
    requires i < |actions|
    ensures WritesAt(s, w, actions, i) <==> Parts(s, w, actions)[i].atCheck != []
    ensures WritesAt(s, w, actions, i) ==> Parts(s, w, actions)[i].atCheck == CheckEntries(actions[i].c)
  {
  }

  /** With the combined checker even a payment blocked as a dispute leaves an entry. */
  lemma {:induction false} BlockedPaymentIsCounted()
    ensures var r := ReplyOf(PLAIN, EMPTY, DISPUTED);
            && r.Returned? && r.result.outcome == DisputeBlockedOutcome
            && Step(PLAIN, NEW_WORLD, Process(DISPUTED)).velocity == [Velocity("AAAA", 1000000.0, "BBBB", 0.0, Direct)]
  {
    DisputedGate();
  }

  /** Every blocked call of the run was logged by the agent. */
  ghost predicate AgentKeepsLog(s: Settings, w: World, actions: seq<Action>) {
    forall i: nat :: i < |actions| && actions[i].Process? ==> LoggedByAgent(s, TrackerAt(s, w, actions, i), actions[i].c)
  }

  /**
   * Main result: with the combined checker, and the agent keeping the log, every
   * funded offer has been counted when its payment was checked, and is counted
   * again when its acceptance is recorded, under the same payer and payee or, where
   * they were blank, the banks; and in the same window unless the payment came
   * through a tenant.
   */
  lemma {:induction false} FundedOfferCountedTwice(s: Settings, w: World, actions: seq<Action>, n: nat, risk: bool, p: nat)
    returns (d: Delivery, i: nat, k: nat, q: nat, r: nat)
    requires n <= |actions| && NewWorld(w) && s.records && p < |Book(After(s, w, actions, n), risk)| && AgentKeepsLog(s, w, actions)
    ensures FundedBy(s, w, actions, n, risk, Book(After(s, w, actions, n), risk)[p], d, i, k)
    ensures q < |After(s, w, actions, n).velocity| && After(s, w, actions, n).velocity[q] == CheckEntries(actions[i].c)[0]
    ensures s.hasRecorder && !actions[k].f.c6Raises ==>
              q < r < |After(s, w, actions, n).velocity| && After(s, w, actions, n).velocity[r] == AcceptEntry(d, actions[k].now)
    ensures var ev, e := actions[i].c.ev, AcceptEntry(d, actions[k].now);
            && e.entity == (if ev.entity != "" then ev.entity else if ev.payment.sendingBic != "" then ev.payment.sendingBic else d.elo)
            && e.beneficiary == (if ev.beneficiary != "" then ev.beneficiary else if ev.payment.receivingBic != "" then ev.payment.receivingBic else d.elo)
            && e.amount == d.amount && e.at == actions[k].now
    ensures CheckEntries(actions[i].c)[0].entity == actions[i].c.ev.entity && CheckEntries(actions[i].c)[0].beneficiary == actions[i].c.ev.beneficiary
    ensures CheckEntries(actions[i].c)[0].window == AcceptEntry(d, actions[k].now).window <==> actions[i].c.ev.tenant == None
  {
    d, i, k := LoanHasCall(s, w, actions, n, risk, p);
    HandoverIsCounted(s, w, actions, i, d);
    q := CheckIsCounted(s, w, actions, i, k);
    VelocityStays(s, w, actions, k, n, q);
    r := |After(s, w, actions, k).velocity|;
    if s.hasRecorder && !actions[k].f.c6Raises {
      AcceptanceIsCounted(s, w, actions, k, n, d);
    }
  }

  lemma {:induction false} HandoverIsCounted(s: Settings, w: World, actions: seq<Action>, i: nat, d: Delivery)
    requires HandsAt(s, w, actions, i, d) && s.records && AgentKeepsLog(s, w, actions)
    ensures WritesAt(s, w, actions, i)
    ensures d.entity == actions[i].c.ev.entity && d.beneficiary == actions[i].c.ev.beneficiary
    ensures d.sendingBic == actions[i].c.ev.payment.sendingBic && d.receivingBic == actions[i].c.ev.payment.receivingBic
  {
    var t, c := TrackerAt(s, w, actions, i), actions[i].c;
    assert LoggedByAgent(s, t, c);
    if LogsBlock(GateOf(s, t, c)) {
      AgentLogsOnly(s, t, c);
    }
    ReachesC7Passed(s, t, c);
  }

  lemma {:induction false} VelocityStays(s: Settings, w: World, actions: seq<Action>, m: nat, n: nat, q: nat)
    requires m <= n <= |actions| && q < |After(s, w, actions, m).velocity|
    ensures q < |After(s, w, actions, n).velocity| && After(s, w, actions, n).velocity[q] == After(s, w, actions, m).velocity[q]
  {
    VelocityIsLogged(s, w, actions, m);
    VelocityIsLogged(s, w, actions, n);
    LogGrows(w.velocity, Parts(s, w, actions), m, n);
  }

  /** The entry stands where the log ended before the acceptance. */
  lemma {:induction false} AcceptanceIsCounted(s: Settings, w: World, actions: seq<Action>, k: nat, n: nat, d: Delivery)
    requires k < n <= |actions| && actions[k].Accept? && WritesAtAcceptance(s, actions[k].f)
    requires AcceptReply(After(s, w, actions, k).desk, actions[k].id, actions[k].operator, actions[k].now) == Resolved(d)
    ensures var r := |After(s, w, actions, k).velocity|;
            r < |After(s, w, actions, n).velocity| && After(s, w, actions, n).velocity[r] == AcceptEntry(d, actions[k].now)
  {
    var parts := Parts(s, w, actions);
    assert parts[k] == Part([], [AcceptEntry(d, actions[k].now)]);
    VelocityIsLogged(s, w, actions, k);
    VelocityIsLogged(s, w, actions, n);
    PartStays(w.velocity, parts, k, n);
  }

  lemma {:induction false} CheckIsCounted(s: Settings, w: World, actions: seq<Action>, i: nat, n: nat) returns (q: nat)
    requires i < n <= |actions| && WritesAt(s, w, actions, i)
    ensures q < |After(s, w, actions, n).velocity| && After(s, w, actions, n).velocity[q] == CheckEntries(actions[i].c)[0]
  {
    var parts := Parts(s, w, actions);
    PartWrites(s, w, actions, i);
    VelocityIsLogged(s, w, actions, n);
    PartStays(w.velocity, parts, i, n);
    q := |Logged(w.velocity, parts, i)|;
  }
}
