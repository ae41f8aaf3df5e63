/**
 * One pass of the payment pipeline: the order of its gates, what it returns,
 * and what it writes.  The engines are arbitrary: each reply is an input, and
 * any of them may raise.
 */
module Pipeline {
  import opened PaymentStates
  import opened UetrTracker
  import opened AmlGate
  import opened OfferDesk
  import opened ExecutionAgent
  import opened Options

  // ---------------------------------------------------------------- inputs

  /** The rejection code of an event, looked up in the taxonomy. */
  datatype Rejection = NoCode | UnknownCode | Known(cls: RejectionClass)

  /** An event with the parties its AML checks are made for, defaults applied. */
  datatype Event = Event(uetr: string, payment: Context, rail: Rail, rejection: Rejection,
                         entity: string, beneficiary: string, tenant: Option<string>, original: Option<real>)

  /** An optional component is absent, answers, or raises. */
  datatype Component = Absent | Works | Raises

  datatype C1Reply = C1Raises | Probability(p: real)
  datatype C2Reply = C2Raises | Priced(feeBps: int)

  /** The class labels the pipeline looks at; every other label passes. */
  datatype Label = DisputeConfirmed | DisputePossible | OtherLabel(name: string)

  /** Unreadable: a reply that is no dictionary, which raises where it is read. */
  datatype C4Reply = C4Raises | Unreadable | NoClass | Class(name: Label)

  /** C7 is asked for a decision, or for a log entry when the payment is blocked: log is its reply to that. */
  datatype Engines = Engines(stress: Component, c1: C1Reply, c4: C4Reply, c6: C6Reply,
                             c2: C2Reply, c7: C7Reply, log: C7Reply, notify: Component)

  /** One call: checked for a retry at now, recorded (if at all) at done; approved is the human override. */
  datatype Call = Call(ev: Event, en: Engines, approved: bool, now: real, done: real)

  /** What is fixed when the pipeline is assembled. */
  datatype Settings = Settings(threshold: real, ttl: real, records: bool, hasRecorder: bool, hasC3: bool, hasRisk: bool)

  // --------------------------------------------------------------- results

  datatype Outcome =
    | RetryBlocked | DisputeBlockedOutcome | BelowThreshold | AmlCheckUnavailable | AmlBlockedOutcome
    | PendingHumanReview | SystemError | ComplianceHold | Halt | Declined | Offered | DomesticLegFailure

  datatype Result = Result(
    outcome: Outcome,
    aboveThreshold: bool,
    disputeHardBlock: bool,
    amlPassed: Option<bool>,
    amlHardBlock: bool,
    anomalyFlagged: bool,
    complianceHold: bool,
    offer: Option<Offer>,
    state: Option<PaymentState>,
    history: seq<PaymentState>)

  /** What the caller of process sees: a result, or an escaping exception. */
  datatype Reply = Returned(result: Result) | Raised

  function OutcomeName(o: Outcome): string {
    match o
    case RetryBlocked => "RETRY_BLOCKED"
    case DisputeBlockedOutcome => "DISPUTE_BLOCKED"
    case BelowThreshold => "BELOW_THRESHOLD"
    case AmlCheckUnavailable => "AML_CHECK_UNAVAILABLE"
    case AmlBlockedOutcome => "AML_BLOCKED"
    case PendingHumanReview => "PENDING_HUMAN_REVIEW"
    case SystemError => "SYSTEM_ERROR"
    case ComplianceHold => "COMPLIANCE_HOLD"
    case Halt => "HALT"
    case Declined => "DECLINED"
    case Offered => "OFFERED"
    case DomesticLegFailure => "DOMESTIC_LEG_FAILURE"
  }

  // ----------------------------------------------------------------- gates

  const DISPUTE_BLOCK_CLASSES: set<Label> := {DisputeConfirmed, DisputePossible}

  /** A raising classifier counts as a possible dispute; a missing class does not. */
  function DisputeClass(r: C4Reply): Label {
    match r
    case C4Raises => DisputePossible
    case Class(name) => name
    case _ => OtherLabel("NOT_DISPUTE")
  }

  function MaturityDays(r: Rejection): nat {
    match r
    case NoCode => 7
    case UnknownCode => 0
    case Known(cls) => match cls case ClassA => 3 case ClassB => 7 case ClassC => 21 case Block => 0
  }

  function DerivedClass(r: Rejection): RejectionClass {
    match r
    case NoCode => ClassB
    case UnknownCode => Block
    case Known(cls) => cls
  }

  /** The gates in order; a call is decided by the first one that is closed to it. */
  datatype Gate =
    | Retry | StressFails | KnownBlock | C1Fails | LowScore | ChecksFail | AmlUnavailable | Dispute | AmlRefuses
    | Anomaly | C2Fails | C7Fails | C7Silent | HoldUnreported | Hold | C7Halts | Review | C7Declines | NoGate

  function GateOf(s: Settings, t: Tracker, c: Call): Gate {
    if IsRetry(t, s.ttl, c.ev.uetr, c.ev.payment, c.now) then Retry else EntryGate(s.threshold, c)
  }

  function EntryGate(threshold: real, c: Call): Gate {
    if c.en.stress.Raises? then StressFails
    else if c.ev.rejection == Known(Block) then KnownBlock
    else ScoreGate(threshold, c.en)
  }

  function ScoreGate(threshold: real, en: Engines): Gate {
    if en.c1.C1Raises? then C1Fails else if en.c1.p < threshold then LowScore else CheckGate(en)
  }

  /** C4 and C6 have both answered before either reply is acted on. */
  function CheckGate(en: Engines): Gate {
    if en.c6.C6SetupRaises? || en.c4.Unreadable? || en.c6.NoVerdict? then ChecksFail
    else if en.c6.C6Raises? || en.c6.C6Null? then AmlUnavailable
    else if DisputeClass(en.c4) in DISPUTE_BLOCK_CLASSES then Dispute
    else VerdictGate(en)
  }

  function VerdictGate(en: Engines): Gate
    requires en.c6.Checked?
  {
    if !en.c6.passed then AmlRefuses else if en.c6.anomaly then Anomaly else PriceGate(en)
  }

  function PriceGate(en: Engines): Gate {
    if en.c2.C2Raises? then C2Fails else C7Gate(en)
  }

  function C7Gate(en: Engines): Gate {
    match en.c7
    case C7Raises(_) => C7Fails
    case NoStatus => C7Silent
    case Refuses(ComplianceHoldBlocksBridge) => if en.notify.Raises? then HoldUnreported else Hold
    case Refuses(Halted) => C7Halts
    case Refuses(AwaitingReview) => Review
    case Refuses(_) => C7Declines
    case Offers(_, _) => NoGate
  }

  /** Whether C6 was called, and whether C7 was. */
  predicate ReachesC6(g: Gate) {
    !(g.Retry? || g.StressFails? || g.KnownBlock? || g.C1Fails? || g.LowScore?)
  }

  predicate ReachesC7(g: Gate) {
    g.C7Fails? || g.C7Silent? || g.HoldUnreported? || g.Hold? || g.C7Halts? || g.Review? || g.C7Declines? || g.NoGate?
  }

  /** C7 is asked to log the block. */
  predicate LogsBlock(g: Gate) {
    g.KnownBlock? || g.AmlUnavailable? || g.Dispute? || g.AmlRefuses?
  }

  /** An exception escapes to the caller. */
  predicate Escapes(g: Gate) {
    g.StressFails? || g.C1Fails? || g.ChecksFail? || g.C2Fails? || g.C7Silent? || g.HoldUnreported?
  }

  /** The states a payment has gone through when its gate closes. */
  function HistoryAt(g: Gate): seq<PaymentState> {
    match g
    case KnownBlock => [Monitoring, DisputeBlocked]
    case LowScore => [Monitoring]
    case AmlUnavailable => [Monitoring, FailureDetected, AmlBlocked]
    case Dispute => [Monitoring, FailureDetected, DisputeBlocked]
    case AmlRefuses => [Monitoring, FailureDetected, AmlBlocked]
    case NoGate => [Monitoring, FailureDetected, BridgeOffered]
    case _ => [Monitoring, FailureDetected]
  }

  const RETRY_RESULT: Result := Result(RetryBlocked, false, false, None, false, false, false, None, None, [])

  /** The result written at a gate, for a payment in a state with a history. */
  function ResultAt(g: Gate, en: Engines, parent: Option<string>, state: PaymentState, history: seq<PaymentState>): Result {
    var late := Result(SystemError, true, false, Some(true), false, false, false, None, Some(state), history);
    match g
    case Retry => RETRY_RESULT
    case KnownBlock => late.(outcome := DisputeBlockedOutcome, aboveThreshold := false, disputeHardBlock := true)
    case LowScore => late.(outcome := BelowThreshold, aboveThreshold := false, amlPassed := None)
    case AmlUnavailable => late.(outcome := AmlCheckUnavailable, amlPassed := None, amlHardBlock := true)
    case Dispute =>
      var passed := en.c6 == Checked(true, false) || en.c6 == Checked(true, true);
      late.(outcome := DisputeBlockedOutcome, disputeHardBlock := true, amlPassed := Some(passed), amlHardBlock := !passed)
    case AmlRefuses => late.(outcome := AmlBlockedOutcome, amlPassed := Some(false), amlHardBlock := true)
    case Anomaly => late.(outcome := PendingHumanReview, anomalyFlagged := true)
    case Hold => late.(outcome := ComplianceHold, complianceHold := true)
    case C7Halts => late.(outcome := Halt)
    case Review => late.(outcome := PendingHumanReview)
    case C7Declines => late.(outcome := Declined)
    case NoGate =>
      late.(outcome := if parent.Some? then DomesticLegFailure else Offered,
            offer := if en.c7.Offers? then Labelled(en.c7.offer, parent) else None)
    case _ => late
  }

  /** A domestic leg's offer names the parent payment. */
  function Labelled(offer: Option<Offer>, parent: Option<string>): Option<Offer> {
    if parent.Some? && offer.Some? then Some(offer.value.(parent := parent)) else offer
  }

  function Parent(t: Tracker, ev: Event, now: real): Option<string> {
    if ev.rail in HANDOFF_RAILS && ev.rejection != NoCode then
      var p := FindParent(t, ev.uetr, now);
      if p == Some("") then None else p
    else None
  }

  /** The reply of one call, from the tracker it finds. */
  function ReplyOf(s: Settings, t: Tracker, c: Call): Reply {
    ReplyAt(GateOf(s, t, c), c.en, Parent(MaybeCleanup(t, s.ttl, c.now), c.ev, c.now))
  }

  function ReplyAt(g: Gate, en: Engines, parent: Option<string>): Reply {
    if Escapes(g) then Raised
    else Returned(ResultAt(g, en, parent, HistoryAt(g)[|HistoryAt(g)| - 1], HistoryAt(g)))
  }

  /** A call is answered, and then recorded, unless it is a retry or raises. */
  predicate Answers(g: Gate) {
    !Escapes(g) && !g.Retry?
  }

  // -------------------------------------------------------- what a call writes

  /** Everything the pipeline and its components remember between calls. */
  datatype World = World(tracker: Tracker, velocity: seq<Velocity>, desk: Desk, loans: seq<Loan>, positions: seq<Loan>)

  /** One record unless the call was a retry or raised. */
  function TrackerAfter(s: Settings, t: Tracker, c: Call): Tracker {
    var swept := MaybeCleanup(t, s.ttl, c.now);
    if Answers(GateOf(s, t, c)) then
      Record(swept, s.ttl, c.ev.uetr, OutcomeName(ReplyOf(s, t, c).result.outcome), c.ev.payment, c.done)
    else swept
  }

  function CheckEntries(c: Call): seq<Velocity> {
    CheckEntriesFor(c.ev.entity, c.ev.payment.amount, c.ev.beneficiary, c.now, c.ev.tenant)
  }

  /** The call leaves a velocity entry while C6 is checking. */
  predicate WritesAtCheck(s: Settings, t: Tracker, c: Call) {
    s.records && ReachesC6(GateOf(s, t, c)) && Writes(c.en.c6)
  }

  function AtCheck(s: Settings, c: Call, g: Gate): seq<Velocity> {
    if s.records && ReachesC6(g) && Writes(c.en.c6) then CheckEntries(c) else []
  }

  /** What C7 is told about a payment that passed the checks. */
  function OfferContext(c: Call): PaymentContext {
    var p := c.ev.payment;
    PaymentContext(c.ev.uetr, Score(c.en), p.amount, if c.ev.original.Some? then c.ev.original.value else p.amount,
                   if c.en.c2.Priced? then c.en.c2.feeBps else 0, MaturityDays(c.ev.rejection), Some(DerivedClass(c.ev.rejection)),
                   DisputeClass(c.en.c4) in DISPUTE_BLOCK_CLASSES, c.en.c6.Checked? && c.en.c6.passed,
                   c.ev.rejection == Known(Block), c.approved,
                   c.ev.entity, c.ev.beneficiary, p.sendingBic, p.receivingBic)
  }

  function Score(en: Engines): real {
    if en.c1.Probability? then en.c1.p else 0.0
  }

  /** What C7 is told about a payment that is blocked at a gate: no parties, fee or tenor. */
  function LogContext(g: Gate, c: Call): PaymentContext {
    PaymentContext(c.ev.uetr, if g.KnownBlock? then 0.0 else Score(c.en), c.ev.payment.amount, c.ev.payment.amount,
                   0, 0, None, g.KnownBlock? || g.Dispute?, !g.AmlRefuses? && !g.AmlUnavailable?, false, false,
                   "", "", "", "")
  }

  function ContextAt(g: Gate, c: Call): PaymentContext {
    if LogsBlock(g) then LogContext(g, c) else OfferContext(c)
  }

  /** What C7 hands over on the way to a gate. */
  function HandedAt(g: Gate, en: Engines): Option<Terms> {
    if ReachesC7(g) then Handed(en.c7) else if LogsBlock(g) then Handed(en.log) else None
  }

  /** The call leaves an offer waiting at the desk. */
  predicate HandsOver(s: Settings, t: Tracker, c: Call) {
    HandedAt(GateOf(s, t, c), c.en).Some?
  }

  function HandedOffer(s: Settings, t: Tracker, c: Call): Delivery
    requires HandsOver(s, t, c)
  {
    DeliveryOf(ContextAt(GateOf(s, t, c), c), HandedAt(GateOf(s, t, c), c.en).value)
  }

  function AfterHandover(k: Desk, c: Call, g: Gate): Desk {
    if HandedAt(g, c.en).Some? then Delivered(k, DeliveryOf(ContextAt(g, c), HandedAt(g, c.en).value)) else k
  }

  /** The world a call leaves: loans and positions are not its business. */
  function Called(s: Settings, w: World, c: Call): World {
    w.(tracker := TrackerAfter(s, w.tracker, c),
       velocity := w.velocity + AtCheck(s, c, GateOf(s, w.tracker, c)),
       desk := AfterHandover(w.desk, c, GateOf(s, w.tracker, c)))
  }

  /** How the acceptance of an offer meets its numbers, the AML caps and the three clients. */
  datatype Finalization = Finalization(numbersParse: bool, capsParse: bool, c6Raises: bool, c3Raises: bool, riskRaises: bool)

  function FirstNonEmpty(a: string, b: string, c: string): string {
    if a != "" then a else if b != "" then b else c
  }

  function AcceptEntry(d: Delivery, now: real): Velocity {
    Velocity(FirstNonEmpty(d.entity, d.sendingBic, d.elo), d.amount, FirstNonEmpty(d.beneficiary, d.receivingBic, d.elo), now, Direct)
  }

  /** Numbers and caps are read outside any guard: failing there stops all three effects. */
  predicate Starts(f: Finalization) {
    f.numbersParse && f.capsParse
  }

  predicate WritesAtAcceptance(s: Settings, f: Finalization) {
    Starts(f) && s.hasRecorder && !f.c6Raises
  }

  predicate Lends(s: Settings, f: Finalization) {
    Starts(f) && s.hasC3 && !f.c3Raises
  }

  predicate TakesPosition(s: Settings, f: Finalization) {
    Starts(f) && s.hasRisk && !f.riskRaises
  }

  function Finalized(s: Settings, w: World, d: Delivery, f: Finalization, now: real): World {
    w.(velocity := w.velocity + if WritesAtAcceptance(s, f) then [AcceptEntry(d, now)] else [],
       loans := w.loans + if Lends(s, f) then [LoanOf(d)] else [],
       positions := w.positions + if TakesPosition(s, f) then [LoanOf(d)] else [])
  }

  // ------------------------------------------------------------- the class

  /** C3: the loans under repayment monitoring. */
  class SettlementMonitor {
    var loans: seq<Loan>

    constructor ()
      ensures loans == []
    {
      loans := [];
    }

    method RegisterLoan(l: Loan)
      modifies this
      ensures loans == old(loans) + [l]
    {
      loans := loans + [l];
    }
  }

  class PortfolioRiskEngine {
    var positions: seq<Loan>

    constructor ()
      ensures positions == []
    {
      positions := [];
    }

    method AddPosition(l: Loan)
      modifies this
      ensures positions == old(positions) + [l]
    {
      positions := positions + [l];
    }
  }

  class LIPPipeline {
    const threshold: real
    const tracker: UETRTracker
    const c6: AmlChecker
    const desk: OfferDeliveryService
    const c3: SettlementMonitor
    const risk: PortfolioRiskEngine
    const hasC3: bool
    const hasRisk: bool

    function Setup(): Settings {
      Settings(threshold, tracker.ttl, c6.records, c6.hasRecorder, hasC3, hasRisk)
    }

    function View(): World
      reads tracker, c6, desk, c3, risk
    {
      World(tracker.View(), c6.log, desk.View(), c3.loans, risk.positions)
    }

    constructor (threshold: real, tracker: UETRTracker, c6: AmlChecker, desk: OfferDeliveryService,
                 c3: SettlementMonitor, risk: PortfolioRiskEngine, hasC3: bool, hasRisk: bool)
      ensures this.threshold == threshold && this.tracker == tracker && this.c6 == c6 && this.desk == desk
      ensures this.c3 == c3 && this.risk == risk && this.hasC3 == hasC3 && this.hasRisk == hasRisk
    {
      this.threshold, this.tracker, this.c6, this.desk := threshold, tracker, c6, desk;
      this.c3, this.risk, this.hasC3, this.hasRisk := c3, risk, hasC3, hasRisk;
    }

    /** Loans and positions are out of its reach: their objects are not modified. */
    method Process(c: Call) returns (reply: Reply)
      modifies tracker, c6, desk
      ensures reply == ReplyOf(Setup(), old(tracker.View()), c)
      ensures View() == Called(Setup(), old(View()), c)
    {
      var ev := c.ev;
      var retry := tracker.CheckRetry(ev.uetr, ev.payment, c.now);
      if retry {
        return Returned(RETRY_RESULT);
      }
      var parent := HandoffParent(ev, c.now);
      reply := Enter(c, parent);
      if reply.Returned? {
        tracker.RecordOutcome(ev.uetr, OutcomeName(reply.result.outcome), ev.payment, c.done);
      }
    }

    method HandoffParent(ev: Event, now: real) returns (parent: Option<string>)
      ensures parent == Parent(tracker.View(), ev, now)
    {
      parent := None;
      if ev.rail in HANDOFF_RAILS && ev.rejection != NoCode {
        parent := FindParent(tracker.View(), ev.uetr, now);
        if parent == Some("") {
          parent := None;
        }
      }
    }

    /** The gates before any engine is asked. */
    method Enter(c: Call, parent: Option<string>) returns (reply: Reply)
      modifies c6, desk
      ensures reply == ReplyAt(EntryGate(threshold, c), c.en, parent)
      ensures c6.log == old(c6.log) + AtCheck(Setup(), c, EntryGate(threshold, c))
      ensures desk.View() == AfterHandover(old(desk.View()), c, EntryGate(threshold, c))
    {
      if c.en.stress.Raises? {
        return Raised;
      }
      if c.ev.rejection == Known(Block) {
        AskC7(LogContext(KnownBlock, c), c.en.log);
        return Returned(ResultAt(KnownBlock, c.en, parent, DisputeBlocked, [Monitoring, DisputeBlocked]));
      }
      reply := Screen(c, parent);
    }

    /** C1, and the start of the payment's history. */
    method Screen(c: Call, parent: Option<string>) returns (reply: Reply)
      modifies c6, desk
      ensures reply == ReplyAt(ScoreGate(threshold, c.en), c.en, parent)
      ensures c6.log == old(c6.log) + AtCheck(Setup(), c, ScoreGate(threshold, c.en))
      ensures desk.View() == AfterHandover(old(desk.View()), c, ScoreGate(threshold, c.en))
    {
      var machine := new PaymentStateMachine();
      var history := [machine.state];
      if c.en.c1.C1Raises? {
        return Raised;
      }
      if c.en.c1.p < threshold {
        return Returned(ResultAt(LowScore, c.en, parent, machine.state, history));
      }
      var ok := machine.Transition(FailureDetected);
      history := history + [machine.state];
      reply := CheckAndExecute(c, parent, machine, history);
    }

    /** C4 and C6, then C2 and C7; the state machine never refuses a move. */
    method CheckAndExecute(c: Call, parent: Option<string>, machine: PaymentStateMachine, history: seq<PaymentState>)
      returns (reply: Reply)
      requires machine.state == FailureDetected && history == [Monitoring, FailureDetected]
      modifies c6, desk, machine
      ensures reply == ReplyAt(CheckGate(c.en), c.en, parent)
      ensures c6.log == old(c6.log) + AtCheck(Setup(), c, CheckGate(c.en))
      ensures desk.View() == AfterHandover(old(desk.View()), c, CheckGate(c.en))
    {
      if c.en.c6.C6SetupRaises? {
        return Raised;
      }
      c6.Check(c.ev.entity, c.ev.payment.amount, c.ev.beneficiary, c.now, c.ev.tenant, c.en.c6);
      reply := Weigh(c, parent, machine, history);
    }

    /** Both replies are in; whatever cannot be read raises here. */
    method Weigh(c: Call, parent: Option<string>, machine: PaymentStateMachine, history: seq<PaymentState>)
      returns (reply: Reply)
      requires machine.state == FailureDetected && history == [Monitoring, FailureDetected]
      requires !c.en.c6.C6SetupRaises?
      modifies desk, machine
      ensures reply == ReplyAt(CheckGate(c.en), c.en, parent)
      ensures desk.View() == AfterHandover(old(desk.View()), c, CheckGate(c.en))
    {
      if c.en.c4.Unreadable? {
        return Raised;
      }
      var disputeHardBlock := DisputeClass(c.en.c4) in DISPUTE_BLOCK_CLASSES;
      if c.en.c6.C6Raises? || c.en.c6.C6Null? {
        AskC7(LogContext(AmlUnavailable, c), c.en.log);
        return Returned(ResultAt(AmlUnavailable, c.en, parent, AmlBlocked, history + [AmlBlocked]));
      }
      if c.en.c6.NoVerdict? {
        return Raised;
      }
      reply := Judge(c, parent, machine, history, disputeHardBlock);
    }

    /** The verdicts of C4 and C6. */
    method Judge(c: Call, parent: Option<string>, machine: PaymentStateMachine, history: seq<PaymentState>, disputeHardBlock: bool)
      returns (reply: Reply)
      requires machine.state == FailureDetected && history == [Monitoring, FailureDetected]
      requires c.en.c6.Checked?
      modifies desk, machine
      ensures reply == ReplyAt(if disputeHardBlock then Dispute else VerdictGate(c.en), c.en, parent)
      ensures desk.View() == AfterHandover(old(desk.View()), c, if disputeHardBlock then Dispute else VerdictGate(c.en))
    {
      if disputeHardBlock {
        var ok := machine.Transition(DisputeBlocked);
        AskC7(LogContext(Dispute, c), c.en.log);
        return Returned(ResultAt(Dispute, c.en, parent, machine.state, history + [machine.state]));
      }
      if !c.en.c6.passed {
        var ok := machine.Transition(AmlBlocked);
        AskC7(LogContext(AmlRefuses, c), c.en.log);
        return Returned(ResultAt(AmlRefuses, c.en, parent, machine.state, history + [machine.state]));
      }
      if c.en.c6.anomaly {
        return Returned(ResultAt(Anomaly, c.en, parent, machine.state, history));
      }
      reply := Price(c, parent, machine, history);
    }

    method Price(c: Call, parent: Option<string>, machine: PaymentStateMachine, history: seq<PaymentState>)
      returns (reply: Reply)
      requires machine.state == FailureDetected && history == [Monitoring, FailureDetected]
      modifies desk, machine
      ensures reply == ReplyAt(PriceGate(c.en), c.en, parent)
      ensures desk.View() == AfterHandover(old(desk.View()), c, PriceGate(c.en))
    {
      if c.en.c2.C2Raises? {
        return Raised;
      }
      reply := Execute(c, parent, machine, history);
    }

    /**
     * A call of C7, whatever it replies: it may hand an offer over.  A log call
     * is made for its entry only, so the reply is ignored and an exception swallowed.
     */
    method AskC7(ctx: PaymentContext, reply: C7Reply)
      modifies desk
      ensures desk.View() == AfterReply(old(desk.View()), ctx, reply)
    {
      if Handed(reply).Some? {
        desk.Deliver(DeliveryOf(ctx, Handed(reply).value));
      }
    }

    /** C7 decides: an offer is handed over before its reply is read. */
    method Execute(c: Call, parent: Option<string>, machine: PaymentStateMachine, history: seq<PaymentState>)
      returns (reply: Reply)
      requires machine.state == FailureDetected && history == [Monitoring, FailureDetected]
      modifies desk, machine
      ensures reply == ReplyAt(C7Gate(c.en), c.en, parent)
      ensures desk.View() == AfterHandover(old(desk.View()), c, C7Gate(c.en))
    {
      AskC7(OfferContext(c), c.en.c7);
      match c.en.c7
      case C7Raises(_) =>
        return Returned(ResultAt(C7Fails, c.en, parent, machine.state, history));
      case NoStatus =>
        return Raised;
      case Refuses(status) =>
        if status == ComplianceHoldBlocksBridge {
          if c.en.notify.Raises? {
            return Raised;
          }
          return Returned(ResultAt(Hold, c.en, parent, machine.state, history));
        }
        var g := if status == Halted then C7Halts else if status == AwaitingReview then Review else C7Declines;
        return Returned(ResultAt(g, c.en, parent, machine.state, history));
      case Offers(_, _) =>
        var ok := machine.Transition(BridgeOffered);
        return Returned(ResultAt(NoGate, c.en, parent, machine.state, history + [machine.state]));
    }

    /**
     * After a bank accepted an offer.  Numbers and caps are read first and may
     * raise; then each effect is attempted on its own, and a failing one is swallowed.
     */
    method FinalizeAcceptedOffer(d: Delivery, f: Finalization, now: real) returns (raised: bool)
      modifies c6, c3, risk
      ensures raised <==> !Starts(f)
      ensures View() == Finalized(Setup(), old(View()), d, f, now)
    {
      if !f.numbersParse || !f.capsParse {
        return true;
      }
      raised := false;
      if c6.hasRecorder && !f.c6Raises {
        c6.Record(AcceptEntry(d, now));
      }
      if hasC3 && !f.c3Raises {
        c3.RegisterLoan(LoanOf(d));
      }
      if hasRisk && !f.riskRaises {
        risk.AddPosition(LoanOf(d));
      }
    }
  }

  // ---------------------------------------------------------- what decides a call

  /** The gate taken alone is closed to the call. */
  predicate Shut(g: Gate, s: Settings, t: Tracker, c: Call) {
    match g
    case Retry => IsRetry(t, s.ttl, c.ev.uetr, c.ev.payment, c.now)
    case StressFails => c.en.stress.Raises?
    case KnownBlock => c.ev.rejection == Known(Block)
    case C1Fails => c.en.c1.C1Raises?
    case LowScore => c.en.c1.Probability? && c.en.c1.p < s.threshold
    case ChecksFail => c.en.c6.C6SetupRaises? || c.en.c4.Unreadable? || c.en.c6.NoVerdict?
    case AmlUnavailable => c.en.c6.C6Raises? || c.en.c6.C6Null?
    case Dispute => c.en.c4.C4Raises? || (c.en.c4.Class? && !c.en.c4.name.OtherLabel?)
    case AmlRefuses => c.en.c6.Checked? && !c.en.c6.passed
    case Anomaly => c.en.c6.Checked? && c.en.c6.anomaly
    case C2Fails => c.en.c2.C2Raises?
    case C7Fails => c.en.c7.C7Raises?
    case C7Silent => c.en.c7.NoStatus?
    case HoldUnreported => c.en.c7 == Refuses(ComplianceHoldBlocksBridge) && c.en.notify.Raises?
    case Hold => c.en.c7 == Refuses(ComplianceHoldBlocksBridge)
    case C7Halts => c.en.c7 == Refuses(Halted)
    case Review => c.en.c7 == Refuses(AwaitingReview)
    case C7Declines => c.en.c7.Refuses?
    case NoGate => true
  }

  /** The place of a gate on a payment's way. */
  function Place(g: Gate): nat {
    match g
    case Retry => 0 case StressFails => 1 case KnownBlock => 2 case C1Fails => 3 case LowScore => 4
    case ChecksFail => 5 case AmlUnavailable => 6 case Dispute => 7 case AmlRefuses => 8 case Anomaly => 9
    case C2Fails => 10 case C7Fails => 11 case C7Silent => 12 case HoldUnreported => 13 case Hold => 14
    case C7Halts => 15 case Review => 16 case C7Declines => 17 case NoGate => 18
  }

  lemma {:induction false} PlaceIsUnique(g: Gate, h: Gate)
    requires Place(g) == Place(h)
    ensures g == h
  {
  }

  ghost predicate FirstShut(g: Gate, s: Settings, t: Tracker, c: Call) {
    Shut(g, s, t, c) && forall h :: Place(h) < Place(g) ==> !Shut(h, s, t, c)
  }

  /** Every call is decided by exactly one gate, the first that is closed to it. */
  lemma {:induction false} FirstShutGateDecides(g: Gate, s: Settings, t: Tracker, c: Call)
    ensures g == GateOf(s, t, c) <==> FirstShut(g, s, t, c)
  {
    var decided := GateOf(s, t, c);
    DecidingGateIsFirst(s, t, c);
    if FirstShut(g, s, t, c) && Place(g) == Place(decided) {
      PlaceIsUnique(g, decided);
    }
  }

  lemma {:induction false} DecidingGateIsFirst(s: Settings, t: Tracker, c: Call)
    ensures FirstShut(GateOf(s, t, c), s, t, c)
  {
  }

  predicate OffersBridge(r: Reply) {
    r.Returned? && r.result.outcome in {Offered, DomesticLegFailure}
  }

  /** The reply says so: answered calls return something other than RETRY_BLOCKED, offers end at no gate. */
  lemma {:induction false} ReplyTellsGate(s: Settings, t: Tracker, c: Call)
    ensures var g, r := GateOf(s, t, c), ReplyOf(s, t, c);
            && (Answers(g) <==> r.Returned? && r.result.outcome != RetryBlocked)
            && (r == Returned(RETRY_RESULT) <==> g == Retry)
            && (g == Retry <==> IsRetry(t, s.ttl, c.ev.uetr, c.ev.payment, c.now))
            && (OffersBridge(r) <==> g == NoGate)
  {
  }

  /** Everything that must hold, of the event and of every engine, for an offer. */
  ghost predicate AllGatesOpen(s: Settings, t: Tracker, c: Call) {
    !IsRetry(t, s.ttl, c.ev.uetr, c.ev.payment, c.now) && EnginesAgree(s, c)
  }

  /** The part of it that does not depend on earlier calls. */
  ghost predicate EnginesAgree(s: Settings, c: Call) {
    && !c.en.stress.Raises?
    && c.ev.rejection != Known(Block)
    && c.en.c1.Probability? && c.en.c1.p >= s.threshold
    && (c.en.c4.NoClass? || (c.en.c4.Class? && c.en.c4.name.OtherLabel?))
    && c.en.c6 == Checked(true, false)
    && c.en.c2.Priced?
    && c.en.c7.Offers?
  }

  /**
   * Main result: a bridge is offered exactly when every gate is open, whatever
   * the engines do, including raising; so each gate fails closed.
   */
  lemma {:induction false} OfferIffAllGatesOpen(s: Settings, t: Tracker, c: Call)
    ensures OffersBridge(ReplyOf(s, t, c)) <==> AllGatesOpen(s, t, c)
  {
    ReplyTellsGate(s, t, c);
  }

  /** Only an offered result carries a loan offer, and it is the one C7 made. */
  lemma {:induction false} OnlyOffersCarryLoan(s: Settings, t: Tracker, c: Call)
    ensures var r := ReplyOf(s, t, c);
            r.Returned? && r.result.offer.Some? ==>
              && OffersBridge(r) && c.en.c7.Offers? && c.en.c7.offer.Some?
              && r.result.offer.value.id == c.en.c7.offer.value.id
              && (r.result.outcome == DomesticLegFailure ==> r.result.offer.value.parent.Some?)
  {
    ReplyTellsGate(s, t, c);
  }

  /**
   * An offer is for a domestic leg exactly when the event is a rejection on a
   * handoff rail whose parent was registered within the handoff TTL.
   */
  lemma {:induction false} DomesticLegIffHandoff(s: Settings, t: Tracker, c: Call)
    requires OffersBridge(ReplyOf(s, t, c))
    ensures ReplyOf(s, t, c).result.outcome == DomesticLegFailure <==>
              && c.ev.rail in HANDOFF_RAILS && c.ev.rejection != NoCode
              && c.ev.uetr in t.handoffs && t.handoffs[c.ev.uetr].0 != "" && c.now - t.handoffs[c.ev.uetr].1 <= HANDOFF_TTL
  {
    ReplyTellsGate(s, t, c);
  }

  /**
   * The history is a legal run of the lifecycle that ends in the reported
   * state, of at most two moves; AML never blocks before a failure is detected.
   */
  ghost predicate WellFormedHistory(r: Reply) {
    r.Returned? ==>
      && r.result.state.Some? && LegalHistory(r.result.history)
      && r.result.state.value == r.result.history[|r.result.history| - 1]
      && |r.result.history| <= 3 && (|r.result.history| > 1 ==> r.result.history[1] != AmlBlocked)
      && !PaidOut(r.result.state.value)
      && (r.result.state.value == BridgeOffered <==> OffersBridge(r))
      && r.result.outcome != RetryBlocked
  }

  lemma {:induction false} HistoriesAreLegal(g: Gate)
    ensures var h := HistoryAt(g);
            && LegalHistory(h) && |h| <= 3 && (|h| > 1 ==> h[1] != AmlBlocked)
            && !PaidOut(h[|h| - 1]) && (h[|h| - 1] == BridgeOffered <==> g == NoGate)
  {
  }

  /**
   * Main result: every result but a blocked retry carries a legal history that
   * ends in its state, reaches BRIDGE_OFFERED exactly when a bridge is offered,
   * and never a state of a paid-out loan.
   */
  lemma {:induction false} HistoryIsLegal(s: Settings, t: Tracker, c: Call)
    ensures WellFormedHistory(ReplyOf(s, t, c)) || ReplyOf(s, t, c) == Returned(RETRY_RESULT)
  {
    ReplyTellsGate(s, t, c);
    HistoriesAreLegal(GateOf(s, t, c));
    var g := GateOf(s, t, c);
    if Answers(g) {
      ResultKeepsHistory(g, c.en, Parent(MaybeCleanup(t, s.ttl, c.now), c.ev, c.now));
    }
  }

  lemma {:induction false} ResultKeepsHistory(g: Gate, en: Engines, parent: Option<string>)
    requires Answers(g)
    ensures var r := ReplyAt(g, en, parent).result;
            r.history == HistoryAt(g) && r.state == Some(HistoryAt(g)[|HistoryAt(g)| - 1])
  {
  }

  /** An unknown code is not blocked early, but is priced as a blocked class. */
  lemma {:induction false} ZeroMaturityIsBlock(r: Rejection)
    ensures MaturityDays(r) == 0 <==> DerivedClass(r) == Block
    ensures r == UnknownCode ==> DerivedClass(r) == Block && r != Known(Block)
  {
  }
}
