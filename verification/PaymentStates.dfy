/** The payment lifecycle and the machine that enforces it. */
module PaymentStates {

  /** The classes of rejection codes; a blocked one is never bridged. */
  datatype RejectionClass = ClassA | ClassB | ClassC | Block

  datatype PaymentState =
    | Monitoring | FailureDetected | BridgeOffered | Funded | RepaymentPending | CancellationAlert
    | Repaid | BufferRepaid | Defaulted | OfferDeclined | OfferExpired | DisputeBlocked | AmlBlocked

  function Allowed(s: PaymentState): set<PaymentState> {
    match s
    case Monitoring => {FailureDetected, DisputeBlocked, AmlBlocked}
    case FailureDetected => {BridgeOffered, DisputeBlocked, AmlBlocked}
    case BridgeOffered => {Funded, OfferDeclined, OfferExpired}
    case Funded => {Repaid, BufferRepaid, Defaulted, RepaymentPending, CancellationAlert}
    case RepaymentPending => {Repaid, BufferRepaid, Defaulted}
    case CancellationAlert => {Repaid, Defaulted, Funded}
    case _ => {}
  }

  predicate IsTerminal(s: PaymentState) {
    Allowed(s) == {}
  }

  /** A history the lifecycle permits, from the first state to the last. */
  ghost predicate LegalHistory(h: seq<PaymentState>) {
    && h != [] && h[0] == Monitoring
    && (forall i :: 0 < i < |h| ==> h[i] in Allowed(h[i - 1]))
  }

  class PaymentStateMachine {
    var state: PaymentState

    constructor ()
      ensures state == Monitoring
    {
      state := Monitoring;
    }

    /** A forbidden move is refused and leaves the state alone. */
    method Transition(next: PaymentState) returns (ok: bool)
      modifies this
      ensures ok <==> next in Allowed(old(state))
      ensures state == if ok then next else old(state)
    {
      ok := next in Allowed(state);
      if ok {
        state := next;
      }
    }
  }

  /** The states of a payment whose bridge was paid out. */
  predicate PaidOut(s: PaymentState) {
    s in {Funded, RepaymentPending, CancellationAlert, Repaid, BufferRepaid, Defaulted}
  }

  const TERMINAL: set<PaymentState> := {Repaid, BufferRepaid, Defaulted, OfferDeclined, OfferExpired, DisputeBlocked, AmlBlocked}

  /** A payment can get into every state, and ends in exactly these. */
  lemma {:induction false} LegalWayTo(s: PaymentState) returns (h: seq<PaymentState>)
    ensures LegalHistory(h) && h[|h| - 1] == s
    ensures IsTerminal(s) <==> s in TERMINAL
  {
    match s
    case Monitoring => h := [Monitoring];
    case DisputeBlocked | AmlBlocked | FailureDetected => h := [Monitoring, s];
    case BridgeOffered => h := [Monitoring, FailureDetected, s];
    case OfferDeclined | OfferExpired | Funded => h := [Monitoring, FailureDetected, BridgeOffered, s];
    case _ => h := [Monitoring, FailureDetected, BridgeOffered, Funded, s];
  }

  /** How far a payment has got. */
  function Stage(s: PaymentState): nat {
    match s
    case Monitoring => 0
    case FailureDetected => 1
    case BridgeOffered => 2
    case Funded | CancellationAlert => 3
    case RepaymentPending => 4
    case _ => 5
  }

  /** A history only moves on, but for an alert, which can go back to a funded loan. */
  lemma {:induction false} NeverMovesBack(h: seq<PaymentState>, i: nat, j: nat)
    requires LegalHistory(h) && i < j < |h|
    ensures Stage(h[i]) <= Stage(h[j])
    ensures Stage(h[i]) == Stage(h[j]) ==> h[i] in {Funded, CancellationAlert} && h[j] in {Funded, CancellationAlert}
    decreases j
  {
    assert h[j] in Allowed(h[j - 1]);
    if i < j - 1 {
      NeverMovesBack(h, i, j - 1);
    }
  }

  /** Nothing is paid out that was not offered first, and nothing leaves a terminal state. */
  lemma {:induction false} PaidOutWasOffered(h: seq<PaymentState>, k: nat)
    requires LegalHistory(h) && k < |h|
    ensures PaidOut(h[k]) ==> exists i :: 0 <= i < k && h[i] == BridgeOffered
    ensures forall i :: 0 <= i < k ==> !IsTerminal(h[i])
    decreases k
  {
    if k > 0 {
      PaidOutWasOffered(h, k - 1);
      assert h[k] in Allowed(h[k - 1]);
    }
  }
}
