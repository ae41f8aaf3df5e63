/**
 * Delivery of loan offers: each waits for its bank until it is accepted,
 * rejected or expired, and is resolved at most once.
 */
module OfferDesk {

  datatype Delivery = Delivery(offerId: string, uetr: string, amount: real, feeBps: int, maturityDays: int,
                               entity: string, beneficiary: string, sendingBic: string, receivingBic: string,
                               elo: string, expiry: real)

  datatype Desk = Desk(pending: map<string, Delivery>, accepted: set<string>, rejected: set<string>, expired: set<string>)

  const EMPTY_DESK: Desk := Desk(map[], {}, {}, {})

  /** What an accepted offer becomes, on the books of C3 and of the risk engine. */
  datatype Loan = Loan(loanId: string, uetr: string, principal: real, feeBps: int, maturityDays: int)

  function LoanOf(d: Delivery): Loan {
    Loan(d.offerId, d.uetr, d.amount, d.feeBps, d.maturityDays)
  }

  /** What an attempt to accept or reject meets. */
  datatype Resolution =
    | Resolved(d: Delivery) | MissingOperator | MissingReason | AlreadyResolved | OfferExpired | OfferNotFound

  predicate Stale(d: Delivery, now: real) {
    d.expiry <= now
  }

  function Delivered(k: Desk, d: Delivery): Desk {
    k.(pending := k.pending[d.offerId := d])
  }

  /** Whether the offer can still be resolved. */
  function Resolvable(k: Desk, id: string, now: real): Resolution {
    if id in k.accepted || id in k.rejected then AlreadyResolved
    else if id in k.expired then OfferExpired
    else if id !in k.pending then OfferNotFound
    else if Stale(k.pending[id], now) then OfferExpired
    else Resolved(k.pending[id])
  }

  /** A failed attempt on an offer that went stale meanwhile expires it. */
  function AfterAttempt(k: Desk, id: string, now: real): Desk {
    if id in k.accepted || id in k.rejected || id in k.expired || id !in k.pending then k
    else if Stale(k.pending[id], now) then k.(pending := k.pending - {id}, expired := k.expired + {id})
    else k.(pending := k.pending - {id})
  }

  function AcceptReply(k: Desk, id: string, operator: string, now: real): Resolution {
    if operator == "" then MissingOperator else Resolvable(k, id, now)
  }

  function AfterAccept(k: Desk, id: string, operator: string, now: real): Desk {
    if operator == "" then k
    else
      var after := AfterAttempt(k, id, now);
      if Resolvable(k, id, now).Resolved? then after.(accepted := after.accepted + {id}) else after
  }

  function RejectReply(k: Desk, id: string, operator: string, reason: string, now: real): Resolution {
    if operator == "" then MissingOperator else if reason == "" then MissingReason else Resolvable(k, id, now)
  }

  function AfterReject(k: Desk, id: string, operator: string, reason: string, now: real): Desk {
    if operator == "" || reason == "" then k
    else
      var after := AfterAttempt(k, id, now);
      if Resolvable(k, id, now).Resolved? then after.(rejected := after.rejected + {id}) else after
  }

  function AfterSweep(k: Desk, now: real): Desk {
    var stale := set id | id in k.pending && Stale(k.pending[id], now);
    k.(pending := k.pending - stale, expired := k.expired + stale)
  }

  class OfferDeliveryService {
    var pending: map<string, Delivery>
    var accepted: set<string>
    var rejected: set<string>
    var expired: set<string>

    function View(): Desk
      reads this
    {
      Desk(pending, accepted, rejected, expired)
    }

    constructor ()
      ensures View() == EMPTY_DESK
    {
      pending, accepted, rejected, expired := map[], {}, {}, {};
    }

    method Deliver(d: Delivery)
      modifies this
      ensures View() == Delivered(old(View()), d)
    {
      pending := pending[d.offerId := d];
    }

    method Accept(id: string, operator: string, now: real) returns (r: Resolution)
      modifies this
      ensures r == AcceptReply(old(View()), id, operator, now)
      ensures View() == AfterAccept(old(View()), id, operator, now)
    {
      if operator == "" {
        return MissingOperator;
      }
      r := CheckResolvable(id, now);
      if r.Resolved? {
        pending := pending - {id};
        accepted := accepted + {id};
      }
    }

    method Reject(id: string, operator: string, reason: string, now: real) returns (r: Resolution)
      modifies this
      ensures r == RejectReply(old(View()), id, operator, reason, now)
      ensures View() == AfterReject(old(View()), id, operator, reason, now)
    {
      if operator == "" {
        return MissingOperator;
      }
      if reason == "" {
        return MissingReason;
      }
      r := CheckResolvable(id, now);
      if r.Resolved? {
        pending := pending - {id};
        rejected := rejected + {id};
      }
    }

    /** Refuses what is resolved, expired or unknown; expires what went stale. */
    method CheckResolvable(id: string, now: real) returns (r: Resolution)
      modifies this
      ensures r == Resolvable(old(View()), id, now)
      ensures View() == if r.Resolved? then old(View()) else AfterAttempt(old(View()), id, now)
    {
      if id in accepted || id in rejected {
        return AlreadyResolved;
      }
      if id in expired {
        return OfferExpired;
      }
      if id !in pending {
        return OfferNotFound;
      }
      if Stale(pending[id], now) {
        pending := pending - {id};
        expired := expired + {id};
        return OfferExpired;
      }
      return Resolved(pending[id]);
    }

    method ExpireStaleOffers(now: real)
      modifies this
      ensures View() == AfterSweep(old(View()), now)
      ensures forall id :: id in pending <==> id in old(pending) && now < old(pending)[id].expiry
      ensures forall id :: id in pending ==> pending[id] == old(pending)[id]
      ensures forall id :: id in expired <==> id in old(expired) || (id in old(pending) && old(pending)[id].expiry <= now)
    {
      var stale := set id | id in pending && Stale(pending[id], now);
      pending := pending - stale;
      expired := expired + stale;
    }
  }

  // ------------------------------------------------------------------- runs

  /** Wait is anything that does not concern the desk. */
  datatype DeskAction =
    | Wait | Deliver(d: Delivery) | Accept(id: string, operator: string, now: real)
    | Reject(id: string, operator: string, reason: string, now: real) | Expire(now: real)

  function Acted(k: Desk, a: DeskAction): Desk {
    match a
    case Wait => k
    case Deliver(d) => Delivered(k, d)
    case Accept(id, operator, now) => AfterAccept(k, id, operator, now)
    case Reject(id, operator, reason, now) => AfterReject(k, id, operator, reason, now)
    case Expire(now) => AfterSweep(k, now)
  }

  function DeskAfter(k: Desk, actions: seq<DeskAction>, n: nat): Desk
    requires n <= |actions|
  {
    if n == 0 then k else Acted(DeskAfter(k, actions, n - 1), actions[n - 1])
  }

  function Closed(k: Desk): set<string> {
    k.accepted + k.rejected + k.expired
  }

  /** The offer a resolving action closes, if it does. */
  predicate Resolves(k: Desk, a: DeskAction, id: string) {
    || (a.Accept? && a.id == id && AcceptReply(k, id, a.operator, a.now).Resolved?)
    || (a.Reject? && a.id == id && RejectReply(k, id, a.operator, a.reason, a.now).Resolved?)
  }

  /** What is accepted, rejected or expired stays so, and a resolving action closes its offer. */
  lemma {:induction false} ClosedGrows(k: Desk, a: DeskAction, id: string)
    ensures k.accepted <= Acted(k, a).accepted && k.rejected <= Acted(k, a).rejected && k.expired <= Acted(k, a).expired
    ensures Resolves(k, a, id) ==> id !in Closed(k) && id in Closed(Acted(k, a))
  {
  }

  lemma {:induction false} ClosedStays(k: Desk, actions: seq<DeskAction>, m: nat, n: nat, id: string)
    requires m <= n <= |actions| && id in Closed(DeskAfter(k, actions, m))
    ensures id in Closed(DeskAfter(k, actions, n))
  {
    if m < n {
      ClosedStays(k, actions, m, n - 1, id);
      ClosedGrows(DeskAfter(k, actions, n - 1), actions[n - 1], id);
    }
  }

  /**
   * Main result: in any run, even one that delivers an offer again, an offer is
   * accepted or rejected at most once, and never after it has expired.
   */
  lemma {:induction false} ResolvedAtMostOnce(k: Desk, actions: seq<DeskAction>, m: nat, n: nat, id: string)
    requires m < n < |actions| && Resolves(DeskAfter(k, actions, m), actions[m], id)
    ensures !Resolves(DeskAfter(k, actions, n), actions[n], id)
  {
    ClosedGrows(DeskAfter(k, actions, m), actions[m], id);
    ClosedStays(k, actions, m + 1, n, id);
    ClosedGrows(DeskAfter(k, actions, n), actions[n], id);
  }

  /** An offer is in one state only: pending, accepted, rejected or expired. */
  ghost predicate OneState(k: Desk) {
    && k.pending.Keys !! Closed(k)
    && k.accepted !! k.rejected && k.accepted !! k.expired && k.rejected !! k.expired
  }

  /** Offers delivered under new identifiers are never in two states. */
  lemma {:induction false} OneStateKept(k: Desk, a: DeskAction)
    requires OneState(k) && (a.Deliver? ==> a.d.offerId !in Closed(k))
    ensures OneState(Acted(k, a))
  {
  }

  // ------------------------------------------------ exactly what an attempt meets

  /** The action names an operator, and a reason if it rejects. */
  predicate Attempts(a: DeskAction, id: string) {
    (a.Accept? && a.id == id && a.operator != "") || (a.Reject? && a.id == id && a.operator != "" && a.reason != "")
  }

  predicate Timed(a: DeskAction) {
    a.Accept? || a.Reject? || a.Expire?
  }

  /** The actions that read the clock come in order of time. */
  ghost predicate InOrder(acts: seq<DeskAction>) {
    forall i, j :: 0 <= i < j < |acts| && Timed(acts[i]) && Timed(acts[j]) ==> acts[i].now <= acts[j].now
  }

  /** Action i is the only one that delivers under its identifier. */
  ghost predicate DeliveredOnce(acts: seq<DeskAction>, i: nat) {
    i < |acts| && acts[i].Deliver?
    && forall j :: 0 <= j < |acts| && j != i && acts[j].Deliver? ==> acts[j].d.offerId != acts[i].d.offerId
  }

  /** What has become of an offer. */
  datatype Status = Open | Gone | Taken | Refused

  ghost predicate Shows(k: Desk, d: Delivery, st: Status) {
    var id := d.offerId;
    && (if st == Open then id in k.pending && k.pending[id] == d else id !in k.pending)
    && (id in k.expired <==> st == Gone) && (id in k.accepted <==> st == Taken) && (id in k.rejected <==> st == Refused)
  }

  function NextStatus(st: Status, d: Delivery, a: DeskAction): Status {
    if st != Open then st
    else if Attempts(a, d.offerId) then (if d.expiry <= a.now then Gone else if a.Accept? then Taken else Refused)
    else if a.Expire? && d.expiry <= a.now then Gone
    else Open
  }

  /** The status of the offer that action i delivers, before action n. */
  function StatusAt(acts: seq<DeskAction>, i: nat, n: nat): Status
    requires i < n <= |acts| && acts[i].Deliver?
  {
    if n == i + 1 then Open else NextStatus(StatusAt(acts, i, n - 1), acts[i].d, acts[n - 1])
  }

  lemma {:induction false} StepShows(k: Desk, d: Delivery, st: Status, a: DeskAction)
    requires Shows(k, d, st) && !(a.Deliver? && a.d.offerId == d.offerId)
    ensures Shows(Acted(k, a), d, NextStatus(st, d, a))
  {
  }

  /** An identifier that was never delivered is nowhere on the desk. */
  lemma {:induction false} NeverDelivered(acts: seq<DeskAction>, n: nat, id: string)
    requires n <= |acts| && forall j :: 0 <= j < n && acts[j].Deliver? ==> acts[j].d.offerId != id
    ensures id !in DeskAfter(EMPTY_DESK, acts, n).pending && id !in Closed(DeskAfter(EMPTY_DESK, acts, n))
  {
    if n > 0 {
      NeverDelivered(acts, n - 1, id);
    }
  }

  lemma {:induction false} StatusShows(acts: seq<DeskAction>, i: nat, n: nat)
    requires DeliveredOnce(acts, i) && i < n <= |acts|
    ensures Shows(DeskAfter(EMPTY_DESK, acts, n), acts[i].d, StatusAt(acts, i, n))
  {
    if n == i + 1 {
      NeverDelivered(acts, i, acts[i].d.offerId);
    } else {
      StatusShows(acts, i, n - 1);
      StepShows(DeskAfter(EMPTY_DESK, acts, n - 1), acts[i].d, StatusAt(acts, i, n - 1), acts[n - 1]);
    }
  }

  /** Attempt m was in time, and the first. */
  ghost predicate Decides(acts: seq<DeskAction>, i: nat, m: nat)
    requires i < |acts| && acts[i].Deliver?
  {
    && i < m < |acts| && Attempts(acts[m], acts[i].d.offerId) && acts[m].now < acts[i].d.expiry
    && forall l :: i < l < m ==> !Attempts(acts[l], acts[i].d.offerId)
  }

  /** An offer is gone only once its expiry has passed, and decided only by the first attempt before that. */
  lemma {:induction false} StatusMeaning(acts: seq<DeskAction>, i: nat, n: nat) returns (m: nat)
    requires DeliveredOnce(acts, i) && InOrder(acts) && i < n <= |acts|
    ensures i <= m < n
    ensures var st, d := StatusAt(acts, i, n), acts[i].d;
            && (st == Open ==> forall l :: i < l < n ==> !Attempts(acts[l], d.offerId))
            && (st == Gone ==> Timed(acts[m]) && d.expiry <= acts[m].now
                               && forall l :: i < l < m ==> !Attempts(acts[l], d.offerId))
            && (st == Taken ==> Decides(acts, i, m) && acts[m].Accept?)
            && (st == Refused ==> Decides(acts, i, m) && acts[m].Reject?)
  {
    m := i;
    if n > i + 1 {
      m := StatusMeaning(acts, i, n - 1);
      if StatusAt(acts, i, n - 1) == Open {
        m := n - 1;
      }
    }
  }

  /**
   * Main result: in a run with times in order, what an attempt on an offer that
   * was delivered once meets: the offer, if it is the first and in time; that it
   * is resolved, if an earlier one was; and otherwise that it has expired.
   */
  lemma {:induction false} AttemptMeets(acts: seq<DeskAction>, i: nat, n: nat)
    requires DeliveredOnce(acts, i) && InOrder(acts) && i < n < |acts| && Attempts(acts[n], acts[i].d.offerId)
    ensures var a, d, k := acts[n], acts[i].d, DeskAfter(EMPTY_DESK, acts, n);
            var r := if a.Accept? then AcceptReply(k, a.id, a.operator, a.now) else RejectReply(k, a.id, a.operator, a.reason, a.now);
            && (r == Resolved(d) <==> Decides(acts, i, n))
            && (r == AlreadyResolved <==> exists m: nat :: m < n && Decides(acts, i, m))
            && (r == OfferExpired <==> d.expiry <= a.now && forall m: nat :: m < n ==> !Decides(acts, i, m))
            && (r == Resolved(d) ==> d.offerId in if a.Accept? then Acted(k, a).accepted else Acted(k, a).rejected)
  {
    StatusShows(acts, i, n);
    var m := StatusMeaning(acts, i, n);
    match StatusAt(acts, i, n)
    case Gone =>
      assert acts[m].now <= acts[n].now;
      forall l: nat | l < n ensures !Decides(acts, i, l) {
        NotAfterExpiry(acts, i, m, l);
      }
    case _ =>
  }

  lemma {:induction false} NotAfterExpiry(acts: seq<DeskAction>, i: nat, m: nat, l: nat)
    requires DeliveredOnce(acts, i) && InOrder(acts) && i <= m < |acts|
    requires Timed(acts[m]) && acts[i].d.expiry <= acts[m].now
    requires forall l :: i < l < m ==> !Attempts(acts[l], acts[i].d.offerId)
    ensures !Decides(acts, i, l)
  {
    if i < l < |acts| && Attempts(acts[l], acts[i].d.offerId) && l > m {
      assert acts[m].now <= acts[l].now;
    }
  }

  /** An offer that was not delivered before is not found; an attempt without its operator or reason changes nothing. */
  lemma {:induction false} AttemptRefused(acts: seq<DeskAction>, n: nat, id: string, operator: string, reason: string, now: real)
    requires n <= |acts|
    ensures var k := DeskAfter(EMPTY_DESK, acts, n);
            && (AcceptReply(k, id, operator, now) == MissingOperator <==> operator == "")
            && (RejectReply(k, id, operator, reason, now) == MissingOperator <==> operator == "")
            && (RejectReply(k, id, operator, reason, now) == MissingReason <==> operator != "" && reason == "")
            && (operator == "" ==> AfterAccept(k, id, operator, now) == k)
            && (operator == "" || reason == "" ==> AfterReject(k, id, operator, reason, now) == k)
            && (operator != "" && (forall j :: 0 <= j < n && acts[j].Deliver? ==> acts[j].d.offerId != id) ==>
                  && AcceptReply(k, id, operator, now) == OfferNotFound
                  && (reason != "" ==> RejectReply(k, id, operator, reason, now) == OfferNotFound))
  {
    if forall j :: 0 <= j < n && acts[j].Deliver? ==> acts[j].d.offerId != id {
      NeverDelivered(acts, n, id);
    }
  }
}
