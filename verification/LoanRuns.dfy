/**
 * The offer desk over a whole run, and the loans that acceptances lead to:
 * each comes from an offer delivered before, and no offer leads to two.
 */
module LoanRuns {
  import opened OfferDesk

  /** The n-th action accepts an offer, and this one. */
  predicate Takes(acts: seq<DeskAction>, n: nat) {
    n < |acts| && acts[n].Accept? && AcceptReply(DeskAfter(EMPTY_DESK, acts, n), acts[n].id, acts[n].operator, acts[n].now).Resolved?
  }

  function Taken(acts: seq<DeskAction>, n: nat): Delivery
    requires Takes(acts, n)
  {
    DeskAfter(EMPTY_DESK, acts, n).pending[acts[n].id]
  }

  function LentBy(acts: seq<DeskAction>, lends: seq<bool>, n: nat): seq<Loan>
    requires n < |acts| == |lends|
  {
    if Takes(acts, n) && lends[n] then [LoanOf(Taken(acts, n))] else []
  }

  /** The loans made by the first n actions; lends tells which acceptances got through to the book. */
  function Lent(acts: seq<DeskAction>, lends: seq<bool>, n: nat): seq<Loan>
    requires n <= |acts| == |lends|
  {
    if n == 0 then [] else Lent(acts, lends, n - 1) + LentBy(acts, lends, n - 1)
  }

  // ------------------------------------------------------------ where a loan comes from

  ghost predicate DeliveredAt(acts: seq<DeskAction>, n: nat, i: nat, d: Delivery) {
    i < n <= |acts| && acts[i] == Deliver(d)
  }

  /** A pending offer was delivered under its identifier. */
  lemma {:induction false} PendingWasDelivered(acts: seq<DeskAction>, n: nat, id: string) returns (i: nat)
    requires n <= |acts| && id in DeskAfter(EMPTY_DESK, acts, n).pending
    ensures var d := DeskAfter(EMPTY_DESK, acts, n).pending[id];
            DeliveredAt(acts, n, i, d) && d.offerId == id
  {
    var a := acts[n - 1];
    if a.Deliver? && a.d.offerId == id {
      i := n - 1;
    } else {
      StillPending(DeskAfter(EMPTY_DESK, acts, n - 1), a, id);
      i := PendingWasDelivered(acts, n - 1, id);
    }
  }

  lemma {:induction false} StillPending(k: Desk, a: DeskAction, id: string)
    requires id in Acted(k, a).pending && !(a.Deliver? && a.d.offerId == id)
    ensures id in k.pending && Acted(k, a).pending[id] == k.pending[id]
  {
  }

  /** The loan was delivered as an offer at i and accepted, before its expiry, at k. */
  ghost predicate Traces(acts: seq<DeskAction>, lends: seq<bool>, n: nat, l: Loan, d: Delivery, i: nat, k: nat)
    requires n <= |acts| == |lends|
  {
    && i < k < n && acts[i] == Deliver(d) && LoanOf(d) == l
    && Takes(acts, k) && lends[k] && Taken(acts, k) == d
    && acts[k].id == d.offerId && acts[k].operator != "" && acts[k].now < d.expiry
  }

  /** Main result: every loan traces back to one delivered offer and its acceptance. */
  lemma {:induction false} LoanHasOffer(acts: seq<DeskAction>, lends: seq<bool>, n: nat, p: nat)
    returns (d: Delivery, i: nat, k: nat)
    requires n <= |acts| == |lends| && p < |Lent(acts, lends, n)|
    ensures Traces(acts, lends, n, Lent(acts, lends, n)[p], d, i, k)
  {
    if p < |Lent(acts, lends, n - 1)| {
      d, i, k := LoanHasOffer(acts, lends, n - 1, p);
    } else {
      k := n - 1;
      d := Taken(acts, k);
      i := PendingWasDelivered(acts, k, acts[k].id);
    }
  }

  // ------------------------------------------------------------- no offer lends twice

  lemma {:induction false} LentIsClosed(acts: seq<DeskAction>, lends: seq<bool>, n: nat, p: nat)
    requires n <= |acts| == |lends| && p < |Lent(acts, lends, n)|
    ensures Lent(acts, lends, n)[p].loanId in Closed(DeskAfter(EMPTY_DESK, acts, n))
  {
    var d, i, k := LoanHasOffer(acts, lends, n, p);
    TakingCloses(acts, k);
    ClosedStays(EMPTY_DESK, acts, k + 1, n, d.offerId);
  }

  lemma {:induction false} TakingCloses(acts: seq<DeskAction>, k: nat)
    requires Takes(acts, k)
    ensures acts[k].id !in Closed(DeskAfter(EMPTY_DESK, acts, k))
    ensures acts[k].id in Closed(DeskAfter(EMPTY_DESK, acts, k + 1))
  {
    ClosedGrows(DeskAfter(EMPTY_DESK, acts, k), acts[k], acts[k].id);
  }

  /** Main result: two loans never come from one offer, even if it is delivered again. */
  lemma {:induction false} OfferLendsOnce(acts: seq<DeskAction>, lends: seq<bool>, n: nat, p: nat, q: nat)
    requires n <= |acts| == |lends| && p < q < |Lent(acts, lends, n)|
    ensures Lent(acts, lends, n)[p].loanId != Lent(acts, lends, n)[q].loanId
  {
    var before := Lent(acts, lends, n - 1);
    if q < |before| {
      OfferLendsOnce(acts, lends, n - 1, p, q);
    } else {
      LentIsClosed(acts, lends, n - 1, p);
      TakingCloses(acts, n - 1);
      var i := PendingWasDelivered(acts, n - 1, acts[n - 1].id);
    }
  }

  /** An accepted offer is on the book exactly if its acceptance got through to it. */
  lemma {:induction false} AcceptedIsLentIff(acts: seq<DeskAction>, lends: seq<bool>, n: nat, k: nat)
    requires k < n <= |acts| == |lends| && Takes(acts, k)
    ensures LoanOf(Taken(acts, k)) in Lent(acts, lends, n) <==> lends[k]
  {
    var l := LoanOf(Taken(acts, k));
    var i := PendingWasDelivered(acts, k, acts[k].id);
    if l in Lent(acts, lends, n) {
      var p :| 0 <= p < |Lent(acts, lends, n)| && Lent(acts, lends, n)[p] == l;
      var d, i', k' := LoanHasOffer(acts, lends, n, p);
      TakenOnce(acts, k, k');
    }
    if lends[k] {
      LentGrows(acts, lends, k + 1, n, l);
    }
  }

  /**
   * Main result: an offer that is delivered once is on the book if and only if the
   * first attempt on it is an acceptance, made before its expiry, that gets
   * through to the book.
   */
  lemma {:induction false} OfferIsLentIff(acts: seq<DeskAction>, lends: seq<bool>, n: nat, i: nat)
    requires n <= |acts| == |lends| && DeliveredOnce(acts, i) && InOrder(acts)
    ensures LoanOf(acts[i].d) in Lent(acts, lends, n)
            <==> exists m: nat :: m < n && Decides(acts, i, m) && acts[m].Accept? && lends[m]
  {
    var l := LoanOf(acts[i].d);
    if l in Lent(acts, lends, n) {
      var p :| 0 <= p < |Lent(acts, lends, n)| && Lent(acts, lends, n)[p] == l;
      var d, j, k := LoanHasOffer(acts, lends, n, p);
      assert j == i;
      AttemptMeets(acts, i, k);
      assert Decides(acts, i, k);
    }
    if m: nat :| m < n && Decides(acts, i, m) && acts[m].Accept? && lends[m] {
      AttemptMeets(acts, i, m);
      AcceptedIsLentIff(acts, lends, n, m);
    }
  }

  lemma {:induction false} TakenOnce(acts: seq<DeskAction>, j: nat, k: nat)
    requires Takes(acts, j) && Takes(acts, k) && acts[j].id == acts[k].id
    ensures j == k
  {
    if j < k {
      ResolvedAtMostOnce(EMPTY_DESK, acts, j, k, acts[j].id);
    } else if k < j {
      ResolvedAtMostOnce(EMPTY_DESK, acts, k, j, acts[j].id);
    }
  }

  lemma {:induction false} LentGrows(acts: seq<DeskAction>, lends: seq<bool>, m: nat, n: nat, l: Loan)
    requires m <= n <= |acts| == |lends| && l in Lent(acts, lends, m)
    ensures l in Lent(acts, lends, n)
  {
    if m < n {
      LentGrows(acts, lends, m, n - 1, l);
    }
  }

  // --------------------------------------------- every desk and book of a run

  function AllDesks(acts: seq<DeskAction>): (ks: seq<Desk>)
    ensures |ks| == |acts| + 1 && forall i :: 0 <= i < |ks| ==> ks[i] == DeskAfter(EMPTY_DESK, acts, i)
  {
    seq(|acts| + 1, i requires 0 <= i <= |acts| => DeskAfter(EMPTY_DESK, acts, i))
  }

  function AllLent(acts: seq<DeskAction>, lends: seq<bool>): (books: seq<seq<Loan>>)
    requires |acts| == |lends|
    ensures |books| == |acts| + 1 && forall i :: 0 <= i < |books| ==> books[i] == Lent(acts, lends, i)
  {
    seq(|acts| + 1, i requires 0 <= i <= |acts| => Lent(acts, lends, i))
  }

  /** What one action adds to a book that its acceptances reach. */
  function LoanMade(k: Desk, a: DeskAction, lends: bool): seq<Loan> {
    if a.Accept? && AcceptReply(k, a.id, a.operator, a.now).Resolved? && lends then
      [LoanOf(AcceptReply(k, a.id, a.operator, a.now).d)]
    else []
  }

  lemma {:induction false} LentByIsMade(acts: seq<DeskAction>, lends: seq<bool>, n: nat)
    requires n < |acts| == |lends|
    ensures LentBy(acts, lends, n) == LoanMade(DeskAfter(EMPTY_DESK, acts, n), acts[n], lends[n])
  {
  }
}
