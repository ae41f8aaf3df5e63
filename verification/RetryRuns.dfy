/**
 * A retry tracker over a whole run of sequential visits: what it remembers,
 * and so exactly which visit it blocks.
 */
module RetryRuns {
  import opened UetrTracker

  /** A check at now, and a record at done if the check led to an answer; Idle is anything else. */
  datatype Visit = Idle | Visit(uetr: string, payment: Context, now: real, done: real, answered: bool, outcome: string)

  function Visited(t: Tracker, ttl: real, v: Visit): Tracker {
    if v.Idle? then t
    else if v.answered then Record(MaybeCleanup(t, ttl, v.now), ttl, v.uetr, v.outcome, v.payment, v.done)
    else MaybeCleanup(t, ttl, v.now)
  }

  /** The tracker, t0 at first, after n visits. */
  function Tracked(t0: Tracker, ttl: real, vs: seq<Visit>, n: nat): Tracker
    requires n <= |vs|
  {
    if n == 0 then t0 else Visited(Tracked(t0, ttl, vs, n - 1), ttl, vs[n - 1])
  }

  /** The trackers after every number of visits. */
  function AllTracked(t0: Tracker, ttl: real, vs: seq<Visit>): (ts: seq<Tracker>)
    ensures |ts| == |vs| + 1 && forall i :: 0 <= i < |ts| ==> ts[i] == Tracked(t0, ttl, vs, i)
  {
    seq(|vs| + 1, i requires 0 <= i <= |vs| => Tracked(t0, ttl, vs, i))
  }

  predicate AnsweredAt(vs: seq<Visit>, i: nat) {
    i < |vs| && vs[i].Visit? && vs[i].answered
  }

  /** Sequential visits: each is recorded after its check and before the next check. */
  ghost predicate Clock(vs: seq<Visit>) {
    && (forall i :: 0 <= i < |vs| && vs[i].Visit? ==> vs[i].now <= vs[i].done)
    && (forall i, j :: 0 <= i < j < |vs| && vs[i].Visit? && vs[j].Visit? ==> vs[i].done <= vs[j].now)
  }

  // --------------------------------------------------------------- one visit

  /** The sweeps of a visit leave a record made at that time. */
  predicate Spares(t: Tracker, ttl: real, v: Visit, at: real) {
    v.Visit? ==>
      SweepSpares(t, ttl, v.now, at) && (v.answered ==> SweepSpares(MaybeCleanup(t, ttl, v.now), ttl, v.done, at))
  }

  predicate Enters(v: Visit, k: TupleKey, e: Entry) {
    && v.Visit? && v.answered && Indexable(v.payment)
    && k == KeyOf(v.payment) && e == Entry(v.payment.amount, v.uetr, v.done)
  }

  lemma {:induction false} RowAfterVisit(t: Tracker, ttl: real, v: Visit, k: TupleKey, e: Entry)
    ensures e in Row(Visited(t, ttl, v), k) <==> (e in Row(t, k) && Spares(t, ttl, v, e.at)) || Enters(v, k, e)
  {
    if v.Visit? {
      RowAfterSweep(t, ttl, v.now, k, e);
      if v.answered {
        RowAfterRecord(MaybeCleanup(t, ttl, v.now), ttl, v.uetr, v.outcome, v.payment, v.done, k, e);
      }
    }
  }

  lemma {:induction false} ReferenceAfterVisit(t: Tracker, ttl: real, v: Visit, uetr: string)
    ensures var after := Visited(t, ttl, v);
            uetr in after.processed ==>
              if v.Visit? && v.answered && uetr == v.uetr then after.processed[uetr].1 == v.done
              else uetr in t.processed && after.processed[uetr] == t.processed[uetr]
  {
    if v.Visit? {
      var swept := MaybeCleanup(t, ttl, v.now);
      SweepOnlyRemoves(t, ttl, v.now, uetr);
      SweepOnlyRemoves(swept, ttl, v.done, uetr);
    }
  }

  /** A visit that is done within the TTL of a reference keeps it, or renews it. */
  lemma {:induction false} VisitKeepsReference(t: Tracker, ttl: real, v: Visit, uetr: string, at: real)
    requires v.Visit? ==> at <= v.now <= v.done && v.done - at <= ttl
    requires Holds(t, uetr, at)
    ensures Holds(Visited(t, ttl, v), uetr, at)
  {
  }

  // -------------------------------------------------------- records over a run

  /** No sweep before visit n removes what visit i recorded. */
  ghost predicate Lasts(t0: Tracker, ttl: real, vs: seq<Visit>, i: nat, n: nat)
    requires i < |vs| && vs[i].Visit? && n <= |vs|
  {
    forall k :: i < k < n ==> Spares(Tracked(t0, ttl, vs, k), ttl, vs[k], vs[i].done)
  }

  /** Visit i made the entry, and it is still there at n. */
  ghost predicate Source(t0: Tracker, ttl: real, vs: seq<Visit>, n: nat, i: nat, k: TupleKey, e: Entry)
    requires n <= |vs|
  {
    i < n && Enters(vs[i], k, e) && Lasts(t0, ttl, vs, i, n)
  }

  ghost predicate HasSource(t0: Tracker, ttl: real, vs: seq<Visit>, n: nat, k: TupleKey, e: Entry)
    requires n <= |vs|
  {
    exists i: nat :: Source(t0, ttl, vs, n, i, k, e)
  }

  /** The entry was there at first, and no sweep has removed it. */
  ghost predicate Original(t0: Tracker, ttl: real, vs: seq<Visit>, n: nat, k: TupleKey, e: Entry)
    requires n <= |vs|
  {
    if n == 0 then e in Row(t0, k)
    else Original(t0, ttl, vs, n - 1, k, e) && Spares(Tracked(t0, ttl, vs, n - 1), ttl, vs[n - 1], e.at)
  }

  lemma {:induction false} NothingOriginal(ttl: real, vs: seq<Visit>, n: nat, k: TupleKey, e: Entry)
    requires n <= |vs|
    ensures !Original(EMPTY, ttl, vs, n, k, e)
  {
    if n > 0 {
      NothingOriginal(ttl, vs, n - 1, k, e);
    }
  }

  /** The content index is exactly the answered visits, and what was there at first, that no sweep has removed. */
  lemma {:induction false} RowsExactly(t0: Tracker, ttl: real, vs: seq<Visit>, n: nat, k: TupleKey, e: Entry)
    requires n <= |vs|
    ensures e in Row(Tracked(t0, ttl, vs, n), k) <==> HasSource(t0, ttl, vs, n, k, e) || Original(t0, ttl, vs, n, k, e)
  {
    if n > 0 {
      RowsExactly(t0, ttl, vs, n - 1, k, e);
      RowAfterVisit(Tracked(t0, ttl, vs, n - 1), ttl, vs[n - 1], k, e);
      SourceStep(t0, ttl, vs, n, k, e);
    }
  }

  lemma {:induction false} SourceStep(t0: Tracker, ttl: real, vs: seq<Visit>, n: nat, k: TupleKey, e: Entry)
    requires 0 < n <= |vs|
    ensures HasSource(t0, ttl, vs, n, k, e)
            <==> (HasSource(t0, ttl, vs, n - 1, k, e) && Spares(Tracked(t0, ttl, vs, n - 1), ttl, vs[n - 1], e.at))
                 || Enters(vs[n - 1], k, e)
  {
    if HasSource(t0, ttl, vs, n, k, e) {
      var i: nat :| Source(t0, ttl, vs, n, i, k, e);
      assert i < n - 1 ==> Source(t0, ttl, vs, n - 1, i, k, e);
    }
    if Enters(vs[n - 1], k, e) {
      assert Source(t0, ttl, vs, n, n - 1, k, e);
    } else if HasSource(t0, ttl, vs, n - 1, k, e) && Spares(Tracked(t0, ttl, vs, n - 1), ttl, vs[n - 1], e.at) {
      var i: nat :| Source(t0, ttl, vs, n - 1, i, k, e);
      assert Source(t0, ttl, vs, n, i, k, e);
    }
  }

  /** A known reference was recorded by an answered visit. */
  ghost predicate Named(vs: seq<Visit>, n: nat, i: nat, uetr: string, at: real) {
    i < n && AnsweredAt(vs, i) && vs[i].uetr == uetr && vs[i].done == at
  }

  lemma {:induction false} ReferencesHaveCause(t0: Tracker, ttl: real, vs: seq<Visit>, n: nat, uetr: string) returns (i: nat)
    requires n <= |vs| && t0 == EMPTY && uetr in Tracked(t0, ttl, vs, n).processed
    ensures Named(vs, n, i, uetr, Tracked(t0, ttl, vs, n).processed[uetr].1)
  {
    var v := vs[n - 1];
    ReferenceAfterVisit(Tracked(t0, ttl, vs, n - 1), ttl, v, uetr);
    if v.Visit? && v.answered && uetr == v.uetr {
      i := n - 1;
    } else {
      i := ReferencesHaveCause(t0, ttl, vs, n - 1, uetr);
    }
  }

  /** The reference of an answered visit is known for as long as the TTL lasts. */
  lemma {:induction false} ReferenceStays(t0: Tracker, ttl: real, vs: seq<Visit>, i: nat, n: nat, now: real)
    requires i < n <= |vs| && Clock(vs) && AnsweredAt(vs, i)
    requires forall k :: i < k < n && vs[k].Visit? ==> vs[k].done <= now
    requires now - vs[i].done < ttl
    ensures Holds(Tracked(t0, ttl, vs, n), vs[i].uetr, vs[i].done)
    decreases n
  {
    var t := Tracked(t0, ttl, vs, n - 1);
    if n == i + 1 {
      RecordHolds(MaybeCleanup(t, ttl, vs[i].now), ttl, vs[i].uetr, vs[i].outcome, vs[i].payment, vs[i].done);
    } else {
      ReferenceStays(t0, ttl, vs, i, n - 1, now);
      VisitKeepsReference(t, ttl, vs[n - 1], vs[i].uetr, vs[i].done);
    }
  }

  // ------------------------------------------------ exactly which visit is blocked

  predicate BlocksReference(ttl: real, earlier: Visit, later: Visit)
    requires earlier.Visit? && later.Visit?
  {
    earlier.uetr == later.uetr && later.now - earlier.done < ttl
  }

  predicate BlocksContent(earlier: Visit, later: Visit)
    requires earlier.Visit? && later.Visit?
  {
    earlier.uetr != later.uetr && SameContent(earlier.payment, later.payment)
  }

  /** Visit i blocks visit j by its reference, or by its content under another reference. */
  ghost predicate Blocks(t0: Tracker, ttl: real, vs: seq<Visit>, i: nat, j: nat)
    requires j < |vs| && vs[j].Visit?
  {
    && i < j && AnsweredAt(vs, i)
    && (BlocksReference(ttl, vs[i], vs[j])
        || (BlocksContent(vs[i], vs[j]) && Lasts(t0, ttl, vs, i, j)
            && SweepSpares(Tracked(t0, ttl, vs, j), ttl, vs[j].now, vs[i].done)))
  }

  /**
   * Main result: from an empty tracker a visit is blocked if and only if an earlier one was answered
   * and either had the same reference less than the TTL ago, or the same
   * content and has not been swept since.
   */
  lemma {:induction false} BlockedExactlyWhen(t0: Tracker, ttl: real, vs: seq<Visit>, j: nat)
    requires j < |vs| && vs[j].Visit? && Clock(vs) && t0 == EMPTY
    ensures IsRetry(Tracked(t0, ttl, vs, j), ttl, vs[j].uetr, vs[j].payment, vs[j].now) <==> exists i: nat :: Blocks(t0, ttl, vs, i, j)
  {
    var t, v := Tracked(t0, ttl, vs, j), vs[j];
    if IsRetry(t, ttl, v.uetr, v.payment, v.now) {
      var i := BlockedHasBlocker(t0, ttl, vs, j);
    }
    if i: nat :| Blocks(t0, ttl, vs, i, j) {
      BlockerBlocks(t0, ttl, vs, i, j);
    }
  }

  lemma {:induction false} BlockedHasBlocker(t0: Tracker, ttl: real, vs: seq<Visit>, j: nat) returns (i: nat)
    requires j < |vs| && vs[j].Visit? && t0 == EMPTY
    requires IsRetry(Tracked(t0, ttl, vs, j), ttl, vs[j].uetr, vs[j].payment, vs[j].now)
    ensures Blocks(t0, ttl, vs, i, j)
  {
    var t, v := Tracked(t0, ttl, vs, j), vs[j];
    RetryExactly(t, ttl, v.uetr, v.payment, v.now);
    if KnownUetr(t, ttl, v.uetr, v.now) {
      i := ReferencesHaveCause(t0, ttl, vs, j, v.uetr);
    } else {
      var k := KeyOf(v.payment);
      var e :| Rekeyed(t, ttl, v.uetr, v.payment, v.now, e);
      RowsExactly(t0, ttl, vs, j, k, e);
      NothingOriginal(ttl, vs, j, k, e);
      i :| Source(t0, ttl, vs, j, i, k, e);
      SameContentIsIndexed(vs[i].payment, v.payment);
    }
  }

  lemma {:induction false} BlockerBlocks(t0: Tracker, ttl: real, vs: seq<Visit>, i: nat, j: nat)
    requires j < |vs| && vs[j].Visit? && Clock(vs) && Blocks(t0, ttl, vs, i, j)
    ensures IsRetry(Tracked(t0, ttl, vs, j), ttl, vs[j].uetr, vs[j].payment, vs[j].now)
  {
    var t, v := Tracked(t0, ttl, vs, j), vs[j];
    RetryExactly(t, ttl, v.uetr, v.payment, v.now);
    if BlocksReference(ttl, vs[i], v) {
      ReferenceStays(t0, ttl, vs, i, j, v.now);
    } else {
      SameContentIsIndexed(vs[i].payment, v.payment);
      var k, e := KeyOf(v.payment), Entry(vs[i].payment.amount, vs[i].uetr, vs[i].done);
      assert Source(t0, ttl, vs, j, i, k, e);
      RowsExactly(t0, ttl, vs, j, k, e);
      assert Rekeyed(t, ttl, v.uetr, v.payment, v.now, e);
    }
  }

  /** Inside the TTL no sweep matters: every visit for the same payment is blocked. */
  lemma {:induction false} SamePaymentBlocks(t0: Tracker, ttl: real, vs: seq<Visit>, i: nat, j: nat)
    requires i < j < |vs| && Clock(vs) && AnsweredAt(vs, i) && vs[j].Visit?
    requires SamePayment(vs[i].uetr, vs[i].payment, vs[j].uetr, vs[j].payment) && vs[j].now - vs[i].done < ttl
    ensures Blocks(t0, ttl, vs, i, j)
  {
  }

  /** Only the same payment blocks. */
  lemma {:induction false} BlockerIsSamePayment(t0: Tracker, ttl: real, vs: seq<Visit>, i: nat, j: nat)
    requires j < |vs| && vs[j].Visit? && Blocks(t0, ttl, vs, i, j)
    ensures SamePayment(vs[i].uetr, vs[i].payment, vs[j].uetr, vs[j].payment)
  {
  }

  // -------------------------------------------------- content outlives its TTL

  lemma {:induction false} TwoTrackerCallsEach(t0: Tracker, ttl: real, vs: seq<Visit>, n: nat)
    requires n <= |vs|
    ensures Tracked(t0, ttl, vs, n).calls <= t0.calls + 2 * n
  {
    if n > 0 {
      TwoTrackerCallsEach(t0, ttl, vs, n - 1);
      VisitCalls(Tracked(t0, ttl, vs, n - 1), ttl, vs[n - 1]);
    }
  }

  lemma {:induction false} VisitCalls(t: Tracker, ttl: real, v: Visit)
    ensures Visited(t, ttl, v).calls <= t.calls + 2
  {
  }

  /**
   * Content under a new reference stays blocked however long ago it was
   * answered, while the tracker has not had enough calls to sweep.
   */
  lemma {:induction false} RekeyedOutlivesTtl(t0: Tracker, ttl: real, vs: seq<Visit>, i: nat, j: nat)
    requires i < j < |vs| && Clock(vs) && AnsweredAt(vs, i) && vs[j].Visit?
    requires BlocksContent(vs[i], vs[j]) && t0.calls + 2 * j + 2 < CLEANUP_INTERVAL
    ensures IsRetry(Tracked(t0, ttl, vs, j), ttl, vs[j].uetr, vs[j].payment, vs[j].now)
  {
    forall k | i < k <= j
      ensures Spares(Tracked(t0, ttl, vs, k), ttl, vs[k], vs[i].done)
    {
      TwoTrackerCallsEach(t0, ttl, vs, k);
    }
    assert Blocks(t0, ttl, vs, i, j);
    BlockerBlocks(t0, ttl, vs, i, j);
  }
}
