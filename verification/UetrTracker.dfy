/**
 * Retry detection: the in-memory store of processed payments, its two indexes,
 * lazy expiry, and the registry of cross-rail handoffs.
 */
module UetrTracker {
  import opened RealSums
  import opened Options

  const CLEANUP_INTERVAL: nat := 1000
  const HANDOFF_TTL: real := 1800.0

  /** The underlying payment, whatever reference it is submitted under. */
  datatype Context = Context(sendingBic: string, receivingBic: string, amount: real, currency: string)

  /** A payment rail, compared without regard to case. */
  datatype Rail = FedNow | Rtp | Sepa | OtherRail(name: string)

  const HANDOFF_RAILS: set<Rail> := {FedNow, Rtp, Sepa}

  datatype Entry = Entry(amount: real, uetr: string, at: real)

  type TupleKey = (string, string, string)

  datatype Tracker = Tracker(
    processed: map<string, (string, real)>,
    tuples: map<TupleKey, seq<Entry>>,
    calls: nat,
    handoffs: map<string, (string, real)>)

  const EMPTY: Tracker := Tracker(map[], map[], 0, map[])

  function KeyOf(c: Context): TupleKey {
    (c.sendingBic, c.receivingBic, c.currency)
  }

  /** Payments with a blank party or currency are never indexed by content. */
  predicate Indexable(c: Context) {
    c.sendingBic != "" && c.receivingBic != "" && c.currency != ""
  }

  /**
   * The tolerance is relative to the new amount and signed: a negative new
   * amount makes every ratio pass.
   */
  predicate AmountMatches(current: real, hist: real) {
    if current == 0.0 then hist == 0.0
    else (if current >= hist then current - hist else hist - current) / current <= 0.0001
  }

  function Fresh(es: seq<Entry>, cutoff: real): (r: seq<Entry>)
    ensures forall e :: e in r <==> e in es && e.at >= cutoff
  {
    if es == [] then []
    else if es[0].at >= cutoff then [es[0]] + Fresh(es[1..], cutoff)
    else Fresh(es[1..], cutoff)
  }

  function Expire(t: Tracker, ttl: real, now: real): Tracker {
    var cutoff := now - ttl;
    t.(processed := map u | u in t.processed && t.processed[u].1 >= cutoff :: t.processed[u],
       tuples := map k | k in t.tuples && Fresh(t.tuples[k], cutoff) != [] :: Fresh(t.tuples[k], cutoff))
  }

  /** Every CLEANUP_INTERVAL-th call drops what is older than the TTL. */
  function MaybeCleanup(t: Tracker, ttl: real, now: real): Tracker {
    if t.calls + 1 < CLEANUP_INTERVAL then t.(calls := t.calls + 1)
    else Expire(t.(calls := 0), ttl, now)
  }

  predicate KnownUetr(t: Tracker, ttl: real, uetr: string, now: real) {
    uetr in t.processed && now - t.processed[uetr].1 < ttl
  }

  predicate TupleMatch(t: Tracker, uetr: string, c: Context) {
    && Indexable(c)
    && KeyOf(c) in t.tuples
    && exists i :: 0 <= i < |t.tuples[KeyOf(c)]| && t.tuples[KeyOf(c)][i].uetr != uetr
                   && AmountMatches(c.amount, t.tuples[KeyOf(c)][i].amount)
  }

  predicate IsRetry(t: Tracker, ttl: real, uetr: string, c: Context, now: real) {
    var swept := MaybeCleanup(t, ttl, now);
    KnownUetr(swept, ttl, uetr, now) || TupleMatch(swept, uetr, c)
  }

  function Record(t: Tracker, ttl: real, uetr: string, outcome: string, c: Context, now: real): Tracker {
    var swept := MaybeCleanup(t, ttl, now);
    var known := swept.(processed := swept.processed[uetr := (outcome, now)]);
    if !Indexable(c) then known
    else
      var before := if KeyOf(c) in known.tuples then known.tuples[KeyOf(c)] else [];
      known.(tuples := known.tuples[KeyOf(c) := before + [Entry(c.amount, uetr, now)]])
  }

  function FindParent(t: Tracker, child: string, now: real): Option<string> {
    if child in t.handoffs && now - t.handoffs[child].1 <= HANDOFF_TTL then Some(t.handoffs[child].0) else None
  }

  // ------------------------------------------------------------- the class

  class UETRTracker {
    const ttl: real
    var processed: map<string, (string, real)>
    var tupleIndex: map<TupleKey, seq<Entry>>
    var callCounter: nat
    var handoffs: map<string, (string, real)>

    function View(): Tracker
      reads this
    {
      Tracker(processed, tupleIndex, callCounter, handoffs)
    }

    constructor (ttl: real)
      ensures this.ttl == ttl && View() == EMPTY
    {
      this.ttl := ttl;
      processed, tupleIndex, callCounter, handoffs := map[], map[], 0, map[];
    }

    method Sweep(now: real)
      modifies this
      ensures View() == MaybeCleanup(old(View()), ttl, now)
    {
      callCounter := callCounter + 1;
      if callCounter < CLEANUP_INTERVAL {
        return;
      }
      callCounter := 0;
      var cutoff := now - ttl;
      processed := map u | u in processed && processed[u].1 >= cutoff :: processed[u];
      tupleIndex := map k | k in tupleIndex && Fresh(tupleIndex[k], cutoff) != [] :: Fresh(tupleIndex[k], cutoff);
    }

    method CheckRetry(uetr: string, c: Context, now: real) returns (retry: bool)
      modifies this
      ensures View() == MaybeCleanup(old(View()), ttl, now)
      ensures retry <==> IsRetry(old(View()), ttl, uetr, c, now)
    {
      Sweep(now);
      if uetr in processed && now - processed[uetr].1 < ttl {
        return true;
      }
      if !Indexable(c) || KeyOf(c) !in tupleIndex {
        return false;
      }
      var candidates := tupleIndex[KeyOf(c)];
      for i := 0 to |candidates|
        invariant View() == MaybeCleanup(old(View()), ttl, now)
        invariant forall j :: 0 <= j < i ==>
                    candidates[j].uetr == uetr || !AmountMatches(c.amount, candidates[j].amount)
      {
        if candidates[i].uetr != uetr && AmountMatches(c.amount, candidates[i].amount) {
          return true;
        }
      }
      retry := false;
    }

    method RecordOutcome(uetr: string, outcome: string, c: Context, now: real)
      modifies this
      ensures View() == Record(old(View()), ttl, uetr, outcome, c, now)
    {
      Sweep(now);
      processed := processed[uetr := (outcome, now)];
      if Indexable(c) {
        var before := if KeyOf(c) in tupleIndex then tupleIndex[KeyOf(c)] else [];
        tupleIndex := tupleIndex[KeyOf(c) := before + [Entry(c.amount, uetr, now)]];
      }
    }

    /** Links a domestic leg to its parent; a rail without handoffs is refused. */
    method RegisterHandoff(parent: string, child: string, rail: Rail, now: real) returns (ok: bool)
      modifies this
      ensures ok <==> rail in HANDOFF_RAILS
      ensures View() == if ok then old(View()).(handoffs := old(View()).handoffs[child := (parent, now)]) else old(View())
    {
      ok := rail in HANDOFF_RAILS;
      if ok {
        handoffs := handoffs[child := (parent, now)];
      }
    }
  }

  // ----------------------------------------------------- the same payment again

  /**
   * c' is c again: the same parties and currency, none of them blank, and an
   * amount within 0.01 % of its own; a negative new amount is never compared.
   */
  predicate SameContent(c: Context, c': Context) {
    && c.sendingBic == c'.sendingBic && c.receivingBic == c'.receivingBic && c.currency == c'.currency
    && c.sendingBic != "" && c.receivingBic != "" && c.currency != ""
    && (c'.amount < 0.0 || -(0.0001 * c'.amount) <= c.amount - c'.amount <= 0.0001 * c'.amount)
  }

  /** The same reference, or the same content. */
  predicate SamePayment(uetr: string, c: Context, uetr': string, c': Context) {
    uetr == uetr' || SameContent(c, c')
  }

  /** That is what the content index compares. */
  lemma {:induction false} SameContentIsIndexed(c: Context, c': Context)
    ensures SameContent(c, c') <==> Indexable(c) && Indexable(c') && KeyOf(c) == KeyOf(c') && AmountMatches(c'.amount, c.amount)
  {
    ToleranceMeaning(c'.amount, c.amount);
  }

  // ---------------------------------------------------- what a record blocks

  /** uetr was recorded no earlier than at. */
  ghost predicate Holds(t: Tracker, uetr: string, at: real) {
    uetr in t.processed && t.processed[uetr].1 >= at
  }

  /** The content entry of a payment recorded no earlier than at. */
  ghost predicate HoldsTuple(t: Tracker, uetr: string, c: Context, at: real) {
    KeyOf(c) in t.tuples
    && exists e :: e in t.tuples[KeyOf(c)] && e.uetr == uetr && e.amount == c.amount && e.at >= at
  }

  /** Sweeping within the TTL of a record keeps it. */
  lemma SweepKeeps(t: Tracker, ttl: real, now: real, uetr: string, c: Context, at: real)
    requires now - at <= ttl
    ensures Holds(t, uetr, at) ==> Holds(MaybeCleanup(t, ttl, now), uetr, at)
    ensures HoldsTuple(t, uetr, c, at) ==> HoldsTuple(MaybeCleanup(t, ttl, now), uetr, c, at)
  {
    if HoldsTuple(t, uetr, c, at) {
      var e :| e in t.tuples[KeyOf(c)] && e.uetr == uetr && e.amount == c.amount && e.at >= at;
      assert e in Fresh(t.tuples[KeyOf(c)], now - ttl);
    }
  }

  /** Recording another payment within the TTL keeps the earlier record. */
  lemma RecordKeeps(t: Tracker, ttl: real, now: real, uetr: string, c: Context, at: real,
                    uetr': string, outcome': string, c': Context)
    requires at <= now && now - at <= ttl
    ensures Holds(t, uetr, at) ==> Holds(Record(t, ttl, uetr', outcome', c', now), uetr, at)
    ensures HoldsTuple(t, uetr, c, at) ==> HoldsTuple(Record(t, ttl, uetr', outcome', c', now), uetr, c, at)
  {
    SweepKeeps(t, ttl, now, uetr, c, at);
    var swept := MaybeCleanup(t, ttl, now);
    if HoldsTuple(t, uetr, c, at) {
      var e :| e in swept.tuples[KeyOf(c)] && e.uetr == uetr && e.amount == c.amount && e.at >= at;
      assert e in Record(t, ttl, uetr', outcome', c', now).tuples[KeyOf(c)];
    }
  }

  lemma RecordHolds(t: Tracker, ttl: real, uetr: string, outcome: string, c: Context, now: real)
    ensures Holds(Record(t, ttl, uetr, outcome, c, now), uetr, now)
    ensures c.sendingBic != "" && c.receivingBic != "" && c.currency != "" ==>
              HoldsTuple(Record(t, ttl, uetr, outcome, c, now), uetr, c, now)
  {
    if Indexable(c) {
      var es := Record(t, ttl, uetr, outcome, c, now).tuples[KeyOf(c)];
      assert es[|es| - 1] == Entry(c.amount, uetr, now);
      assert es[|es| - 1] in es;
    }
  }

  /** A record blocks every resubmission of the payment until its TTL is over. */
  lemma HeldIsRetry(t: Tracker, ttl: real, now: real, uetr: string, c: Context, at: real, uetr': string, c': Context)
    requires now - at < ttl
    requires Holds(t, uetr, at) && (SameContent(c, c') ==> HoldsTuple(t, uetr, c, at))
    requires SamePayment(uetr, c, uetr', c')
    ensures IsRetry(t, ttl, uetr', c', now)
  {
    SweepKeeps(t, ttl, now, uetr, c, at);
    SameContentIsIndexed(c, c');
    var swept := MaybeCleanup(t, ttl, now);
    if uetr != uetr' {
      var es := swept.tuples[KeyOf(c)];
      var e :| e in es && e.uetr == uetr && e.amount == c.amount && e.at >= at;
      var i :| 0 <= i < |es| && es[i] == e;
      assert TupleMatch(swept, uetr', c');
    }
  }

  /**
   * The documented tolerance of 0.01 % either way is what the code checks
   * exactly for a non-negative new amount; a negative one matches any amount.
   */
  lemma ToleranceMeaning(current: real, hist: real)
    ensures current >= 0.0 ==>
              (AmountMatches(current, hist) <==>
                 -(0.0001 * current) <= hist - current <= 0.0001 * current)
    ensures current < 0.0 ==> AmountMatches(current, hist)
  {
    var d := if current >= hist then current - hist else hist - current;
    if current > 0.0 {
      RatioAtMost(d, current, 0.0001);
    } else if current < 0.0 {
      RatioNotPositive(d, current);
    }
  }

  lemma RatioAtMost(d: real, c: real, e: real)
    requires c > 0.0
    ensures d / c <= e <==> d <= e * c
  {
    var q := d / c;
    assert q * c == d;
    if q <= e {
      MulNonNegative(e - q, c);
    } else {
      MulPositive(q - e, c);
    }
  }

  lemma RatioNotPositive(d: real, c: real)
    requires c < 0.0 && d >= 0.0
    ensures d / c <= 0.0
  {
    var q := d / c;
    assert q * -c == -d;
    if q > 0.0 {
      MulPositive(q, -c);
    }
  }

  // ------------------------------------------------- exactly what is blocked

  /** The entries of one pair of parties and currency. */
  function Row(t: Tracker, k: TupleKey): seq<Entry> {
    if k in t.tuples then t.tuples[k] else []
  }

  /** The next call to the tracker sweeps it. */
  predicate Due(t: Tracker) {
    t.calls + 1 >= CLEANUP_INTERVAL
  }

  /** A call at now leaves a record made at that time. */
  predicate SweepSpares(t: Tracker, ttl: real, now: real, at: real) {
    Due(t) ==> at >= now - ttl
  }

  lemma {:induction false} SweepOnlyRemoves(t: Tracker, ttl: real, now: real, uetr: string)
    ensures var swept := MaybeCleanup(t, ttl, now);
            uetr in swept.processed ==> uetr in t.processed && swept.processed[uetr] == t.processed[uetr]
  {
  }

  lemma {:induction false} RowAfterSweep(t: Tracker, ttl: real, now: real, k: TupleKey, e: Entry)
    ensures e in Row(MaybeCleanup(t, ttl, now), k) <==> e in Row(t, k) && SweepSpares(t, ttl, now, e.at)
  {
    if k in t.tuples && Due(t) {
      assert e in Fresh(t.tuples[k], now - ttl) <==> e in t.tuples[k] && e.at >= now - ttl;
    }
  }

  /**
   * Every thousandth call, and no other, forgets exactly what was recorded more
   * than the TTL ago; what is kept keeps its outcome and time.
   */
  lemma {:induction false} EveryThousandth(t: Tracker, ttl: real, now: real, k: TupleKey, e: Entry)
    requires t.calls < 1000
    ensures var after := MaybeCleanup(t, ttl, now);
            && after.calls == (t.calls + 1) % 1000 && after.handoffs == t.handoffs
            && (forall u :: u in after.processed <==>
                  u in t.processed && (t.calls == 999 ==> now - t.processed[u].1 <= ttl))
            && (forall u :: u in after.processed ==> after.processed[u] == t.processed[u])
            && (e in Row(after, k) <==> e in Row(t, k) && (t.calls == 999 ==> now - e.at <= ttl))
  {
    RowAfterSweep(t, ttl, now, k, e);
  }

  lemma {:induction false} RowAfterRecord(t: Tracker, ttl: real, uetr: string, outcome: string, c: Context, now: real, k: TupleKey, e: Entry)
    ensures e in Row(Record(t, ttl, uetr, outcome, c, now), k)
            <==> (e in Row(t, k) && SweepSpares(t, ttl, now, e.at))
                 || (Indexable(c) && k == KeyOf(c) && e == Entry(c.amount, uetr, now))
  {
    RowAfterSweep(t, ttl, now, k, e);
    var swept := MaybeCleanup(t, ttl, now);
    if Indexable(c) && k == KeyOf(c) {
      assert Row(Record(t, ttl, uetr, outcome, c, now), k) == Row(swept, k) + [Entry(c.amount, uetr, now)];
    } else {
      assert Row(Record(t, ttl, uetr, outcome, c, now), k) == Row(swept, k);
    }
  }

  /** An entry that blocks a payment submitted under another reference. */
  ghost predicate Rekeyed(t: Tracker, ttl: real, uetr: string, c: Context, now: real, e: Entry) {
    && e in Row(t, KeyOf(c)) && SweepSpares(t, ttl, now, e.at)
    && e.uetr != uetr && AmountMatches(c.amount, e.amount)
  }

  /**
   * The two ways to be blocked: a reference is forgotten when its TTL is over,
   * the content of a payment only when a sweep finds it older than that.
   */
  lemma {:induction false} RetryExactly(t: Tracker, ttl: real, uetr: string, c: Context, now: real)
    ensures IsRetry(t, ttl, uetr, c, now)
            <==> KnownUetr(t, ttl, uetr, now) || (Indexable(c) && exists e :: Rekeyed(t, ttl, uetr, c, now, e))
  {
    var swept := MaybeCleanup(t, ttl, now);
    assert KnownUetr(swept, ttl, uetr, now) <==> KnownUetr(t, ttl, uetr, now);
    if TupleMatch(swept, uetr, c) {
      var i :| 0 <= i < |swept.tuples[KeyOf(c)]| && swept.tuples[KeyOf(c)][i].uetr != uetr
               && AmountMatches(c.amount, swept.tuples[KeyOf(c)][i].amount);
      var e := swept.tuples[KeyOf(c)][i];
      RowAfterSweep(t, ttl, now, KeyOf(c), e);
      assert Rekeyed(t, ttl, uetr, c, now, e);
    }
    if e :| Indexable(c) && Rekeyed(t, ttl, uetr, c, now, e) {
      RowAfterSweep(t, ttl, now, KeyOf(c), e);
      var i :| 0 <= i < |Row(swept, KeyOf(c))| && Row(swept, KeyOf(c))[i] == e;
      assert TupleMatch(swept, uetr, c);
    }
  }

  /** Once recorded, the same content under any reference is blocked until the TTL is over. */
  lemma {:induction false} RecordedContentBlocks(t: Tracker, ttl: real, uetr: string, outcome: string, c: Context, at: real,
                                                 uetr': string, c': Context, now: real)
    requires now - at < ttl && SameContent(c, c')
    ensures IsRetry(Record(t, ttl, uetr, outcome, c, at), ttl, uetr', c', now)
  {
    RecordHolds(t, ttl, uetr, outcome, c, at);
    HeldIsRetry(Record(t, ttl, uetr, outcome, c, at), ttl, now, uetr, c, at, uetr', c');
  }

  /**
   * Main result: exactly what a single record blocks, in the fields of the two
   * payments: its reference for the TTL, and its content under another reference.
   */
  lemma {:induction false} SingleRecordBlocks(ttl: real, uetr: string, outcome: string, c: Context, at: real,
                                              uetr': string, c': Context, now: real)
    ensures IsRetry(Record(EMPTY, ttl, uetr, outcome, c, at), ttl, uetr', c', now)
            <==> if uetr == uetr' then now - at < ttl else SameContent(c, c')
  {
    var t := Record(EMPTY, ttl, uetr, outcome, c, at);
    SameContentIsIndexed(c, c');
    RetryExactly(t, ttl, uetr', c', now);
    forall e: Entry
      ensures e in Row(t, KeyOf(c')) <==> Indexable(c) && KeyOf(c') == KeyOf(c) && e == Entry(c.amount, uetr, at)
    {
      RowAfterRecord(EMPTY, ttl, uetr, outcome, c, at, KeyOf(c'), e);
    }
    if uetr != uetr' && SameContent(c, c') {
      assert Rekeyed(t, ttl, uetr', c', now, Entry(c.amount, uetr, at));
    }
  }

  /** A payment with a blank party or currency is blocked by its reference alone. */
  lemma {:induction false} BlankBlockedByReference(t: Tracker, ttl: real, uetr: string, c: Context, now: real)
    requires c.sendingBic == "" || c.receivingBic == "" || c.currency == ""
    ensures IsRetry(t, ttl, uetr, c, now) <==> uetr in t.processed && now - t.processed[uetr].1 < ttl
  {
    RetryExactly(t, ttl, uetr, c, now);
  }

  /** Recording a payment leaves another one, of other content and reference, as blocked or free as it was. */
  lemma {:induction false} OtherContentUnaffected(t: Tracker, ttl: real, uetr: string, outcome: string, c: Context, at: real,
                                                  uetr': string, c': Context, now: real)
    requires !SamePayment(uetr, c, uetr', c') && !Due(t) && !Due(Record(t, ttl, uetr, outcome, c, at))
    ensures IsRetry(Record(t, ttl, uetr, outcome, c, at), ttl, uetr', c', now) <==> IsRetry(t, ttl, uetr', c', now)
  {
    var after := Record(t, ttl, uetr, outcome, c, at);
    SameContentIsIndexed(c, c');
    RetryExactly(t, ttl, uetr', c', now);
    RetryExactly(after, ttl, uetr', c', now);
    forall e: Entry | AmountMatches(c'.amount, e.amount) && e.uetr != uetr' && Indexable(c')
      ensures Rekeyed(after, ttl, uetr', c', now, e) <==> Rekeyed(t, ttl, uetr', c', now, e)
    {
      RowAfterRecord(t, ttl, uetr, outcome, c, at, KeyOf(c'), e);
    }
  }
}
