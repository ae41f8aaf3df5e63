/**
 * Leave-one-out failure rates attached to synthetic training records: what each
 * record learns about the others, and what it learns about itself.
 */
module LeaveOneOut {
  import opened RealSums
  import opened IndexSets

  datatype Role = Sender | Receiver | Corridor

  datatype Stats =
    | BicStats(rate30: real, rate7: real, rate1: real, txCount: nat, consecutive: nat)
    | CorridorStats(rate30: real, rate7: real, txCount: nat, consecutive: nat)

  datatype Record = Record(sender: string, receiver: string, corridor: string, failed: bool, stats: map<Role, Stats>)

  datatype Totals = Totals(tx: nat, fail: nat)

  const MAX_STREAK: nat := 3

  function Key(role: Role, rec: Record): string {
    match role
    case Sender => rec.sender
    case Receiver => rec.receiver
    case Corridor => rec.corridor
  }

  function OwnFail(rec: Record): nat {
    if rec.failed then 1 else 0
  }

  // ------------------------------------------------------ what is promised

  /** Records before n with the key in the role, and the failing ones among them. */
  ghost function Group(raw: seq<Record>, n: nat, role: Role, key: string): set<nat>
    requires n <= |raw|
  {
    set j: nat | j < n && Key(role, raw[j]) == key
  }

  ghost function Failing(raw: seq<Record>, n: nat, role: Role, key: string): set<nat>
    requires n <= |raw|
  {
    set j: nat | j < n && Key(role, raw[j]) == key && raw[j].failed
  }

  /** The records other than i sharing its key, and the failing ones among them. */
  ghost function Others(raw: seq<Record>, role: Role, i: nat): set<nat>
    requires i < |raw|
  {
    set j: nat | j < |raw| && j != i && Key(role, raw[j]) == Key(role, raw[i])
  }

  ghost function FailingOthers(raw: seq<Record>, role: Role, i: nat): set<nat>
    requires i < |raw|
  {
    set j: nat | j < |raw| && j != i && Key(role, raw[j]) == Key(role, raw[i]) && raw[j].failed
  }

  function Ratio(part: int, whole: nat): real {
    if whole == 0 then 0.0 else part as real / whole as real
  }

  /** Fraction of the other records with the same key that failed; 0 when there are none. */
  ghost function OthersRate(raw: seq<Record>, role: Role, i: nat): real
    requires i < |raw|
  {
    Ratio(|FailingOthers(raw, role, i)|, |Others(raw, role, i)|)
  }

  function StatsWith(role: Role, rate: real, t: Totals): Stats {
    var streak := if t.fail < MAX_STREAK then t.fail else MAX_STREAK;
    if role == Corridor then CorridorStats(rate, rate * 0.90, t.tx, streak)
    else BicStats(rate, rate * 0.90, rate * 0.80, t.tx, streak)
  }

  ghost function GroupTotals(raw: seq<Record>, n: nat, role: Role, key: string): Totals
    requires n <= |raw|
  {
    Totals(|Group(raw, n, role, key)|, |Failing(raw, n, role, key)|)
  }

  /** The stats record i must end up with. */
  ghost function StatsOf(raw: seq<Record>, role: Role, i: nat): Stats
    requires i < |raw|
  {
    StatsWith(role, OthersRate(raw, role, i), GroupTotals(raw, |raw|, role, Key(role, raw[i])))
  }

  ghost function Enriched(raw: seq<Record>, i: nat): Record
    requires i < |raw|
  {
    raw[i].(stats := map[Sender := StatsOf(raw, Sender, i),
                         Receiver := StatsOf(raw, Receiver, i),
                         Corridor := StatsOf(raw, Corridor, i)])
  }

  /**
   * What stats must show of record i: the rate of failures among the others of its
   * group and its two fixed fractions, and of the whole group, record i
   * included, the size and a streak of at most three failures.
   */
  ghost predicate ShowsOthers(s: Stats, raw: seq<Record>, role: Role, i: nat)
    requires i < |raw|
  {
    var others, failing := |Others(raw, role, i)|, |FailingOthers(raw, role, i)|;
    && (role == Corridor <==> s.CorridorStats?)
    && (if others == 0 then s.rate30 == 0.0 else s.rate30 * others as real == failing as real)
    && s.rate7 == 0.90 * s.rate30 && (role != Corridor ==> s.rate1 == 0.80 * s.rate30)
    && s.txCount == others + 1
    && s.consecutive == (if raw[i].failed then (if failing < 2 then failing + 1 else 3) else (if failing < 3 then failing else 3))
  }

  lemma {:induction false} StatsShowOthers(raw: seq<Record>, role: Role, i: nat)
    requires i < |raw|
    ensures ShowsOthers(StatsOf(raw, role, i), raw, role, i)
  {
    SplitOwn(raw, role, i);
  }

  lemma {:induction false} EnrichedShows(raw: seq<Record>, i: nat)
    requires i < |raw|
    ensures Enriched(raw, i).(stats := raw[i].stats) == raw[i]
    ensures forall role :: role in Enriched(raw, i).stats && ShowsOthers(Enriched(raw, i).stats[role], raw, role, i)
  {
    forall role
      ensures role in Enriched(raw, i).stats && ShowsOthers(Enriched(raw, i).stats[role], raw, role, i)
    {
      StatsShowOthers(raw, role, i);
    }
  }

  // ------------------------------------------------------------ the passes

  function Lookup(base: map<string, Totals>, key: string): Totals {
    if key in base then base[key] else Totals(0, 0)
  }

  function Counted(base: map<string, Totals>, role: Role, rec: Record): map<string, Totals> {
    var t := Lookup(base, Key(role, rec));
    base[Key(role, rec) := Totals(t.tx + 1, t.fail + OwnFail(rec))]
  }

  ghost predicate Tallies(raw: seq<Record>, n: nat, role: Role, base: map<string, Totals>)
    requires n <= |raw|
  {
    forall key :: Lookup(base, key) == GroupTotals(raw, n, role, key)
  }

  lemma {:induction false} CountedTallies(raw: seq<Record>, n: nat, role: Role, base: map<string, Totals>)
    requires n < |raw| && Tallies(raw, n, role, base)
    ensures Tallies(raw, n + 1, role, Counted(base, role, raw[n]))
  {
    var next := Counted(base, role, raw[n]);
    forall key ensures Lookup(next, key) == GroupTotals(raw, n + 1, role, key) {
      assert Lookup(base, key) == GroupTotals(raw, n, role, key);
      GroupStep(raw, n, role, key);
    }
  }

  lemma {:induction false} GroupStep(raw: seq<Record>, n: nat, role: Role, key: string)
    requires n < |raw|
    ensures var here := Key(role, raw[n]) == key;
            && |Group(raw, n + 1, role, key)| == |Group(raw, n, role, key)| + (if here then 1 else 0)
            && |Failing(raw, n + 1, role, key)| == |Failing(raw, n, role, key)| + (if here then OwnFail(raw[n]) else 0)
  {
    Grows(Group(raw, n, role, key), Group(raw, n + 1, role, key), n, Key(role, raw[n]) == key);
    Grows(Failing(raw, n, role, key), Failing(raw, n + 1, role, key), n, Key(role, raw[n]) == key && raw[n].failed);
  }

  /** Per-key totals for the three roles, in one pass. */
  method ComputeStats(raw: array<Record>) returns (senders: map<string, Totals>, receivers: map<string, Totals>, corridors: map<string, Totals>)
    ensures Tallies(raw[..], raw.Length, Sender, senders)
    ensures Tallies(raw[..], raw.Length, Receiver, receivers)
    ensures Tallies(raw[..], raw.Length, Corridor, corridors)
  {
    senders, receivers, corridors := map[], map[], map[];
    var n := 0;
    while n < raw.Length
      invariant 0 <= n <= raw.Length
      invariant Tallies(raw[..], n, Sender, senders)
      invariant Tallies(raw[..], n, Receiver, receivers)
      invariant Tallies(raw[..], n, Corridor, corridors)
    {
      CountedTallies(raw[..], n, Sender, senders);
      CountedTallies(raw[..], n, Receiver, receivers);
      CountedTallies(raw[..], n, Corridor, corridors);
      senders := Counted(senders, Sender, raw[n]);
      receivers := Counted(receivers, Receiver, raw[n]);
      corridors := Counted(corridors, Corridor, raw[n]);
      n := n + 1;
    }
  }

  /** (total_fail - own) / (total_tx - 1), or 0 for a key seen at most once. */
  function Loo(t: Totals, own: nat): real {
    if t.tx <= 1 then 0.0 else (t.fail as int - own as int) as real / (t.tx - 1) as real
  }

  /** The subtraction formula yields the fraction among the other records. */
  lemma {:induction false} LooIsOthersRate(raw: seq<Record>, role: Role, i: nat)
    requires i < |raw|
    ensures Loo(GroupTotals(raw, |raw|, role, Key(role, raw[i])), OwnFail(raw[i])) == OthersRate(raw, role, i)
  {
    SplitOwn(raw, role, i);
  }

  /** A group is its member i and the others. */
  lemma {:induction false} SplitOwn(raw: seq<Record>, role: Role, i: nat)
    requires i < |raw|
    ensures GroupTotals(raw, |raw|, role, Key(role, raw[i]))
            == Totals(|Others(raw, role, i)| + 1, |FailingOthers(raw, role, i)| + OwnFail(raw[i]))
  {
    var key := Key(role, raw[i]);
    Grows(Others(raw, role, i), Group(raw, |raw|, role, key), i, true);
    Grows(FailingOthers(raw, role, i), Failing(raw, |raw|, role, key), i, raw[i].failed);
  }

  function Attach(rec: Record, senders: map<string, Totals>, receivers: map<string, Totals>, corridors: map<string, Totals>): Record {
    var s, r, c := Lookup(senders, rec.sender), Lookup(receivers, rec.receiver), Lookup(corridors, rec.corridor);
    var own := OwnFail(rec);
    rec.(stats := map[Sender := StatsWith(Sender, Loo(s, own), s),
                      Receiver := StatsWith(Receiver, Loo(r, own), r),
                      Corridor := StatsWith(Corridor, Loo(c, own), c)])
  }

  lemma {:induction false} AttachEnriches(raw: seq<Record>, i: nat, senders: map<string, Totals>, receivers: map<string, Totals>, corridors: map<string, Totals>)
    requires i < |raw|
    requires Tallies(raw, |raw|, Sender, senders) && Tallies(raw, |raw|, Receiver, receivers) && Tallies(raw, |raw|, Corridor, corridors)
    ensures Attach(raw[i], senders, receivers, corridors) == Enriched(raw, i)
  {
    LooIsOthersRate(raw, Sender, i);
    LooIsOthersRate(raw, Receiver, i);
    LooIsOthersRate(raw, Corridor, i);
    assert Lookup(senders, Key(Sender, raw[i])) == GroupTotals(raw, |raw|, Sender, Key(Sender, raw[i]));
    assert Lookup(receivers, Key(Receiver, raw[i])) == GroupTotals(raw, |raw|, Receiver, Key(Receiver, raw[i]));
    assert Lookup(corridors, Key(Corridor, raw[i])) == GroupTotals(raw, |raw|, Corridor, Key(Corridor, raw[i]));
  }

  /** The enrichment pass: every record gets its stats in place, from the totals of the whole data set. */
  method AttachStats(raw: array<Record>)
    modifies raw
    ensures forall i :: 0 <= i < raw.Length ==> raw[i] == Enriched(old(raw[..]), i)
    ensures forall i :: 0 <= i < raw.Length ==> raw[i].(stats := old(raw[i]).stats) == old(raw[i])
    ensures forall i, role :: 0 <= i < raw.Length ==>
              role in raw[i].stats && ShowsOthers(raw[i].stats[role], old(raw[..]), role, i)
  {
    var senders, receivers, corridors := ComputeStats(raw);
    ghost var was := raw[..];
    var n := 0;
    while n < raw.Length
      invariant 0 <= n <= raw.Length
      invariant forall i :: 0 <= i < n ==> raw[i] == Enriched(was, i)
      invariant forall i :: n <= i < raw.Length ==> raw[i] == was[i]
    {
      AttachEnriches(was, n, senders, receivers, corridors);
      raw[n] := Attach(raw[n], senders, receivers, corridors);
      n := n + 1;
    }
    forall i | 0 <= i < raw.Length
      ensures raw[i].(stats := was[i].stats) == was[i]
      ensures forall role :: role in raw[i].stats && ShowsOthers(raw[i].stats[role], was, role, i)
    {
      EnrichedShows(was, i);
    }
  }

  // ------------------------------------------- what a record's label reaches

  ghost function Relabelled(raw: seq<Record>, i: nat): seq<Record>
    requires i < |raw|
  {
    raw[i := raw[i].(failed := !raw[i].failed)]
  }

  /** Main result: a record's own label changes none of its own failure rates. */
  lemma {:induction false} OwnLabelLeavesRates(raw: seq<Record>, i: nat, role: Role)
    requires i < |raw|
    ensures var s, s' := StatsOf(raw, role, i), StatsOf(Relabelled(raw, i), role, i);
            && s.rate30 == s'.rate30 && s.rate7 == s'.rate7
            && (role != Corridor ==> s.rate1 == s'.rate1)
            && s.txCount == s'.txCount
  {
    RelabelKeepsOthers(raw, i, role);
    SplitOwn(raw, role, i);
    SplitOwn(Relabelled(raw, i), role, i);
  }

  lemma {:induction false} RelabelKeepsOthers(raw: seq<Record>, i: nat, role: Role)
    requires i < |raw|
    ensures Others(Relabelled(raw, i), role, i) == Others(raw, role, i)
    ensures FailingOthers(Relabelled(raw, i), role, i) == FailingOthers(raw, role, i)
  {
  }

  /**
   * The failure streak is not left-one-out: it shows the record its own label
   * exactly when fewer than three of the others failed.
   */
  lemma {:induction false} OwnLabelInStreak(raw: seq<Record>, i: nat, role: Role)
    requires i < |raw|
    ensures StatsOf(raw, role, i).consecutive != StatsOf(Relabelled(raw, i), role, i).consecutive
            <==> |FailingOthers(raw, role, i)| < MAX_STREAK
  {
    RelabelKeepsOthers(raw, i, role);
    SplitOwn(raw, role, i);
    SplitOwn(Relabelled(raw, i), role, i);
  }

  /**
   * The rates still tell labels apart inside a group: of two records with the
   * same key, the one with the lower rate failed and the other did not.
   */
  lemma {:induction false} SiblingsRevealLabels(raw: seq<Record>, i: nat, j: nat, role: Role)
    requires i < |raw| && j < |raw| && i != j && Key(role, raw[i]) == Key(role, raw[j])
    ensures OthersRate(raw, role, i) < OthersRate(raw, role, j) <==> raw[i].failed && !raw[j].failed
    ensures OthersRate(raw, role, j) - OthersRate(raw, role, i)
            == Ratio(OwnFail(raw[i]) as int - OwnFail(raw[j]) as int, |Others(raw, role, i)|)
  {
    SplitOwn(raw, role, i);
    SplitOwn(raw, role, j);
    assert j in Others(raw, role, i);
    RatioDifference(|FailingOthers(raw, role, j)|, |FailingOthers(raw, role, i)|, |Others(raw, role, i)|);
  }

  lemma {:induction false} RatioDifference(a: int, b: int, n: nat)
    requires n > 0
    ensures Ratio(a, n) - Ratio(b, n) == Ratio(a - b, n)
    ensures a > b <==> Ratio(a - b, n) > 0.0
  {
    var u := 1.0 / n as real;
    assert Ratio(a, n) == a as real * u && Ratio(b, n) == b as real * u && Ratio(a - b, n) == (a - b) as real * u;
  }

  // ----------------------------------------------------- totals over a group

  /** Sum of the rates of the records before n with the key. */
  ghost function RateSum(raw: seq<Record>, n: nat, role: Role, key: string): real
    requires n <= |raw|
  {
    if n == 0 then 0.0
    else RateSum(raw, n - 1, role, key) + if Key(role, raw[n - 1]) == key then OthersRate(raw, role, n - 1) else 0.0
  }

  /** Main result: over a group of two or more, the rates add up to the number of failures. */
  lemma {:induction false} RatesAddToFailures(raw: seq<Record>, role: Role, key: string)
    requires |Group(raw, |raw|, role, key)| >= 2
    ensures RateSum(raw, |raw|, role, key) == |Failing(raw, |raw|, role, key)| as real
  {
    var t := GroupTotals(raw, |raw|, role, key);
    RateSumCounts(raw, |raw|, role, key);
    Rebalance(t.fail, t.tx - 1);
    assert Times(Ratio(t.fail, t.tx - 1), t.tx) == Times(Ratio(t.fail, t.tx - 1), t.tx - 1) + Ratio(t.fail, t.tx - 1);
  }

  lemma {:induction false} Rebalance(f: nat, n: nat)
    requires n > 0
    ensures Times(Ratio(f, n), n) == f as real
    ensures Times(Ratio(1, n), f) == Ratio(f, n)
  {
    TimesIsProduct(Ratio(f, n), n);
    TimesIsProduct(Ratio(1, n), f);
  }

  lemma {:induction false} MemberRate(raw: seq<Record>, i: nat, role: Role)
    requires i < |raw| && |Group(raw, |raw|, role, Key(role, raw[i]))| >= 2
    ensures var t := GroupTotals(raw, |raw|, role, Key(role, raw[i]));
            OthersRate(raw, role, i)
            == Ratio(t.fail, t.tx - 1) - (if raw[i].failed then Ratio(1, t.tx - 1) else 0.0)
  {
    var t := GroupTotals(raw, |raw|, role, Key(role, raw[i]));
    SplitOwn(raw, role, i);
    RatioDifference(t.fail, 1, t.tx - 1);
  }

  /** Each member adds the full group ratio, less one share if it failed. */
  lemma {:induction false} RateSumCounts(raw: seq<Record>, n: nat, role: Role, key: string)
    requires n <= |raw| && |Group(raw, |raw|, role, key)| >= 2
    ensures var t, seen := GroupTotals(raw, |raw|, role, key), GroupTotals(raw, n, role, key);
            RateSum(raw, n, role, key) == Times(Ratio(t.fail, t.tx - 1), seen.tx) - Times(Ratio(1, t.tx - 1), seen.fail)
  {
    if n == 0 {
      assert Group(raw, 0, role, key) == {} && Failing(raw, 0, role, key) == {};
    } else {
      RateSumCounts(raw, n - 1, role, key);
      GroupStep(raw, n - 1, role, key);
      if Key(role, raw[n - 1]) == key {
        MemberRate(raw, n - 1, role);
        var t, before := GroupTotals(raw, |raw|, role, key), GroupTotals(raw, n - 1, role, key);
        OneMore(Ratio(t.fail, t.tx - 1), before.tx, 1);
        OneMore(Ratio(1, t.tx - 1), before.fail, OwnFail(raw[n - 1]));
      }
    }
  }

  lemma {:induction false} OneMore(x: real, n: nat, more: nat)
    requires more <= 1
    ensures Times(x, n + more) == Times(x, n) + if more == 1 then x else 0.0
  {
  }
}
