/**
 * The regulatory report cache: bounded in size, expired on lookup. Over every
 * run, a lookup finds a report exactly when it is unexpired and among the newest.
 */
module ReportCache {
  import opened StableOrder

  /** A report and the hash of its content, taken when it was generated. */
  datatype Report = Report(id: string, at: real, body: string, hash: string)

  /** Tampered: the content no longer has its hash, which raises. */
  datatype Lookup = Missing | Found(report: Report) | Tampered

  type Digest = string -> string

  function RemoveAt<T>(s: seq<T>, p: nat): (r: seq<T>)
    requires p < |s|
    ensures |r| == |s| - 1
    ensures forall i :: 0 <= i < |r| ==> r[i] == s[if i < p then i else i + 1]
  {
    s[..p] + s[p + 1..]
  }

  lemma {:induction false} OthersStay<T>(s: seq<T>, p: nat)
    requires p < |s|
    ensures forall x :: x in RemoveAt(s, p) ==> x in s
    ensures forall x :: x in s && x != s[p] ==> x in RemoveAt(s, p)
  {
    forall x | x in s && x != s[p] ensures x in RemoveAt(s, p) {
      var i :| 0 <= i < |s| && s[i] == x;
      assert RemoveAt(s, p)[if i < p then i else i - 1] == x;
    }
  }

  // ------------------------------ the dictionary, in its order of insertion

  ghost predicate DistinctIds(s: seq<Report>) {
    forall i, j :: 0 <= i < j < |s| ==> s[i].id != s[j].id
  }

  /** Position of the report with the id, or |s| when there is none. */
  function Find(s: seq<Report>, id: string): (p: nat)
    ensures p <= |s|
    ensures p < |s| ==> s[p].id == id
    ensures forall i :: 0 <= i < p ==> s[i].id != id
  {
    if s == [] then 0
    else
      var p := Find(s[..|s| - 1], id);
      if p < |s| - 1 || s[|s| - 1].id == id then p else |s|
  }

  /** Assignment to a key: a key already present keeps its place. */
  function Put(s: seq<Report>, r: Report): seq<Report> {
    var p := Find(s, r.id);
    if p < |s| then s[p := r] else s + [r]
  }

  /** The first of the reports with the earliest generation time. */
  function Oldest(s: seq<Report>): (p: nat)
    requires s != []
    ensures p < |s|
    ensures forall i :: 0 <= i < |s| ==> s[p].at <= s[i].at
    ensures forall i :: 0 <= i < p ==> s[p].at < s[i].at
  {
    if |s| == 1 then 0
    else
      var p := Oldest(s[..|s| - 1]);
      if s[|s| - 1].at < s[p].at then |s| - 1 else p
  }

  function Cached(s: seq<Report>, r: Report, max: nat): seq<Report> {
    var d := Put(s, r);
    if |d| > max then RemoveAt(d, Oldest(d)) else d
  }

  function Expired(r: Report, now: real, ttl: real): bool {
    now - r.at > ttl
  }

  /** What a lookup answers. */
  function Answer(s: seq<Report>, id: string, now: real, ttl: real, digest: Digest): Lookup {
    var p := Find(s, id);
    if p == |s| || Expired(s[p], now, ttl) then Missing else Verified(s[p], digest)
  }

  function Verified(r: Report, digest: Digest): Lookup {
    if digest(r.body) == r.hash then Found(r) else Tampered
  }

  /** What a lookup leaves behind. */
  function AfterLookup(s: seq<Report>, id: string, now: real, ttl: real): seq<Report> {
    var p := Find(s, id);
    if p < |s| && Expired(s[p], now, ttl) then RemoveAt(s, p) else s
  }

  // ---------------------------------------------------------------- service

  class RegulatoryService {
    const ttl: real
    const maxReports: nat
    const digest: Digest
    var reports: seq<Report>
    var queryCount: nat

    ghost predicate Valid()
      reads this
    {
      DistinctIds(reports) && |reports| <= maxReports && Intact(reports, digest)
    }

    constructor (ttl: real, maxReports: nat, digest: Digest)
      ensures Valid() && reports == [] && queryCount == 0
      ensures this.ttl == ttl && this.maxReports == maxReports && this.digest == digest
    {
      this.ttl, this.maxReports, this.digest := ttl, maxReports, digest;
      reports, queryCount := [], 0;
    }

    /** Caches a new report; the identifier and the time come from outside. */
    method GenerateReport(id: string, now: real, body: string) returns (r: Report)
      requires Valid()
      modifies this
      ensures Valid()
      ensures r == Report(id, now, body, digest(body))
      ensures reports == Cached(old(reports), r, maxReports)
      ensures queryCount == old(queryCount) + 1
    {
      queryCount := queryCount + 1;
      r := Report(id, now, body, digest(body));
      CachedKeepsIds(reports, r, maxReports);
      CachedStaysIntact(reports, r, maxReports, digest);
      var p := Find(reports, id);
      if p < |reports| {
        reports := reports[p := r];
      } else {
        reports := reports + [r];
      }
      if |reports| > maxReports {
        var oldest := Oldest(reports);
        reports := RemoveAt(reports, oldest);
      }
    }

    /** Reports that only this service wrote are never found tampered with. */
    method GetReport(id: string, now: real) returns (found: Lookup)
      requires Valid()
      modifies this
      ensures Valid()
      ensures found == Answer(old(reports), id, now, ttl, digest) && !found.Tampered?
      ensures reports == AfterLookup(old(reports), id, now, ttl)
      ensures found.Found? <==> exists p :: 0 <= p < |old(reports)| && old(reports)[p].id == id && now - old(reports)[p].at <= ttl
      ensures found.Found? ==> found.report in reports && found.report.id == id && now - found.report.at <= ttl
      ensures forall p :: 0 <= p < |reports| && reports[p].id == id ==> now - reports[p].at <= ttl
      ensures queryCount == old(queryCount)
    {
      LookupKeepsIds(reports, id, now, ttl);
      LookupStaysIntact(reports, id, now, ttl, digest);
      var p := Find(reports, id);
      if p == |reports| {
        return Missing;
      }
      if now - reports[p].at > ttl {
        reports := RemoveAt(reports, p);
        return Missing;
      }
      if digest(reports[p].body) != reports[p].hash {
        return Tampered;
      }
      return Found(reports[p]);
    }
  }

  ghost predicate Intact(s: seq<Report>, digest: Digest) {
    forall i :: 0 <= i < |s| ==> digest(s[i].body) == s[i].hash
  }

  lemma {:induction false} CachedStaysIntact(s: seq<Report>, r: Report, max: nat, digest: Digest)
    requires Intact(s, digest) && digest(r.body) == r.hash
    ensures Intact(Cached(s, r, max), digest)
  {
  }

  lemma {:induction false} LookupStaysIntact(s: seq<Report>, id: string, now: real, ttl: real, digest: Digest)
    requires Intact(s, digest)
    ensures Intact(AfterLookup(s, id, now, ttl), digest)
  {
  }

  lemma {:induction false} CachedKeepsIds(s: seq<Report>, r: Report, max: nat)
    requires DistinctIds(s) && |s| <= max
    ensures DistinctIds(Cached(s, r, max)) && |Cached(s, r, max)| <= max
  {
    PutKeepsIds(s, r);
    if |Put(s, r)| > max {
      RemoveKeepsIds(Put(s, r), Oldest(Put(s, r)));
    }
  }

  lemma {:induction false} PutKeepsIds(s: seq<Report>, r: Report)
    requires DistinctIds(s)
    ensures DistinctIds(Put(s, r))
  {
  }

  lemma {:induction false} RemoveKeepsIds(s: seq<Report>, p: nat)
    requires DistinctIds(s) && p < |s|
    ensures DistinctIds(RemoveAt(s, p))
  {
  }

  lemma {:induction false} LookupKeepsIds(s: seq<Report>, id: string, now: real, ttl: real)
    requires DistinctIds(s)
    ensures DistinctIds(AfterLookup(s, id, now, ttl))
  {
  }

  // ------------------------------------------------------------------- runs

  datatype Event = Generated(r: Report) | Asked(id: string, now: real)

  function Step(s: seq<Report>, e: Event, ttl: real, max: nat): seq<Report> {
    match e
    case Generated(r) => Cached(s, r, max)
    case Asked(id, now) => AfterLookup(s, id, now, ttl)
  }

  /** The cache after the first n events. */
  function Run(events: seq<Event>, n: nat, ttl: real, max: nat): seq<Report>
    requires n <= |events|
  {
    if n == 0 then [] else Step(Run(events, n - 1, ttl, max), events[n - 1], ttl, max)
  }

  /** Every report generated by the first n events, in order of insertion. */
  function History(events: seq<Event>, n: nat): seq<Report>
    requires n <= |events|
  {
    if n == 0 then []
    else match events[n - 1]
         case Generated(r) => History(events, n - 1) + [r]
         case Asked(_, _) => History(events, n - 1)
  }

  /** Lookups are made in order of time, none after now. */
  ghost predicate LookupsInOrder(events: seq<Event>, n: nat, now: real)
    requires n <= |events|
  {
    && (forall i, j :: 0 <= i < j < n && events[i].Asked? && events[j].Asked? ==> events[i].now <= events[j].now)
    && (forall i :: 0 <= i < n && events[i].Asked? ==> events[i].now <= now)
  }

  /** Report a is newer than report b: generated later, or at the same time and inserted later. */
  predicate Newer(hist: seq<Report>, a: nat, b: nat)
    requires a < |hist| && b < |hist|
  {
    hist[a].at > hist[b].at || (hist[a].at == hist[b].at && a > b)
  }

  ghost function NewerThan(hist: seq<Report>, i: nat): set<nat>
    requires i < |hist|
  {
    set j: nat | j < |hist| && Newer(hist, j, i)
  }

  /** held lists, in order, which reports of the history the cache holds. */
  ghost predicate Holds(hist: seq<Report>, held: seq<nat>, cache: seq<Report>) {
    && |held| == |cache|
    && (forall p :: 0 <= p < |held| ==> held[p] < |hist| && cache[p] == hist[held[p]])
    && (forall p, q :: 0 <= p < q < |held| ==> held[p] < held[q])
  }

  /** An unexpired report that is missing gave way to a full cache of newer ones. */
  ghost predicate MissingOnlyOld(hist: seq<Report>, held: seq<nat>, now: real, ttl: real, max: nat)
    requires forall p :: 0 <= p < |held| ==> held[p] < |hist|
  {
    forall i: nat :: i < |hist| && i !in held && now - hist[i].at <= ttl ==>
      |held| == max && forall p :: 0 <= p < |held| ==> Newer(hist, held[p], i)
  }

  ghost predicate Accounts(hist: seq<Report>, held: seq<nat>, cache: seq<Report>, now: real, ttl: real, max: nat) {
    Holds(hist, held, cache) && |held| <= max && MissingOnlyOld(hist, held, now, ttl, max)
  }

  lemma {:induction false} InsertionAccounts(hist: seq<Report>, held: seq<nat>, cache: seq<Report>, r: Report, now: real, ttl: real, max: nat)
    returns (held': seq<nat>)
    requires DistinctIds(hist + [r]) && Accounts(hist, held, cache, now, ttl, max)
    ensures Accounts(hist + [r], held', Cached(cache, r, max), now, ttl, max)
  {
    var full, d := held + [|hist|], cache + [r];
    FreshId(hist, held, cache, r);
    AppendHolds(hist, held, cache, r);
    if |d| > max {
      var p := Oldest(d);
      held' := RemoveAt(full, p);
      RemoveHolds(hist + [r], full, d, p);
      EvictedIsOldest(hist + [r], full, d);
      EvictionAccounts(hist, held, r, held', now, ttl, max, p);
    } else {
      held' := full;
      RoomAccounts(hist, held, r, now, ttl, max);
    }
  }

  lemma {:induction false} AppendHolds(hist: seq<Report>, held: seq<nat>, cache: seq<Report>, r: Report)
    requires Holds(hist, held, cache)
    ensures Holds(hist + [r], held + [|hist|], cache + [r])
  {
  }

  lemma {:induction false} RemoveHolds(hist: seq<Report>, held: seq<nat>, cache: seq<Report>, p: nat)
    requires Holds(hist, held, cache) && p < |held|
    ensures Holds(hist, RemoveAt(held, p), RemoveAt(cache, p))
  {
  }

  lemma {:induction false} RoomAccounts(hist: seq<Report>, held: seq<nat>, r: Report, now: real, ttl: real, max: nat)
    requires |held| < max && forall q :: 0 <= q < |held| ==> held[q] < |hist|
    requires MissingOnlyOld(hist, held, now, ttl, max)
    ensures forall q :: 0 <= q < |held| + 1 ==> (held + [|hist|])[q] < |hist + [r]|
    ensures MissingOnlyOld(hist + [r], held + [|hist|], now, ttl, max)
  {
    var hist', full := hist + [r], held + [|hist|];
    forall i: nat | i < |hist'| && i !in full ensures now - hist'[i].at > ttl {
      assert full[|held|] == |hist|;
      assert hist'[i] == hist[i];
    }
  }

  /** A new id is not in the cache. */
  lemma {:induction false} FreshId(hist: seq<Report>, held: seq<nat>, cache: seq<Report>, r: Report)
    requires DistinctIds(hist + [r]) && Holds(hist, held, cache)
    ensures Find(cache, r.id) == |cache|
  {
    var hist' := hist + [r];
    forall p | 0 <= p < |cache| ensures cache[p].id != r.id {
      assert hist'[held[p]].id != hist'[|hist|].id;
    }
  }

  /** The evicted report is older than every other held one. */
  lemma {:induction false} EvictedIsOldest(hist: seq<Report>, held: seq<nat>, cache: seq<Report>)
    requires cache != [] && Holds(hist, held, cache)
    ensures var e := Oldest(cache);
            forall q :: 0 <= q < |held| && q != e ==> Newer(hist, held[q], held[e])
  {
  }

  lemma {:induction false} EvictionAccounts(hist: seq<Report>, held: seq<nat>, r: Report, held': seq<nat>, now: real, ttl: real, max: nat, p: nat)
    requires |held| == max && p <= max && held' == RemoveAt(held + [|hist|], p)
    requires forall q :: 0 <= q < |held| ==> held[q] < |hist|
    requires MissingOnlyOld(hist, held, now, ttl, max)
    requires forall q :: 0 <= q <= max && q != p ==> Newer(hist + [r], (held + [|hist|])[q], (held + [|hist|])[p])
    ensures MissingOnlyOld(hist + [r], held', now, ttl, max)
  {
    var hist', full := hist + [r], held + [|hist|];
    OthersStay(full, p);
    forall i: nat | i < |hist'| && i !in held' && now - hist'[i].at <= ttl
      ensures forall q :: 0 <= q < |held'| ==> Newer(hist', held'[q], i)
    {
      if i != full[p] {
        assert i < |hist| && i !in held && hist'[i] == hist[i];
        assert forall q :: 0 <= q < max ==> full[q] == held[q] && Newer(hist, held[q], i);
        assert p == max || Newer(hist', full[max], full[p]);
      }
    }
  }

  lemma {:induction false} LookupAccounts(hist: seq<Report>, held: seq<nat>, cache: seq<Report>, id: string, now: real, ttl: real, max: nat)
    returns (held': seq<nat>)
    requires Accounts(hist, held, cache, now, ttl, max)
    ensures Accounts(hist, held', AfterLookup(cache, id, now, ttl), now, ttl, max)
  {
    held' := held;
    var p := Find(cache, id);
    if p < |cache| && now - cache[p].at > ttl {
      held' := RemoveAt(held, p);
      OthersStay(held, p);
      forall i: nat | i < |hist| && i !in held' ensures now - hist[i].at > ttl {
        if i != held[p] {
          assert now - hist[i].at <= ttl ==> Newer(hist, held[p], i);
        }
      }
    }
  }

  /** Invariant of every run. */
  lemma {:induction false} RunAccounts(events: seq<Event>, n: nat, now: real, ttl: real, max: nat) returns (held: seq<nat>)
    requires n <= |events| && DistinctIds(History(events, n)) && LookupsInOrder(events, n, now)
    ensures Accounts(History(events, n), held, Run(events, n, ttl, max), now, ttl, max)
  {
    if n == 0 {
      held := [];
    } else {
      var hist := History(events, n - 1);
      match events[n - 1]
      case Generated(r) =>
        assert DistinctIds(hist) by { assert forall i :: 0 <= i < |hist| ==> (hist + [r])[i] == hist[i]; }
        held := RunAccounts(events, n - 1, now, ttl, max);
        held := InsertionAccounts(hist, held, Run(events, n - 1, ttl, max), r, now, ttl, max);
      case Asked(id, asked) =>
        held := RunAccounts(events, n - 1, asked, ttl, max);
        held := LookupAccounts(hist, held, Run(events, n - 1, ttl, max), id, asked, ttl, max);
    }
  }

  /**
   * Main result: whatever was generated and asked before, a lookup finds a
   * report exactly when it has not outlived the TTL and fewer than max reports
   * are newer; and then it is that report, if its content still has its hash.
   */
  lemma {:induction false} LookupFindsNewest(events: seq<Event>, i: nat, now: real, ttl: real, max: nat, digest: Digest)
    requires var hist := History(events, |events|);
             DistinctIds(hist) && LookupsInOrder(events, |events|, now) && i < |hist|
    ensures var hist := History(events, |events|);
            Answer(Run(events, |events|, ttl, max), hist[i].id, now, ttl, digest)
            == if now - hist[i].at > ttl || |NewerThan(hist, i)| >= max then Missing
               else if digest(hist[i].body) == hist[i].hash then Found(hist[i]) else Tampered
  {
    var hist, cache := History(events, |events|), Run(events, |events|, ttl, max);
    var held := RunAccounts(events, |events|, now, ttl, max);
    FoundIffHeld(hist, held, cache, i);
    if now - hist[i].at <= ttl {
      HeldIffNewest(hist, held, cache, i, now, ttl, max);
    }
  }

  lemma {:induction false} FoundIffHeld(hist: seq<Report>, held: seq<nat>, cache: seq<Report>, i: nat)
    requires DistinctIds(hist) && Holds(hist, held, cache) && i < |hist|
    ensures var p := Find(cache, hist[i].id);
            if i in held then p < |cache| && cache[p] == hist[i] else p == |cache|
  {
    if i in held {
      var q :| 0 <= q < |held| && held[q] == i;
      assert cache[q].id == hist[i].id;
    }
    var p := Find(cache, hist[i].id);
    if p < |cache| {
      assert held[p] == i;
    }
  }

  /** What is newer than a held, unexpired report is held too. */
  lemma {:induction false} NewerIsHeld(hist: seq<Report>, held: seq<nat>, now: real, ttl: real, max: nat, at: nat, j: nat)
    requires forall p :: 0 <= p < |held| ==> held[p] < |hist|
    requires MissingOnlyOld(hist, held, now, ttl, max)
    requires at < |held| && j < |hist| && Newer(hist, j, held[at]) && now - hist[held[at]].at <= ttl
    ensures j in held
  {
  }

  /** Counting: the reports newer than an unexpired one are all held, if it is held. */
  lemma {:induction false} HeldIffNewest(hist: seq<Report>, held: seq<nat>, cache: seq<Report>, i: nat, now: real, ttl: real, max: nat)
    requires Accounts(hist, held, cache, now, ttl, max) && i < |hist| && now - hist[i].at <= ttl
    ensures i in held <==> |NewerThan(hist, i)| < max
  {
    var members := Used(held, |held|);
    UsedSize(held, |held|);
    if i in held {
      var at :| 0 <= at < |held| && held[at] == i;
      forall j | j in NewerThan(hist, i) ensures j in members - {i} {
        NewerIsHeld(hist, held, now, ttl, max, at, j);
        var q :| 0 <= q < |held| && held[q] == j;
      }
      SubsetSize(NewerThan(hist, i), members - {i});
    } else {
      SubsetSize(members, NewerThan(hist, i));
    }
  }

  /** The bound on the size needs nothing: not even fresh ids or an ordered clock. */
  lemma {:induction false} NeverOverfull(events: seq<Event>, n: nat, ttl: real, max: nat)
    requires n <= |events|
    ensures |Run(events, n, ttl, max)| <= max
  {
    if n > 0 {
      var before := Run(events, n - 1, ttl, max);
      assert |before| <= max by { NeverOverfull(events, n - 1, ttl, max); }
      assert |Step(before, events[n - 1], ttl, max)| <= max by { StepSize(before, events[n - 1], ttl, max); }
    }
  }

  lemma {:induction false} StepSize(s: seq<Report>, e: Event, ttl: real, max: nat)
    requires |s| <= max
    ensures |Step(s, e, ttl, max)| <= max
  {
  }

  /** An id that was never generated is never found. */
  lemma {:induction false} UnknownIdNotFound(events: seq<Event>, id: string, now: real, ttl: real, max: nat, digest: Digest)
    requires forall i :: 0 <= i < |events| && events[i].Generated? ==> events[i].r.id != id
    ensures Answer(Run(events, |events|, ttl, max), id, now, ttl, digest) == Missing
  {
    UnknownIdNotCached(events, |events|, id, ttl, max);
  }

  ghost predicate Lacks(s: seq<Report>, id: string) {
    forall p :: 0 <= p < |s| ==> s[p].id != id
  }

  lemma {:induction false} UnknownIdNotCached(events: seq<Event>, n: nat, id: string, ttl: real, max: nat)
    requires n <= |events| && forall i :: 0 <= i < n && events[i].Generated? ==> events[i].r.id != id
    ensures Lacks(Run(events, n, ttl, max), id)
  {
    if n > 0 {
      var before := Run(events, n - 1, ttl, max);
      assert Lacks(before, id) by { UnknownIdNotCached(events, n - 1, id, ttl, max); }
      assert Lacks(Step(before, events[n - 1], ttl, max), id) by { StepLacks(before, events[n - 1], ttl, max, id); }
    }
  }

  lemma {:induction false} StepLacks(s: seq<Report>, e: Event, ttl: real, max: nat, id: string)
    requires Lacks(s, id) && (e.Generated? ==> e.r.id != id)
    ensures Lacks(Step(s, e, ttl, max), id)
  {
    match e
    case Generated(r) =>
      PutLacks(s, r, id);
      if |Put(s, r)| > max {
        RemoveLacks(Put(s, r), Oldest(Put(s, r)), id);
      }
    case Asked(other, _) =>
      if Find(s, other) < |s| {
        RemoveLacks(s, Find(s, other), id);
      }
  }

  lemma {:induction false} PutLacks(s: seq<Report>, r: Report, id: string)
    requires Lacks(s, id) && r.id != id
    ensures Lacks(Put(s, r), id)
  {
  }

  lemma {:induction false} RemoveLacks(s: seq<Report>, p: nat, id: string)
    requires Lacks(s, id) && p < |s|
    ensures Lacks(RemoveAt(s, p), id)
  {
  }
}
