/**
 * The rolling velocity window of an entity: attempts are checked against caps
 * before they are recorded, additions are recorded unchecked.
 */
module VelocityWindow {
  import opened RealSums

  const WINDOW: real := 86400.0
  const CONCENTRATION: real := 0.80

  datatype Rec = Rec(at: real, amount: real, beneficiary: string)

  /** Caps of a licensee; zero means no cap. */
  datatype Caps = Caps(dollar: real, count: int)

  datatype Verdict = Passed | DollarCapExceeded | CountCapExceeded | ConcentrationExceeded

  // --------------------------------------------------------------- one window

  /** Records from before the cutoff leave at the front. */
  function Pruned(dq: seq<Rec>, cutoff: real): seq<Rec> {
    if dq != [] && dq[0].at < cutoff then Pruned(dq[1..], cutoff) else dq
  }

  /** Of records in order of time exactly the expired ones are pruned. */
  lemma {:induction false} PrunedExactly(dq: seq<Rec>, cutoff: real, r: Rec)
    requires forall i, j :: 0 <= i < j < |dq| ==> dq[i].at <= dq[j].at
    ensures r in Pruned(dq, cutoff) <==> r in dq && r.at >= cutoff
  {
    if dq != [] && dq[0].at < cutoff {
      PrunedExactly(dq[1..], cutoff, r);
    }
  }

  function Volume(dq: seq<Rec>): real {
    if dq == [] then 0.0 else dq[0].amount + Volume(dq[1..])
  }

  function VolumeTo(dq: seq<Rec>, beneficiary: string): real {
    if dq == [] then 0.0
    else (if dq[0].beneficiary == beneficiary then dq[0].amount else 0.0) + VolumeTo(dq[1..], beneficiary)
  }

  /** Some beneficiary would hold too large a share of two or more. */
  predicate TooConcentrated(dq: seq<Rec>, r: Rec) {
    var after := dq + [r];
    && |dq| >= 2 && Volume(dq) + r.amount > 0.0
    && (exists i :: 0 <= i < |dq| && dq[i].beneficiary != r.beneficiary)
    && (exists i :: 0 <= i < |after| && VolumeTo(after, after[i].beneficiary) > CONCENTRATION * (Volume(dq) + r.amount))
  }

  function VerdictOn(caps: Caps, dq: seq<Rec>, r: Rec): Verdict {
    if caps.dollar != 0.0 && Volume(dq) + r.amount > caps.dollar then DollarCapExceeded
    else if caps.count > 0 && |dq| + 1 > caps.count then CountCapExceeded
    else if TooConcentrated(dq, r) then ConcentrationExceeded
    else Passed
  }

  function Live(dq: seq<Rec>, now: real): seq<Rec> {
    Pruned(dq, now - WINDOW)
  }

  function Attempted(dq: seq<Rec>, r: Rec, passed: bool): seq<Rec> {
    if passed then Live(dq, r.at) + [r] else Live(dq, r.at)
  }

  class VelocityChecker {
    var records: map<string, seq<Rec>>

    function Of(entity: string): seq<Rec>
      reads this
    {
      if entity in records then records[entity] else []
    }

    constructor ()
      ensures records == map[]
    {
      records := map[];
    }

    method CleanupExpired(entity: string, now: real)
      modifies this
      ensures records == old(records)[entity := Live(old(Of(entity)), now)]
    {
      var dq := Of(entity);
      while dq != [] && dq[0].at < now - WINDOW
        invariant Live(dq, now) == Live(old(Of(entity)), now)
        decreases |dq|
      {
        dq := dq[1..];
      }
      records := records[entity := dq];
    }

    method Check(caps: Caps, entity: string, r: Rec) returns (verdict: Verdict)
      modifies this
      ensures verdict == VerdictOn(caps, Live(old(Of(entity)), r.at), r)
      ensures records == old(records)[entity := Live(old(Of(entity)), r.at)]
    {
      CleanupExpired(entity, r.at);
      verdict := VerdictOn(caps, records[entity], r);
    }

    /** Not checked again. */
    method Record(entity: string, r: Rec)
      modifies this
      ensures records == old(records)[entity := Live(old(Of(entity)), r.at) + [r]]
    {
      CleanupExpired(entity, r.at);
      records := records[entity := records[entity] + [r]];
    }

    method CheckAndRecord(caps: Caps, entity: string, r: Rec) returns (verdict: Verdict)
      modifies this
      ensures verdict == VerdictOn(caps, Live(old(Of(entity)), r.at), r)
      ensures records == old(records)[entity := Attempted(old(Of(entity)), r, verdict == Passed)]
    {
      verdict := Check(caps, entity, r);
      if verdict == Passed {
        records := records[entity := records[entity] + [r]];
      }
    }
  }

  // ------------------------------------------------------------------- runs

  /** Attempt checks, and records what passed; Add records only; Nothing is for another entity. */
  datatype WindowAction = Attempt(r: Rec, passed: bool) | Add(r: Rec) | Nothing

  function Acted(dq: seq<Rec>, a: WindowAction): seq<Rec> {
    match a
    case Attempt(r, passed) => Attempted(dq, r, passed)
    case Add(r) => Live(dq, r.at) + [r]
    case Nothing => dq
  }

  /** The window, empty at first, after n actions. */
  function WindowAfter(acts: seq<WindowAction>, n: nat): seq<Rec>
    requires n <= |acts|
  {
    if n == 0 then [] else Acted(WindowAfter(acts, n - 1), acts[n - 1])
  }

  predicate Passes(acts: seq<WindowAction>, k: nat) {
    k < |acts| && acts[k].Attempt? && acts[k].passed
  }

  /** What the window holds before action k records. */
  function LiveAt(acts: seq<WindowAction>, k: nat): seq<Rec>
    requires k < |acts| && !acts[k].Nothing?
  {
    Live(WindowAfter(acts, k), acts[k].r.at)
  }

  /** Attempts passed as the checker decides. */
  ghost predicate Decided(caps: Caps, acts: seq<WindowAction>) {
    forall k :: 0 <= k < |acts| && acts[k].Attempt? ==> (acts[k].passed <==> VerdictOn(caps, LiveAt(acts, k), acts[k].r) == Passed)
  }

  /** No attempt passed beyond the cap: all that the bounds below need to know of the checker. */
  ghost predicate Capped(cap: real, acts: seq<WindowAction>) {
    forall k :: 0 <= k < |acts| && Passes(acts, k) ==> Volume(LiveAt(acts, k)) + acts[k].r.amount <= cap
  }

  lemma {:induction false} DecidedIsCapped(caps: Caps, acts: seq<WindowAction>)
    requires Decided(caps, acts) && caps.dollar > 0.0
    ensures Capped(caps.dollar, acts)
  {
    forall k | 0 <= k < |acts| && Passes(acts, k)
      ensures Volume(LiveAt(acts, k)) + acts[k].r.amount <= caps.dollar
    {
      assert VerdictOn(caps, LiveAt(acts, k), acts[k].r) == Passed;
    }
  }

  /** What was added without a check since the last attempt that passed. */
  function AddedSince(acts: seq<WindowAction>, n: nat): real
    requires n <= |acts|
  {
    if n == 0 || Passes(acts, n - 1) then 0.0
    else AddedSince(acts, n - 1) + if acts[n - 1].Add? then acts[n - 1].r.amount else 0.0
  }

  ghost predicate NoDebits(dq: seq<Rec>) {
    forall i :: 0 <= i < |dq| ==> dq[i].amount >= 0.0
  }

  ghost predicate NoDebitActions(acts: seq<WindowAction>) {
    forall i :: 0 <= i < |acts| && !acts[i].Nothing? ==> acts[i].r.amount >= 0.0
  }

  lemma {:induction false} VolumeNotNegative(dq: seq<Rec>)
    requires NoDebits(dq)
    ensures Volume(dq) >= 0.0
  {
    if dq != [] {
      VolumeNotNegative(dq[1..]);
    }
  }

  lemma {:induction false} PruningShrinks(dq: seq<Rec>, cutoff: real)
    requires NoDebits(dq)
    ensures NoDebits(Pruned(dq, cutoff)) && Volume(Pruned(dq, cutoff)) <= Volume(dq)
  {
    if dq != [] && dq[0].at < cutoff {
      PruningShrinks(dq[1..], cutoff);
    }
  }

  lemma {:induction false} VolumeAppends(dq: seq<Rec>, r: Rec)
    ensures Volume(dq + [r]) == Volume(dq) + r.amount
  {
    if dq == [] {
      assert dq + [r] == [r];
    } else {
      assert (dq + [r])[1..] == dq[1..] + [r];
      VolumeAppends(dq[1..], r);
    }
  }

  lemma {:induction false} ActedHasNoDebits(dq: seq<Rec>, a: WindowAction)
    requires NoDebits(dq) && (!a.Nothing? ==> a.r.amount >= 0.0)
    ensures NoDebits(Acted(dq, a))
  {
    if !a.Nothing? {
      PruningShrinks(dq, a.r.at - WINDOW);
    }
  }

  lemma {:induction false} WindowHasNoDebits(acts: seq<WindowAction>, n: nat)
    requires n <= |acts| && NoDebitActions(acts)
    ensures NoDebits(WindowAfter(acts, n))
  {
    if n > 0 {
      WindowHasNoDebits(acts, n - 1);
      ActedHasNoDebits(WindowAfter(acts, n - 1), acts[n - 1]);
    }
  }

  /** One action on a window: recording adds to what is live, anything else adds nothing. */
  lemma {:induction false} StepVolume(dq: seq<Rec>, a: WindowAction)
    requires NoDebits(dq)
    ensures a.Nothing? ==> Acted(dq, a) == dq
    ensures !a.Nothing? ==> Volume(Live(dq, a.r.at)) <= Volume(dq)
    ensures a.Attempt? && !a.passed ==> Volume(Acted(dq, a)) == Volume(Live(dq, a.r.at))
    ensures (a.Attempt? && a.passed) || a.Add? ==> Volume(Acted(dq, a)) == Volume(Live(dq, a.r.at)) + a.r.amount
  {
    if !a.Nothing? {
      PruningShrinks(dq, a.r.at - WINDOW);
      VolumeAppends(Live(dq, a.r.at), a.r);
    }
  }

  /**
   * Main result: whatever is added unchecked, the volume never exceeds the cap
   * by more than what was added since the last attempt that passed.
   */
  lemma {:induction false} CapPlusAdded(cap: real, acts: seq<WindowAction>, n: nat)
    requires n <= |acts| && NoDebitActions(acts) && Capped(cap, acts) && cap >= 0.0
    ensures Volume(WindowAfter(acts, n)) <= cap + AddedSince(acts, n)
  {
    if n > 0 {
      CapPlusAdded(cap, acts, n - 1);
      WindowHasNoDebits(acts, n - 1);
      StepVolume(WindowAfter(acts, n - 1), acts[n - 1]);
    }
  }

  /** Action k, if it adds unchecked, would have passed the cap. */
  ghost predicate Fits(cap: real, acts: seq<WindowAction>, k: nat) {
    k < |acts| && acts[k].Add? ==> Volume(LiveAt(acts, k)) + acts[k].r.amount <= cap
  }

  ghost predicate WithinCap(cap: real, acts: seq<WindowAction>, k: nat) {
    k <= |acts| ==> Volume(WindowAfter(acts, k)) <= cap
  }

  lemma {:induction false} StepWithinCap(cap: real, acts: seq<WindowAction>, k: nat)
    requires k < |acts| && NoDebitActions(acts) && Capped(cap, acts) && WithinCap(cap, acts, k)
    ensures WithinCap(cap, acts, k + 1) <==> Fits(cap, acts, k)
  {
    WindowHasNoDebits(acts, k);
    StepVolume(WindowAfter(acts, k), acts[k]);
    assert Passes(acts, k) ==> Volume(LiveAt(acts, k)) + acts[k].r.amount <= cap;
  }

  /**
   * Main result: the volume stays within the cap throughout a run if and only
   * if everything that is added unchecked would have passed the cap.
   */
  lemma {:induction false} CapKeptIff(cap: real, acts: seq<WindowAction>, n: nat)
    requires n <= |acts| && NoDebitActions(acts) && Capped(cap, acts) && cap >= 0.0
    ensures (forall k: nat :: k <= n ==> WithinCap(cap, acts, k)) <==> (forall k: nat :: k < n ==> Fits(cap, acts, k))
  {
    if n > 0 {
      CapKeptIff(cap, acts, n - 1);
      if WithinCap(cap, acts, n - 1) {
        StepWithinCap(cap, acts, n - 1);
      }
    }
  }

  // ----------------------------------------------- what the verdict and the window are

  function Amounts(dq: seq<Rec>): (a: seq<real>)
    ensures |a| == |dq| && forall i :: 0 <= i < |a| ==> a[i] == dq[i].amount
  {
    seq(|dq|, i requires 0 <= i < |dq| => dq[i].amount)
  }

  /** The amounts to a beneficiary, and zero for every other record. */
  function AmountsFor(dq: seq<Rec>, beneficiary: string): (a: seq<real>)
    ensures |a| == |dq| && forall i :: 0 <= i < |a| ==> a[i] == if dq[i].beneficiary == beneficiary then dq[i].amount else 0.0
  {
    seq(|dq|, i requires 0 <= i < |dq| => if dq[i].beneficiary == beneficiary then dq[i].amount else 0.0)
  }

  lemma {:induction false} VolumeIsSum(dq: seq<Rec>)
    ensures Volume(dq) == Sum(Amounts(dq))
  {
    if dq != [] {
      var init, last := dq[..|dq| - 1], dq[|dq| - 1];
      VolumeIsSum(init);
      VolumeAppends(init, last);
      assert dq == init + [last];
      SumAgree(Amounts(dq), Amounts(init), 0, |init|);
    }
  }

  lemma {:induction false} VolumeToAppends(dq: seq<Rec>, r: Rec, beneficiary: string)
    ensures VolumeTo(dq + [r], beneficiary) == VolumeTo(dq, beneficiary) + if r.beneficiary == beneficiary then r.amount else 0.0
  {
    if dq == [] {
      assert dq + [r] == [r];
    } else {
      assert (dq + [r])[1..] == dq[1..] + [r];
      VolumeToAppends(dq[1..], r, beneficiary);
    }
  }

  lemma {:induction false} VolumeToIsSum(dq: seq<Rec>, beneficiary: string)
    ensures VolumeTo(dq, beneficiary) == Sum(AmountsFor(dq, beneficiary))
  {
    if dq != [] {
      var init, last := dq[..|dq| - 1], dq[|dq| - 1];
      VolumeToIsSum(init, beneficiary);
      VolumeToAppends(init, last, beneficiary);
      assert dq == init + [last];
      SumAgree(AmountsFor(dq, beneficiary), AmountsFor(init, beneficiary), 0, |init|);
    }
  }

  /** Of three records or more, for two beneficiaries or more, one beneficiary gets more than 80 %. */
  ghost predicate Concentrated(after: seq<Rec>) {
    && |after| >= 3 && Sum(Amounts(after)) > 0.0
    && (exists i, j :: 0 <= i < j < |after| && after[i].beneficiary != after[j].beneficiary)
    && exists i :: 0 <= i < |after| && Sum(AmountsFor(after, after[i].beneficiary)) > 0.80 * Sum(Amounts(after))
  }

  lemma {:induction false} ConcentrationMeaning(dq: seq<Rec>, r: Rec)
    ensures TooConcentrated(dq, r) <==> Concentrated(dq + [r])
  {
    var after := dq + [r];
    VolumeIsSum(after);
    VolumeAppends(dq, r);
    forall i | 0 <= i < |after|
      ensures VolumeTo(after, after[i].beneficiary) == Sum(AmountsFor(after, after[i].beneficiary))
    {
      VolumeToIsSum(after, after[i].beneficiary);
    }
    TwoBeneficiaries(dq, r);
  }

  lemma {:induction false} TwoBeneficiaries(dq: seq<Rec>, r: Rec)
    ensures var after := dq + [r];
            (exists i :: 0 <= i < |dq| && dq[i].beneficiary != r.beneficiary)
            <==> exists i, j :: 0 <= i < j < |after| && after[i].beneficiary != after[j].beneficiary
  {
    var after := dq + [r];
    if i :| 0 <= i < |dq| && dq[i].beneficiary != r.beneficiary {
      assert after[i] == dq[i] && after[|dq|] == r;
    }
  }

  /**
   * Main result: the verdict on one more record, in the sums of the window it
   * would make: the dollar cap first, then the count, then the concentration;
   * a cap of zero is no cap.
   */
  lemma {:induction false} VerdictExactly(caps: Caps, dq: seq<Rec>, r: Rec)
    ensures var v, after := VerdictOn(caps, dq, r), dq + [r];
            var overDollars := caps.dollar != 0.0 && Sum(Amounts(after)) > caps.dollar;
            var overCount := caps.count > 0 && |after| > caps.count;
            && (v == DollarCapExceeded <==> overDollars)
            && (v == CountCapExceeded <==> !overDollars && overCount)
            && (v == ConcentrationExceeded <==> !overDollars && !overCount && Concentrated(after))
            && (v == Passed <==> !overDollars && !overCount && !Concentrated(after))
  {
    VolumeIsSum(dq + [r]);
    VolumeAppends(dq, r);
    ConcentrationMeaning(dq, r);
  }

  ghost predicate InOrder(acts: seq<WindowAction>) {
    forall i, j :: 0 <= i < j < |acts| && !acts[i].Nothing? && !acts[j].Nothing? ==> acts[i].r.at <= acts[j].r.at
  }

  ghost predicate Ordered(dq: seq<Rec>) {
    forall i, j :: 0 <= i < j < |dq| ==> dq[i].at <= dq[j].at
  }

  /** A record stays for a day, and the moment a day has passed. */
  lemma {:induction false} LiveForADay(dq: seq<Rec>, now: real, r: Rec)
    requires Ordered(dq)
    ensures r in Live(dq, now) <==> r in dq && now - r.at <= 86400.0
  {
    PrunedExactly(dq, now - WINDOW, r);
  }

  lemma {:induction false} PrunedStaysOrdered(dq: seq<Rec>, cutoff: real)
    requires Ordered(dq)
    ensures Ordered(Pruned(dq, cutoff)) && forall r :: r in Pruned(dq, cutoff) ==> r in dq
  {
    if dq != [] && dq[0].at < cutoff {
      PrunedStaysOrdered(dq[1..], cutoff);
    }
  }

  predicate Records(a: WindowAction) {
    a.Add? || (a.Attempt? && a.passed)
  }

  /** Action i made the record, and no action since found it a day old. */
  ghost predicate Kept(acts: seq<WindowAction>, n: nat, i: nat, r: Rec) {
    && i < n <= |acts| && Records(acts[i]) && acts[i].r == r
    && forall j :: i < j < n && !acts[j].Nothing? ==> acts[j].r.at - r.at <= 86400.0
  }

  /** In order of time, the window is in order, and no record is later than the last action. */
  lemma {:induction false} WindowOrdered(acts: seq<WindowAction>, n: nat)
    requires n <= |acts| && InOrder(acts)
    ensures Ordered(WindowAfter(acts, n))
    ensures forall r, k :: r in WindowAfter(acts, n) && n <= k < |acts| && !acts[k].Nothing? ==> r.at <= acts[k].r.at
  {
    if n > 0 && acts[n - 1].Nothing? {
      WindowOrdered(acts, n - 1);
    } else if n > 0 {
      var dq, a := WindowAfter(acts, n - 1), acts[n - 1];
      WindowOrdered(acts, n - 1);
      PrunedStaysOrdered(dq, a.r.at - WINDOW);
      forall i | 0 <= i < |Live(dq, a.r.at)|
        ensures Live(dq, a.r.at)[i].at <= a.r.at
      {
        assert Live(dq, a.r.at)[i] in dq;
      }
    }
  }

  /**
   * Main result: exactly what a window holds after a run in order of time: every
   * record made, by an attempt that passed or unchecked, that no later action
   * found to be older than a day.
   */
  lemma {:induction false} WindowExactly(acts: seq<WindowAction>, n: nat, r: Rec)
    requires n <= |acts| && InOrder(acts)
    ensures r in WindowAfter(acts, n) <==> HasKept(acts, n, r)
  {
    if n > 0 {
      WindowExactly(acts, n - 1, r);
      WindowOrdered(acts, n - 1);
      KeptStep(acts, n - 1, r);
      if !acts[n - 1].Nothing? {
        LiveForADay(WindowAfter(acts, n - 1), acts[n - 1].r.at, r);
      }
    }
  }

  ghost predicate HasKept(acts: seq<WindowAction>, n: nat, r: Rec) {
    exists i: nat :: Kept(acts, n, i, r)
  }

  lemma {:induction false} KeptStep(acts: seq<WindowAction>, n: nat, r: Rec)
    requires n < |acts|
    ensures var a := acts[n];
            HasKept(acts, n + 1, r) <==>
              (Records(a) && a.r == r) || (HasKept(acts, n, r) && (!a.Nothing? ==> a.r.at - r.at <= 86400.0))
  {
    var m, a := n + 1, acts[n];
    if HasKept(acts, m, r) {
      var i: nat :| Kept(acts, m, i, r);
      assert i < n ==> Kept(acts, n, i, r);
    }
    if Records(a) && a.r == r {
      assert Kept(acts, m, n, r);
    } else if HasKept(acts, n, r) && (!a.Nothing? ==> a.r.at - r.at <= 86400.0) {
      var i: nat :| Kept(acts, n, i, r);
      assert Kept(acts, m, i, r);
    }
  }

  // --------------------------------------------------- counted twice in one window

  /** A record that is not expired is not pruned, wherever it stands. */
  lemma {:induction false} RecentStays(dq: seq<Rec>, cutoff: real, r: Rec)
    requires r in dq && r.at >= cutoff
    ensures r in Pruned(dq, cutoff)
  {
    if dq[0].at < cutoff {
      RecentStays(dq[1..], cutoff, r);
    }
  }

  lemma {:induction false} VolumeHolds(dq: seq<Rec>, r: Rec)
    requires NoDebits(dq) && r in dq
    ensures Volume(dq) >= r.amount
  {
    if dq[0] == r {
      VolumeNotNegative(dq[1..]);
    } else {
      VolumeHolds(dq[1..], r);
    }
  }

  /** No action before n is later than that time. */
  ghost predicate NoneAfter(acts: seq<WindowAction>, n: nat, now: real) {
    forall j :: 0 <= j < n && j < |acts| && !acts[j].Nothing? ==> acts[j].r.at <= now
  }

  lemma {:induction false} StaysOneAction(dq: seq<Rec>, a: WindowAction, r: Rec)
    requires r in dq && (!a.Nothing? ==> a.r.at - r.at <= WINDOW)
    ensures r in Acted(dq, a)
  {
    if !a.Nothing? {
      RecentStays(dq, a.r.at - WINDOW, r);
    }
  }

  /** What an attempt recorded is still in the window as long as it is not a window old. */
  lemma {:induction false} AttemptStays(acts: seq<WindowAction>, i: nat, n: nat, now: real)
    requires i < n <= |acts| && Passes(acts, i) && NoneAfter(acts, n, now) && now - acts[i].r.at <= WINDOW
    ensures acts[i].r in WindowAfter(acts, n)
    decreases n
  {
    if i + 1 < n {
      AttemptStays(acts, i, n - 1, now);
      StaysOneAction(WindowAfter(acts, n - 1), acts[n - 1], acts[i].r);
    } else {
      var dq := Live(WindowAfter(acts, i), acts[i].r.at);
      assert (dq + [acts[i].r])[|dq|] == acts[i].r;
    }
  }

  /**
   * Main result: a payment that passed its check and is added again before it
   * has left the window exceeds the cap whenever the two amounts together do,
   * so every amount above half the cap that is counted twice breaks it.
   */
  lemma {:induction false} CountedTwiceBreaksCap(cap: real, acts: seq<WindowAction>, i: nat, k: nat)
    requires i < k < |acts| && NoDebitActions(acts) && Passes(acts, i) && acts[k].Add?
    requires NoneAfter(acts, k, acts[k].r.at) && acts[k].r.at - acts[i].r.at <= WINDOW
    requires acts[i].r.amount + acts[k].r.amount > cap
    ensures !WithinCap(cap, acts, k + 1)
  {
    var dq := WindowAfter(acts, k);
    WindowHasNoDebits(acts, k);
    AttemptStays(acts, i, k, acts[k].r.at);
    RecentStays(dq, acts[k].r.at - WINDOW, acts[i].r);
    PruningShrinks(dq, acts[k].r.at - WINDOW);
    VolumeHolds(Live(dq, acts[k].r.at), acts[i].r);
    StepVolume(dq, acts[k]);
  }

  /** Such a run: 600000 checked against a cap of 1000000, and added when the offer is accepted. */
  lemma {:induction false} DoubledPayment()
    ensures var r := Rec(0.0, 600000.0, "B");
            var acts := [Attempt(r, true), Add(Rec(10.0, 600000.0, "B"))];
            Decided(Caps(1000000.0, 0), acts) && !WithinCap(1000000.0, acts, 2)
  {
    var r := Rec(0.0, 600000.0, "B");
    var acts := [Attempt(r, true), Add(Rec(10.0, 600000.0, "B"))];
    assert WindowAfter(acts, 0) == [] && LiveAt(acts, 0) == [];
    assert Volume(LiveAt(acts, 0)) == 0.0;
    CountedTwiceBreaksCap(1000000.0, acts, 0, 1);
  }
}
