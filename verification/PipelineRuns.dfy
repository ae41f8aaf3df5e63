/**
 * Whole runs of one assembled pipeline: calls, and what banks do with the
 * offers.  Exactly which call is blocked as a retry, and so how often a
 * payment is answered.
 */
module PipelineRuns {
  import opened UetrTracker
  import opened RetryRuns
  import opened OfferDesk
  import opened Pipeline
  import opened Lockstep

  // ------------------------------------------------------------------ runs

  datatype Action =
    | Process(c: Call)
    | Accept(id: string, operator: string, now: real, f: Finalization)
    | Reject(id: string, operator: string, reason: string, now: real)
    | ExpireOffers(now: real)

  function Step(s: Settings, w: World, a: Action): World {
    match a
    case Process(c) => Called(s, w, c)
    case Accept(id, operator, now, f) => Accepted(s, w, id, operator, now, f)
    case Reject(id, operator, reason, now) => w.(desk := AfterReject(w.desk, id, operator, reason, now))
    case ExpireOffers(now) => w.(desk := AfterSweep(w.desk, now))
  }

  /** A resolved acceptance is finalized by the pipeline, whose exceptions the desk swallows. */
  function Accepted(s: Settings, w: World, id: string, operator: string, now: real, f: Finalization): World {
    var r, after := AcceptReply(w.desk, id, operator, now), w.(desk := AfterAccept(w.desk, id, operator, now));
    if r.Resolved? then Finalized(s, after, r.d, f, now) else after
  }

  /** The world after the first n actions. */
  function After(s: Settings, w: World, actions: seq<Action>, n: nat): World
    requires n <= |actions|
  {
    if n == 0 then w else Step(s, After(s, w, actions, n - 1), actions[n - 1])
  }

  /** A call, or the desk's callback into the pipeline, on the real objects. */
  method RunAction(p: LIPPipeline, a: Action)
    modifies p.tracker, p.c6, p.desk, p.c3, p.risk
    ensures p.View() == Step(p.Setup(), old(p.View()), a)
  {
    match a
    case Process(c) =>
      var _ := p.Process(c);
    case Accept(id, operator, now, f) =>
      var r := p.desk.Accept(id, operator, now);
      if r.Resolved? {
        var _ := p.FinalizeAcceptedOffer(r.d, f, now);
      }
    case Reject(id, operator, reason, now) =>
      var _ := p.desk.Reject(id, operator, reason, now);
    case ExpireOffers(now) =>
      p.desk.ExpireStaleOffers(now);
  }

  /** What the i-th action, a call, met and returned. */
  function TrackerAt(s: Settings, w: World, actions: seq<Action>, i: nat): Tracker
    requires i <= |actions|
  {
    After(s, w, actions, i).tracker
  }

  function ReplyTo(s: Settings, w: World, actions: seq<Action>, i: nat): Reply
    requires i < |actions| && actions[i].Process?
  {
    ReplyOf(s, TrackerAt(s, w, actions, i), actions[i].c)
  }

  // ----------------------------------------------- a run as the tracker sees it

  function VisitOf(s: Settings, t: Tracker, c: Call): Visit {
    var answered := Answers(GateOf(s, t, c));
    Visit(c.ev.uetr, c.ev.payment, c.now, c.done, answered,
          if answered then OutcomeName(ReplyOf(s, t, c).result.outcome) else "")
  }

  function Visits(s: Settings, w: World, actions: seq<Action>): (vs: seq<Visit>)
    ensures |vs| == |actions|
    ensures forall i :: 0 <= i < |vs| ==>
              vs[i] == if actions[i].Process? then VisitOf(s, TrackerAt(s, w, actions, i), actions[i].c) else Idle
  {
    seq(|actions|, i requires 0 <= i < |actions| =>
      if actions[i].Process? then VisitOf(s, TrackerAt(s, w, actions, i), actions[i].c) else Idle)
  }

  lemma {:induction false} StepVisits(s: Settings, w: World, a: Action)
    ensures Step(s, w, a).tracker == Visited(w.tracker, s.ttl, if a.Process? then VisitOf(s, w.tracker, a.c) else Idle)
  {
  }

  function Trackers(s: Settings, w: World, actions: seq<Action>): (ts: seq<Tracker>)
    ensures |ts| == |actions| + 1 && forall i :: 0 <= i < |ts| ==> ts[i] == TrackerAt(s, w, actions, i)
  {
    seq(|actions| + 1, i requires 0 <= i <= |actions| => TrackerAt(s, w, actions, i))
  }

  lemma {:induction false} TrackersInStep(s: Settings, w: World, actions: seq<Action>, i: nat)
    requires i < |actions|
    ensures InStep(Trackers(s, w, actions), AllTracked(w.tracker, s.ttl, Visits(s, w, actions)), i)
  {
    StepVisits(s, After(s, w, actions, i), actions[i]);
  }

  lemma {:induction false} TrackerIsTracked(s: Settings, w: World, actions: seq<Action>, n: nat)
    requires n <= |actions|
    ensures TrackerAt(s, w, actions, n) == Tracked(w.tracker, s.ttl, Visits(s, w, actions), n)
  {
    var ts, all := Trackers(s, w, actions), AllTracked(w.tracker, s.ttl, Visits(s, w, actions));
    forall i: nat | i < n ensures InStep(ts, all, i) {
      TrackersInStep(s, w, actions, i);
    }
    SameSteps(ts, all, n);
  }

  /** The i-th action is a call that was answered with something other than RETRY_BLOCKED. */
  predicate Answered(s: Settings, w: World, actions: seq<Action>, i: nat)
    requires i < |actions| && actions[i].Process?
  {
    ReplyTo(s, w, actions, i).Returned? && ReplyTo(s, w, actions, i).result.outcome != RetryBlocked
  }

  lemma {:induction false} AnsweredIsVisit(s: Settings, w: World, actions: seq<Action>, i: nat)
    requires i < |actions| && actions[i].Process?
    ensures Answered(s, w, actions, i) <==> AnsweredAt(Visits(s, w, actions), i)
  {
    ReplyTellsGate(s, TrackerAt(s, w, actions, i), actions[i].c);
  }

  /** Sequential calls: each is recorded after its check and before the next check. */
  ghost predicate Sequential(actions: seq<Action>) {
    && (forall i :: 0 <= i < |actions| && actions[i].Process? ==> actions[i].c.now <= actions[i].c.done)
    && (forall i, j :: 0 <= i < j < |actions| && actions[i].Process? && actions[j].Process? ==>
          actions[i].c.done <= actions[j].c.now)
  }

  lemma {:induction false} SequentialIsClock(s: Settings, w: World, actions: seq<Action>)
    requires Sequential(actions)
    ensures Clock(Visits(s, w, actions))
  {
  }

  predicate SamePaymentAt(actions: seq<Action>, i: nat, j: nat)
    requires i < |actions| && j < |actions| && actions[i].Process? && actions[j].Process?
  {
    SamePayment(actions[i].c.ev.uetr, actions[i].c.ev.payment, actions[j].c.ev.uetr, actions[j].c.ev.payment)
  }

  /** From the end of the i-th call to the check of the j-th. */
  function Gap(actions: seq<Action>, i: nat, j: nat): real
    requires i < |actions| && j < |actions| && actions[i].Process? && actions[j].Process?
  {
    actions[j].c.now - actions[i].c.done
  }

  // ------------------------------------------------------- how often it answers

  /**
   * Main result: from an empty tracker a call is blocked as a retry if and only if an earlier call
   * was answered and either had the same reference less than the TTL ago, or
   * the same content and has not been swept since.
   */
  lemma {:induction false} RetryBlockedExactlyWhen(s: Settings, w: World, actions: seq<Action>, j: nat)
    requires j < |actions| && actions[j].Process? && Sequential(actions) && w.tracker == EMPTY
    ensures ReplyTo(s, w, actions, j) == Returned(RETRY_RESULT)
            <==> exists i: nat :: Blocks(w.tracker, s.ttl, Visits(s, w, actions), i, j)
  {
    RetryMeetsBlocker(s, w, actions, j);
    ReplyTellsGate(s, TrackerAt(s, w, actions, j), actions[j].c);
  }

  lemma {:induction false} RetryMeetsBlocker(s: Settings, w: World, actions: seq<Action>, j: nat)
    requires j < |actions| && actions[j].Process? && Sequential(actions) && w.tracker == EMPTY
    ensures IsRetry(TrackerAt(s, w, actions, j), s.ttl, actions[j].c.ev.uetr, actions[j].c.ev.payment, actions[j].c.now)
            <==> exists i: nat :: Blocks(w.tracker, s.ttl, Visits(s, w, actions), i, j)
  {
    TrackerIsTracked(s, w, actions, j);
    SequentialIsClock(s, w, actions);
    BlockedExactlyWhen(w.tracker, s.ttl, Visits(s, w, actions), j);
  }

  /**
   * Main result: in any run, once a call was answered (with anything, SYSTEM_ERROR
   * included), every call for the same payment that is checked less than the TTL
   * later is blocked as a retry.
   */
  lemma {:induction false} AnsweredAtMostOnce(s: Settings, w: World, actions: seq<Action>, i: nat, j: nat)
    requires i < j < |actions| && Sequential(actions) && actions[i].Process? && actions[j].Process?
    requires Answered(s, w, actions, i) && SamePaymentAt(actions, i, j) && Gap(actions, i, j) < s.ttl
    ensures ReplyTo(s, w, actions, j) == Returned(RETRY_RESULT)
  {
    var t, vs := TrackerAt(s, w, actions, j), Visits(s, w, actions);
    AnsweredIsVisit(s, w, actions, i);
    SequentialIsClock(s, w, actions);
    TrackerIsTracked(s, w, actions, j);
    SamePaymentBlocks(w.tracker, s.ttl, vs, i, j);
    BlockerBlocks(w.tracker, s.ttl, vs, i, j);
    ReplyTellsGate(s, t, actions[j].c);
  }

  /** Hence two calls answered for one payment are a TTL apart, and so are two offers. */
  lemma {:induction false} AnswersAreTtlApart(s: Settings, w: World, actions: seq<Action>, i: nat, j: nat)
    requires i < j < |actions| && Sequential(actions) && actions[i].Process? && actions[j].Process?
    requires Answered(s, w, actions, i) && Answered(s, w, actions, j) && SamePaymentAt(actions, i, j)
    ensures Gap(actions, i, j) >= s.ttl
  {
    if Gap(actions, i, j) < s.ttl {
      AnsweredAtMostOnce(s, w, actions, i, j);
    }
  }

  lemma {:induction false} OfferedAtMostOnce(s: Settings, w: World, actions: seq<Action>, i: nat, j: nat)
    requires i < j < |actions| && Sequential(actions) && actions[i].Process? && actions[j].Process?
    requires OffersBridge(ReplyTo(s, w, actions, i)) && OffersBridge(ReplyTo(s, w, actions, j)) && SamePaymentAt(actions, i, j)
    ensures Gap(actions, i, j) >= s.ttl
  {
    AnswersAreTtlApart(s, w, actions, i, j);
  }

  /**
   * Main result: a payment parked for human review and submitted again under
   * its reference is blocked exactly until the TTL is over, whatever the
   * reviewer decided; after that it is offered exactly if every gate is open.
   */
  lemma {:induction false} ReentryAfterReview(s: Settings, w: World, actions: seq<Action>, i: nat, j: nat)
    requires i < j < |actions| && Sequential(actions) && w.tracker == EMPTY && actions[i].Process? && actions[j].Process?
    requires ReplyTo(s, w, actions, i).Returned? && ReplyTo(s, w, actions, i).result.outcome == PendingHumanReview
    requires actions[j].c.ev == actions[i].c.ev
    requires forall k: nat :: k < j && k != i && actions[k].Process? && Answered(s, w, actions, k) ==> !SamePaymentAt(actions, k, j)
    ensures ReplyTo(s, w, actions, j) == Returned(RETRY_RESULT) <==> Gap(actions, i, j) < s.ttl
    ensures OffersBridge(ReplyTo(s, w, actions, j)) <==> Gap(actions, i, j) >= s.ttl && EnginesAgree(s, actions[j].c)
  {
    var vs, c := Visits(s, w, actions), actions[j].c;
    AnsweredIsVisit(s, w, actions, i);
    RetryBlockedExactlyWhen(s, w, actions, j);
    if Gap(actions, i, j) < s.ttl {
      SequentialIsClock(s, w, actions);
      SamePaymentBlocks(w.tracker, s.ttl, vs, i, j);
    } else {
      forall k: nat ensures !Blocks(w.tracker, s.ttl, vs, k, j) {
        NoOtherBlocker(s, w, actions, i, j, k);
      }
    }
    ReplyTellsGate(s, TrackerAt(s, w, actions, j), c);
    OfferIffAllGatesOpen(s, TrackerAt(s, w, actions, j), c);
  }

  lemma {:induction false} NoOtherBlocker(s: Settings, w: World, actions: seq<Action>, i: nat, j: nat, k: nat)
    requires i < j < |actions| && actions[i].Process? && actions[j].Process?
    requires actions[j].c.ev == actions[i].c.ev && Gap(actions, i, j) >= s.ttl
    requires k < j && k != i && actions[k].Process? && Answered(s, w, actions, k) ==> !SamePaymentAt(actions, k, j)
    ensures !Blocks(w.tracker, s.ttl, Visits(s, w, actions), k, j)
  {
    var vs := Visits(s, w, actions);
    if Blocks(w.tracker, s.ttl, vs, k, j) {
      AnsweredIsVisit(s, w, actions, k);
      BlockerIsSamePayment(w.tracker, s.ttl, vs, k, j);
    }
  }

  /**
   * A payment submitted again under a new reference stays blocked however long
   * ago it was answered, while the tracker has not had enough calls to sweep.
   */
  lemma {:induction false} RekeyedPaymentStaysBlocked(s: Settings, w: World, actions: seq<Action>, i: nat, j: nat)
    requires i < j < |actions| && Sequential(actions) && actions[i].Process? && actions[j].Process?
    requires Answered(s, w, actions, i) && SamePaymentAt(actions, i, j)
    requires actions[i].c.ev.uetr != actions[j].c.ev.uetr && w.tracker.calls + 2 * j + 2 < CLEANUP_INTERVAL
    ensures ReplyTo(s, w, actions, j) == Returned(RETRY_RESULT)
  {
    AnsweredIsVisit(s, w, actions, i);
    TrackerIsTracked(s, w, actions, j);
    SequentialIsClock(s, w, actions);
    RekeyedOutlivesTtl(w.tracker, s.ttl, Visits(s, w, actions), i, j);
    ReplyTellsGate(s, TrackerAt(s, w, actions, j), actions[j].c);
  }
}
