/**
 * The velocity cap over whole runs of the pipeline: what counting an offer
 * twice does to it.
 */
module CapRuns {
  import opened OfferDesk
  import opened AmlGate
  import opened Options
  import opened Pipeline
  import opened PipelineRuns
  import opened Funding
  import opened VelocityWindow

  /** What an action does to the window of one direct payer; a check that writes nothing counts as none. */
  function EntityAction(s: Settings, w: World, a: Action, entity: string): WindowAction {
    match a
    case Process(c) =>
      if WritesAtCheck(s, w.tracker, c) && c.ev.tenant == None && c.ev.entity == entity then
        Attempt(Rec(c.now, c.ev.payment.amount, c.ev.beneficiary), true)
      else Nothing
    case Accept(id, operator, now, f) =>
      var r := AcceptReply(w.desk, id, operator, now);
      if r.Resolved? && WritesAtAcceptance(s, f) && AcceptEntry(r.d, now).entity == entity then
        Add(Rec(now, r.d.amount, AcceptEntry(r.d, now).beneficiary))
      else Nothing
    case _ => Nothing
  }

  function EntityActions(s: Settings, w: World, actions: seq<Action>, entity: string): (acts: seq<WindowAction>)
    ensures |acts| == |actions|
    ensures forall i :: 0 <= i < |acts| ==> acts[i] == EntityAction(s, After(s, w, actions, i), actions[i], entity)
  {
    seq(|actions|, i requires 0 <= i < |actions| => EntityAction(s, After(s, w, actions, i), actions[i], entity))
  }

  /** The direct entries of a payer in a velocity log. */
  function DirectEntries(log: seq<Velocity>, entity: string): seq<Rec> {
    if log == [] then []
    else
      var init, v := log[..|log| - 1], log[|log| - 1];
      DirectEntries(init, entity) + if v.entity == entity && v.window == Direct then [Rec(v.at, v.amount, v.beneficiary)] else []
  }

  /** What the first n actions record. */
  function Recorded(acts: seq<WindowAction>, n: nat): seq<Rec>
    requires n <= |acts|
  {
    if n == 0 then [] else Recorded(acts, n - 1) + if Records(acts[n - 1]) then [acts[n - 1].r] else []
  }

  lemma {:induction false} EntriesAppend(log: seq<Velocity>, more: seq<Velocity>, entity: string)
    ensures DirectEntries(log + more, entity) == DirectEntries(log, entity) + DirectEntries(more, entity)
  {
    if more == [] {
      assert log + more == log;
    } else {
      var init, v := more[..|more| - 1], more[|more| - 1];
      EntriesAppend(log, init, entity);
      assert (log + more)[..|log + more| - 1] == log + init;
    }
  }

  lemma {:induction false} StepEntries(s: Settings, w: World, a: Action, entity: string)
    ensures var act := EntityAction(s, w, a, entity);
            DirectEntries(Step(s, w, a).velocity, entity) == DirectEntries(w.velocity, entity) + if Records(act) then [act.r] else []
  {
    var part := PartOf(s, w, a);
    StepVelocity(s, w, a);
    EntriesAppend(w.velocity + part.atCheck, part.atAcceptance, entity);
    EntriesAppend(w.velocity, part.atCheck, entity);
    PartEntries(s, w, a, entity);
  }

  lemma {:induction false} PartEntries(s: Settings, w: World, a: Action, entity: string)
    ensures var part, act := PartOf(s, w, a), EntityAction(s, w, a, entity);
            DirectEntries(part.atCheck, entity) + DirectEntries(part.atAcceptance, entity) == if Records(act) then [act.r] else []
  {
    if a.Process? && a.c.ev.tenant.Some? {
      EntriesAppend([CheckEntries(a.c)[0]], [CheckEntries(a.c)[1]], entity);
      assert CheckEntries(a.c) == [CheckEntries(a.c)[0]] + [CheckEntries(a.c)[1]];
    }
  }

  /** From log i to the next one the payer's entries grow by what action i records. */
  ghost predicate Follows(logs: seq<seq<Velocity>>, acts: seq<WindowAction>, entity: string, i: nat) {
    && i + 1 < |logs| && i < |acts|
    && DirectEntries(logs[i + 1], entity) == DirectEntries(logs[i], entity) + if Records(acts[i]) then [acts[i].r] else []
  }

  lemma {:induction false} EntriesFollow(logs: seq<seq<Velocity>>, acts: seq<WindowAction>, entity: string, n: nat)
    requires n <= |acts| && n < |logs| && forall i: nat :: i < n ==> Follows(logs, acts, entity, i)
    ensures DirectEntries(logs[n], entity) == DirectEntries(logs[0], entity) + Recorded(acts, n)
  {
    if n > 0 {
      EntriesFollow(logs, acts, entity, n - 1);
      assert Follows(logs, acts, entity, n - 1);
    }
  }

  /** The actions on a payer's window record exactly its direct entries in the velocity log of the run. */
  lemma {:induction false} WindowFollowsLog(s: Settings, w: World, actions: seq<Action>, entity: string, n: nat)
    requires n <= |actions|
    ensures DirectEntries(After(s, w, actions, n).velocity, entity)
         == DirectEntries(w.velocity, entity) + Recorded(EntityActions(s, w, actions, entity), n)
  {
    var logs, acts := Logs(s, w, actions), EntityActions(s, w, actions, entity);
    forall i: nat | i < n ensures Follows(logs, acts, entity, i) {
      StepEntries(s, After(s, w, actions, i), actions[i], entity);
    }
    EntriesFollow(logs, acts, entity, n);
  }

  /**
   * Main result: if C6 passes nothing beyond the cap, a payer's volume exceeds
   * it by no more than the offers accepted since the last payment that passed.
   */
  lemma {:induction false} PayerVolumeBound(s: Settings, w: World, actions: seq<Action>, entity: string, cap: real, n: nat)
    requires n <= |actions| && cap >= 0.0
    requires var acts := EntityActions(s, w, actions, entity); NoDebitActions(acts) && Capped(cap, acts)
    ensures var acts := EntityActions(s, w, actions, entity);
            Volume(WindowAfter(acts, n)) <= cap + AddedSince(acts, n)
  {
    CapPlusAdded(cap, EntityActions(s, w, actions, entity), n);
  }

  /**
   * Main result: with a recording checker a direct payment whose offer is
   * funded, and recorded within a window of its check, takes its payer beyond
   * the cap whenever the payment and the offer together exceed it: so every
   * fully bridged payment of more than half the cap does.
   */
  lemma {:induction false} FundedOfferBreaksCap(s: Settings, w: World, actions: seq<Action>, n: nat, risk: bool, p: nat, cap: real)
    returns (d: Delivery, i: nat, k: nat)
    requires n <= |actions| && NewWorld(w) && s.records && s.hasRecorder && AgentKeepsLog(s, w, actions)
    requires p < |Book(After(s, w, actions, n), risk)|
    ensures FundedBy(s, w, actions, n, risk, Book(After(s, w, actions, n), risk)[p], d, i, k)
    ensures var ev, acts := actions[i].c.ev, EntityActions(s, w, actions, actions[i].c.ev.entity);
            ev.tenant == None && ev.entity != "" && !actions[k].f.c6Raises
            && NoDebitActions(acts) && NoneAfter(acts, k, actions[k].now) && actions[k].now - actions[i].c.now <= WINDOW
            && ev.payment.amount + d.amount > cap ==>
              !WithinCap(cap, acts, k + 1)
  {
    d, i, k := LoanHasCall(s, w, actions, n, risk, p);
    HandoverIsCounted(s, w, actions, i, d);
    var ev, acts := actions[i].c.ev, EntityActions(s, w, actions, actions[i].c.ev.entity);
    if ev.tenant == None && ev.entity != "" && !actions[k].f.c6Raises
       && NoDebitActions(acts) && NoneAfter(acts, k, actions[k].now) && actions[k].now - actions[i].c.now <= WINDOW
       && ev.payment.amount + d.amount > cap
    {
      CheckIsAttempt(s, w, actions, i);
      AcceptanceIsAddition(s, w, actions, k, d, ev.entity);
      CountedTwiceBreaksCap(cap, acts, i, k);
    }
  }

  lemma {:induction false} CheckIsAttempt(s: Settings, w: World, actions: seq<Action>, i: nat)
    requires i < |actions| && WritesAt(s, w, actions, i) && actions[i].c.ev.tenant == None
    ensures var ev, acts := actions[i].c.ev, EntityActions(s, w, actions, actions[i].c.ev.entity);
            acts[i] == Attempt(Rec(actions[i].c.now, ev.payment.amount, ev.beneficiary), true)
  {
  }

  lemma {:induction false} AcceptanceIsAddition(s: Settings, w: World, actions: seq<Action>, k: nat, d: Delivery, entity: string)
    requires k < |actions| && actions[k].Accept? && WritesAtAcceptance(s, actions[k].f) && d.entity == entity != ""
    requires AcceptReply(After(s, w, actions, k).desk, actions[k].id, actions[k].operator, actions[k].now) == Resolved(d)
    ensures var act := EntityActions(s, w, actions, entity)[k];
            act.Add? && act.r.amount == d.amount && act.r.at == actions[k].now
  {
  }
}
