/**
 * The C6 gate as the pipeline sees it: an arbitrary verdict, and the velocity
 * entry that a recording checker writes while it is still only checking.
 */
module AmlGate {
  import opened Options

  /**
   * SetupRaises: an error before the guarded call.  A checker that raises may
   * already have written its entry; NoVerdict is a reply without a passed field.
   */
  datatype C6Reply =
    | C6SetupRaises | C6Raises(wrote: bool) | C6Null | NoVerdict
    | Checked(passed: bool, anomaly: bool)

  /** The window of direct payments, that of all tenants together, and one for each tenant. */
  datatype Window = Direct | AllTenants | Tenant(id: string)

  /** An entry in one of the velocity windows. */
  datatype Velocity = Velocity(entity: string, amount: real, beneficiary: string, at: real, window: Window)

  /** A payment that came through a tenant is written into two windows. */
  function CheckEntriesFor(entity: string, amount: real, beneficiary: string, at: real, tenant: Option<string>): seq<Velocity> {
    if tenant.Some? then
      [Velocity(entity, amount, beneficiary, at, Tenant(tenant.value)), Velocity(entity, amount, beneficiary, at, AllTenants)]
    else [Velocity(entity, amount, beneficiary, at, Direct)]
  }

  /** A recording checker writes every payment it passes, and no payment it refuses. */
  predicate Writes(r: C6Reply) {
    r == C6Raises(true) || (r.Checked? && r.passed)
  }

  class AmlChecker {
    /** True of the combined checker; the bare velocity checker only looks. */
    const records: bool
    /** Whether the checker offers a way to record an accepted payment. */
    const hasRecorder: bool
    var log: seq<Velocity>

    constructor (records: bool, hasRecorder: bool)
      ensures this.records == records && this.hasRecorder == hasRecorder && log == []
    {
      this.records, this.hasRecorder, log := records, hasRecorder, [];
    }

    /** The verdict is given; the call may leave entries behind. */
    method Check(entity: string, amount: real, beneficiary: string, at: real, tenant: Option<string>, verdict: C6Reply)
      modifies this
      ensures log == old(log) + if records && Writes(verdict) then CheckEntriesFor(entity, amount, beneficiary, at, tenant) else []
    {
      if !records || !Writes(verdict) {
        return;
      }
      if tenant.Some? {
        log := log + [Velocity(entity, amount, beneficiary, at, Tenant(tenant.value))];
        log := log + [Velocity(entity, amount, beneficiary, at, AllTenants)];
      } else {
        log := log + [Velocity(entity, amount, beneficiary, at, Direct)];
      }
    }

    method Record(e: Velocity)
      modifies this
      ensures log == old(log) + [e]
    {
      log := log + [e];
    }
  }

  // ------------------------------------------------------- the log of a whole run

  /** What one step of a run writes: while a payment is checked, and when an offer is accepted. */
  datatype Part = Part(atCheck: seq<Velocity>, atAcceptance: seq<Velocity>)

  function Logged(log: seq<Velocity>, parts: seq<Part>, n: nat): seq<Velocity>
    requires n <= |parts|
  {
    if n == 0 then log else Logged(log, parts, n - 1) + parts[n - 1].atCheck + parts[n - 1].atAcceptance
  }

  /** The log if checking wrote nothing. */
  function LoggedAtAcceptance(log: seq<Velocity>, parts: seq<Part>, n: nat): seq<Velocity>
    requires n <= |parts|
  {
    if n == 0 then log else LoggedAtAcceptance(log, parts, n - 1) + parts[n - 1].atAcceptance
  }

  lemma {:induction false} CheckPartsAreExtra(log: seq<Velocity>, parts: seq<Part>, n: nat)
    requires n <= |parts|
    ensures |Logged(log, parts, n)| >= |LoggedAtAcceptance(log, parts, n)|
    ensures |Logged(log, parts, n)| == |LoggedAtAcceptance(log, parts, n)| ==>
              Logged(log, parts, n) == LoggedAtAcceptance(log, parts, n) && forall i :: 0 <= i < n ==> parts[i].atCheck == []
  {
    if n > 0 {
      CheckPartsAreExtra(log, parts, n - 1);
    }
  }

  lemma {:induction false} NoCheckParts(log: seq<Velocity>, parts: seq<Part>, n: nat)
    requires n <= |parts| && forall i :: 0 <= i < n ==> parts[i].atCheck == []
    ensures Logged(log, parts, n) == LoggedAtAcceptance(log, parts, n)
  {
    if n > 0 {
      NoCheckParts(log, parts, n - 1);
    }
  }

  /** The log holds acceptances alone exactly if no step wrote while checking. */
  lemma {:induction false} OnlyAcceptancesIff(log: seq<Velocity>, parts: seq<Part>, n: nat)
    requires n <= |parts|
    ensures Logged(log, parts, n) == LoggedAtAcceptance(log, parts, n) <==> forall i :: 0 <= i < n ==> parts[i].atCheck == []
  {
    CheckPartsAreExtra(log, parts, n);
    if forall i :: 0 <= i < n ==> parts[i].atCheck == [] {
      NoCheckParts(log, parts, n);
    }
  }

  lemma {:induction false} LogGrows(log: seq<Velocity>, parts: seq<Part>, m: nat, n: nat)
    requires m <= n <= |parts|
    ensures Logged(log, parts, m) <= Logged(log, parts, n)
  {
    if m < n {
      LogGrows(log, parts, m, n - 1);
    }
  }

  /** A step's part stands in every later log, right after the log it met. */
  lemma {:induction false} PartStays(log: seq<Velocity>, parts: seq<Part>, i: nat, n: nat)
    requires i < n <= |parts|
    ensures Logged(log, parts, i) + parts[i].atCheck + parts[i].atAcceptance <= Logged(log, parts, n)
  {
    LogGrows(log, parts, i + 1, n);
  }

  /** The logs after every number of steps. */
  function AllLogged(log: seq<Velocity>, parts: seq<Part>): (logs: seq<seq<Velocity>>)
    ensures |logs| == |parts| + 1 && forall i :: 0 <= i < |logs| ==> logs[i] == Logged(log, parts, i)
  {
    seq(|parts| + 1, i requires 0 <= i <= |parts| => Logged(log, parts, i))
  }
}
