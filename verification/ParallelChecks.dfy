/**
 * The two checks as they run: one thread asks C4, the other C6, and both write
 * to one latency tracker.  No interleaving changes what comes out.
 */
module ParallelChecks {
  import opened AmlGate
  import opened Options
  import opened Pipeline

  /** A classifier that raises is taken for a possible dispute, inside its thread. */
  function Settled4(r: C4Reply): C4Reply {
    if r.C4Raises? then Class(DisputePossible) else r
  }

  /** A checker that raises is taken for one that answered nothing. */
  function Settled6(r: C6Reply): C6Reply {
    if r.C6Raises? then C6Null else r
  }

  /** The two names in the latency tracker. */
  datatype Timer = C4Timer | C6Timer

  /** Program counters, what each thread has to return, and what both write to. */
  datatype Threads = Threads(pc4: nat, pc6: nat, out4: Option<C4Reply>, out6: Option<C6Reply>,
                             samples: map<Timer, seq<real>>, log: seq<Velocity>)

  /** What the threads find: the engines, and how long each is going to take. */
  datatype Setting = Setting(records: bool, c: Call, took4: real, took6: real)

  function Sampled(samples: map<Timer, seq<real>>, component: Timer, ms: real): map<Timer, seq<real>> {
    samples[component := if component in samples then samples[component] + [ms] else [ms]]
  }

  /** Ask C4, then record how long it took; a finished thread does nothing. */
  function Step4(x: Setting, t: Threads): Threads {
    if t.pc4 == 0 then t.(pc4 := 1, out4 := Some(Settled4(x.c.en.c4)))
    else if t.pc4 == 1 then t.(pc4 := 2, samples := Sampled(t.samples, C4Timer, x.took4))
    else t
  }

  /** Ask C6, which may write its entry, then record the time; an error before the call ends the thread. */
  function Step6(x: Setting, t: Threads): Threads {
    if t.pc6 == 0 then
      if x.c.en.c6.C6SetupRaises? then t.(pc6 := 2, out6 := Some(C6SetupRaises))
      else t.(pc6 := 1, out6 := Some(Settled6(x.c.en.c6)),
              log := t.log + if x.records && Writes(x.c.en.c6) then CheckEntries(x.c) else [])
    else if t.pc6 == 1 then t.(pc6 := 2, samples := Sampled(t.samples, C6Timer, x.took6))
    else t
  }

  /** A schedule says at each step which thread moves; true is that of C4. */
  function Scheduled(x: Setting, t: Threads, schedule: seq<bool>): Threads
    decreases |schedule|
  {
    if schedule == [] then t
    else Scheduled(x, if schedule[0] then Step4(x, t) else Step6(x, t), schedule[1..])
  }

  /** Everything that can be seen at two program counters, starting from a log and its samples. */
  function At(x: Setting, log: seq<Velocity>, pc4: nat, pc6: nat): Threads {
    var raised := x.c.en.c6.C6SetupRaises?;
    var first := if pc4 >= 2 then map[C4Timer := [x.took4]] else map[];
    Threads(pc4, pc6,
            if pc4 == 0 then None else Some(Settled4(x.c.en.c4)),
            if pc6 == 0 then None else Some(Settled6(x.c.en.c6)),
            if pc6 >= 2 && !raised then first[C6Timer := [x.took6]] else first,
            log + if pc6 >= 1 && x.records && Writes(x.c.en.c6) then CheckEntries(x.c) else [])
  }

  ghost predicate Possible(x: Setting, pc4: nat, pc6: nat) {
    pc4 <= 2 && pc6 <= 2 && (x.c.en.c6.C6SetupRaises? ==> pc6 != 1)
  }

  lemma {:induction false} StepsStayAt(x: Setting, log: seq<Velocity>, pc4: nat, pc6: nat, four: bool) returns (pc4': nat, pc6': nat)
    requires Possible(x, pc4, pc6)
    ensures Possible(x, pc4', pc6')
    ensures (if four then Step4(x, At(x, log, pc4, pc6)) else Step6(x, At(x, log, pc4, pc6))) == At(x, log, pc4', pc6')
  {
    var t := At(x, log, pc4, pc6);
    var next := if four then Step4(x, t) else Step6(x, t);
    pc4', pc6' := next.pc4, next.pc6;
    assert next.samples == At(x, log, pc4', pc6').samples;
    assert next.log == At(x, log, pc4', pc6').log;
  }

  lemma {:induction false} ScheduledIsAt(x: Setting, log: seq<Velocity>, pc4: nat, pc6: nat, schedule: seq<bool>)
    returns (pc4': nat, pc6': nat)
    requires Possible(x, pc4, pc6)
    ensures Possible(x, pc4', pc6') && Scheduled(x, At(x, log, pc4, pc6), schedule) == At(x, log, pc4', pc6')
    decreases |schedule|
  {
    if schedule == [] {
      pc4', pc6' := pc4, pc6;
    } else {
      var m4, m6 := StepsStayAt(x, log, pc4, pc6, schedule[0]);
      pc4', pc6' := ScheduledIsAt(x, log, m4, m6, schedule[1..]);
    }
  }

  /**
   * Main result: any two interleavings that let both threads finish end alike:
   * the same replies, latency samples and velocity log.
   */
  lemma {:induction false} InterleavingIsIrrelevant(x: Setting, log: seq<Velocity>, a: seq<bool>, b: seq<bool>)
    requires Scheduled(x, At(x, log, 0, 0), a).pc4 == 2 && Scheduled(x, At(x, log, 0, 0), a).pc6 == 2
    requires Scheduled(x, At(x, log, 0, 0), b).pc4 == 2 && Scheduled(x, At(x, log, 0, 0), b).pc6 == 2
    ensures Scheduled(x, At(x, log, 0, 0), a) == Scheduled(x, At(x, log, 0, 0), b)
  {
    var a4, a6 := ScheduledIsAt(x, log, 0, 0, a);
    var b4, b6 := ScheduledIsAt(x, log, 0, 0, b);
  }

  /**
   * Main result: whatever the interleaving, the gate that closes on the replies
   * of the two threads is that of the engines, and the log is that of one call.
   */
  lemma {:induction false} InterleavedGate(x: Setting, s: Settings, log: seq<Velocity>, schedule: seq<bool>)
    requires s.records == x.records
    requires var end := Scheduled(x, At(x, log, 0, 0), schedule); end.pc4 == 2 && end.pc6 == 2
    ensures var end := Scheduled(x, At(x, log, 0, 0), schedule);
            && end.out4.Some? && end.out6.Some?
            && CheckGate(x.c.en.(c4 := end.out4.value, c6 := end.out6.value)) == CheckGate(x.c.en)
            && end.log == log + AtCheck(s, x.c, CheckGate(x.c.en))
  {
    var pc4, pc6 := ScheduledIsAt(x, log, 0, 0, schedule);
  }
}
