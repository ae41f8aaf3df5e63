/**
 * The cluster-wide limiter: replicas share one counter per key and fixed
 * window, incremented atomically and expiring one period after its first
 * increment.  Any interleaving of replicas is one sequence of calls.
 */
module FixedWindow {
  import opened IndexSets

  datatype Config = Config(rate: nat, period: nat)

  /** A wall-clock reading taken by some replica for a key. */
  datatype Call = Call(key: string, now: real)

  /** A counter, and when the store drops it. */
  datatype Counter = Counter(count: nat, expires: real)

  /** Counters by key and window number. */
  type Store = map<(string, int), Counter>

  datatype Decision = Decision(allowed: bool, remaining: int)

  predicate ValidConfig(c: Config) {
    c.period > 0
  }

  function Window(c: Config, now: real): int
    requires ValidConfig(c) && now >= 0.0
  {
    now.Floor / c.period
  }

  /** The instant a window ends. */
  function WindowEnd(c: Config, w: int): real {
    ((w + 1) * c.period) as real
  }

  function Live(s: Store, k: (string, int), now: real): nat {
    if k in s && now < s[k].expires then s[k].count else 0
  }

  /** INCR creates a dropped or missing counter at 1; only then is its expiry set. */
  function Incr(c: Config, s: Store, k: (string, int), now: real): Store {
    var n := Live(s, k, now);
    if n == 0 then s[k := Counter(1, now + c.period as real)]
    else s[k := Counter(n + 1, s[k].expires)]
  }

  function Max(a: int, b: int): int {
    if a >= b then a else b
  }

  // ------------------------------------------------------------- the class

  class SharedCounters {
    var store: Store

    constructor ()
      ensures store == map[]
    {
      store := map[];
    }

    method Increment(c: Config, k: (string, int), now: real) returns (count: nat)
      modifies this
      ensures store == Incr(c, old(store), k, now)
      ensures count == old(Live(store, k, now)) + 1
    {
      var n := Live(store, k, now);
      if n == 0 {
        store := store[k := Counter(1, now + c.period as real)];
      } else {
        store := store[k := Counter(n + 1, store[k].expires)];
      }
      count := n + 1;
    }
  }

  class RedisRateLimiter {
    const config: Config
    const redis: SharedCounters

    constructor (config: Config, redis: SharedCounters)
      requires ValidConfig(config)
      ensures this.config == config && this.redis == redis
    {
      this.config, this.redis := config, redis;
    }

    method CheckRedis(key: string, now: real) returns (allowed: bool, remaining: int)
      requires ValidConfig(config) && now >= 0.0
      modifies redis
      ensures redis.store == Next(config, old(redis.store), Call(key, now))
      ensures Decision(allowed, remaining) == Decide(config, old(redis.store), Call(key, now))
    {
      var count := redis.Increment(config, (key, Window(config, now)), now);
      remaining := Max(0, config.rate - count);
      allowed := count <= config.rate;
    }
  }

  function Slot(c: Config, call: Call): (string, int)
    requires ValidConfig(c) && call.now >= 0.0
  {
    (call.key, Window(c, call.now))
  }

  function Next(c: Config, s: Store, call: Call): Store
    requires ValidConfig(c) && call.now >= 0.0
  {
    Incr(c, s, Slot(c, call), call.now)
  }

  function Decide(c: Config, s: Store, call: Call): Decision
    requires ValidConfig(c) && call.now >= 0.0
  {
    var count := Live(s, Slot(c, call), call.now) + 1;
    Decision(count <= c.rate, Max(0, c.rate - count))
  }

  // ------------------------------------------------------------------ runs

  ghost predicate Clock(calls: seq<Call>) {
    && (forall i :: 0 <= i < |calls| ==> calls[i].now >= 0.0)
    && (forall i, j :: 0 <= i <= j < |calls| ==> calls[i].now <= calls[j].now)
  }

  /** The store after the first n calls. */
  function After(c: Config, calls: seq<Call>, n: nat): Store
    requires ValidConfig(c) && n <= |calls|
    requires forall i :: 0 <= i < |calls| ==> calls[i].now >= 0.0
  {
    if n == 0 then map[] else Next(c, After(c, calls, n - 1), calls[n - 1])
  }

  function Answer(c: Config, calls: seq<Call>, i: nat): Decision
    requires ValidConfig(c) && i < |calls|
    requires forall j :: 0 <= j < |calls| ==> calls[j].now >= 0.0
  {
    Decide(c, After(c, calls, i), calls[i])
  }

  /** How many of the first n calls fall in a slot. */
  function Occurrences(c: Config, calls: seq<Call>, n: nat, k: (string, int)): nat
    requires ValidConfig(c) && n <= |calls|
    requires forall i :: 0 <= i < |calls| ==> calls[i].now >= 0.0
  {
    if n == 0 then 0
    else Occurrences(c, calls, n - 1, k) + (if Slot(c, calls[n - 1]) == k then 1 else 0)
  }

  lemma WindowBounds(c: Config, now: real)
    requires ValidConfig(c) && now >= 0.0
    ensures WindowEnd(c, Window(c, now)) - c.period as real <= now < WindowEnd(c, Window(c, now))
  {
    var f := now.Floor;
    assert f == (f / c.period) * c.period + f % c.period;
    assert (Window(c, now) + 1) * c.period == Window(c, now) * c.period + c.period;
    assert f as real <= now < (f + 1) as real;
  }

  lemma WindowMonotone(c: Config, t: real, u: real)
    requires ValidConfig(c) && 0.0 <= t <= u
    ensures Window(c, t) <= Window(c, u)
  {
    FloorDivMonotone(t.Floor, u.Floor, c.period);
  }

  lemma MulAtLeast(k: int, p: int)
    requires p > 0
    ensures k >= 1 ==> k * p >= p
    ensures k <= -1 ==> k * p <= -p
  {
    if k >= 1 {
      assert (k - 1) * p >= 0;
    } else if k <= -1 {
      assert (-k - 1) * p >= 0;
    }
  }

  lemma FloorDivMonotone(a: int, b: int, p: int)
    requires p > 0 && a <= b
    ensures a / p <= b / p
  {
    MulAtLeast(a / p - b / p, p);
    assert a == (a / p) * p + a % p && b == (b / p) * p + b % p;
    assert (a / p - b / p) * p == (a / p) * p - (b / p) * p;
  }

  /**
   * A live counter holds the calls of its slot so far, and a slot of the
   * current window never expires before the window ends.
   */
  ghost predicate Accurate(c: Config, calls: seq<Call>, n: nat)
    requires ValidConfig(c) && n <= |calls| && Clock(calls)
  {
    var s := After(c, calls, n);
    forall k: (string, int) ::
      && (k in s ==> s[k].count == Occurrences(c, calls, n, k) >= 1
                     && s[k].expires >= WindowEnd(c, k.1))
      && (k !in s ==> Occurrences(c, calls, n, k) == 0)
  }

  /** A counter outlives its window, so a call in the window reads it live. */
  lemma LiveIsOccurrences(c: Config, calls: seq<Call>, n: nat)
    requires ValidConfig(c) && n < |calls| && Clock(calls) && Accurate(c, calls, n)
    ensures Live(After(c, calls, n), Slot(c, calls[n]), calls[n].now) == Occurrences(c, calls, n, Slot(c, calls[n]))
  {
    var k := Slot(c, calls[n]);
    WindowBounds(c, calls[n].now);
    assert calls[n].now < WindowEnd(c, k.1);
    assert k in After(c, calls, n) || Occurrences(c, calls, n, k) == 0;
  }

  lemma {:induction false} CountersAccurate(c: Config, calls: seq<Call>, n: nat)
    requires ValidConfig(c) && n <= |calls| && Clock(calls)
    ensures Accurate(c, calls, n)
  {
    if n > 0 {
      CountersAccurate(c, calls, n - 1);
      LiveIsOccurrences(c, calls, n - 1);
      AccurateStep(c, calls, n);
    }
  }

  lemma {:induction false} AccurateStep(c: Config, calls: seq<Call>, n: nat)
    requires ValidConfig(c) && 0 < n <= |calls| && Clock(calls)
    requires Accurate(c, calls, n - 1)
    requires Live(After(c, calls, n - 1), Slot(c, calls[n - 1]), calls[n - 1].now)
          == Occurrences(c, calls, n - 1, Slot(c, calls[n - 1]))
    ensures Accurate(c, calls, n)
  {
    var call := calls[n - 1];
    var before, now := After(c, calls, n - 1), After(c, calls, n);
    WindowBounds(c, call.now);
    forall k: (string, int)
      ensures k in now ==> now[k].count == Occurrences(c, calls, n, k) >= 1
                           && now[k].expires >= WindowEnd(c, k.1)
      ensures k !in now ==> Occurrences(c, calls, n, k) == 0
    {
      assert k in before || Occurrences(c, calls, n - 1, k) == 0;
    }
  }

  lemma {:induction false} AnswerByOccurrences(c: Config, calls: seq<Call>, i: nat)
    requires ValidConfig(c) && i < |calls| && Clock(calls)
    ensures Answer(c, calls, i).allowed <==> Occurrences(c, calls, i, Slot(c, calls[i])) < c.rate
    ensures Answer(c, calls, i).remaining == Max(0, c.rate - Occurrences(c, calls, i + 1, Slot(c, calls[i])))
  {
    CountersAccurate(c, calls, i);
    LiveIsOccurrences(c, calls, i);
  }

  /** The earlier calls for the key of call i in the same whole period since the epoch. */
  ghost function EarlierInWindow(c: Config, calls: seq<Call>, i: nat): set<nat>
    requires ValidConfig(c) && i < |calls|
  {
    set j: nat | j < i && calls[j].key == calls[i].key && calls[j].now.Floor / c.period == calls[i].now.Floor / c.period
  }

  ghost function InSlot(c: Config, calls: seq<Call>, n: nat, k: (string, int)): set<nat>
    requires ValidConfig(c) && n <= |calls|
    requires forall i :: 0 <= i < |calls| ==> calls[i].now >= 0.0
  {
    set j: nat | j < n && Slot(c, calls[j]) == k
  }

  lemma {:induction false} OccurrencesAreCardinality(c: Config, calls: seq<Call>, n: nat, k: (string, int))
    requires ValidConfig(c) && n <= |calls|
    requires forall i :: 0 <= i < |calls| ==> calls[i].now >= 0.0
    ensures Occurrences(c, calls, n, k) == |InSlot(c, calls, n, k)|
  {
    if n == 0 {
      assert InSlot(c, calls, 0, k) == {};
    } else {
      OccurrencesAreCardinality(c, calls, n - 1, k);
      Grows(InSlot(c, calls, n - 1, k), InSlot(c, calls, n, k), n - 1, Slot(c, calls[n - 1]) == k);
    }
  }

  /**
   * Main result: in any interleaving of replicas a call is allowed exactly when
   * fewer than rate earlier calls used the same key in the same window, and
   * the reported remaining is what the window has left after it.
   */
  lemma {:induction false} AllowedIffFewEarlier(c: Config, calls: seq<Call>, i: nat)
    requires ValidConfig(c) && i < |calls| && Clock(calls)
    ensures var n := |EarlierInWindow(c, calls, i)|;
            Answer(c, calls, i) == if n < c.rate then Decision(true, c.rate - n - 1) else Decision(false, 0)
  {
    AnswerByOccurrences(c, calls, i);
    OccurrencesAreCardinality(c, calls, i, Slot(c, calls[i]));
    assert InSlot(c, calls, i, Slot(c, calls[i])) == EarlierInWindow(c, calls, i);
  }

  /** Allowed calls of a slot among the first n. */
  function AllowedIn(c: Config, calls: seq<Call>, n: nat, k: (string, int)): nat
    requires ValidConfig(c) && n <= |calls|
    requires forall i :: 0 <= i < |calls| ==> calls[i].now >= 0.0
  {
    if n == 0 then 0
    else AllowedIn(c, calls, n - 1, k)
         + (if Slot(c, calls[n - 1]) == k && Answer(c, calls, n - 1).allowed then 1 else 0)
  }

  /** Each window admits all its calls up to rate, and not one more. */
  lemma {:induction false} WindowQuota(c: Config, calls: seq<Call>, n: nat, k: (string, int))
    requires ValidConfig(c) && n <= |calls| && Clock(calls)
    ensures AllowedIn(c, calls, n, k) == if Occurrences(c, calls, n, k) <= c.rate then Occurrences(c, calls, n, k) else c.rate
  {
    if n > 0 {
      WindowQuota(c, calls, n - 1, k);
      AnswerByOccurrences(c, calls, n - 1);
    }
  }

  /** Allowed calls of a key among the first n with a time in [t1, t2]. */
  function AllowedBetween(c: Config, calls: seq<Call>, n: nat, key: string, t1: real, t2: real): nat
    requires ValidConfig(c) && n <= |calls|
    requires forall i :: 0 <= i < |calls| ==> calls[i].now >= 0.0
  {
    if n == 0 then 0
    else AllowedBetween(c, calls, n - 1, key, t1, t2)
         + (if calls[n - 1].key == key && t1 <= calls[n - 1].now <= t2 && Answer(c, calls, n - 1).allowed
            then 1 else 0)
  }

  /** An interval no longer than the period touches at most two windows. */
  lemma TwoWindows(c: Config, t1: real, t2: real, t: real)
    requires ValidConfig(c) && 0.0 <= t1 <= t <= t2 <= t1 + c.period as real
    ensures Window(c, t) == Window(c, t1) || Window(c, t) == Window(c, t1) + 1
  {
    WindowMonotone(c, t1, t);
    WindowMonotone(c, t, t1 + c.period as real);
    NextWindow(c, t1);
  }

  lemma NextWindow(c: Config, t: real)
    requires ValidConfig(c) && t >= 0.0
    ensures Window(c, t + c.period as real) == Window(c, t) + 1
  {
    assert (t + c.period as real).Floor == t.Floor + c.period;
    ShiftedDivision(t.Floor, c.period);
  }

  lemma ShiftedDivision(a: int, p: int)
    requires p > 0 && a >= 0
    ensures (a + p) / p == a / p + 1
  {
    var q, q' := a / p, (a + p) / p;
    assert a == q * p + a % p && a + p == q' * p + (a + p) % p;
    assert (q' - q - 1) * p == q' * p - q * p - p;
    MulAtLeast(q' - q - 1, p);
  }

  lemma {:induction false} BetweenIsTwoSlots(c: Config, calls: seq<Call>, n: nat, key: string, t1: real, t2: real)
    requires ValidConfig(c) && n <= |calls| && Clock(calls) && 0.0 <= t1 <= t2 <= t1 + c.period as real
    ensures AllowedBetween(c, calls, n, key, t1, t2)
         <= AllowedIn(c, calls, n, (key, Window(c, t1))) + AllowedIn(c, calls, n, (key, Window(c, t1) + 1))
  {
    if n > 0 {
      BetweenIsTwoSlots(c, calls, n - 1, key, t1, t2);
      if t1 <= calls[n - 1].now <= t2 {
        TwoWindows(c, t1, t2, calls[n - 1].now);
      }
    }
  }

  /** Main result: at most 2 * rate requests in any interval of one period. */
  lemma SlidingBound(c: Config, calls: seq<Call>, key: string, t1: real, t2: real)
    requires ValidConfig(c) && Clock(calls) && 0.0 <= t1 <= t2 <= t1 + c.period as real
    ensures AllowedBetween(c, calls, |calls|, key, t1, t2) <= 2 * c.rate
  {
    BetweenIsTwoSlots(c, calls, |calls|, key, t1, t2);
    WindowQuota(c, calls, |calls|, (key, Window(c, t1)));
    WindowQuota(c, calls, |calls|, (key, Window(c, t1) + 1));
  }
}
