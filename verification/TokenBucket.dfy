/**
 * The in-memory token bucket: one lazily refilled bucket per key.  Times are
 * the readings of a monotonic clock, token counts are exact reals.
 */
module TokenBucket {
  import opened RealSums

  datatype Config = Config(rate: nat, period: nat)

  /** Tokens held when the bucket was last written, and when that was. */
  datatype Bucket = Bucket(tokens: real, last: real)

  type Buckets = map<string, Bucket>

  datatype Decision = Decision(allowed: bool, remaining: int)

  datatype Call = Call(key: string, now: real)

  predicate ValidConfig(c: Config) {
    c.period > 0
  }

  /** Tokens earned in a stretch of time. */
  function Earned(c: Config, elapsed: real): real
    requires ValidConfig(c)
  {
    elapsed * (c.rate as real / c.period as real)
  }

  /** Truncation toward zero. */
  function Truncate(x: real): int {
    if x >= 0.0 then x.Floor else -((-x).Floor)
  }

  function Lookup(c: Config, bs: Buckets, key: string, now: real): Bucket {
    if key in bs then bs[key] else Bucket(c.rate as real, now)
  }

  /** Tokens of a key at an instant: a full bucket for a key never seen. */
  function Level(c: Config, bs: Buckets, key: string, now: real): real
    requires ValidConfig(c)
  {
    var b := Lookup(c, bs, key, now);
    Min(c.rate as real, b.tokens + Earned(c, now - b.last))
  }

  function Decide(c: Config, bs: Buckets, call: Call): Decision
    requires ValidConfig(c)
  {
    var t := Level(c, bs, call.key, call.now);
    if t >= 1.0 then Decision(true, Truncate(t - 1.0)) else Decision(false, 0)
  }

  function Next(c: Config, bs: Buckets, call: Call): Buckets
    requires ValidConfig(c)
  {
    var t := Level(c, bs, call.key, call.now);
    bs[call.key := Bucket(if t >= 1.0 then t - 1.0 else t, call.now)]
  }

  // ------------------------------------------------------------- the class

  class TokenBucketRateLimiter {
    const config: Config
    var buckets: Buckets

    ghost predicate Valid() {
      ValidConfig(config)
    }

    constructor (rate: nat, period: nat)
      requires period > 0
      ensures Valid() && config == Config(rate, period) && buckets == map[]
    {
      config := Config(rate, period);
      buckets := map[];
    }

    method CheckMemory(key: string, now: real) returns (allowed: bool, remaining: int)
      requires Valid()
      modifies this
      ensures Decision(allowed, remaining) == Decide(config, old(buckets), Call(key, now))
      ensures buckets == Next(config, old(buckets), Call(key, now))
      ensures allowed <==> config.rate >= 1 && (key in old(buckets) ==> Saved(config, old(buckets)[key], now) >= config.period as real)
    {
      assert Decide(config, buckets, Call(key, now)).allowed
             <==> config.rate >= 1 && (key in buckets ==> Saved(config, buckets[key], now) >= config.period as real) by {
        if key in buckets {
          PassesExactlyWhen(config, buckets, Call(key, now));
        } else {
          NewKeyPasses(config, buckets, Call(key, now));
        }
      }
      var entry := if key in buckets then buckets[key] else Bucket(config.rate as real, now);
      var elapsed := now - entry.last;
      var refill := elapsed * (config.rate as real / config.period as real);
      var tokens := Min(config.rate as real, entry.tokens + refill);
      assert tokens == Level(config, buckets, key, now);
      if tokens >= 1.0 {
        tokens := tokens - 1.0;
        buckets := buckets[key := Bucket(tokens, now)];
        return true, Truncate(tokens);
      } else {
        buckets := buckets[key := Bucket(tokens, now)];
        return false, 0;
      }
    }

    /** What a caller may still spend; reading it changes nothing. */
    method Remaining(key: string, now: real) returns (tokens: int)
      requires Valid()
      ensures tokens == Truncate(Level(config, buckets, key, now))
      ensures key !in buckets ==> tokens == config.rate
      ensures key in buckets && Saved(config, buckets[key], now) >= 0.0 ==> WholeTokens(config, Saved(config, buckets[key], now), tokens)
    {
      RemainingIsWhole(config, buckets, key, now);
      var entry := if key in buckets then buckets[key] else Bucket(config.rate as real, now);
      tokens := Truncate(Min(config.rate as real, entry.tokens + Earned(config, now - entry.last)));
    }
  }

  // ------------------------------------------------------------------ runs

  function RunState(c: Config, bs: Buckets, calls: seq<Call>): Buckets
    requires ValidConfig(c)
    decreases |calls|
  {
    if calls == [] then bs else RunState(c, Next(c, bs, calls[0]), calls[1..])
  }

  function Run(c: Config, bs: Buckets, calls: seq<Call>): (r: seq<Decision>)
    requires ValidConfig(c)
    ensures |r| == |calls|
    decreases |calls|
  {
    if calls == [] then [] else [Decide(c, bs, calls[0])] + Run(c, Next(c, bs, calls[0]), calls[1..])
  }

  /** The clock never runs backwards, and no call is earlier than start. */
  ghost predicate ClockFrom(start: real, calls: seq<Call>)
    decreases |calls|
  {
    calls == [] || (start <= calls[0].now && ClockFrom(calls[0].now, calls[1..]))
  }

  /** Buckets were written no later than now and hold between 0 and rate tokens. */
  ghost predicate Sane(c: Config, bs: Buckets, now: real) {
    forall k :: k in bs ==> 0.0 <= bs[k].tokens <= c.rate as real && bs[k].last <= now
  }

  lemma EarnedNonNegative(c: Config, d: real)
    requires ValidConfig(c) && d >= 0.0
    ensures Earned(c, d) >= 0.0
  {
    MulNonNegative(d, c.rate as real / c.period as real);
  }

  /** In a period rate tokens are earned, and in between in proportion. */
  lemma {:induction false} EarnedIsShare(c: Config, d: real)
    requires ValidConfig(c)
    ensures Earned(c, d) * c.period as real == c.rate as real * d
  {
  }

  lemma EarnedAdds(c: Config, d: real, e: real)
    requires ValidConfig(c)
    ensures Earned(c, d + e) == Earned(c, d) + Earned(c, e)
  {
  }

  /** Tokens stay within 0..rate. */
  lemma LevelInRange(c: Config, bs: Buckets, key: string, now: real, t: real)
    requires ValidConfig(c) && Sane(c, bs, now) && now <= t
    ensures 0.0 <= Level(c, bs, key, t) <= c.rate as real
  {
    EarnedNonNegative(c, t - Lookup(c, bs, key, t).last);
  }

  lemma {:induction false} NextSane(c: Config, bs: Buckets, call: Call, now: real)
    requires ValidConfig(c) && Sane(c, bs, now) && now <= call.now
    ensures Sane(c, Next(c, bs, call), call.now)
  {
    LevelInRange(c, bs, call.key, now, call.now);
  }

  /** In every state a run reaches, each key holds between 0 and rate tokens. */
  lemma {:induction false} RunKeepsTokensInRange(c: Config, bs: Buckets, calls: seq<Call>, start: real)
    requires ValidConfig(c) && Sane(c, bs, start) && ClockFrom(start, calls)
    ensures Sane(c, RunState(c, bs, calls), if calls == [] then start else calls[|calls| - 1].now)
    decreases |calls|
  {
    if calls != [] {
      NextSane(c, bs, calls[0], start);
      RunKeepsTokensInRange(c, Next(c, bs, calls[0]), calls[1..], calls[0].now);
    }
  }

  /** Waiting adds what is earned, up to a full bucket. */
  lemma {:induction false} LevelLater(c: Config, bs: Buckets, key: string, t: real, u: real)
    requires ValidConfig(c) && Sane(c, bs, t) && t <= u
    ensures Level(c, bs, key, u) == Min(c.rate as real, Level(c, bs, key, t) + Earned(c, u - t))
  {
    EarnedNonNegative(c, u - t);
    if key in bs {
      EarnedAdds(c, t - bs[key].last, u - t);
      assert u - bs[key].last == (t - bs[key].last) + (u - t);
    }
  }

  /** A call changes only its own bucket: one token less when it is allowed. */
  lemma {:induction false} LevelAfterCall(c: Config, bs: Buckets, call: Call, key: string, now: real, u: real)
    requires ValidConfig(c) && Sane(c, bs, now) && now <= call.now <= u
    ensures call.key != key ==> Level(c, Next(c, bs, call), key, u) == Level(c, bs, key, u)
    ensures call.key == key ==>
              Level(c, Next(c, bs, call), key, call.now)
              == Level(c, bs, key, call.now) - (if Decide(c, bs, call).allowed then 1.0 else 0.0)
  {
    LevelInRange(c, bs, call.key, now, call.now);
    assert Earned(c, call.now - call.now) == 0.0;
  }

  // ------------------------------------------------------------ one check, exactly

  /** Tokens times the period, of what a bucket held and has earned since; what it cannot hold is not lost here. */
  function Saved(c: Config, b: Bucket, now: real): real {
    b.tokens * c.period as real + c.rate as real * (now - b.last)
  }

  /**
   * Main result: a known key passes if and only if what it held and has earned
   * since makes a token, which it then gives up; it never holds more than rate.
   */
  lemma {:induction false} PassesExactlyWhen(c: Config, bs: Buckets, call: Call)
    requires ValidConfig(c) && call.key in bs
    ensures var key, r, p := call.key, c.rate as real, c.period as real;
            var allowed, left, saved := Decide(c, bs, call).allowed, Next(c, bs, call)[key], Saved(c, bs[key], call.now);
            && (allowed <==> c.rate >= 1 && saved >= p)
            && left.tokens * p == Min(r * p, saved) - (if allowed then p else 0.0) && left.last == call.now
  {
    var level, left := Level(c, bs, call.key, call.now), Next(c, bs, call)[call.key];
    assert left.tokens == if level >= 1.0 then level - 1.0 else level;
    KnownKeyScaled(c, bs, call.key, call.now);
  }

  /** A new key finds a full bucket. */
  lemma {:induction false} NewKeyPasses(c: Config, bs: Buckets, call: Call)
    requires ValidConfig(c) && call.key !in bs
    ensures Decide(c, bs, call).allowed <==> c.rate >= 1
    ensures Next(c, bs, call)[call.key] == Bucket(c.rate as real - (if c.rate >= 1 then 1.0 else 0.0), call.now)
  {
    EarnedNonNegative(c, 0.0);
  }

  lemma {:induction false} KnownKeyScaled(c: Config, bs: Buckets, key: string, now: real)
    requires ValidConfig(c) && key in bs
    ensures var level, r, p := Level(c, bs, key, now), c.rate as real, c.period as real;
            && (level >= 1.0 <==> c.rate >= 1 && Saved(c, bs[key], now) >= p)
            && level * p == Min(r * p, Saved(c, bs[key], now))
            && (level - 1.0) * p == Min(r * p, Saved(c, bs[key], now)) - p
  {
    LevelScaled(c, bs, key, now);
    TokenMade(c, Level(c, bs, key, now));
    CapScaled(c, Saved(c, bs[key], now));
  }

  lemma {:induction false} LevelScaled(c: Config, bs: Buckets, key: string, now: real)
    requires ValidConfig(c) && key in bs
    ensures Level(c, bs, key, now) * c.period as real == Min(c.rate as real * c.period as real, Saved(c, bs[key], now))
  {
    EarnedIsShare(c, now - bs[key].last);
    SavedScaled(c.rate as real, bs[key].tokens, Earned(c, now - bs[key].last), c.period as real, c.rate as real * (now - bs[key].last));
  }

  lemma {:induction false} SavedScaled(r: real, tokens: real, gained: real, p: real, share: real)
    requires p > 0.0 && gained * p == share
    ensures Min(r, tokens + gained) * p == Min(r * p, tokens * p + share)
  {
    MinScaled(r, tokens + gained, p);
    assert (tokens + gained) * p == tokens * p + gained * p;
  }

  lemma {:induction false} MinScaled(a: real, b: real, p: real)
    requires p > 0.0
    ensures Min(a, b) * p == Min(a * p, b * p)
  {
    if a <= b {
      MulMonotone(a, b, p);
    } else {
      MulMonotone(b, a, p);
      if a * p <= b * p {
        MulCancel(a, b, p);
      }
    }
  }

  lemma {:induction false} TokenMade(c: Config, level: real)
    requires ValidConfig(c)
    ensures level >= 1.0 <==> level * c.period as real >= c.period as real
    ensures (level - 1.0) * c.period as real == level * c.period as real - c.period as real
  {
    var p := c.period as real;
    if level >= 1.0 {
      MulMonotone(1.0, level, p);
    } else if level * p >= p {
      MulCancel(1.0, level, p);
    }
  }

  /** The cap is a token if the rate is at least one, and zero otherwise. */
  lemma {:induction false} CapScaled(c: Config, saved: real)
    requires ValidConfig(c)
    ensures var r, p := c.rate as real, c.period as real;
            Min(r * p, saved) >= p <==> c.rate >= 1 && saved >= p
  {
    if c.rate >= 1 {
      MulMonotone(1.0, c.rate as real, c.period as real);
    }
  }

  /** n is the largest number of tokens that are saved and that a bucket can hold. */
  ghost predicate WholeTokens(c: Config, saved: real, n: int) {
    0.0 <= Min(c.rate as real * c.period as real, saved) - n as real * c.period as real < c.period as real
  }

  lemma {:induction false} RemainingIsWhole(c: Config, bs: Buckets, key: string, now: real)
    requires ValidConfig(c)
    ensures key !in bs ==> Truncate(Level(c, bs, key, now)) == c.rate
    ensures key in bs && Saved(c, bs[key], now) >= 0.0 ==>
              WholeTokens(c, Saved(c, bs[key], now), Truncate(Level(c, bs, key, now)))
  {
    if key !in bs {
      EarnedNonNegative(c, 0.0);
    } else if Saved(c, bs[key], now) >= 0.0 {
      LevelScaled(c, bs, key, now);
      MulNonNegative(c.rate as real, c.period as real);
      FloorScaled(Level(c, bs, key, now), c.period as real, Min(c.rate as real * c.period as real, Saved(c, bs[key], now)));
    }
  }

  lemma {:induction false} FloorScaled(level: real, p: real, total: real)
    requires p > 0.0 && level * p == total && total >= 0.0
    ensures 0.0 <= total - Truncate(level) as real * p < p
  {
    if level < 0.0 {
      MulPositive(-level, p);
    }
    PartScaled(level, Truncate(level) as real, p, total);
  }

  lemma {:induction false} PartScaled(level: real, low: real, p: real, total: real)
    requires p > 0.0 && 0.0 <= level - low < 1.0 && level * p == total
    ensures 0.0 <= total - low * p < p
  {
    var part := level - low;
    assert part * p >= 0.0;
    assert (1.0 - part) * p > 0.0;
    assert level == low + part;
    assert total == low * p + part * p;
  }

  /** In numbers: with x tokens at t a call at u passes exactly if x * period + rate * (u - t) makes a period. */
  lemma {:induction false} PassesIffEarned(c: Config, bs: Buckets, call: Call, x: real, t: real)
    requires ValidConfig(c) && call.key in bs && bs[call.key] == Bucket(x, t)
    ensures Decide(c, bs, call).allowed <==> c.rate >= 1 && x * c.period as real + c.rate as real * (call.now - t) >= c.period as real
  {
    SavedSum(c, x, t, call.now);
    assert Decide(c, bs, call).allowed <==> c.rate >= 1 && Saved(c, bs[call.key], call.now) >= c.period as real by {
      PassesExactlyWhen(c, bs, call);
    }
  }

  lemma {:induction false} SavedSum(c: Config, x: real, t: real, now: real)
    ensures Saved(c, Bucket(x, t), now) == x * c.period as real + c.rate as real * (now - t)
  {
  }

  function Copies(call: Call, n: nat): (calls: seq<Call>)
    ensures |calls| == n && forall i :: 0 <= i < n ==> calls[i] == call
  {
    seq(n, i requires 0 <= i < n => call)
  }

  /** Of n calls at one instant those pass for which the bucket holds a whole token. */
  lemma {:induction false} BurstTakesLevel(c: Config, bs: Buckets, call: Call, n: nat, i: nat)
    requires ValidConfig(c) && Sane(c, bs, call.now) && i < n
    ensures Run(c, bs, Copies(call, n))[i].allowed <==> (i + 1) as real <= Level(c, bs, call.key, call.now)
    decreases n
  {
    var rest, next := Copies(call, n)[1..], Next(c, bs, call);
    assert rest == Copies(call, n - 1);
    if i > 0 {
      NextSane(c, bs, call, call.now);
      LevelAfterCall(c, bs, call, call.key, call.now, call.now);
      BurstTakesLevel(c, next, call, n - 1, i - 1);
      assert (i + 1) as real == (i - 1 + 1) as real + 1.0;
    }
  }

  /** Main result: a key that is new, or has been idle for a period, gets exactly rate requests at one instant. */
  lemma {:induction false} BurstIsRate(c: Config, bs: Buckets, call: Call, n: nat, i: nat)
    requires ValidConfig(c) && Sane(c, bs, call.now) && i < n
    requires call.key in bs ==> call.now - bs[call.key].last >= c.period as real
    ensures Run(c, bs, Copies(call, n))[i].allowed <==> i < c.rate
  {
    BurstTakesLevel(c, bs, call, n, i);
    if call.key in bs {
      PeriodFills(c, call.now - bs[call.key].last);
    } else {
      EarnedNonNegative(c, 0.0);
    }
    assert (i + 1) as real <= c.rate as real <==> i + 1 <= c.rate;
  }

  lemma {:induction false} PeriodFills(c: Config, d: real)
    requires ValidConfig(c) && d >= c.period as real
    ensures Earned(c, d) >= c.rate as real
  {
    EarnedIsShare(c, d);
    MulMonotone(c.period as real, d, c.rate as real);
    ScaleBoth(c.rate as real, Earned(c, d), c.period as real, c.rate as real * d);
  }

  // ------------------------------------------------------- admission bound

  /** Requests of key admitted with a time in [t1, t2]. */
  function Admitted(c: Config, bs: Buckets, calls: seq<Call>, key: string, t1: real, t2: real): nat
    requires ValidConfig(c)
    decreases |calls|
  {
    if calls == [] then 0
    else
      (if calls[0].key == key && t1 <= calls[0].now <= t2 && Decide(c, bs, calls[0]).allowed then 1 else 0)
      + Admitted(c, Next(c, bs, calls[0]), calls[1..], key, t1, t2)
  }

  lemma {:induction false} NoneAfter(c: Config, bs: Buckets, calls: seq<Call>, key: string, t1: real, t2: real, start: real)
    requires ValidConfig(c) && ClockFrom(start, calls) && start > t2
    ensures Admitted(c, bs, calls, key, t1, t2) == 0
    decreases |calls|
  {
    if calls != [] {
      NoneAfter(c, Next(c, bs, calls[0]), calls[1..], key, t1, t2, calls[0].now);
    }
  }

  /** From inside the interval: no more than the level plus what is still earned. */
  lemma {:induction false} AdmittedFromInside(c: Config, bs: Buckets, calls: seq<Call>, key: string, t1: real, t2: real, u: real)
    requires ValidConfig(c) && Sane(c, bs, u) && ClockFrom(u, calls) && t1 <= u <= t2
    ensures Admitted(c, bs, calls, key, t1, t2) as real <= Level(c, bs, key, u) + Earned(c, t2 - u)
    decreases |calls|
  {
    LevelInRange(c, bs, key, u, u);
    EarnedNonNegative(c, t2 - u);
    if calls != [] {
      var call, next := calls[0], Next(c, bs, calls[0]);
      NextSane(c, bs, call, u);
      if call.now > t2 {
        NoneAfter(c, next, calls[1..], key, t1, t2, call.now);
      } else {
        AdmittedFromInside(c, next, calls[1..], key, t1, t2, call.now);
        LevelAfterCall(c, bs, call, key, u, call.now);
        LevelLater(c, bs, key, u, call.now);
        EarnedAdds(c, call.now - u, t2 - call.now);
        assert t2 - u == (call.now - u) + (t2 - call.now);
      }
    }
  }

  /**
   * Main result: in any run with a non-decreasing clock, a key gets at most
   * rate, plus rate for every period, in any interval [t1, t2].
   */
  lemma {:induction false} AdmissionBound(c: Config, bs: Buckets, calls: seq<Call>, key: string, t1: real, t2: real, start: real)
    requires ValidConfig(c) && Sane(c, bs, start) && ClockFrom(start, calls) && t1 <= t2
    ensures (Admitted(c, bs, calls, key, t1, t2) as real - c.rate as real) * c.period as real <= c.rate as real * (t2 - t1)
  {
    AdmittedWithinEarned(c, bs, calls, key, t1, t2, start);
    WithinShare(c, Admitted(c, bs, calls, key, t1, t2), t1, t2);
  }

  lemma {:induction false} WithinShare(c: Config, n: nat, t1: real, t2: real)
    requires ValidConfig(c) && n as real <= c.rate as real + Earned(c, t2 - t1)
    ensures (n as real - c.rate as real) * c.period as real <= c.rate as real * (t2 - t1)
  {
    EarnedIsShare(c, t2 - t1);
    ScaleBoth(n as real - c.rate as real, Earned(c, t2 - t1), c.period as real, c.rate as real * (t2 - t1));
  }

  lemma {:induction false} ScaleBoth(x: real, y: real, p: real, z: real)
    requires p > 0.0 && y * p == z
    ensures x <= y <==> x * p <= z
  {
    if x <= y {
      MulMonotone(x, y, p);
    } else if x * p <= z {
      MulCancel(x, y, p);
    }
  }

  lemma {:induction false} AdmittedWithinEarned(c: Config, bs: Buckets, calls: seq<Call>, key: string, t1: real, t2: real, start: real)
    requires ValidConfig(c) && Sane(c, bs, start) && ClockFrom(start, calls) && t1 <= t2
    ensures Admitted(c, bs, calls, key, t1, t2) as real <= c.rate as real + Earned(c, t2 - t1)
    decreases |calls|
  {
    EarnedNonNegative(c, t2 - t1);
    if start > t2 {
      NoneAfter(c, bs, calls, key, t1, t2, start);
    } else if start >= t1 {
      AdmittedFromInside(c, bs, calls, key, t1, t2, start);
      LevelInRange(c, bs, key, start, start);
      EarnedNonNegative(c, start - t1);
      EarnedAdds(c, start - t1, t2 - start);
      assert t2 - t1 == (start - t1) + (t2 - start);
    } else if calls != [] {
      if calls[0].now < t1 {
        NextSane(c, bs, calls[0], start);
        AdmittedWithinEarned(c, Next(c, bs, calls[0]), calls[1..], key, t1, t2, calls[0].now);
      } else {
        AdmittedFromInside(c, bs, calls, key, t1, t2, t1);
        LevelInRange(c, bs, key, t1, t1);
      }
    }
  }

  // ------------------------------------------------------ key independence

  function CallsOf(key: string, calls: seq<Call>): seq<Call> {
    if calls == [] then []
    else if calls[0].key == key then [calls[0]] + CallsOf(key, calls[1..])
    else CallsOf(key, calls[1..])
  }

  function DecisionsOf(key: string, calls: seq<Call>, ds: seq<Decision>): seq<Decision>
    requires |calls| == |ds|
  {
    if calls == [] then []
    else if calls[0].key == key then [ds[0]] + DecisionsOf(key, calls[1..], ds[1..])
    else DecisionsOf(key, calls[1..], ds[1..])
  }

  lemma {:induction false} OwnBucketOnly(c: Config, bs: Buckets, bs': Buckets, call: Call)
    requires ValidConfig(c)
    requires (call.key in bs <==> call.key in bs') && (call.key in bs ==> bs[call.key] == bs'[call.key])
    ensures Decide(c, bs, call) == Decide(c, bs', call)
    ensures Next(c, bs, call)[call.key] == Next(c, bs', call)[call.key]
  {
  }

  /** A key is answered as if the calls on all other keys had not happened. */
  lemma {:induction false} KeysIndependent(c: Config, bs: Buckets, bs': Buckets, calls: seq<Call>, key: string)
    requires ValidConfig(c)
    requires (key in bs <==> key in bs') && (key in bs ==> bs[key] == bs'[key])
    ensures DecisionsOf(key, calls, Run(c, bs, calls)) == Run(c, bs', CallsOf(key, calls))
    decreases |calls|
  {
    if calls != [] {
      var call := calls[0];
      assert Run(c, bs, calls)[1..] == Run(c, Next(c, bs, call), calls[1..]);
      if call.key == key {
        OwnBucketOnly(c, bs, bs', call);
        KeysIndependent(c, Next(c, bs, call), Next(c, bs', call), calls[1..], key);
        assert CallsOf(key, calls)[1..] == CallsOf(key, calls[1..]);
      } else {
        KeysIndependent(c, Next(c, bs, call), bs', calls[1..], key);
      }
    }
  }

  // --------------------------------------------------- denials are invisible

  /** Equal levels now and at every later instant. */
  ghost predicate SameLevels(c: Config, bs: Buckets, bs': Buckets, now: real)
    requires ValidConfig(c)
  {
    forall k: string :: Level(c, bs, k, now) == Level(c, bs', k, now)
  }

  lemma {:induction false} SameLevelsLater(c: Config, bs: Buckets, bs': Buckets, now: real, u: real)
    requires ValidConfig(c) && Sane(c, bs, now) && Sane(c, bs', now) && now <= u
    requires SameLevels(c, bs, bs', now)
    ensures SameLevels(c, bs, bs', u)
  {
    forall k: string
      ensures Level(c, bs, k, u) == Level(c, bs', k, u)
    {
      LevelLater(c, bs, k, now, u);
      LevelLater(c, bs', k, now, u);
      assert Level(c, bs, k, now) == Level(c, bs', k, now);
    }
  }

  lemma {:induction false} NextSameLevels(c: Config, bs: Buckets, bs': Buckets, call: Call)
    requires ValidConfig(c) && Sane(c, bs, call.now) && Sane(c, bs', call.now)
    requires SameLevels(c, bs, bs', call.now)
    ensures Decide(c, bs, call) == Decide(c, bs', call)
    ensures SameLevels(c, Next(c, bs, call), Next(c, bs', call), call.now)
  {
    assert Level(c, bs, call.key, call.now) == Level(c, bs', call.key, call.now);
    forall k: string
      ensures Level(c, Next(c, bs, call), k, call.now) == Level(c, Next(c, bs', call), k, call.now)
    {
      assert Level(c, bs, k, call.now) == Level(c, bs', k, call.now);
      LevelAfterCall(c, bs, call, k, call.now, call.now);
      LevelAfterCall(c, bs', call, k, call.now, call.now);
    }
  }

  /** Runs that start with equal levels are answered alike. */
  lemma {:induction false} SameLevelsSameRun(c: Config, bs: Buckets, bs': Buckets, calls: seq<Call>, start: real)
    requires ValidConfig(c) && Sane(c, bs, start) && Sane(c, bs', start) && ClockFrom(start, calls)
    requires SameLevels(c, bs, bs', start)
    ensures Run(c, bs, calls) == Run(c, bs', calls)
    decreases |calls|
  {
    if calls != [] {
      var call := calls[0];
      SameLevelsLater(c, bs, bs', start, call.now);
      NextSameLevels(c, bs, bs', call);
      NextSane(c, bs, call, start);
      NextSane(c, bs', call, start);
      SameLevelsSameRun(c, Next(c, bs, call), Next(c, bs', call), calls[1..], call.now);
    }
  }

  /**
   * Lazy refill is continuous refill: writing the bucket back on a denied call
   * changes no later decision, so the denied call may as well not have been made.
   */
  lemma {:induction false} DeniedCallInvisible(c: Config, bs: Buckets, denied: Call, later: seq<Call>, start: real)
    requires ValidConfig(c) && Sane(c, bs, start) && ClockFrom(start, [denied] + later)
    requires !Decide(c, bs, denied).allowed
    ensures Run(c, bs, [denied] + later) == [Decide(c, bs, denied)] + Run(c, bs, later)
  {
    assert ([denied] + later)[1..] == later;
    var next := Next(c, bs, denied);
    NextSane(c, bs, denied, start);
    forall k: string
      ensures Level(c, next, k, denied.now) == Level(c, bs, k, denied.now)
    {
      LevelAfterCall(c, bs, denied, k, start, denied.now);
    }
    SameLevelsSameRun(c, next, bs, later, denied.now);
  }

  lemma {:induction false} RunConcat(c: Config, bs: Buckets, a: seq<Call>, b: seq<Call>)
    requires ValidConfig(c)
    ensures Run(c, bs, a + b) == Run(c, bs, a) + Run(c, RunState(c, bs, a), b)
    decreases |a|
  {
    if a == [] {
      assert a + b == b;
    } else {
      assert (a + b)[1..] == a[1..] + b;
      RunConcat(c, Next(c, bs, a[0]), a[1..], b);
    }
  }

  lemma {:induction false} ClockSplit(start: real, a: seq<Call>, b: seq<Call>)
    requires ClockFrom(start, a + b)
    ensures ClockFrom(start, a) && ClockFrom(if a == [] then start else a[|a| - 1].now, b)
    decreases |a|
  {
    if a == [] {
      assert a + b == b;
    } else {
      assert (a + b)[1..] == a[1..] + b;
      ClockSplit(a[0].now, a[1..], b);
    }
  }

  /** Main result: deleting a denied call from anywhere in a run changes no other decision. */
  lemma {:induction false} DeletingDenialChangesNothing(c: Config, bs: Buckets, before: seq<Call>, denied: Call, later: seq<Call>, start: real)
    requires ValidConfig(c) && Sane(c, bs, start)
    requires ClockFrom(start, before + ([denied] + later))
    requires !Decide(c, RunState(c, bs, before), denied).allowed
    ensures var ds := Run(c, bs, before + ([denied] + later));
            ds[|before|] == Decision(false, 0)
            && Run(c, bs, before + later) == ds[..|before|] + ds[|before| + 1..]
  {
    var mid := RunState(c, bs, before);
    var first, rest := Run(c, bs, before), Run(c, mid, later);
    assert Run(c, mid, [denied] + later) == [Decision(false, 0)] + rest by {
      ClockSplit(start, before, [denied] + later);
      RunKeepsTokensInRange(c, bs, before, start);
      DeniedCallInvisible(c, mid, denied, later, if before == [] then start else before[|before| - 1].now);
    }
    assert Run(c, bs, before + ([denied] + later)) == first + ([Decision(false, 0)] + rest) by {
      RunConcat(c, bs, before, [denied] + later);
    }
    assert Run(c, bs, before + later) == first + rest by {
      RunConcat(c, bs, before, later);
    }
    DropMiddle(first, Decision(false, 0), rest);
  }

  lemma DropMiddle(a: seq<Decision>, d: Decision, b: seq<Decision>)
    ensures var s := a + ([d] + b);
            s[|a|] == d && s[..|a|] + s[|a| + 1..] == a + b
  {
    assert (a + ([d] + b))[|a| + 1..] == b;
  }

  // --------------------------------------------- remaining, and paced callers

  /** remaining says at least 1 exactly when a check would pass, which then reports one less. */
  lemma RemainingForetells(c: Config, bs: Buckets, call: Call, start: real)
    requires ValidConfig(c) && Sane(c, bs, start) && start <= call.now
    ensures Truncate(Level(c, bs, call.key, call.now)) >= 1 <==> Decide(c, bs, call).allowed
    ensures Decide(c, bs, call).allowed ==>
              Decide(c, bs, call).remaining == Truncate(Level(c, bs, call.key, call.now)) - 1
    ensures !Decide(c, bs, call).allowed ==> Truncate(Level(c, bs, call.key, call.now)) == 0
  {
    LevelInRange(c, bs, call.key, start, call.now);
  }

  /** Consecutive calls are at least period/rate apart. */
  ghost predicate Paced(c: Config, calls: seq<Call>) {
    |calls| <= 1 || (GapEnough(c, calls[0].now, calls[1].now) && Paced(c, calls[1..]))
  }

  ghost predicate GapEnough(c: Config, t: real, u: real) {
    c.rate as real * (u - t) >= c.period as real
  }

  lemma PaceEarnsToken(c: Config, d: real)
    requires ValidConfig(c) && c.rate as real * d >= c.period as real
    ensures Earned(c, d) >= 1.0
  {
    EarnedIsShare(c, d);
    ScaleBoth(1.0, Earned(c, d), c.period as real, c.rate as real * d);
  }

  lemma {:induction false} PacedCallPasses(c: Config, bs: Buckets, call: Call)
    requires ValidConfig(c) && c.rate >= 1
    requires call.key !in bs || (bs[call.key].tokens >= 0.0 && GapEnough(c, bs[call.key].last, call.now))
    ensures Decide(c, bs, call).allowed
    ensures Next(c, bs, call)[call.key].tokens >= 0.0 && Next(c, bs, call)[call.key].last == call.now
  {
    if call.key in bs {
      PaceEarnsToken(c, call.now - bs[call.key].last);
    }
  }

  lemma {:induction false} PacedFrom(c: Config, bs: Buckets, calls: seq<Call>, key: string)
    requires ValidConfig(c) && c.rate >= 1
    requires forall i :: 0 <= i < |calls| ==> calls[i].key == key
    requires Paced(c, calls)
    requires key in bs && calls != [] ==> bs[key].tokens >= 0.0 && GapEnough(c, bs[key].last, calls[0].now)
    ensures forall i :: 0 <= i < |calls| ==> Run(c, bs, calls)[i].allowed
    decreases |calls|
  {
    if calls != [] {
      PacedCallPasses(c, bs, calls[0]);
      PacedFrom(c, Next(c, bs, calls[0]), calls[1..], key);
    }
  }

  /**
   * A caller whose requests are at least period/rate apart is never denied,
   * whatever the callers of other keys do in between.
   */
  lemma {:induction false} PacedNeverDenied(c: Config, calls: seq<Call>, key: string)
    requires ValidConfig(c) && c.rate >= 1 && Paced(c, CallsOf(key, calls))
    ensures forall i :: 0 <= i < |DecisionsOf(key, calls, Run(c, map[], calls))| ==>
              DecisionsOf(key, calls, Run(c, map[], calls))[i].allowed
  {
    KeysIndependent(c, map[], map[], calls, key);
    CallsOfKey(key, calls);
    PacedFrom(c, map[], CallsOf(key, calls), key);
  }

  lemma {:induction false} CallsOfKey(key: string, calls: seq<Call>)
    ensures forall i :: 0 <= i < |CallsOf(key, calls)| ==> CallsOf(key, calls)[i].key == key
  {
    if calls != [] {
      CallsOfKey(key, calls[1..]);
    }
  }
}
