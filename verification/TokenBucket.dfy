/**
 Rate limiting by token buckets, one for each key (packages/core/src/quota/token-bucket.ts).
 Times are whole milliseconds; tokens are real numbers, so nothing is rounded but what the
 limiter itself rounds.
 */
module TokenBuckets {
  import opened WorkflowTypes

  datatype Config = Config(ratePerSecond: real, burst: int)
  datatype Bucket = Bucket(tokens: real, updatedAt: int)
  datatype Decision = Decision(allowed: bool, retryAfterMs: int, remaining: int)
  datatype Op = TakeOf(key: string, config: Config, now: int) | ResetOf(key: string)

  predicate IsConfig(config: Config) {
    config.ratePerSecond > 0.0 && config.burst > 0
  }

  function Max(a: int, b: int): int {
    if a < b then b else a
  }

  function Ceiling(x: real): int {
    -((-x).Floor)
  }

  /** What `elapsed` milliseconds add at a rate. */
  function Gain(elapsed: int, rate: real): real {
    elapsed as real * rate / 1000.0
  }

  /** A bucket brought up to date: never above its burst, and not refilled by a clock that steps back. */
  function Refilled(bucket: Option<Bucket>, config: Config, now: int): Bucket {
    var b := if bucket.Some? then bucket.value else Bucket(config.burst as real, now);
    var gained := b.tokens + Gain(Max(0, now - b.updatedAt), config.ratePerSecond);
    Bucket(if gained < config.burst as real then gained else config.burst as real, Max(b.updatedAt, now))
  }

  function Spent(b: Bucket): Bucket {
    if b.tokens >= 1.0 then b.(tokens := b.tokens - 1.0) else b
  }

  function Lookup(buckets: map<string, Bucket>, key: string): Option<Bucket> {
    if key in buckets then Some(buckets[key]) else None
  }

  function After(buckets: map<string, Bucket>, op: Op): map<string, Bucket> {
    match op
    case TakeOf(key, config, now) =>
      if IsConfig(config) then buckets[key := Spent(Refilled(Lookup(buckets, key), config, now))] else buckets
    case ResetOf(key) => buckets - {key}
  }

  function Run(buckets: map<string, Bucket>, ops: seq<Op>): map<string, Bucket>
    decreases ops
  {
    if ops == [] then buckets else Run(After(buckets, ops[0]), ops[1..])
  }

  /** Whether a call is let through. */
  predicate IsLetThrough(buckets: map<string, Bucket>, op: Op) {
    op.TakeOf? && IsConfig(op.config) && Refilled(Lookup(buckets, op.key), op.config, op.now).tokens >= 1.0
  }

  /** How many calls for `key` are let through. */
  function LetThrough(key: string, buckets: map<string, Bucket>, ops: seq<Op>): nat
    decreases ops
  {
    if ops == [] then 0
    else (if ops[0].key == key && IsLetThrough(buckets, ops[0]) then 1 else 0) + LetThrough(key, After(buckets, ops[0]), ops[1..])
  }

  /** The latest time the calls for `key` have shown, starting from `peak`. */
  function Peak(key: string, peak: int, ops: seq<Op>): int
    decreases ops
  {
    if ops == [] then peak
    else Peak(key, if ops[0].key == key && ops[0].TakeOf? then Max(peak, ops[0].now) else peak, ops[1..])
  }

  /** A stretch in which `key` is only taken from, always under one configuration. */
  predicate IsStretch(key: string, config: Config, ops: seq<Op>) {
    forall i :: 0 <= i < |ops| && ops[i].key == key ==> ops[i].TakeOf? && ops[i].config == config
  }

  predicate Valid(buckets: map<string, Bucket>) {
    forall key :: key in buckets ==> buckets[key].tokens >= 0.0
  }

  // ---- the rate bound --------------------------------------------------------------------

  lemma GainAdds(a: int, b: int, rate: real)
    ensures Gain(a, rate) + Gain(b, rate) == Gain(a + b, rate)
  {
  }

  lemma GainGrows(a: int, rate: real)
    requires a >= 0 && rate > 0.0
    ensures Gain(a, rate) >= 0.0
  {
  }

  lemma StepKeepsValid(buckets: map<string, Bucket>, op: Op)
    requires Valid(buckets)
    ensures Valid(After(buckets, op))
  {
    if op.TakeOf? && IsConfig(op.config) {
      var b := Lookup(buckets, op.key);
      if b.Some? {
        GainGrows(Max(0, op.now - b.value.updatedAt), op.config.ratePerSecond);
      }
      hide Gain;
      assert Refilled(b, op.config, op.now).tokens >= 0.0;
    }
  }

  /** From a bucket that exists: what is let through and what is left come from what was there and the time gone by. */
  lemma {:induction false} TokensAreConserved(key: string, config: Config, buckets: map<string, Bucket>, ops: seq<Op>)
    requires Valid(buckets) && IsConfig(config) && IsStretch(key, config, ops) && key in buckets
    ensures key in Run(buckets, ops) && Run(buckets, ops)[key].tokens >= 0.0
    ensures Run(buckets, ops)[key].updatedAt == Peak(key, buckets[key].updatedAt, ops)
    ensures LetThrough(key, buckets, ops) as real + Run(buckets, ops)[key].tokens
         <= buckets[key].tokens + Gain(Run(buckets, ops)[key].updatedAt - buckets[key].updatedAt, config.ratePerSecond)
    decreases ops
  {
    if ops != [] {
      var after := After(buckets, ops[0]);
      StepKeepsValid(buckets, ops[0]);
      TokensAreConserved(key, config, after, ops[1..]);
      var last := Run(after, ops[1..])[key].updatedAt;
      GainAdds(last - after[key].updatedAt, after[key].updatedAt - buckets[key].updatedAt, config.ratePerSecond);
      hide Gain, Run, Valid, IsStretch;
    }
  }

  /**
   Over any stretch of calls for a key, whatever its clock does and whoever else calls, at
   most `burst` are let through, and what the rate adds while the latest time seen grows.
   */
  lemma {:induction false} RateBound(key: string, config: Config, buckets: map<string, Bucket>, ops: seq<Op>)
    requires Valid(buckets) && IsConfig(config) && IsStretch(key, config, ops)
    requires ops != [] && ops[0].key == key
    ensures var first := if key in buckets then Max(buckets[key].updatedAt, ops[0].now) else ops[0].now;
            LetThrough(key, buckets, ops) as real
              <= config.burst as real + Gain(Peak(key, first, ops) - first, config.ratePerSecond)
  {
    var after := After(buckets, ops[0]);
    StepKeepsValid(buckets, ops[0]);
    TokensAreConserved(key, config, after, ops[1..]);
    hide Gain, Run, Valid, IsStretch;
  }

  // ---- waiting -----------------------------------------------------------------------------

  lemma CeilingIsLeast(x: real, n: int)
    ensures n >= Ceiling(x) <==> n as real >= x
  {
  }

  lemma ProductsCompare(a: real, b: real, rate: real)
    requires rate > 0.0
    ensures a * rate >= b * rate <==> a >= b
  {
    assert (a - b) * rate == a * rate - b * rate;
    if a < b {
      assert (b - a) * rate > 0.0;
    }
  }

  lemma EnoughIsGained(missing: real, elapsed: int, rate: real)
    requires rate > 0.0
    ensures Gain(elapsed, rate) >= missing <==> elapsed as real >= missing / rate * 1000.0
  {
    var needed := missing / rate * 1000.0;
    assert needed * rate / 1000.0 == missing;
    ProductsCompare(elapsed as real, needed, rate);
  }

  function RetryAfter(b: Bucket, config: Config): int
    requires IsConfig(config)
  {
    Ceiling((1.0 - b.tokens) / config.ratePerSecond * 1000.0)
  }

  /**
   A caller that was refused and asks alone is let through from the promised wait on, counted
   from the latest time its bucket has seen, and not before. That time is the time of the
   refusal when the clock has not stepped back.
   */
  lemma {:induction false} WaitingIsRewarded(buckets: map<string, Bucket>, key: string, config: Config, now: int, later: int)
    requires IsConfig(config) && !IsLetThrough(buckets, TakeOf(key, config, now))
    ensures var refused := After(buckets, TakeOf(key, config, now));
            var earliest := refused[key].updatedAt + RetryAfter(refused[key], config);
            (IsLetThrough(refused, TakeOf(key, config, later)) <==> later >= earliest) &&
            (key in buckets && buckets[key].updatedAt <= now ==> refused[key].updatedAt == now)
  {
    var b := After(buckets, TakeOf(key, config, now))[key];
    var missing := 1.0 - b.tokens;
    var elapsed := Max(0, later - b.updatedAt);
    EnoughIsGained(missing, elapsed, config.ratePerSecond);
    CeilingIsLeast(missing / config.ratePerSecond * 1000.0, elapsed);
    assert RetryAfter(b, config) > 0 by {
      EnoughIsGained(missing, 0, config.ratePerSecond);
      CeilingIsLeast(missing / config.ratePerSecond * 1000.0, 0);
    }
    hide Gain, Ceiling;
  }

  /** A key that has no bucket is let through at once. */
  lemma StartsFull(buckets: map<string, Bucket>, op: Op)
    requires op.TakeOf? && IsConfig(op.config) && op.key !in buckets
    ensures IsLetThrough(buckets, op)
    ensures After(buckets, op)[op.key] == Bucket(op.config.burst as real - 1.0, op.now)
  {
  }

  /** Calls for one key, all at one time. */
  function Together(key: string, config: Config, now: int, n: nat): (ops: seq<Op>)
    ensures |ops| == n
  {
    seq(n, _ => TakeOf(key, config, now))
  }

  /** Of calls at one time a bucket lets through as many as it has tokens. */
  lemma {:induction false} TokensGoAtOnce(buckets: map<string, Bucket>, key: string, config: Config, now: int, n: nat, tokens: nat)
    requires IsConfig(config) && key in buckets && buckets[key] == Bucket(tokens as real, now) && tokens <= config.burst
    ensures LetThrough(key, buckets, Together(key, config, now, n)) == if n < tokens then n else tokens
    decreases n
  {
    if n > 0 {
      var ops := Together(key, config, now, n);
      assert ops[1..] == Together(key, config, now, n - 1);
      TokensGoAtOnce(After(buckets, ops[0]), key, config, now, n - 1, if tokens > 0 then tokens - 1 else 0);
    }
  }

  /** A key without a bucket, new or forgotten, has a burst of calls let through at once, and no more. */
  lemma {:induction false} BurstGoesAtOnce(buckets: map<string, Bucket>, key: string, config: Config, now: int, n: nat)
    requires IsConfig(config) && key !in buckets
    ensures LetThrough(key, buckets, Together(key, config, now, n)) == if n < config.burst then n else config.burst
  {
    if n > 0 {
      var ops := Together(key, config, now, n);
      StartsFull(buckets, ops[0]);
      assert ops[1..] == Together(key, config, now, n - 1);
      TokensGoAtOnce(After(buckets, ops[0]), key, config, now, n - 1, config.burst - 1);
    }
  }

  // ---- keys ----------------------------------------------------------------------------------

  function OpsOf(key: string, ops: seq<Op>): seq<Op>
    decreases ops
  {
    if ops == [] then [] else (if ops[0].key == key then [ops[0]] else []) + OpsOf(key, ops[1..])
  }

  /** A key fares exactly as if no other key were ever used. */
  lemma {:induction false} KeysAreIndependent(key: string, buckets: map<string, Bucket>, alone: map<string, Bucket>, ops: seq<Op>)
    requires Lookup(buckets, key) == Lookup(alone, key)
    ensures LetThrough(key, buckets, ops) == LetThrough(key, alone, OpsOf(key, ops))
    ensures Lookup(Run(buckets, ops), key) == Lookup(Run(alone, OpsOf(key, ops)), key)
    decreases ops
  {
    if ops != [] {
      hide Refilled, Spent;
      var own := OpsOf(key, ops);
      if ops[0].key == key {
        assert own[0] == ops[0] && own[1..] == OpsOf(key, ops[1..]);
        KeysAreIndependent(key, After(buckets, ops[0]), After(alone, ops[0]), ops[1..]);
      } else {
        assert own == OpsOf(key, ops[1..]);
        KeysAreIndependent(key, After(buckets, ops[0]), alone, ops[1..]);
      }
    }
  }

  // ---- the limiter -----------------------------------------------------------------------------

  class RateLimiter {
    var buckets: map<string, Bucket>

    constructor ()
      ensures buckets == map[]
    {
      buckets := map[];
    }

    /** A refused configuration changes nothing; every other call takes one token if there is one. */
    method Take(key: string, config: Config, now: int) returns (decision: Option<Decision>)
      requires Valid(buckets)
      modifies this
      ensures Valid(buckets) && buckets == After(old(buckets), TakeOf(key, config, now))
      ensures decision.Some? <==> IsConfig(config)
      ensures decision.Some? ==> decision.value.allowed == IsLetThrough(old(buckets), TakeOf(key, config, now))
      ensures decision.Some? && decision.value.allowed ==>
        decision.value.retryAfterMs == 0 && decision.value.remaining == buckets[key].tokens.Floor
      ensures decision.Some? && !decision.value.allowed ==>
        decision.value.retryAfterMs == RetryAfter(buckets[key], config) && decision.value.remaining == 0
    {
      StepKeepsValid(buckets, TakeOf(key, config, now));
      if !IsConfig(config) {
        return None;
      }
      hide Gain, Ceiling;
      var bucket := if key in buckets then buckets[key] else Bucket(config.burst as real, now);
      var elapsedMs := Max(0, now - bucket.updatedAt);
      var gained := bucket.tokens + Gain(elapsedMs, config.ratePerSecond);
      bucket := Bucket(if gained < config.burst as real then gained else config.burst as real, Max(bucket.updatedAt, now));
      if bucket.tokens >= 1.0 {
        bucket := bucket.(tokens := bucket.tokens - 1.0);
        buckets := buckets[key := bucket];
        return Some(Decision(true, 0, bucket.tokens.Floor));
      }
      buckets := buckets[key := bucket];
      var missing := 1.0 - bucket.tokens;
      return Some(Decision(false, Ceiling(missing / config.ratePerSecond * 1000.0), 0));
    }

    /** Forgets a key, whose next call finds a full bucket. */
    method Reset(key: string)
      requires Valid(buckets)
      modifies this
      ensures Valid(buckets) && buckets == After(old(buckets), ResetOf(key)) && key !in buckets
    {
      buckets := buckets - {key};
    }
  }
}
