/** retry.Do and its backoff schedule. */
module Retry {
  import opened Gathering

  /** Durations in nanoseconds. */
  datatype Config = Config(maxRetries: int, backoff: int, maxBackoff: int)

  /** What the outside does around attempt `i`; `jitter` is the random factor drawn for its backoff. */
  datatype Attempt = Attempt(cancelledBefore: bool, ok: bool, jitter: real, cancelledWaiting: bool)

  datatype Outcome = Succeeded | Exhausted | Cancelled

  /** `base` doubled `n` times. */
  function Doubled(base: int, n: nat): int {
    if n == 0 then base else 2 * Doubled(base, n - 1)
  }

  /** Conversion of a floating-point value to an integer drops the fraction. */
  function Truncate(x: real): int {
    if x >= 0.0 then x.Floor else -((-x).Floor)
  }

  function JitterShare(jitter: real, base: real): real {
    jitter * base * 0.5
  }

  /** The value converted to a duration: exponential growth plus at most half the base as jitter. */
  function RawBackoff(cfg: Config, attempt: nat, jitter: real): real {
    Doubled(cfg.backoff, attempt) as real + JitterShare(jitter, cfg.backoff as real)
  }

  const DURATION_LIMIT: real := 9223372036854775808.0

  /** Outside the range of a duration the conversion's result depends on the platform: `spill`. */
  function CalculateBackoff(cfg: Config, attempt: int, jitter: real, spill: int): int {
    var raw := RawBackoff(cfg, if attempt < 0 then 0 else attempt, jitter);
    var duration := if -DURATION_LIMIT <= raw < DURATION_LIMIT then Truncate(raw) else spill;
    var capped := if duration > cfg.maxBackoff then cfg.maxBackoff else duration;
    if capped < 0 then cfg.backoff else capped
  }

  predicate Jitter(j: real) {
    0.0 <= j < 1.0
  }

  lemma {:induction false} DoublingGrows(base: int, a: nat, b: nat)
    requires a < b && 0 <= base
    ensures base <= Doubled(base, a) && 2 * Doubled(base, a) <= Doubled(base, b)
  {
    if a > 0 {
      DoublingGrows(base, a - 1, a);
    }
    if a < b - 1 {
      DoublingGrows(base, a, b - 1);
    }
  }

  lemma JitterIsSmall(jitter: real, base: real)
    requires Jitter(jitter) && 0.0 <= base
    ensures 0.0 <= JitterShare(jitter, base) <= base
  {
    assert 0.0 <= jitter * base <= base;
  }

  /** Even with the largest draw now and the smallest later, a later raw backoff is at least as long. */
  lemma RawBackoffGrows(cfg: Config, a: nat, b: nat, j: real, k: real)
    requires a < b && Jitter(j) && Jitter(k) && 0 <= cfg.backoff
    ensures 0.0 <= RawBackoff(cfg, a, j) <= RawBackoff(cfg, b, k)
  {
    hide JitterShare;
    DoublingGrows(cfg.backoff, a, b);
    JitterIsSmall(j, cfg.backoff as real);
    JitterIsSmall(k, cfg.backoff as real);
  }

  predicate InRange(cfg: Config, attempt: nat) {
    0 <= cfg.backoff && Doubled(cfg.backoff, attempt) as real + cfg.backoff as real < DURATION_LIMIT
  }

  lemma BackoffGrows(cfg: Config, a: nat, b: nat, j: real, k: real, spill: int)
    requires a < b && Jitter(j) && Jitter(k) && InRange(cfg, b) && 0 <= cfg.maxBackoff
    ensures 0 <= CalculateBackoff(cfg, a, j, spill) <= CalculateBackoff(cfg, b, k, spill) <= cfg.maxBackoff
  {
    hide JitterShare, Doubled;
    RawBackoffGrows(cfg, a, b, j, k);
    JitterIsSmall(k, cfg.backoff as real);
  }

  lemma BackoffIsCapped(cfg: Config, a: nat, j: real, spill: int)
    requires Jitter(j) && InRange(cfg, a) && 0 <= cfg.maxBackoff
    ensures 0 <= CalculateBackoff(cfg, a, j, spill) <= cfg.maxBackoff
  {
    hide JitterShare, Doubled;
    JitterIsSmall(j, cfg.backoff as real);
    assert 0 <= Doubled(cfg.backoff, a) by { DoublingGrows(cfg.backoff, a, a + 1); }
  }

  lemma {:induction false} DoublingIsMonotone(a: int, b: int, n: nat)
    requires a <= b
    ensures Doubled(a, n) <= Doubled(b, n)
  {
    if n > 0 {
      DoublingIsMonotone(a, b, n - 1);
    }
  }

  lemma {:induction false} DoublingsMultiply(base: int, m: nat, n: nat)
    ensures Doubled(base, m + n) == Doubled(base, m) * Doubled(1, n)
  {
    if n > 0 {
      DoublingsMultiply(base, m, n - 1);
      assert Doubled(base, m) * (2 * Doubled(1, n - 1)) == 2 * (Doubled(base, m) * Doubled(1, n - 1));
    }
  }

  /** After 63 doublings even one nanosecond is out of a duration's range. */
  lemma SixtyThreeDoublings()
    ensures Doubled(1, 63) == 0x8000_0000_0000_0000
  {
    assert Doubled(1, 3) == 2 * Doubled(1, 2) == 4 * Doubled(1, 1) == 8 * Doubled(1, 0);
    DoublingsMultiply(1, 3, 3);
    DoublingsMultiply(1, 6, 3);
    DoublingsMultiply(1, 9, 9);
    DoublingsMultiply(1, 18, 3);
    DoublingsMultiply(1, 21, 21);
    DoublingsMultiply(1, 42, 21);
  }

  /** The wait never exceeds the cap, whatever the attempt, the draw and the platform's conversion. */
  ghost predicate AlwaysCapped(cfg: Config) {
    forall attempt: int, jitter: real, spill: int :: Jitter(jitter) ==>
      CalculateBackoff(cfg, attempt, jitter, spill) <= cfg.maxBackoff
  }

  /** The fallback after an overflow is the base, so the cap holds exactly if the base is within it. */
  lemma CapHoldsIfBaseIsWithin(cfg: Config)
    requires 0 <= cfg.backoff && 0 <= cfg.maxBackoff
    ensures AlwaysCapped(cfg) <==> cfg.backoff <= cfg.maxBackoff
  {
    if cfg.backoff > cfg.maxBackoff {
      SixtyThreeDoublings();
      DoublingIsMonotone(1, cfg.backoff, 63);
      assert Jitter(0.0) && JitterShare(0.0, cfg.backoff as real) == 0.0;
      assert CalculateBackoff(cfg, 63, 0.0, -1) == cfg.backoff;
    }
  }

  function PowerOfTwo(n: nat): nat { if n == 0 then 1 else 2 * PowerOfTwo(n - 1) }

  lemma {:induction false} DoubledIsPower(base: int, n: nat)
    ensures Doubled(base, n) == base * PowerOfTwo(n)
  {
    if n > 0 {
      DoubledIsPower(base, n - 1);
      assert 2 * (base * PowerOfTwo(n - 1)) == base * (2 * PowerOfTwo(n - 1));
    }
  }

  /**
    The wait after attempt `n` lies between the base times two to the `n` and that plus
    half the base, both cut off at the cap; the draw spreads it over the whole of that range.
  */
  lemma WaitIsExponential(cfg: Config, n: nat, jitter: real, spill: int)
    requires Jitter(jitter) && 0 <= cfg.backoff && 0 <= cfg.maxBackoff
    requires cfg.backoff * PowerOfTwo(n) + cfg.backoff <= 9_223_372_036_854_775_807
    ensures var wait, least := CalculateBackoff(cfg, n, jitter, spill), cfg.backoff * PowerOfTwo(n);
      && (least >= cfg.maxBackoff ==> wait == cfg.maxBackoff)
      && (least <= cfg.maxBackoff ==> least <= wait <= cfg.maxBackoff && 2 * (wait - least) <= cfg.backoff)
      && (least + cfg.backoff <= cfg.maxBackoff ==>
            wait == least + (jitter * cfg.backoff as real / 2.0).Floor)
    ensures forall m: int :: m <= 0 ==>
      CalculateBackoff(cfg, m, jitter, spill) == CalculateBackoff(cfg, 0, jitter, spill)
  {
    DoubledIsPower(cfg.backoff, n);
    ShareIsHalf(jitter, cfg.backoff as real);
    TruncatedSum(Doubled(cfg.backoff, n), JitterShare(jitter, cfg.backoff as real));
    hide JitterShare, PowerOfTwo, Truncate;
    assert 0 <= Doubled(cfg.backoff, n) by { DoublingGrows(cfg.backoff, n, n + 1); }
    hide Doubled;
  }

  lemma ShareIsHalf(jitter: real, base: real)
    requires Jitter(jitter) && 0.0 <= base
    ensures JitterShare(jitter, base) == jitter * base / 2.0
    ensures 0.0 <= JitterShare(jitter, base) <= base / 2.0
  {
    assert 0.0 <= jitter * base <= base;
  }

  lemma TruncatedSum(d: int, share: real)
    ensures 0 <= d && 0.0 <= share ==> Truncate(d as real + share) == d + share.Floor
  {
  }

  /** The waits between attempts for the given draws. */
  function Schedule(cfg: Config, draws: seq<real>, spill: int): seq<int> {
    seq(|draws|, i requires 0 <= i < |draws| => CalculateBackoff(cfg, i, draws[i], spill))
  }

  /** Waits never shrink, never exceed the cap, and their sum is bounded. */
  ghost predicate Orderly(waits: seq<int>, cfg: Config) {
    && (forall i, j :: 0 <= i < j < |waits| ==> waits[i] <= waits[j])
    && (forall i :: 0 <= i < |waits| ==> 0 <= waits[i] <= cfg.maxBackoff)
    && Sum(Identity(), waits) <= |waits| * cfg.maxBackoff
  }

  lemma ScheduleIsOrderly(cfg: Config, draws: seq<real>, spill: int)
    requires 0 <= cfg.maxBackoff && forall i :: 0 <= i < |draws| ==> Jitter(draws[i])
    requires draws != [] ==> InRange(cfg, |draws| - 1)
    ensures Orderly(Schedule(cfg, draws, spill), cfg)
  {
    var waits := Schedule(cfg, draws, spill);
    forall i | 0 <= i < |waits| ensures InRange(cfg, i) && 0 <= waits[i] <= cfg.maxBackoff {
      if i < |draws| - 1 {
        InRangeBelow(cfg, i, |draws| - 1);
      }
      BackoffIsCapped(cfg, i, draws[i], spill);
    }
    forall i, j | 0 <= i < j < |waits| ensures waits[i] <= waits[j] {
      BackoffGrows(cfg, i, j, draws[i], draws[j], spill);
    }
    SumCapped(Identity(), waits, cfg.maxBackoff);
  }

  lemma InRangeBelow(cfg: Config, a: nat, b: nat)
    requires a < b && InRange(cfg, b)
    ensures InRange(cfg, a)
  {
    DoublingGrows(cfg.backoff, a, b);
  }

  lemma WaitsAreOrderly(cfg: Config, env: nat -> Attempt, waits: seq<int>, spill: int)
    requires forall i :: 0 <= i < |waits| ==> waits[i] == CalculateBackoff(cfg, i, env(i).jitter, spill)
    requires |waits| <= (if cfg.maxRetries < 0 then 0 else cfg.maxRetries)
    ensures
      && 0 <= cfg.maxBackoff && (0 < cfg.maxRetries ==> InRange(cfg, cfg.maxRetries - 1))
      && (forall i: nat :: Jitter(env(i).jitter))
      ==> Orderly(waits, cfg)
  {
    if && 0 <= cfg.maxBackoff && (0 < cfg.maxRetries ==> InRange(cfg, cfg.maxRetries - 1))
       && (forall i: nat :: Jitter(env(i).jitter)) {
      var draws := seq(|waits|, i requires 0 <= i => env(i).jitter);
      if waits != [] && |waits| < cfg.maxRetries {
        InRangeBelow(cfg, |waits| - 1, cfg.maxRetries - 1);
      }
      ScheduleIsOrderly(cfg, draws, spill);
      assert waits == Schedule(cfg, draws, spill);
    }
  }

  /** One call, and `maxRetries` more. */
  function Allowed(maxRetries: int): nat {
    if maxRetries < 0 then 0 else maxRetries + 1
  }

  /**
    What a retry loop does, seen from outside: `calls` are the answers it got; `before`
    and `waiting` tell when the context is done.  It stops at the first success and at
    nothing but the last retry or the end of the context.
  */
  ghost predicate Obeys(
      maxRetries: int, before: nat -> bool, waiting: nat -> bool, calls: seq<bool>, succeeded: bool) {
    && |calls| <= Allowed(maxRetries)
    && (forall i :: 0 <= i < |calls| - 1 ==> !calls[i])
    && (succeeded <==> calls != [] && calls[|calls| - 1])
    && (!succeeded ==>
          |calls| == Allowed(maxRetries) || before(|calls|) || (calls != [] && waiting(|calls| - 1)))
    && (forall i :: 0 <= i < |calls| ==> !before(i) && (i < |calls| - 1 ==> !waiting(i)))
  }

  /** The loop is still trying: every call so far has failed. */
  ghost predicate Pending(maxRetries: int, before: nat -> bool, waiting: nat -> bool, calls: seq<bool>) {
    && |calls| <= Allowed(maxRetries)
    && (forall i :: 0 <= i < |calls| ==> !calls[i] && !before(i) && (i < maxRetries ==> !waiting(i)))
  }

  /** Out of retries, or the context is done before the next call. */
  lemma PendingEnds(maxRetries: int, before: nat -> bool, waiting: nat -> bool, calls: seq<bool>)
    requires Pending(maxRetries, before, waiting, calls)
    requires |calls| == Allowed(maxRetries) || before(|calls|)
    ensures Obeys(maxRetries, before, waiting, calls, false)
  {
  }

  /** One more call. */
  lemma PendingCalls(maxRetries: int, before: nat -> bool, waiting: nat -> bool, calls: seq<bool>, ok: bool)
    requires Pending(maxRetries, before, waiting, calls) && |calls| <= maxRetries && !before(|calls|)
    ensures ok ==> Obeys(maxRetries, before, waiting, calls + [ok], true)
    ensures !ok && waiting(|calls|) ==> Obeys(maxRetries, before, waiting, calls + [ok], false)
    ensures !ok && (|calls| < maxRetries ==> !waiting(|calls|)) ==> Pending(maxRetries, before, waiting, calls + [ok])
  {
  }

  /**
    Calls the function until it succeeds, the retries are used up or the context is
    done; `calls` are the answers it got and `waits` the backoffs it began.
  */
  method Do(cfg: Config, env: nat -> Attempt, spill: int)
    returns (outcome: Outcome, calls: seq<bool>, waits: seq<int>)
    ensures Obeys(cfg.maxRetries, (i: nat) => env(i).cancelledBefore, (i: nat) => env(i).cancelledWaiting,
                  calls, outcome.Succeeded?)
    ensures forall i :: 0 <= i < |calls| ==> calls[i] == env(i).ok
    ensures forall i :: 0 <= i < |calls| - 1 ==> !calls[i]
    ensures outcome.Succeeded? <==> calls != [] && calls[|calls| - 1]
    ensures |calls| <= (if cfg.maxRetries < 0 then 0 else cfg.maxRetries + 1)
    ensures forall i :: 0 <= i < |calls| ==> !env(i).cancelledBefore && (i < |calls| - 1 ==> !env(i).cancelledWaiting)
    ensures outcome.Exhausted? ==>
      |calls| == (if cfg.maxRetries < 0 then 0 else cfg.maxRetries + 1) && (calls != [] ==> !calls[|calls| - 1])
    ensures outcome.Cancelled? ==>
      || (|calls| <= cfg.maxRetries && |waits| == |calls| && env(|calls|).cancelledBefore)
      || (0 < |calls| <= cfg.maxRetries && |waits| == |calls| && env(|calls| - 1).cancelledWaiting)
    ensures !outcome.Cancelled? && calls != [] ==> |waits| == |calls| - 1
    ensures forall i :: 0 <= i < |waits| ==> waits[i] == CalculateBackoff(cfg, i, env(i).jitter, spill)
    ensures |waits| <= (if cfg.maxRetries < 0 then 0 else cfg.maxRetries)
    ensures
      && 0 <= cfg.maxBackoff && (0 < cfg.maxRetries ==> InRange(cfg, cfg.maxRetries - 1))
      && (forall i: nat :: Jitter(env(i).jitter))
      ==> Orderly(waits, cfg)
  {
    calls, waits := [], [];
    var attempt := 0;
    while attempt <= cfg.maxRetries
      invariant 0 <= attempt && attempt == |calls| == |waits|
      invariant attempt <= (if cfg.maxRetries < 0 then 0 else cfg.maxRetries)
      invariant forall i :: 0 <= i < |calls| ==> calls[i] == env(i).ok && !calls[i]
      invariant forall i :: 0 <= i < |waits| ==> waits[i] == CalculateBackoff(cfg, i, env(i).jitter, spill)
      invariant forall i :: 0 <= i < |calls| ==> !env(i).cancelledBefore && !env(i).cancelledWaiting
      decreases cfg.maxRetries - attempt
    {
      WaitsAreOrderly(cfg, env, waits, spill);
      if env(attempt).cancelledBefore {
        return Cancelled, calls, waits;
      }
      calls := calls + [env(attempt).ok];
      if env(attempt).ok {
        return Succeeded, calls, waits;
      }
      if attempt == cfg.maxRetries {
        break;
      }
      waits := waits + [CalculateBackoff(cfg, attempt, env(attempt).jitter, spill)];
      WaitsAreOrderly(cfg, env, waits, spill);
      if env(attempt).cancelledWaiting {
        return Cancelled, calls, waits;
      }
      attempt := attempt + 1;
    }
    WaitsAreOrderly(cfg, env, waits, spill);
    return Exhausted, calls, waits;
  }
}
