/**
 Retry with exponential backoff and full jitter. Durations are int64 nanoseconds: the shift and the
 tenfold default wrap around as they do in the program.
 */
module Retry {

  // ----- int64 --------------------------------------------------------------------------------

  const TWO_63 := 0x8000_0000_0000_0000
  const TWO_64 := 0x1_0000_0000_0000_0000

  predicate IsInt64(x: int) { -TWO_63 <= x < TWO_63 }

  /** The int64 a mathematical integer wraps to. */
  function Wrap(x: int): (r: int)
    ensures IsInt64(r)
    ensures IsInt64(x) ==> r == x
  {
    var m := x % TWO_64;
    if m < TWO_63 then m else m - TWO_64
  }

  function Pow2(k: nat): (r: nat)
    ensures r > 0
  {
    if k == 0 then 1 else 2 * Pow2(k - 1)
  }

  /** x << k on int64: all bits are gone at 64. */
  function ShiftLeft(x: int, k: nat): int {
    if k >= 64 then 0 else Wrap(x * Pow2(k))
  }

  lemma {:induction false} Pow2Adds(j: nat, k: nat)
    ensures Pow2(j + k) == Pow2(j) * Pow2(k)
  {
    if j > 0 { Pow2Adds(j - 1, k); }
  }

  lemma Pow2Is64()
    ensures Pow2(64) == TWO_64
  {
    assert Pow2(8) == 256;
    Pow2Adds(8, 8);
    assert Pow2(16) == 0x1_0000;
    Pow2Adds(16, 16);
    Pow2Adds(32, 32);
  }

  // ----- configuration ---------------------------------------------------------------------

  datatype Config = Config(maxAttempts: int, baseDelay: int, maxDelay: int)

  const MILLISECOND := 1_000_000

  /** The defaults Do fills in before its loop. */
  function Normalise(cfg: Config): Config {
    var attempts := if cfg.maxAttempts < 1 then 1 else cfg.maxAttempts;
    var base := if cfg.baseDelay <= 0 then 100 * MILLISECOND else cfg.baseDelay;
    var max := if cfg.maxDelay <= 0 || cfg.maxDelay < base then Wrap(10 * base) else cfg.maxDelay;
    Config(attempts, base, max)
  }

  /** At least one attempt; 100 ms unless a base is given; ten times the base unless a sensible maximum is. */
  lemma DefaultsAre(cfg: Config)
    ensures var c := Normalise(cfg);
            && (cfg.maxAttempts >= 1 ==> c.maxAttempts == cfg.maxAttempts)
            && (cfg.maxAttempts < 1 ==> c.maxAttempts == 1)
            && c.baseDelay > 0 && (cfg.baseDelay > 0 ==> c.baseDelay == cfg.baseDelay)
            && (cfg.baseDelay <= 0 ==> c.baseDelay == 100_000_000)
            && (0 < c.baseDelay <= cfg.maxDelay ==> c.maxDelay == cfg.maxDelay)
            && (cfg.maxDelay < c.baseDelay && IsInt64(10 * c.baseDelay) ==> c.maxDelay == 10 * c.baseDelay)
  {
  }

  /** The bound of the random draw before the zero guard. */
  function Ceiling(cfg: Config, attempt: nat): int
    requires attempt >= 1
  {
    var d := ShiftLeft(cfg.baseDelay, attempt - 1);
    if d <= 0 || d > cfg.maxDelay then cfg.maxDelay else d
  }

  /** The delay after this attempt: drawn below the ceiling of the attempt, never above MaxDelay. */
  predicate Drawn(cfg: Config, attempt: nat, random: nat, delay: int)
    requires attempt >= 1
  {
    && 0 <= delay && (delay == 0 || delay <= cfg.maxDelay)
    && (Ceiling(cfg, attempt) > 0 ==> delay == random % Ceiling(cfg, attempt))
  }

  /** delayFor, with the random source as a parameter: the draw is below a positive bound. */
  method DelayFor(cfg: Config, attempt: nat, random: nat) returns (delay: int)
    requires attempt >= 1
    ensures Drawn(cfg, attempt, random, delay)
    ensures delay > 0 ==> delay < Ceiling(cfg, attempt)
  {
    var d := ShiftLeft(cfg.baseDelay, attempt - 1);
    if d <= 0 || d > cfg.maxDelay {
      d := cfg.maxDelay;
    }
    if d <= 0 {
      return 0;
    }
    delay := random % d;
  }

  function Min(a: int, b: int): int { if a <= b then a else b }

  /** Wrapping subtracts a multiple of 2^64. */
  lemma WrapSubtracts(v: int) returns (j: int)
    ensures Wrap(v) == v - TWO_64 * j
  {
    j := v / TWO_64 + (if v % TWO_64 < TWO_63 then 0 else 1);
  }

  lemma Factor(x: int, p: int, q: int, j: int)
    ensures x * p - (p * q) * j == p * (x - q * j)
  {
  }

  lemma Positive(p: int, m: int)
    requires p > 0 && p * m > 0
    ensures p * m >= p
  {
  }

  /** A positive wrapped shift keeps its trailing zeros, so it is at least 2^k. */
  lemma WrappedIsMultiple(x: int, k: nat)
    requires k < 64 && ShiftLeft(x, k) > 0
    ensures ShiftLeft(x, k) >= Pow2(k)
  {
    var p, q := Pow2(k), Pow2(64 - k);
    Pow2Is64();
    Pow2Adds(k, 64 - k);
    assert p * q == TWO_64;
    var j := WrapSubtracts(x * p);
    Factor(x, p, q, j);
    Positive(p, x - q * j);
  }

  lemma MulMono(a: int, b: int, c: int)
    requires 0 <= a && b <= c
    ensures a * b <= a * c
  {
  }

  lemma {:induction false} Pow2Grows(k: nat)
    requires k >= 64
    ensures Pow2(k) >= TWO_64
  {
    Pow2Is64();
    Pow2Adds(64, k - 64);
    MulMono(TWO_64, 1, Pow2(k - 64));
  }

  /** At one attempt the ceiling is exact unless the shift wrapped to a positive value below MaxDelay. */
  lemma CeilingExactIff(cfg: Config, attempt: nat)
    requires attempt >= 1 && IsInt64(cfg.baseDelay) && IsInt64(cfg.maxDelay)
    requires 0 < cfg.baseDelay <= cfg.maxDelay
    ensures Ceiling(cfg, attempt) == Min(cfg.baseDelay * Pow2(attempt - 1), cfg.maxDelay)
            <==> cfg.baseDelay * Pow2(attempt - 1) < TWO_63
                 || !(0 < ShiftLeft(cfg.baseDelay, attempt - 1) < cfg.maxDelay)
  {
    var k := attempt - 1;
    var v := cfg.baseDelay * Pow2(k);
    MulMono(Pow2(k), 1, cfg.baseDelay);
    if k >= 64 { Pow2Grows(k); }
  }

  /** Despite the wrap-around, the ceiling is the capped exponential whenever Base * Max <= 2^63. */
  lemma CeilingIsExact(cfg: Config, attempt: nat)
    requires attempt >= 1 && IsInt64(cfg.baseDelay) && IsInt64(cfg.maxDelay)
    requires 0 < cfg.baseDelay <= cfg.maxDelay && cfg.baseDelay * cfg.maxDelay <= TWO_63
    ensures Ceiling(cfg, attempt) == Min(cfg.baseDelay * Pow2(attempt - 1), cfg.maxDelay)
  {
    CeilingExactIff(cfg, attempt);
    var k := attempt - 1;
    var w := ShiftLeft(cfg.baseDelay, k);
    if 0 < w < cfg.maxDelay {
      WrappedIsMultiple(cfg.baseDelay, k);
      MulMono(cfg.baseDelay, Pow2(k), cfg.maxDelay);
      assert cfg.baseDelay * Pow2(k) <= TWO_63;
      assert Wrap(TWO_63) == -TWO_63;
    }
  }

  /** The same for a configuration as written, once Do has filled in its defaults. */
  lemma BackoffIsExact(cfg: Config, attempt: nat)
    requires attempt >= 1 && IsInt64(cfg.baseDelay) && IsInt64(cfg.maxDelay)
    requires var c := Normalise(cfg); 10 * c.baseDelay < TWO_63 && c.baseDelay * c.maxDelay <= TWO_63
    ensures var c := Normalise(cfg);
            0 < c.baseDelay <= c.maxDelay && Ceiling(c, attempt) == Min(c.baseDelay * Pow2(attempt - 1), c.maxDelay)
  {
    CeilingIsExact(Normalise(cfg), attempt);
  }

  /** Without the bound the doubling can restart from a small value. */
  lemma CeilingCanWrap()
    ensures var cfg := Config(100, 5, 0x4000_0000_0000_0001);
            Ceiling(cfg, 63) < Min(cfg.baseDelay * Pow2(62), cfg.maxDelay)
  {
    Pow2Is64();
    assert Pow2(64) == 4 * Pow2(62);
    assert ShiftLeft(5, 62) == 0x4000_0000_0000_0000;
  }

  // ----- the attempt loop ----------------------------------------------------------------------

  datatype Result = Result(attempts: nat, ok: bool)

  /** How the outside world answers: call number i, and whether ctx is done just before it. */
  datatype World = World(accepts: nat -> bool, cancelled: nat -> bool, retryable: nat -> bool)

  /** The result of retrying from call number `start`, `made` attempts into a budget of `max`. */
  function Attempts(w: World, start: nat, made: nat, max: nat): (r: Result)
    requires made <= max
    ensures made <= r.attempts <= max
    ensures r.ok ==> r.attempts > made && w.accepts(start + r.attempts - 1)
    ensures !r.ok && r.attempts > made ==> !w.accepts(start + r.attempts - 1)
    ensures !r.ok && r.attempts < max ==>
              w.cancelled(start + r.attempts) || (r.attempts > made && !w.retryable(start + r.attempts - 1))
    decreases max - made
  {
    if made == max || w.cancelled(start + made) then Result(made, false)
    else if w.accepts(start + made) then Result(made + 1, true)
    else if !w.retryable(start + made) then Result(made + 1, false)
    else Attempts(w, start, made + 1, max)
  }

  /** Every call but the last was refused, could be retried, and was made before the context was done. */
  ghost predicate KeptTrying(w: World, start: nat, calls: nat) {
    && (forall i | start <= i < start + calls - 1 :: !w.accepts(i) && w.retryable(i))
    && (forall i | start <= i < start + calls :: !w.cancelled(i))
  }

  lemma {:induction false} AttemptsAre(w: World, start: nat, made: nat, max: nat)
    requires made <= max
    ensures KeptTrying(w, start + made, Attempts(w, start, made, max).attempts - made)
    decreases max - made
  {
    if made < max && !w.cancelled(start + made) && !w.accepts(start + made) && w.retryable(start + made) {
      AttemptsAre(w, start, made + 1, max);
    }
  }

  function Budget(cfg: Config): nat { Normalise(cfg).maxAttempts }

  function Limit(maxAttempts: int): nat { if maxAttempts < 1 then 1 else maxAttempts }

  ghost predicate AllDrawn(cfg: Config, random: nat -> nat, slept: seq<int>) {
    forall k | 0 <= k < |slept| :: Drawn(cfg, k + 1, random(k + 1), slept[k])
  }

  lemma DrawnOnceMore(cfg: Config, random: nat -> nat, slept: seq<int>, d: int)
    requires AllDrawn(cfg, random, slept) && Drawn(cfg, |slept| + 1, random(|slept| + 1), d)
    ensures AllDrawn(cfg, random, slept + [d])
  {
    var longer := slept + [d];
    forall k | 0 <= k < |longer| ensures Drawn(cfg, k + 1, random(k + 1), longer[k]) {
      if k < |slept| { assert Drawn(cfg, k + 1, random(k + 1), slept[k]); }
    }
  }

  /**
   What retrying from call number `start` must answer: success exactly when the last call made was
   accepted; otherwise the limit is reached, the context is done, or the last error is not retryable.
   */
  ghost predicate Outcome(w: World, start: nat, limit: nat, r: Result) {
    && r.attempts <= limit && KeptTrying(w, start, r.attempts)
    && (r.ok <==> r.attempts > 0 && w.accepts(start + r.attempts - 1))
    && (!r.ok ==> r.attempts == limit || w.cancelled(start + r.attempts)
                  || (r.attempts > 0 && !w.retryable(start + r.attempts - 1)))
  }

  /** That leaves no choice. */
  lemma OutcomeIsUnique(w: World, start: nat, limit: nat, r: Result, r': Result)
    requires Outcome(w, start, limit, r) && Outcome(w, start, limit, r')
    ensures r == r'
  {
    if r.attempts < r'.attempts {
      FewerIsWrong(w, start, limit, r, r');
    } else if r'.attempts < r.attempts {
      FewerIsWrong(w, start, limit, r', r);
    }
  }

  lemma FewerIsWrong(w: World, start: nat, limit: nat, r: Result, r': Result)
    requires Outcome(w, start, limit, r) && Outcome(w, start, limit, r')
    ensures r.attempts >= r'.attempts
  {
  }

  lemma AttemptsIsOutcome(cfg: Config, w: World, start: nat)
    ensures Outcome(w, start, Limit(cfg.maxAttempts), Attempts(w, start, 0, Budget(cfg)))
  {
    DefaultsAre(cfg);
    AttemptsAre(w, start, 0, Budget(cfg));
  }

  /** One more delay, after as many attempts as there were delays so far, plus one. */
  method Wait(cfg: Config, random: nat -> nat, slept: seq<int>) returns (longer: seq<int>)
    requires AllDrawn(cfg, random, slept)
    ensures AllDrawn(cfg, random, longer) && |longer| == |slept| + 1 && slept <= longer
  {
    var d := DelayFor(cfg, |slept| + 1, random(|slept| + 1));
    DrawnOnceMore(cfg, random, slept, d);
    longer := slept + [d];
  }

  /** Do: `calls` counts how often fn ran, `slept` the delays between attempts. */
  method Do(cfg: Config, w: World, start: nat, random: nat -> nat) returns (r: Result, calls: nat, slept: seq<int>)
    ensures r == Attempts(w, start, 0, Budget(cfg))
    ensures calls == r.attempts && Outcome(w, start, Limit(cfg.maxAttempts), r)
    ensures calls - 1 <= |slept| <= calls
    ensures AllDrawn(Normalise(cfg), random, slept)
  {
    var c := Normalise(cfg);
    AttemptsIsOutcome(cfg, w, start);
    calls, slept := 0, [];
    var attempt := 1;
    while attempt <= c.maxAttempts
      invariant 1 <= attempt <= c.maxAttempts + 1 && calls == attempt - 1
      invariant Attempts(w, start, 0, c.maxAttempts) == Attempts(w, start, attempt - 1, c.maxAttempts)
      invariant |slept| == if attempt <= c.maxAttempts then calls else calls - 1
      invariant AllDrawn(c, random, slept)
    {
      if w.cancelled(start + attempt - 1) {
        return Result(attempt - 1, false), calls, slept;
      }
      var ok := w.accepts(start + attempt - 1);
      calls := calls + 1;
      if ok {
        return Result(attempt, true), calls, slept;
      }
      if !w.retryable(start + attempt - 1) {
        return Result(attempt, false), calls, slept;
      }
      if attempt < c.maxAttempts {
        slept := Wait(c, random, slept);
      }
      attempt := attempt + 1;
    }
    return Result(c.maxAttempts, false), calls, slept;
  }
}
