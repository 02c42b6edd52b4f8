/** The connect loop with exponential backoff. Durations are nanoseconds. */
module Retry {

  datatype Config = Config(maxAttempts: int, backoffMin: int, backoffMax: int)

  datatype Attempt<+T, +E> = Success(value: T) | Failure(error: E)

  datatype Outcome<+T, +E> =
    | Connected(value: T)
    | Canceled(attempts: nat)
    | Exhausted(attempts: nat, last: E)

  function Attempts(cfg: Config): nat {
    if cfg.maxAttempts <= 0 then 1 else cfg.maxAttempts
  }

  function Min(a: int, b: int): int {
    if a < b then a else b
  }

  /** Half as much again, truncated toward zero as the conversion to a Duration does. */
  function Grow(b: int): int {
    if b >= 0 then 3 * b / 2 else -(3 * -b / 2)
  }

  /** The factor is 1.5: of a wait that is not negative, the greatest whole number not above 1.5 times
    * it, and of a negative one the least not below.
    */
  lemma GrowIsHalfAgain(b: int)
    ensures b >= 0 ==> 2 * Grow(b) <= 3 * b < 2 * Grow(b) + 2
    ensures b < 0 ==> 2 * Grow(b) - 2 < 3 * b <= 2 * Grow(b)
  {
  }

  /** The first wait is BackoffMin; each later one is half as much again as the last, but BackoffMax at most. */
  lemma WaitsInPlainTerms(cfg: Config, k: nat)
    requires k >= 1
    ensures Backoff(cfg, 1) == cfg.backoffMin
    ensures var b, next := Backoff(cfg, k), Backoff(cfg, k + 1);
      && next <= cfg.backoffMax
      && (b >= 0 ==> 2 * next <= 3 * b)
      && (b >= 0 && next < cfg.backoffMax ==> 3 * b < 2 * next + 2)
  {
    GrowIsHalfAgain(Backoff(cfg, k));
  }

  /** The k-th wait, from the first. Only the later ones are capped. */
  function Backoff(cfg: Config, k: nat): int
    requires k >= 1
  {
    if k == 1 then cfg.backoffMin else Min(Grow(Backoff(cfg, k - 1)), cfg.backoffMax)
  }

  /** Attempt k is the last: it succeeds, or is the last allowed, or ctx wins the wait after it. */
  predicate Stops<T, E>(cfg: Config, connect: nat -> Attempt<T, E>, done: nat -> bool, k: nat) {
    connect(k).Success? || k == Attempts(cfg) || done(k)
  }

  /** connect(k) is what the k-th call returns, done(k) whether the select after it takes ctx.Done().
    * calls counts the calls to connect and waits the timers started.
    */
  method Do<T, E>(cfg: Config, connect: nat -> Attempt<T, E>, done: nat -> bool)
    returns (r: Outcome<T, E>, calls: nat, waits: seq<int>)
    ensures 1 <= calls <= Attempts(cfg) && Stops(cfg, connect, done, calls)
    ensures forall k | 1 <= k < calls :: !Stops(cfg, connect, done, k)
    ensures forall k | 1 <= k < calls :: connect(k).Failure? && !done(k)
    ensures r.Exhausted? ==> calls == r.attempts == if cfg.maxAttempts <= 0 then 1 else cfg.maxAttempts
    ensures r.Canceled? ==> done(calls) && calls == r.attempts
    ensures r == match connect(calls)
      case Success(value) => Connected(value)
      case Failure(error) => if calls == Attempts(cfg) then Exhausted(calls, error) else Canceled(calls)
    ensures |waits| == (if r.Canceled? then calls else calls - 1)
    ensures forall i | 0 <= i < |waits| :: waits[i] == Backoff(cfg, i + 1)
    ensures 0 <= cfg.backoffMin && 0 <= cfg.backoffMax && 2 <= cfg.maxAttempts ==>
      Sum(waits) <= cfg.backoffMin + (cfg.maxAttempts - 2) * cfg.backoffMax
  {
    var maxAttempts := if cfg.maxAttempts <= 0 then 1 else cfg.maxAttempts;
    var backoff := cfg.backoffMin;
    waits := [];
    calls := 1;
    while true
      invariant 1 <= calls <= maxAttempts && backoff == Backoff(cfg, calls)
      invariant forall k | 1 <= k < calls :: !Stops(cfg, connect, done, k)
      invariant forall k | 1 <= k < calls :: connect(k).Failure? && !done(k)
      invariant |waits| == calls - 1 && forall i | 0 <= i < |waits| :: waits[i] == Backoff(cfg, i + 1)
      decreases maxAttempts - calls
    {
      var result := connect(calls);
      if result.Success? {
        TotalWait(cfg, waits);
        return Connected(result.value), calls, waits;
      }
      if calls == maxAttempts {
        TotalWait(cfg, waits);
        return Exhausted(calls, result.error), calls, waits;
      }
      waits := waits + [backoff];
      if done(calls) {
        TotalWait(cfg, waits);
        return Canceled(calls), calls, waits;
      }
      backoff := Min(Grow(backoff), cfg.backoffMax);
      calls := calls + 1;
    }
  }

  // ---------- The waits in closed form ----------

  /** b grown n times, never capped. */
  function Uncapped(b: int, n: nat): int {
    if n == 0 then b else Grow(Uncapped(b, n - 1))
  }

  lemma {:induction false} CappedOnce(cfg: Config, k: nat)
    requires k >= 2 && (cfg.backoffMax >= -1 || Grow(cfg.backoffMin) <= cfg.backoffMax)
    ensures Backoff(cfg, k) == Min(Uncapped(cfg.backoffMin, k - 1), cfg.backoffMax)
    ensures cfg.backoffMax < -1 ==> Uncapped(cfg.backoffMin, k - 1) <= cfg.backoffMax
  {
    if k == 2 {
      assert Uncapped(cfg.backoffMin, 1) == Grow(Uncapped(cfg.backoffMin, 0));
    } else {
      CappedOnce(cfg, k - 1);
    }
  }

  /** Capping every step comes to capping once, at the end, for every wait after the first: exactly
    * when BackoffMax is not below -1 or the first growth already stays within it.
    */
  lemma BackoffClosedFormIff(cfg: Config)
    ensures (forall k: nat | k >= 2 :: Backoff(cfg, k) == Min(Uncapped(cfg.backoffMin, k - 1), cfg.backoffMax))
       <==> cfg.backoffMax >= -1 || Grow(cfg.backoffMin) <= cfg.backoffMax
  {
    var b, cap := cfg.backoffMin, cfg.backoffMax;
    if cap >= -1 || Grow(b) <= cap {
      forall k: nat | k >= 2 ensures Backoff(cfg, k) == Min(Uncapped(b, k - 1), cap) {
        CappedOnce(cfg, k);
      }
    } else {
      assert Backoff(cfg, 1) == b && Backoff(cfg, 2) == cap;
      assert Backoff(cfg, 3) == Grow(cap);
      assert Uncapped(b, 0) == b && Uncapped(b, 1) == Grow(b);
      assert Uncapped(b, 3 - 1) == Grow(Grow(b)) > Grow(cap);
    }
  }

  /** From BackoffMin within the cap, waits never shrink and never pass the cap. */
  lemma {:induction false} BackoffGrows(cfg: Config, j: nat, k: nat)
    requires 0 <= cfg.backoffMin <= cfg.backoffMax && 1 <= j <= k
    ensures cfg.backoffMin <= Backoff(cfg, j) <= Backoff(cfg, k) <= cfg.backoffMax
    decreases k
  {
    if k > 1 {
      BackoffGrows(cfg, if j < k then j else k - 1, k - 1);
    }
  }

  // ---------- The total wait ----------

  function Sum(s: seq<int>): int {
    if s == [] then 0 else Sum(s[..|s| - 1]) + s[|s| - 1]
  }

  lemma {:induction false} SumOfWaits(cfg: Config, waits: seq<int>)
    requires forall i | 0 <= i < |waits| :: waits[i] == Backoff(cfg, i + 1)
    ensures |waits| >= 1 ==> Sum(waits) <= cfg.backoffMin + (|waits| - 1) * cfg.backoffMax
  {
    if |waits| > 1 {
      var n := |waits|;
      SumOfWaits(cfg, waits[..n - 1]);
      assert (n - 2) * cfg.backoffMax + cfg.backoffMax == (n - 1) * cfg.backoffMax;
    }
  }

  lemma TimesGrows(a: nat, b: nat, c: nat)
    requires a <= b
    ensures a * c <= b * c
  {
  }

  lemma TotalWait(cfg: Config, waits: seq<int>)
    requires |waits| < Attempts(cfg) && forall i | 0 <= i < |waits| :: waits[i] == Backoff(cfg, i + 1)
    ensures 0 <= cfg.backoffMin && 0 <= cfg.backoffMax && 2 <= cfg.maxAttempts ==>
      Sum(waits) <= cfg.backoffMin + (cfg.maxAttempts - 2) * cfg.backoffMax
  {
    if 0 <= cfg.backoffMin && 0 <= cfg.backoffMax && 2 <= cfg.maxAttempts {
      SumOfWaits(cfg, waits);
      TimesGrows(if waits == [] then 0 else |waits| - 1, cfg.maxAttempts - 2, cfg.backoffMax);
    }
  }
}
