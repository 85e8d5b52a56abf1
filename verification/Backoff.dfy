/**
 * Reconnect delays and the counters they come from: `computeBackoffDelayMs` and `BackoffState` of
 * `src/core/backoff.ts`. Delays are computed over the real numbers: an overflow of the program's
 * floating-point power is caught by the cap, and rounding to whole milliseconds is modelled.
 */
module Backoff {
  import opened Basics

  /** `maxAttempts` is `None` for no limit. The bounds are those a configuration is validated to. */
  datatype Settings = Settings(initialDelayMs: nat, factor: real, maxDelayMs: nat, jitter: real,
                               maxAttempts: Option<nat>)
  {
    predicate Valid() {
      && factor >= 1.0 && 0.0 <= jitter <= 1.0
      && (maxAttempts.Some? ==> maxAttempts.value >= 1)
    }
  }

  function Power(base: real, n: nat): real {
    if n == 0 then 1.0 else base * Power(base, n - 1)
  }

  /** `Math.round`: halves go up. */
  function Round(x: real): int { (x + 0.5).Floor }

  function Clamp(low: int, x: int, high: int): int {
    var raised := if x < low then low else x;
    if raised > high then high else raised
  }

  function Capped(attempt: nat, s: Settings): real
    requires attempt > 0
  {
    if s.initialDelayMs == 0 then 0.0
    else Min(s.maxDelayMs as real, s.initialDelayMs as real * Power(s.factor, attempt - 1))
  }

  /** `draw` is what `random()` returned. */
  function DelayMs(attempt: int, s: Settings, draw: real): int {
    if attempt <= 0 then 0
    else
      Clamp(0, Round(Jittered(Capped(attempt, s), s.jitter, draw)), s.maxDelayMs)
  }

  /** Full jitter: a point between `capped * jitter` and `capped`. */
  function Jittered(capped: real, jitter: real, draw: real): real {
    var floor := capped * jitter;
    floor + draw * (capped - floor)
  }

  lemma {:induction false} PowerGrows(base: real, m: nat, n: nat)
    requires base >= 1.0 && m <= n
    ensures 1.0 <= Power(base, m) <= Power(base, n)
    decreases n
  {
    if n > 0 {
      if m == n {
        PowerGrows(base, m - 1, n - 1);
      } else {
        PowerGrows(base, m, n - 1);
      }
      Grows(base, Power(base, n - 1));
    }
  }

  lemma Grows(base: real, x: real)
    requires base >= 1.0 && x >= 0.0
    ensures base * x >= x
  {
    assert (base - 1.0) * x >= 0.0;
  }

  lemma Monotone(a: real, x: real, y: real)
    requires a >= 0.0 && x <= y
    ensures a * x <= a * y
  {
    assert a * (y - x) >= 0.0;
  }

  lemma CappedGrows(m: nat, n: nat, s: Settings)
    requires s.Valid() && 0 < m <= n
    ensures 0.0 <= Capped(m, s) <= Capped(n, s) <= s.maxDelayMs as real
  {
    var initial, p, q := s.initialDelayMs as real, Power(s.factor, m - 1), Power(s.factor, n - 1);
    PowerGrows(s.factor, m - 1, n - 1);
    Monotone(initial, p, q);
    Monotone(initial, 0.0, p);
    assert 0.0 <= initial * p <= initial * q;
  }

  /** Every delay lies within the cap, whatever the random source returns, and the first retry waits not at all. */
  lemma DelayIsBounded(attempt: int, s: Settings, draw: real)
    requires s.Valid()
    ensures 0 <= DelayMs(attempt, s, draw) <= s.maxDelayMs
    ensures attempt <= 0 ==> DelayMs(attempt, s, draw) == 0
  {
  }

  lemma JitteredIsProduct(capped: real, jitter: real, draw: real)
    ensures Jittered(capped, jitter, draw) == (jitter + draw * (1.0 - jitter)) * capped
  {
    assert draw * (capped - capped * jitter) == draw * ((1.0 - jitter) * capped);
  }

  lemma ProductIsPositive(x: real, y: real)
    requires x >= 0.0 && y >= 0.0
    ensures x * y >= 0.0
  {
  }

  lemma ShareIsInRange(jitter: real, draw: real)
    requires 0.0 <= jitter <= 1.0 && 0.0 <= draw < 1.0
    ensures jitter <= jitter + draw * (1.0 - jitter) <= 1.0
  {
    ProductIsPositive(draw, 1.0 - jitter);
    ProductIsPositive(1.0 - draw, 1.0 - jitter);
    assert (1.0 - draw) * (1.0 - jitter) == 1.0 - jitter - draw * (1.0 - jitter);
  }

  lemma JitteredGrows(c: real, c': real, jitter: real, draw: real)
    requires 0.0 <= c <= c' && 0.0 <= jitter <= 1.0 && 0.0 <= draw < 1.0
    ensures Jittered(c, jitter, draw) <= Jittered(c', jitter, draw)
  {
    var k := jitter + draw * (1.0 - jitter);
    assert k >= 0.0 by { ShareIsInRange(jitter, draw); }
    assert k * c <= k * c' by { Monotone(k, c, c'); }
    assert Jittered(c, jitter, draw) == k * c by { JitteredIsProduct(c, jitter, draw); }
    assert Jittered(c', jitter, draw) == k * c' by { JitteredIsProduct(c', jitter, draw); }
  }

  lemma JitteredIsInItsWindow(c: real, jitter: real, draw: real)
    requires 0.0 <= c && 0.0 <= jitter <= 1.0 && 0.0 <= draw < 1.0
    ensures 0.0 <= c * jitter <= Jittered(c, jitter, draw) <= c
  {
    var k := jitter + draw * (1.0 - jitter);
    JitteredIsProduct(c, jitter, draw);
    ShareIsInRange(jitter, draw);
    Monotone(c, 0.0, jitter);
    Monotone(c, jitter, k);
    Monotone(c, k, 1.0);
    assert c * k == k * c;
  }

  lemma RoundGrows(x: real, y: real)
    requires x <= y
    ensures Round(x) <= Round(y)
  {
  }

  /** For one draw of the random source, a later retry never waits less. */
  lemma DelayGrows(m: nat, n: nat, s: Settings, draw: real)
    requires s.Valid() && m <= n && 0.0 <= draw < 1.0
    ensures DelayMs(m, s, draw) <= DelayMs(n, s, draw)
  {
    if m > 0 {
      CappedGrows(m, n, s);
      JitteredGrows(Capped(m, s), Capped(n, s), s.jitter, draw);
      RoundGrows(Jittered(Capped(m, s), s.jitter, draw), Jittered(Capped(n, s), s.jitter, draw));
    }
  }

  /** A draw in range keeps a delay within its jitter window, from `jitter * capped` to `capped`. */
  lemma DelayIsInItsWindow(attempt: nat, s: Settings, draw: real)
    requires s.Valid() && attempt > 0 && 0.0 <= draw < 1.0
    ensures Round(Capped(attempt, s) * s.jitter) <= DelayMs(attempt, s, draw) <= Round(Capped(attempt, s))
  {
    var c := Capped(attempt, s);
    CappedGrows(attempt, attempt, s);
    JitteredIsInItsWindow(c, s.jitter, draw);
    RoundGrows(0.0, c * s.jitter);
    RoundGrows(c * s.jitter, Jittered(c, s.jitter, draw));
    RoundGrows(Jittered(c, s.jitter, draw), c);
    RoundGrows(c, s.maxDelayMs as real);
  }

  // --- The counters -----------------------------------------------------------------------------

  datatype Counters = Counters(attempt: nat, losses: nat, connectedAt: Option<int>)
  {
    function RetryIndex(): nat { if losses == 0 then 0 else losses - 1 }

    predicate HasExhausted(s: Settings) { s.maxAttempts.Some? && attempt >= s.maxAttempts.value }

    function AfterAttempt(): Counters { this.(attempt := attempt + 1) }

    function AfterConnected(now: int): Counters { this.(connectedAt := Some(now)) }

    /** A connection that held for `stableAfterMs` starts the count over. */
    function AfterLoss(now: int, stableAfterMs: nat): Counters {
      if connectedAt.Some? && now - connectedAt.value >= stableAfterMs then Counters(0, 1, None)
      else Counters(attempt, losses + 1, None)
    }
  }

  const NO_ATTEMPTS := Counters(0, 0, None)

  class BackoffState {
    var attempt: nat
    var losses: nat
    var connectedAt: Option<int>

    function Value(): Counters
      reads this
    {
      Counters(attempt, losses, connectedAt)
    }

    constructor ()
      ensures Value() == NO_ATTEMPTS
    {
      attempt, losses, connectedAt := 0, 0, None;
    }

    method RecordAttempt()
      modifies this
      ensures Value() == old(Value()).AfterAttempt()
    {
      attempt := attempt + 1;
    }

    method RecordConnected(now: int)
      modifies this
      ensures Value() == old(Value()).AfterConnected(now)
    {
      connectedAt := Some(now);
    }

    method RecordDisconnected(now: int, stableAfterMs: nat)
      modifies this
      ensures Value() == old(Value()).AfterLoss(now, stableAfterMs)
    {
      if connectedAt.Some? && now - connectedAt.value >= stableAfterMs {
        attempt := 0;
        losses := 0;
      }
      losses := losses + 1;
      connectedAt := None;
    }

    method Reset()
      modifies this
      ensures Value() == NO_ATTEMPTS
    {
      attempt, losses, connectedAt := 0, 0, None;
    }
  }
}
