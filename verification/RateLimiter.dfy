/**
 * The token bucket that bounds what a message from the bus may make a context do: `RateLimiter` of
 * `src/core/rate-limit.ts`, over the real numbers.
 */
module RateLimiter {
  import opened Basics

  /** `perSecond` of the allowance come back each second, up to `burst`. */
  datatype RateLimit = RateLimit(burst: real, perSecond: real)
  {
    predicate Valid() { burst >= 0.0 && perSecond > 0.0 }
  }

  datatype Bucket = Bucket(tokens: real, refilledAt: real)

  function Refill(b: Bucket, now: real, l: RateLimit): Bucket {
    Bucket(Min(l.burst, b.tokens + Max(0.0, now - b.refilledAt) / 1000.0 * l.perSecond), now)
  }

  predicate MayTake(b: Bucket, now: real, l: RateLimit) { Refill(b, now, l).tokens >= 1.0 }

  function Take(b: Bucket, now: real, l: RateLimit): Bucket {
    var r := Refill(b, now, l);
    if MayTake(b, now, l) then r.(tokens := r.tokens - 1.0) else r
  }

  function Ceiling(x: real): int { -((-x).Floor) }

  function DelayMs(b: Bucket, now: real, l: RateLimit): int
    requires l.Valid()
  {
    var tokens := Refill(b, now, l).tokens;
    if tokens >= 1.0 then 0 else Ceiling((1.0 - tokens) / l.perSecond * 1000.0)
  }

  // --- Any number of takes ----------------------------------------------------------------------------

  function TakeAll(b: Bucket, times: seq<real>, l: RateLimit): Bucket
    decreases |times|
  {
    if times == [] then b else TakeAll(Take(b, times[0], l), times[1..], l)
  }

  /** How many of the takes at these moments succeed. */
  function Successes(b: Bucket, times: seq<real>, l: RateLimit): nat
    decreases |times|
  {
    if times == [] then 0
    else (if MayTake(b, times[0], l) then 1 else 0) + Successes(Take(b, times[0], l), times[1..], l)
  }

  ghost predicate NonDecreasing(times: seq<real>) {
    forall i, j :: 0 <= i <= j < |times| ==> times[i] <= times[j]
  }

  /** What comes back between two moments. */
  function Earned(from: real, to: real, l: RateLimit): real { (to - from) / 1000.0 * l.perSecond }

  lemma EarnedAdds(a: real, b: real, c: real, l: RateLimit)
    ensures Earned(a, b, l) + Earned(b, c, l) == Earned(a, c, l)
  {
    assert (b - a) / 1000.0 + (c - b) / 1000.0 == (c - a) / 1000.0;
    Distributes((b - a) / 1000.0, (c - b) / 1000.0, l.perSecond);
  }

  lemma Distributes(x: real, y: real, z: real)
    ensures x * z + y * z == (x + y) * z
  {
  }

  lemma EarnedIsPositive(a: real, b: real, l: RateLimit)
    requires a <= b && l.Valid()
    ensures Earned(a, b, l) >= 0.0
  {
  }

  lemma TakeSpends(b: Bucket, now: real, l: RateLimit)
    requires l.Valid() && b.refilledAt <= now && 0.0 <= b.tokens <= l.burst
    ensures 0.0 <= Take(b, now, l).tokens <= l.burst && Take(b, now, l).refilledAt == now
    ensures var spent := if MayTake(b, now, l) then 1.0 else 0.0;
            Take(b, now, l).tokens + spent <= b.tokens + Earned(b.refilledAt, now, l)
  {
    EarnedIsPositive(b.refilledAt, now, l);
  }

  lemma {:induction false} SuccessesAreEarned(b: Bucket, times: seq<real>, l: RateLimit)
    requires l.Valid() && 0.0 <= b.tokens <= l.burst && NonDecreasing(times)
    requires times != [] ==> b.refilledAt <= times[0]
    ensures times != [] ==> Successes(b, times, l) as real <= b.tokens + Earned(b.refilledAt, times[|times| - 1], l)
    ensures 0.0 <= TakeAll(b, times, l).tokens <= l.burst
    ensures TakeAll(b, times, l).refilledAt == if times == [] then b.refilledAt else times[|times| - 1]
    decreases |times|
  {
    if times != [] {
      TakeSpends(b, times[0], l);
      var b', rest := Take(b, times[0], l), times[1..];
      assert forall i :: 0 <= i < |rest| ==> rest[i] == times[i + 1];
      assert rest != [] ==> rest[|rest| - 1] == times[|times| - 1];
      SuccessesAreEarned(b', rest, l);
      if rest != [] { EarnedAdds(b.refilledAt, times[0], times[|times| - 1], l); }
    }
  }

  /**
   * In every window of any run, however many takes it holds, at most `burst` and what came back during the
   * window succeed.
   */
  lemma WindowIsBounded(start: real, times: seq<real>, from: nat, to: nat, l: RateLimit)
    requires l.Valid() && NonDecreasing([start] + times) && from < to <= |times|
    ensures var b := TakeAll(Bucket(l.burst, start), times[..from], l);
            Successes(b, times[from..to], l) as real <= l.burst + Earned(times[from], times[to - 1], l)
  {
    var before, window := times[..from], times[from..to];
    PartsAreNonDecreasing(start, times, from, to);
    SuccessesAreEarned(Bucket(l.burst, start), before, l);
    var b := TakeAll(Bucket(l.burst, start), before, l);
    WindowFromHere(b, window, l);
  }

  lemma PartsAreNonDecreasing(start: real, times: seq<real>, from: nat, to: nat)
    requires NonDecreasing([start] + times) && from < to <= |times|
    ensures NonDecreasing(times[..from]) && NonDecreasing(times[from..to])
    ensures start <= times[from] && (from > 0 ==> start <= times[0] && times[from - 1] <= times[from])
  {
    forall i, j | 0 <= i <= j < |times|
      ensures times[i] <= times[j] && start <= times[i]
    {
      assert ([start] + times)[i + 1] <= ([start] + times)[j + 1] && ([start] + times)[0] <= ([start] + times)[i + 1];
    }
  }

  lemma WindowFromHere(b: Bucket, window: seq<real>, l: RateLimit)
    requires l.Valid() && window != [] && NonDecreasing(window) && 0.0 <= b.tokens <= l.burst
    requires b.refilledAt <= window[0]
    ensures Successes(b, window, l) as real <= l.burst + Earned(window[0], window[|window| - 1], l)
  {
    FirstRefillIsFree(b, window, l);
    SuccessesAreEarned(Refill(b, window[0], l), window, l);
  }

  lemma RefillIsInRange(b: Bucket, now: real, l: RateLimit)
    requires l.Valid() && 0.0 <= b.tokens <= l.burst && b.refilledAt <= now
    ensures 0.0 <= Refill(b, now, l).tokens <= l.burst
  {
    EarnedIsPositive(b.refilledAt, now, l);
  }

  /** What happened before the window counts for no more than a full bucket at its first moment. */
  lemma FirstRefillIsFree(b: Bucket, times: seq<real>, l: RateLimit)
    requires l.Valid() && times != [] && 0.0 <= b.tokens <= l.burst && b.refilledAt <= times[0]
    ensures Successes(b, times, l) == Successes(Refill(b, times[0], l), times, l)
    ensures 0.0 <= Refill(b, times[0], l).tokens <= l.burst
  {
    RefillIsInRange(b, times[0], l);
    SameTake(b, times[0], l);
  }

  lemma SameTake(b: Bucket, now: real, l: RateLimit)
    requires l.Valid() && b.refilledAt <= now
    ensures Take(Refill(b, now, l), now, l) == Take(b, now, l)
    ensures MayTake(Refill(b, now, l), now, l) == MayTake(b, now, l)
  {
    RefillsCompose(b, now, now, l);
  }

  lemma RefillsCompose(b: Bucket, t: real, now: real, l: RateLimit)
    requires l.Valid() && b.refilledAt <= t <= now
    ensures Refill(Refill(b, t, l), now, l) == Refill(b, now, l)
  {
    EarnedAdds(b.refilledAt, t, now, l);
    EarnedIsPositive(t, now, l);
  }

  // --- Waiting ------------------------------------------------------------------------------------------

  lemma TimesInverse(x: real, p: real)
    requires p > 0.0
    ensures x / p * p == x
  {
  }

  lemma ScaleUp(x: real, y: real, p: real)
    requires p > 0.0
    ensures x <= y <==> x * p <= y * p
  {
    assert x <= y ==> (y - x) * p >= 0.0;
    assert x > y ==> (x - y) * p > 0.0;
  }

  /** After `d` milliseconds a bucket that lacked `need` has it exactly if `d` is at least the quotient. */
  lemma EarnsEnough(need: real, d: real, l: RateLimit)
    requires l.Valid()
    ensures d / 1000.0 * l.perSecond >= need <==> d >= need / l.perSecond * 1000.0
  {
    var q := need / l.perSecond;
    TimesInverse(need, l.perSecond);
    ScaleUp(q, d / 1000.0, l.perSecond);
  }

  /**
   * If nothing is taken meanwhile, a take succeeds once the delay has passed, and none succeeds a whole
   * millisecond earlier. For a bucket that can hold one token at all.
   */
  lemma DelayIsExact(b: Bucket, now: real, later: real, l: RateLimit)
    requires l.Valid() && l.burst >= 1.0 && 0.0 <= b.tokens <= l.burst && b.refilledAt <= now <= later
    ensures later >= now + DelayMs(b, now, l) as real ==> MayTake(b, later, l)
    ensures later <= now + DelayMs(b, now, l) as real - 1.0 ==> !MayTake(b, later, l)
    ensures DelayMs(b, now, l) >= 0
  {
    var r, d := Refill(b, now, l), DelayMs(b, now, l);
    RefillsCompose(b, now, later, l);
    EarnedIsPositive(b.refilledAt, now, l);
    EarnedIsPositive(now, later, l);
    if r.tokens < 1.0 {
      var exact := (1.0 - r.tokens) / l.perSecond * 1000.0;
      EarnsEnough(1.0 - r.tokens, later - now, l);
      EarnsEnough(1.0 - r.tokens, 0.0, l);
      assert exact <= d as real < exact + 1.0;
    }
  }

  /** No delay is asked for exactly when a take would succeed. */
  lemma DelayIsNoneOrSome(b: Bucket, now: real, l: RateLimit)
    requires l.Valid()
    ensures DelayMs(b, now, l) == 0 <==> MayTake(b, now, l)
  {
    var need := 1.0 - Refill(b, now, l).tokens;
    if need > 0.0 {
      EarnsEnough(need, 0.0, l);
      assert Ceiling(need / l.perSecond * 1000.0) > 0;
    }
  }

  class RateLimiter {
    const limit: RateLimit
    var tokens: real
    var refilledAt: real

    function Value(): Bucket reads this { Bucket(tokens, refilledAt) }

    constructor (limit: RateLimit, now: real)
      requires limit.Valid()
      ensures Valid() && Value() == Bucket(limit.burst, now) && this.limit == limit
    {
      this.limit := limit;
      tokens, refilledAt := limit.burst, now;
    }

    method RefillNow(now: real)
      modifies this
      ensures Value() == Refill(old(Value()), now, limit)
    {
      var elapsedMs := Max(0.0, now - refilledAt);
      refilledAt := now;
      tokens := Min(limit.burst, tokens + elapsedMs / 1000.0 * limit.perSecond);
    }

    ghost predicate Valid()
      reads this
    {
      limit.Valid() && 0.0 <= tokens <= limit.burst
    }

    /** A take succeeds exactly if no delay would have been asked for, and spends one of what has come back. */
    method TakeOne(now: real) returns (taken: bool)
      requires Valid()
      modifies this
      ensures Valid() && refilledAt == now
      ensures taken <==> DelayMs(old(Value()), now, limit) == 0
      ensures !taken ==> tokens < 1.0
      ensures old(refilledAt) <= now ==>
                tokens + (if taken then 1.0 else 0.0) <= old(tokens) + Earned(old(refilledAt), now, limit)
      ensures taken == MayTake(old(Value()), now, limit) && Value() == Take(old(Value()), now, limit)
    {
      ghost var before := Value();
      DelayIsNoneOrSome(before, now, limit);
      RefillNow(now);
      if tokens < 1.0 {
        taken := false;
      } else {
        tokens := tokens - 1.0;
        taken := true;
      }
      if before.refilledAt <= now {
        TakeSpends(before, now, limit);
      }
    }

    /** Asking refills, which changes nothing about what comes after. */
    method DelayUntilAllowed(now: real) returns (delayMs: int)
      requires Valid() && refilledAt <= now
      modifies this
      ensures Valid() && refilledAt == now && delayMs == DelayMs(old(Value()), now, limit)
      ensures limit.burst >= 1.0 ==> forall later :: later >= now + delayMs as real ==> MayTake(Value(), later, limit)
      ensures forall later :: now <= later ==> MayTake(Value(), later, limit) == MayTake(old(Value()), later, limit)
    {
      ghost var before := Value();
      RefillNow(now);
      delayMs := if tokens >= 1.0 then 0 else Ceiling((1.0 - tokens) / limit.perSecond * 1000.0);
      forall later: real | now <= later
        ensures MayTake(Value(), later, limit) == MayTake(before, later, limit)
        ensures limit.burst >= 1.0 && later >= now + delayMs as real ==> MayTake(before, later, limit)
      {
        RefillsCompose(before, now, later, limit);
        if limit.burst >= 1.0 { DelayIsExact(before, now, later, limit); }
      }
      if limit.burst >= 1.0 { DelayIsExact(before, now, now, limit); }
    }
  }
}
