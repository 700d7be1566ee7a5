/** The retry schedule. Delays are int64 nanoseconds, the multiplier is a float32, and a delay is multiplied in
    float64 and converted back. */
module Backoff {
  import opened Float64

  const INT64: int := 0x8000_0000_0000_0000      // 2^63: the first value that is no int64

  /** The retry section of the configuration. */
  datatype Retry = Retry(enable: bool, maxAttempts: int, initialDelay: int, maxDelay: int, multiplier: real) {

    /** The ranges that normalisation establishes. */
    predicate Normalised() {
      0 < maxAttempts && 0 < initialDelay <= maxDelay && multiplier > 0.0
    }

    /** What the types of the fields add. */
    predicate Accepted() {
      Normalised() && maxDelay < INT64 && IsMultiplier(multiplier)
    }
  }

  /** No float32 lies between 1 - 2^-24 and 1, or between 1 and 1 + 2^-23. */
  predicate IsMultiplier(m: real) {
    0.0 < m <= BELOW_ONE || m == 1.0 || m >= ABOVE_ONE
  }

  const BELOW_ONE: real := 16777215.0 / 16777216.0
  const ABOVE_ONE: real := 8388609.0 / 8388608.0

  // ---- One multiplication

  /** Conversion of a real to an integer: truncation toward zero. */
  function Truncate(x: real): int {
    if x >= 0.0 then x.Floor else -((-x).Floor)
  }

  function Product(x: real, m: real): real { x * m }

  /** A delay times `m`: conversion to float64, product in float64, truncation. */
  function Float(m: real): int -> int {
    (d: int) => Truncate(Round(Product(Round(Whole(d)), m)))
  }

  /** The same with the conversion to int64. What a conversion yields for a number that is no int64 is up to the
      machine: -2^63 on amd64, 2^63 - 1 on arm64. */
  function Machine(overflow: int, m: real): int -> int {
    (d: int) => ToInt64(Float(m)(d), overflow)
  }

  function ToInt64(x: int, overflow: int): int { if -INT64 <= x < INT64 then x else overflow }

  /** The cap times the multiplier is an int64, so no multiplication up to the cap overflows. */
  predicate Fits(m: real, hi: int) { Float(m)(hi) < INT64 }

  // ---- The schedule

  /** `n` multiplications without the cap. */
  function Iterate(f: int -> int, d: int, n: nat): int {
    if n == 0 then d else f(Iterate(f, d, n - 1))
  }

  /** The delay after some rounds of the loop, and whether the loop has been left. */
  datatype Course = Course(delay: int, left: bool)

  function Run(step: int -> int, c: Retry, n: nat): Course {
    if n == 0 then Course(c.initialDelay, false)
    else
      var r := Run(step, c, n - 1);
      if r.left then r
      else if step(r.delay) > c.maxDelay then Course(c.maxDelay, true)
      else Course(step(r.delay), false)
  }

  function Delay(step: int -> int, c: Retry, attempt: int): int {
    if attempt <= 0 then c.initialDelay else Run(step, c, attempt).delay
  }

  function Min(a: int, b: int): int { if a <= b then a else b }

  /** `delay` and `rounds` are what multiplying with `step` gives for `attempt` when the loop is left in the
      first round above the cap: the iterate of that round, or the cap. */
  predicate FirstAbove(step: int -> int, c: Retry, attempt: int, delay: int, rounds: nat) {
    if attempt <= 0 then delay == c.initialDelay && rounds == 0
    else
      && 1 <= rounds <= attempt
      && (forall k: nat | 1 <= k < rounds :: Iterate(step, c.initialDelay, k) <= c.maxDelay)
      && (if Iterate(step, c.initialDelay, rounds) > c.maxDelay then delay == c.maxDelay
          else rounds == attempt && delay == Iterate(step, c.initialDelay, attempt))
  }

  class RetryManager {
    const config: Retry
    const step: int -> int     // the machine's time.Duration(float64(delay) * float64(multiplier))

    constructor (config: Retry, step: int -> int)
      ensures this.config == config && this.step == step
    {
      this.config, this.step := config, step;
    }

    predicate ShouldRetry(attempt: int) {
      if !config.enable then false else attempt < config.maxAttempts
    }

    /** `rounds` is the number of multiplications. */
    method GetRetryDelay(attempt: int) returns (delay: int, ghost rounds: nat)
      ensures FirstAbove(step, config, attempt, delay, rounds)
      ensures delay == Delay(step, config, attempt)
    {
      if attempt <= 0 {
        return config.initialDelay, 0;
      }
      delay := config.initialDelay;
      rounds := 0;
      var i := 0;
      while i < attempt
        invariant 0 <= i <= attempt && rounds == i
        invariant Run(step, config, i) == Course(delay, false)
        invariant delay == Iterate(step, config.initialDelay, i)
        invariant forall k: nat | 1 <= k <= i :: Iterate(step, config.initialDelay, k) <= config.maxDelay
      {
        delay := step(delay);
        rounds := rounds + 1;
        if delay > config.maxDelay {
          delay := config.maxDelay;
          LeftStays(step, config, rounds, attempt);
          break;
        }
        i := i + 1;
      }
    }
  }

  lemma {:induction false} LeftStays(step: int -> int, c: Retry, k: nat, n: nat)
    requires k <= n && Run(step, c, k).left
    ensures Run(step, c, n) == Run(step, c, k)
  {
    if k < n {
      LeftStays(step, c, k, n - 1);
    }
  }

  lemma {:induction false} RunAtMost(step: int -> int, c: Retry, n: nat)
    requires c.Normalised()
    ensures Run(step, c, n).delay <= c.maxDelay
    ensures Run(step, c, n).left ==> Run(step, c, n).delay == c.maxDelay
  {
    if n > 0 {
      RunAtMost(step, c, n - 1);
    }
  }

  // ---- Facts about one multiplication

  lemma TruncateBounds(x: real, k: int)
    requires x >= 0.0
    ensures 0 <= Truncate(x) && x - 1.0 < Whole(Truncate(x)) <= x
    ensures Whole(k) <= x ==> k <= Truncate(x)
    ensures x < Whole(k) ==> Truncate(x) < k
  {}

  lemma ProductMonotone(x: real, y: real, m: real)
    requires 0.0 <= x <= y && m > 0.0
    ensures 0.0 <= Product(x, m) <= Product(y, m)
  {}

  lemma ProductGrows(x: real, m: real, k: real)
    requires 0.0 <= x && k <= m
    ensures Product(x, k) <= Product(x, m)
  {}

  lemma FloatMonotone(m: real, x: int, y: int)
    requires 0 <= x <= y && m > 0.0
    ensures 0 <= Float(m)(x) <= Float(m)(y)
  {
    RoundNonNegative(Whole(x));
    RoundMonotone(Whole(x), Whole(y));
    ProductMonotone(Round(Whole(x)), Round(Whole(y)), m);
    RoundNonNegative(Product(Round(Whole(x)), m));
    RoundMonotone(Product(Round(Whole(x)), m), Product(Round(Whole(y)), m));
    TruncateBounds(Round(Product(Round(Whole(x)), m)), 0);
    TruncateBounds(Round(Product(Round(Whole(y)), m)), Float(m)(x));
  }

  /** Two roundings cost less than the step from 1 to the next float32 gains. */
  lemma FloatGrows(m: real, x: int)
    requires m >= ABOVE_ONE && x >= 0
    ensures x <= Float(m)(x)
  {
    var r := Round(Whole(x));
    RoundNonNegative(Whole(x));
    RoundClose(Whole(x));
    ProductGrows(r, m, ABOVE_ONE);
    var p := Product(r, m);
    RoundClose(p);
    RoundNonNegative(p);
    TruncateBounds(Round(p), x);
  }

  /** And less than the step from 1 to the float32 before it loses. */
  lemma FloatShrinks(m: real, x: int)
    requires 0.0 < m <= BELOW_ONE && x >= 0
    ensures 0 <= Float(m)(x) && (x > 0 ==> Float(m)(x) < x) && (x == 0 ==> Float(m)(x) == 0)
  {
    var r := Round(Whole(x));
    RoundNonNegative(Whole(x));
    RoundClose(Whole(x));
    ProductGrows(r, BELOW_ONE, m);
    ProductMonotone(0.0, r, m);
    var p := Product(r, m);
    RoundClose(p);
    RoundNonNegative(p);
    TruncateBounds(Round(p), x);
  }

  /** Multiplication by 1 is exact up to 2^53, and loses 1 right after it. */
  lemma FloatOne(x: int)
    requires 0 <= x <= EXACT
    ensures Float(1.0)(x) == x && Float(1.0)(EXACT + 1) == EXACT
  {
    RoundExact(x);
    RoundExact(EXACT);
    RoundTie();
    TruncateBounds(Whole(x), x);
    TruncateBounds(Whole(x), x + 1);
    TruncateBounds(Whole(EXACT), EXACT);
    TruncateBounds(Whole(EXACT), EXACT + 1);
  }

  /** A multiplier of at least 2 at least doubles what the delay has been rounded to. */
  lemma FloatDoubles(m: real, x: int)
    requires m >= 2.0 && x > 0
    ensures Whole(Float(m)(x)) >= 2.0 * Round(Whole(x)) && Round(Whole(Float(m)(x))) >= 2.0 * Round(Whole(x))
  {
    var r := Round(Whole(x));
    RoundExact(1);
    RoundMonotone(1.0, Whole(x));
    RoundIntegral(x);
    RoundTwice(Whole(x));
    ProductGrows(r, m, 2.0);
    RoundDouble(r);
    RoundMonotone(2.0 * r, Product(r, m));
    TruncateBounds(Round(Product(r, m)), 2 * r.Floor);
    RoundMonotone(2.0 * r, Whole(Float(m)(x)));
  }

  /** A whole multiplier is exact while the product is at most 2^53; a larger product stays above. */
  lemma FloatWhole(m: int, x: int)
    requires m >= 1 && 0 <= x <= EXACT
    ensures if x * m <= EXACT then Float(Whole(m))(x) == x * m else Float(Whole(m))(x) >= EXACT
  {
    RoundExact(x);
    WholeProduct(x, m);
    RoundExact(EXACT);
    if x * m <= EXACT {
      RoundExact(x * m);
      TruncateBounds(Whole(x * m), x * m);
      TruncateBounds(Whole(x * m), x * m + 1);
    } else {
      RoundMonotone(Whole(EXACT), Whole(x * m));
      TruncateBounds(Round(Whole(x * m)), EXACT);
    }
  }

  lemma WholeProduct(x: int, m: int)
    requires x >= 0 && m >= 1
    ensures Product(Whole(x), Whole(m)) == Whole(x * m) && x * m >= 0
  {}

  lemma MachineFits(overflow: int, m: real, hi: int, x: int)
    requires 0 <= x <= hi && m > 0.0
    ensures Fits(m, hi) ==> Machine(overflow, m)(x) == Float(m)(x)
    ensures Machine(overflow, m)(x) == if Float(m)(x) < INT64 then Float(m)(x) else overflow
  {
    FloatMonotone(m, x, hi);
  }

  // ---- Multipliers of at least 1

  /** `step` shrinks no delay between `lo` and `hi`. */
  ghost predicate Grows(step: int -> int, lo: int, hi: int) {
    forall x | lo <= x <= hi :: x <= step(x)
  }

  /** When no delay up to the cap is shrunk, checked on the cap and the multiplier alone: a product that is no
      int64 must become at least the cap, and for multiplier 1 the cap must be at most 2^53. */
  predicate NeverShrinks(overflow: int, m: real, hi: int) {
    (Fits(m, hi) || hi <= overflow) && (m > 1.0 || hi <= EXACT)
  }

  lemma GrowsIff(overflow: int, m: real, hi: int)
    requires IsMultiplier(m) && m >= 1.0 && 1 <= hi < INT64
    ensures Grows(Machine(overflow, m), 1, hi) <==> NeverShrinks(overflow, m, hi)
  {
    var step := Machine(overflow, m);
    if NeverShrinks(overflow, m, hi) {
      forall x | 1 <= x <= hi ensures x <= step(x) {
        MachineFits(overflow, m, hi, x);
        if m > 1.0 { FloatGrows(m, x); } else { FloatOne(x); }
      }
    } else if m == 1.0 && hi > EXACT {
      FloatOne(0);
      assert step(EXACT + 1) == EXACT;
    } else {
      FloatMonotone(m, 0, hi);
      assert step(hi) == overflow;
    }
  }

  /** Nondecreasing in the attempt, and between the initial and the maximal delay. */
  ghost predicate WellShaped(step: int -> int, c: Retry) {
    forall a: nat, b: nat | a <= b ::
      c.initialDelay <= Run(step, c, a).delay <= Run(step, c, b).delay <= c.maxDelay
  }

  lemma {:induction false} GrowsShape(step: int -> int, c: Retry, a: nat, b: nat)
    requires c.Normalised() && Grows(step, c.initialDelay, c.maxDelay) && a <= b
    ensures c.initialDelay <= Run(step, c, a).delay <= Run(step, c, b).delay <= c.maxDelay
    decreases b
  {
    RunAtMost(step, c, b);
    if a < b {
      GrowsShape(step, c, a, b - 1);
      RunAtMost(step, c, b - 1);
    } else if b > 0 {
      GrowsShape(step, c, b - 1, b - 1);
      RunAtMost(step, c, b - 1);
    }
  }

  /** The configurations with a given multiplier and cap. */
  ghost predicate With(c: Retry, m: real, hi: int) {
    c.Accepted() && c.multiplier == m && c.maxDelay == hi
  }

  /** For a multiplier of at least 1 and a cap: the delays of every accepted configuration with these two are
      nondecreasing and between initial and maximal delay if and only if no delay up to the cap is shrunk. */
  lemma ShapeIff(overflow: int, m: real, hi: int)
    requires IsMultiplier(m) && m >= 1.0 && 1 <= hi < INT64
    ensures (forall c | With(c, m, hi) :: WellShaped(Machine(overflow, m), c)) <==> NeverShrinks(overflow, m, hi)
  {
    GrowsIff(overflow, m, hi);
    if NeverShrinks(overflow, m, hi) {
      forall c | With(c, m, hi) ensures WellShaped(Machine(overflow, m), c) {
        GrowsShaped(Machine(overflow, m), c);
      }
    } else {
      var c := ShrunkShape(Machine(overflow, m), m, hi);
    }
  }

  lemma GrowsShaped(step: int -> int, c: Retry)
    requires c.Normalised() && Grows(step, 1, c.maxDelay)
    ensures WellShaped(step, c)
  {
    forall a: nat, b: nat | a <= b
      ensures c.initialDelay <= Run(step, c, a).delay <= Run(step, c, b).delay <= c.maxDelay
    {
      GrowsShape(step, c, a, b);
    }
  }

  lemma ShrunkShape(step: int -> int, m: real, hi: int) returns (c: Retry)
    requires IsMultiplier(m) && hi < INT64 && !Grows(step, 1, hi)
    ensures With(c, m, hi) && !WellShaped(step, c)
  {
    var x :| 1 <= x <= hi && x > step(x);
    c := Retry(true, 1, x, hi, m);
    assert Run(step, c, 0).delay == x && Run(step, c, 1).delay == step(x);
  }

  /** What one round needs of `u`: `f` does not shrink it, and up to the cap `step` is `f`, except for a product
      that is no int64 and becomes at least the cap. */
  predicate RoundOk(f: int -> int, step: int -> int, c: Retry, u: int) {
    && u <= f(u)
    && (u <= c.maxDelay ==> step(u) == f(u) || (f(u) > c.maxDelay && step(u) >= c.maxDelay))
  }

  lemma {:induction false} ClosedRun(f: int -> int, step: int -> int, c: Retry, n: nat)
    requires c.Normalised() && c.maxDelay <= step(c.maxDelay)
    requires forall k: nat | k < n :: RoundOk(f, step, c, Iterate(f, c.initialDelay, k))
    ensures Run(step, c, n).delay == Min(c.maxDelay, Iterate(f, c.initialDelay, n))
  {
    if n > 0 {
      ClosedRun(f, step, c, n - 1);
      RunAtMost(step, c, n - 1);
      assert RoundOk(f, step, c, Iterate(f, c.initialDelay, n - 1));
    }
  }

  /** Under that condition leaving the loop early loses nothing: the delay is the minimum of the cap and the
      multiplications of all rounds, without cap and without int64. */
  lemma ClosedForm(overflow: int, c: Retry, n: nat)
    requires c.Accepted() && c.multiplier >= 1.0 && NeverShrinks(overflow, c.multiplier, c.maxDelay)
    ensures Run(Machine(overflow, c.multiplier), c, n).delay
              == Min(c.maxDelay, Iterate(Float(c.multiplier), c.initialDelay, n))
  {
    var f, step := Float(c.multiplier), Machine(overflow, c.multiplier);
    forall k: nat | k < n ensures RoundOk(f, step, c, Iterate(f, c.initialDelay, k)) {
      IterateGrows(c, k);
      StepUnder(overflow, c, Iterate(f, c.initialDelay, k));
    }
    StepUnder(overflow, c, c.maxDelay);
    ClosedRun(f, step, c, n);
  }

  lemma StepUnder(overflow: int, c: Retry, u: int)
    requires c.Accepted() && c.multiplier >= 1.0 && NeverShrinks(overflow, c.multiplier, c.maxDelay) && u >= 1
    ensures c.maxDelay <= Machine(overflow, c.multiplier)(c.maxDelay)
    ensures u <= c.maxDelay ==>
              || Machine(overflow, c.multiplier)(u) == Float(c.multiplier)(u)
              || (Float(c.multiplier)(u) > c.maxDelay && Machine(overflow, c.multiplier)(u) >= c.maxDelay)
  {
    GrowsIff(overflow, c.multiplier, c.maxDelay);
    if u <= c.maxDelay { MachineFits(overflow, c.multiplier, c.maxDelay, u); }
  }

  lemma {:induction false} IterateGrows(c: Retry, n: nat)
    requires c.Normalised() && (c.multiplier >= ABOVE_ONE || (c.multiplier == 1.0 && c.maxDelay <= EXACT))
    ensures var u := Iterate(Float(c.multiplier), c.initialDelay, n);
            1 <= u <= Float(c.multiplier)(u)
  {
    if c.multiplier == 1.0 {
      OneStays(c, n);
      FloatOne(c.initialDelay);
    } else {
      if n > 0 { IterateGrows(c, n - 1); }
      FloatGrows(c.multiplier, Iterate(Float(c.multiplier), c.initialDelay, n));
    }
  }

  lemma {:induction false} OneStays(c: Retry, n: nat)
    requires c.Normalised() && c.maxDelay <= EXACT
    ensures Iterate(Float(1.0), c.initialDelay, n) == c.initialDelay
  {
    if n > 0 {
      OneStays(c, n - 1);
      FloatOne(c.initialDelay);
    }
  }
}
