/** The retry schedule as a whole: multipliers below 1, the number of rounds, whole and real multipliers, and the
    sum of the delays. */
module Schedule {
  import opened Float64
  import opened Backoff
  import opened Overflow

  // ---- Multipliers below 1

  /** Multiplier below 1, which normalisation allows: nonincreasing, never capped, and zero from attempt number
      initialDelay on. */
  lemma DelayShrinks(overflow: int, c: Retry, a: nat, b: nat)
    requires c.Accepted() && c.multiplier < 1.0 && a <= b
    ensures var step := Machine(overflow, c.multiplier);
            && 0 <= Run(step, c, b).delay <= Run(step, c, a).delay <= c.initialDelay
            && Run(step, c, b) == Course(Iterate(Float(c.multiplier), c.initialDelay, b), false)
            && (c.initialDelay <= b ==> Run(step, c, b).delay == 0)
  {
    MachineConverts(overflow, c.multiplier);
    forall u | u >= 0 ensures Shrinks(Float(c.multiplier), u) {
      FloatShrinks(c.multiplier, u);
    }
    RunShrinks(Float(c.multiplier), Machine(overflow, c.multiplier), overflow, c, a, b);
  }

  predicate Shrinks(f: int -> int, u: int) { if u > 0 then f(u) < u else f(u) == u }

  lemma {:induction false} RunShrinks(f: int -> int, step: int -> int, overflow: int, c: Retry, a: nat, b: nat)
    requires c.Accepted() && Converts(f, step, overflow) && a <= b
    requires forall u | u >= 0 :: Shrinks(f, u)
    ensures 0 <= Run(step, c, b).delay <= Run(step, c, a).delay <= c.initialDelay
    ensures Run(step, c, b) == Course(Iterate(f, c.initialDelay, b), false)
    ensures Run(step, c, b).delay == 0 || Run(step, c, b).delay <= c.initialDelay - b
    decreases b
  {
    if b > 0 {
      RunShrinks(f, step, overflow, c, if a < b then a else b - 1, b - 1);
      assert Shrinks(f, Run(step, c, b - 1).delay);
    }
  }

  // ---- How many rounds

  function Pow(b: int, n: nat): int { if n == 0 then 1 else b * Pow(b, n - 1) }

  /** A multiplication that stays within the cap at least doubles what the delay has been rounded to. */
  predicate DoublesWithin(step: int -> int, hi: int, u: int) {
    0 < u <= hi && step(u) <= hi ==>
      && step(u) > 0
      && Whole(step(u)) >= 2.0 * Round(Whole(u)) && Round(Whole(step(u))) >= 2.0 * Round(Whole(u))
  }

  lemma MachineDoubles(overflow: int, m: real, hi: int, u: int)
    requires m >= 2.0 && (Fits(m, hi) || overflow > hi)
    ensures DoublesWithin(Machine(overflow, m), hi, u)
  {
    if 0 < u <= hi {
      MachineFits(overflow, m, hi, u);
      FloatDoubles(m, u);
      FloatGrows(m, u);
    }
  }

  /** Iterates within the cap have doubled in every round. */
  lemma {:induction false} Doubles(step: int -> int, c: Retry, n: nat)
    requires c.Normalised() && forall u :: DoublesWithin(step, c.maxDelay, u)
    requires forall j: nat | 1 <= j <= n :: Iterate(step, c.initialDelay, j) <= c.maxDelay
    ensures var u, start := Iterate(step, c.initialDelay, n), Round(Whole(c.initialDelay));
            && 0 < u <= c.maxDelay && Round(Whole(u)) >= Product(start, Whole(Pow(2, n)))
            && (n > 0 ==> Whole(u) >= Product(start, Whole(Pow(2, n))))
  {
    if n > 0 {
      Doubles(step, c, n - 1);
      assert DoublesWithin(step, c.maxDelay, Iterate(step, c.initialDelay, n - 1));
      DoubleProduct(Round(Whole(c.initialDelay)), Pow(2, n - 1));
    }
  }

  lemma DoubleProduct(x: real, p: int)
    ensures Product(x, Whole(2 * p)) == 2.0 * Product(x, Whole(p))
  {}

  /** Multiplier at least 2: once 2^k times the rounded initial delay exceeds the cap, no attempt takes more than
      k rounds, unless an overflow becomes a value within the cap. */
  lemma RoundsBound(overflow: int, c: Retry, k: nat, attempt: int, delay: int, rounds: nat)
    requires c.Accepted() && c.multiplier >= 2.0 && (Fits(c.multiplier, c.maxDelay) || overflow > c.maxDelay)
    requires FirstAbove(Machine(overflow, c.multiplier), c, attempt, delay, rounds)
    requires k >= 1 && Product(Round(Whole(c.initialDelay)), Whole(Pow(2, k))) > Whole(c.maxDelay)
    ensures rounds <= k
  {
    forall u ensures DoublesWithin(Machine(overflow, c.multiplier), c.maxDelay, u) {
      MachineDoubles(overflow, c.multiplier, c.maxDelay, u);
    }
    if k < rounds {
      Doubles(Machine(overflow, c.multiplier), c, k);
    }
  }

  // ---- Whole multipliers

  function Times(m: int): int -> int { (d: int) => d * m }

  lemma Regroup(x: int, y: int, z: int)
    ensures (x * z) * y == x * (y * z)
  {}

  lemma PositiveProduct(x: int, y: int)
    requires x >= 1 && y >= 1
    ensures x * y >= x
  {}

  lemma {:induction false} IteratePower(d: int, m: int, n: nat)
    requires d >= 1 && m >= 1
    ensures Iterate(Times(m), d, n) == d * Pow(m, n) && Iterate(Times(m), d, n) >= 1
  {
    if n > 0 {
      IteratePower(d, m, n - 1);
      Regroup(d, m, Pow(m, n - 1));
      PositiveProduct(Iterate(Times(m), d, n - 1), m);
    }
  }

  lemma WholeRound(overflow: int, c: Retry, m: int, u: int)
    requires c.Accepted() && c.multiplier == Whole(m) && m >= 1 && c.maxDelay <= EXACT && u >= 1
    requires Fits(c.multiplier, c.maxDelay) || c.maxDelay <= overflow
    ensures RoundOk(Times(m), Machine(overflow, c.multiplier), c, u)
  {
    PositiveProduct(u, m);
    if u <= c.maxDelay {
      FloatWhole(m, u);
      MachineFits(overflow, c.multiplier, c.maxDelay, u);
    }
  }

  /** A whole multiplier and a cap of at most 2^53: rounding plays no part, and the delay is the minimum of the
      cap and initialDelay * m^attempt. */
  lemma IntegerDelay(overflow: int, c: Retry, m: int, n: nat)
    requires c.Accepted() && c.multiplier == Whole(m) && m >= 1 && c.maxDelay <= EXACT
    requires Fits(c.multiplier, c.maxDelay) || c.maxDelay <= overflow
    ensures Run(Machine(overflow, c.multiplier), c, n).delay == Min(c.maxDelay, c.initialDelay * Pow(m, n))
  {
    forall k: nat | k < n
      ensures RoundOk(Times(m), Machine(overflow, c.multiplier), c, Iterate(Times(m), c.initialDelay, k))
    {
      IteratePower(c.initialDelay, m, k);
      WholeRound(overflow, c, m, Iterate(Times(m), c.initialDelay, k));
    }
    WholeRound(overflow, c, m, c.maxDelay);
    PositiveProduct(c.maxDelay, m);
    ClosedRun(Times(m), Machine(overflow, c.multiplier), c, n);
    IteratePower(c.initialDelay, m, n);
  }

  // ---- Real multipliers

  /** Multiplication by `m`. */
  function By(m: real): real -> real { (x: real) => Product(x, m) }

  /** `n` steps of `f` over the reals: initialDelay * m^n when `f` is multiplication by m. */
  function Ideal(f: real -> real, initial: real, n: nat): real {
    if n == 0 then initial else f(Ideal(f, initial, n - 1))
  }

  /** 1 + f(1 + f(1 + ...)) with `n` ones: 1 + m + ... + m^(n-1) when `f` is multiplication by m. */
  function Loss(f: real -> real, n: nat): real {
    if n == 0 then 0.0 else f(Loss(f, n - 1)) + 1.0
  }

  function RealPow(b: real, n: nat): real { if n == 0 then 1.0 else RealPow(b, n - 1) * b }

  function Geometric(m: real, n: nat): real { if n == 0 then 0.0 else Geometric(m, n - 1) + RealPow(m, n - 1) }

  lemma DistributeReal(x: real, y: real, m: real)
    ensures (x + y) * m == x * m + y * m
  {}

  lemma RegroupReal(x: real, y: real, z: real)
    ensures (x * y) * z == x * (y * z)
  {}

  lemma {:induction false} IdealIsPower(initial: real, m: real, n: nat)
    ensures Ideal(By(m), initial, n) == initial * RealPow(m, n)
  {
    if n > 0 {
      IdealIsPower(initial, m, n - 1);
      RegroupReal(initial, RealPow(m, n - 1), m);
    }
  }

  lemma {:induction false} LossIsGeometric(m: real, n: nat)
    ensures Loss(By(m), n) == Geometric(m, n)
    ensures Geometric(m, n + 1) == Geometric(m, n) * m + 1.0
  {
    if n > 0 {
      LossIsGeometric(m, n - 1);
      DistributeReal(Geometric(m, n - 1), RealPow(m, n - 1), m);
    }
  }

  /** What two roundings can take away from a product, or add to it. */
  const LESS: real := 9007199254740991.0 / P53
  const MORE: real := 9007199254740993.0 / P53

  function Low(m: real): real { LESS * LESS * m }
  function High(m: real): real { MORE * MORE * m }

  lemma ProductScaled(x: real, k: real, m: real)
    ensures Product(x, k * m) == k * Product(x, m) == Product(k * x, m)
  {}

  /** One multiplication: at most two roundings and one truncation away from the product. */
  predicate Near(f: int -> int, lo: real, hi: real, u: int) {
    0 <= f(u) && Product(Whole(u), lo) - 1.0 < Whole(f(u)) <= Product(Whole(u), hi)
  }

  lemma RoundWithin(x: real)
    requires x >= 0.0
    ensures 0.0 <= LESS * x <= Round(x) <= MORE * x
  {
    RoundClose(x);
  }

  lemma RoundedProduct(x: real, m: real)
    requires m > 0.0 && x >= 0.0
    ensures 0.0 <= Product(x, Low(m)) <= Round(Product(Round(x), m)) <= Product(x, High(m))
  {
    RoundWithin(x);
    ProductMonotone(LESS * x, Round(x), m);
    ProductMonotone(Round(x), MORE * x, m);
    RoundWithin(Product(Round(x), m));
    TwoRoundings(x, m);
    Chain(LESS, MORE, Product(LESS * x, m), Product(Round(x), m), Product(MORE * x, m), Round(Product(Round(x), m)));
  }

  lemma Chain(less: real, more: real, a: real, p: real, b: real, q: real)
    requires less > 0.0 && more > 0.0 && 0.0 <= a <= p <= b && less * p <= q <= more * p
    ensures 0.0 <= less * a <= q <= more * b
  {}

  lemma TwoRoundings(x: real, m: real)
    ensures Product(x, Low(m)) == LESS * Product(LESS * x, m)
    ensures Product(x, High(m)) == MORE * Product(MORE * x, m)
  {
    ProductScaled(x, LESS, m);
    ProductScaled(x, MORE, m);
    ProductScaled(x, LESS * LESS, m);
    ProductScaled(x, MORE * MORE, m);
  }

  lemma FloatNear(m: real, u: int)
    requires m > 0.0 && u >= 0
    ensures Near(Float(m), Low(m), High(m), u)
  {
    RoundedProduct(Whole(u), m);
    TruncateBounds(Round(Product(Round(Whole(u)), m)), 0);
  }

  lemma ProductMinus(x: real, y: real, m: real)
    ensures Product(x - y, m) == Product(x, m) - Product(y, m)
  {}

  /** For every multiplier and n >= 1 the delay without cap lies in
      (initialDelay * l^n - (1 + l + ... + l^(n-1)), initialDelay * h^n], where l and h are the multiplier less or
      more 2^-53, twice. `IdealIsPower` and `LossIsGeometric` say that the two bounds are these. */
  lemma TruncationBound(c: Retry, n: nat)
    requires c.Normalised() && n >= 1
    ensures var lo, hi := By(Low(c.multiplier)), By(High(c.multiplier));
            Ideal(lo, Whole(c.initialDelay), n) - Loss(lo, n)
              < Whole(Iterate(Float(c.multiplier), c.initialDelay, n)) <= Ideal(hi, Whole(c.initialDelay), n)
  {
    var m := c.multiplier;
    assert Low(m) > 0.0 && High(m) > 0.0;
    forall u | u >= 0 ensures Near(Float(m), Low(m), High(m), u) {
      FloatNear(m, u);
    }
    NearBounds(Float(m), Low(m), High(m), c.initialDelay, n);
  }

  lemma {:induction false} NearBounds(f: int -> int, lo: real, hi: real, d: int, n: nat)
    requires lo > 0.0 && hi > 0.0 && d >= 0 && forall u | u >= 0 :: Near(f, lo, hi, u)
    ensures 0 <= Iterate(f, d, n) && Whole(Iterate(f, d, n)) <= Ideal(By(hi), Whole(d), n)
    ensures Ideal(By(lo), Whole(d), n) - Loss(By(lo), n) <= Whole(Iterate(f, d, n))
    ensures n >= 1 ==> Ideal(By(lo), Whole(d), n) - Loss(By(lo), n) < Whole(Iterate(f, d, n))
  {
    if n > 0 {
      NearBounds(f, lo, hi, d, n - 1);
      var u, ideal, loss := Iterate(f, d, n - 1), Ideal(By(lo), Whole(d), n - 1), Loss(By(lo), n - 1);
      assert Near(f, lo, hi, u);
      ProductLess(ideal - loss, Whole(u), lo);
      ProductLess(Whole(u), Ideal(By(hi), Whole(d), n - 1), hi);
      ProductMinus(ideal, loss, lo);
    }
  }

  lemma ProductLess(x: real, y: real, m: real)
    requires x <= y && m > 0.0
    ensures Product(x, m) <= Product(y, m)
  {}

  // ---- The whole schedule

  /** The delays before attempts 0, ..., n-1. */
  function Total(step: int -> int, c: Retry, n: nat): int {
    if n == 0 then 0 else Total(step, c, n - 1) + Run(step, c, n - 1).delay
  }

  lemma Distribute(x: int, y: int, k: int)
    ensures (x + y) * k == x * k + y * k
  {}

  lemma TimesInt(x: int, y: int, k: int)
    requires x <= y && k >= 0
    ensures x * k <= y * k
  {}

  /** The attempts that ShouldRetry accepts from 0 upward are the prefix below MaxAttempts when retry is
      enabled and none otherwise. Their delays add up to at most MaxAttempts * MaxDelay, and to no negative
      number unless an overflow turns negative. */
  lemma AcceptedAttempts(r: RetryManager, overflow: int, n: nat)
    requires r.config.Accepted() && r.step == Machine(overflow, r.config.multiplier)
    ensures r.ShouldRetry(n) <==> r.config.enable && n < r.config.maxAttempts
    ensures Total(r.step, r.config, n) <= n * r.config.maxDelay
    ensures n <= r.config.maxAttempts ==> Total(r.step, r.config, n) <= r.config.maxAttempts * r.config.maxDelay
    ensures overflow >= 0 || !Overflows(r.config) ==> 0 <= Total(r.step, r.config, n)
  {
    TotalAtMost(r.step, r.config, n);
    if n <= r.config.maxAttempts {
      TimesInt(n, r.config.maxAttempts, r.config.maxDelay);
    }
    if overflow >= 0 || !Overflows(r.config) {
      MachineConverts(overflow, r.config.multiplier);
      TotalNonNegative(Float(r.config.multiplier), r.step, overflow, r.config, n);
    }
  }

  lemma {:induction false} TotalAtMost(step: int -> int, c: Retry, n: nat)
    requires c.Normalised()
    ensures Total(step, c, n) <= n * c.maxDelay
  {
    if n > 0 {
      TotalAtMost(step, c, n - 1);
      RunAtMost(step, c, n - 1);
      Distribute(n - 1, 1, c.maxDelay);
    }
  }

  lemma {:induction false} TotalNonNegative(f: int -> int, step: int -> int, overflow: int, c: Retry, n: nat)
    requires c.Accepted() && Converts(f, step, overflow) && (overflow >= 0 || !OverflowsBy(f, c))
    ensures 0 <= Total(step, c, n)
  {
    if n > 0 {
      TotalNonNegative(f, step, overflow, c, n - 1);
      NoNegative(f, step, overflow, c, n - 1);
    }
  }

  /** For a whole multiplier m > 1 and a cap of at most 2^53 the delays of the first n attempts add up to at most
      initialDelay * (m^n - 1) / (m - 1). */
  lemma GeometricTotal(overflow: int, c: Retry, m: int, n: nat)
    requires c.Accepted() && c.multiplier == Whole(m) && m > 1 && c.maxDelay <= EXACT
    requires Fits(c.multiplier, c.maxDelay) || c.maxDelay <= overflow
    ensures Total(Machine(overflow, c.multiplier), c, n) * (m - 1) <= c.initialDelay * (Pow(m, n) - 1)
  {
    forall k: nat ensures Run(Machine(overflow, c.multiplier), c, k).delay <= c.initialDelay * Pow(m, k) {
      IntegerDelay(overflow, c, m, k);
    }
    GeometricSum(Machine(overflow, c.multiplier), c, m, n);
  }

  lemma {:induction false} GeometricSum(step: int -> int, c: Retry, m: int, n: nat)
    requires m > 1 && forall k: nat :: Run(step, c, k).delay <= c.initialDelay * Pow(m, k)
    ensures Total(step, c, n) * (m - 1) <= c.initialDelay * (Pow(m, n) - 1)
  {
    if n > 0 {
      GeometricSum(step, c, m, n - 1);
      GeometricStep(Total(step, c, n - 1), Run(step, c, n - 1).delay, c.initialDelay, m, Pow(m, n - 1));
    }
  }

  lemma GeometricStep(total: int, delay: int, initial: int, m: int, p: int)
    requires m > 1 && total * (m - 1) <= initial * (p - 1) && delay <= initial * p
    ensures (total + delay) * (m - 1) <= initial * (m * p - 1)
  {
    var q := initial * p;
    calc {
      (total + delay) * (m - 1);
    == { Distribute(total, delay, m - 1); }
      total * (m - 1) + delay * (m - 1);
    <= { TimesInt(delay, q, m - 1); }
      initial * (p - 1) + q * (m - 1);
    == { Distribute(p, -1, initial); Distribute(m, -1, q); }
      q * m - initial;
    == { Regroup(initial, m, p); Distribute(m * p, -1, initial); }
      initial * (m * p - 1);
    }
  }
}
