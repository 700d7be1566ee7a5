/** Retry delays and int64: when a product leaves it, and what that does to the delay. */
module Overflow {
  import opened Float64
  import opened Backoff

  /** `step` is `f` with the conversion to int64. */
  ghost predicate Converts(f: int -> int, step: int -> int, overflow: int) {
    forall u | u >= 0 :: 0 <= f(u) && step(u) == ToInt64(f(u), overflow)
  }

  lemma MachineConverts(overflow: int, m: real)
    requires m > 0.0
    ensures Converts(Float(m), Machine(overflow, m), overflow)
  {
    forall u | u >= 0 ensures 0 <= Float(m)(u) {
      FloatMonotone(m, 0, u);
    }
  }

  /** The first iterate above the cap is the one of round `k`. */
  predicate FirstOver(f: int -> int, c: Retry, k: nat) {
    && Iterate(f, c.initialDelay, k) > c.maxDelay
    && forall j: nat | j < k :: Iterate(f, c.initialDelay, j) <= c.maxDelay
  }

  /** It is no int64. */
  ghost predicate OverflowsBy(f: int -> int, c: Retry) {
    exists k: nat :: FirstOver(f, c, k) && Iterate(f, c.initialDelay, k) >= INT64
  }

  ghost predicate Overflows(c: Retry) { OverflowsBy(Float(c.multiplier), c) }

  /** While the iterates are within the cap the loop follows them. */
  lemma {:induction false} RunFollows(f: int -> int, step: int -> int, overflow: int, c: Retry, n: nat)
    requires c.Accepted() && Converts(f, step, overflow)
    requires forall j: nat | j <= n :: Iterate(f, c.initialDelay, j) <= c.maxDelay
    ensures Run(step, c, n) == Course(Iterate(f, c.initialDelay, n), false)
    ensures Iterate(f, c.initialDelay, n) >= 0
  {
    if n > 0 {
      RunFollows(f, step, overflow, c, n - 1);
      assert Iterate(f, c.initialDelay, n) == f(Iterate(f, c.initialDelay, n - 1)) <= c.maxDelay;
    }
  }

  /** In the first round above the cap the loop is left, or goes on with what the overflow has become. */
  lemma RunOver(f: int -> int, step: int -> int, overflow: int, c: Retry, k: nat)
    requires c.Accepted() && Converts(f, step, overflow) && FirstOver(f, c, k)
    ensures k > 0 && 0 <= Iterate(f, c.initialDelay, k - 1) <= c.maxDelay
    ensures Run(step, c, k) ==
              if Iterate(f, c.initialDelay, k) < INT64 || overflow > c.maxDelay then Course(c.maxDelay, true)
              else Course(overflow, false)
  {
    assert k > 0;
    RunFollows(f, step, overflow, c, k - 1);
    assert Iterate(f, c.initialDelay, k) == f(Iterate(f, c.initialDelay, k - 1));
  }

  lemma {:induction false} FindOver(f: int -> int, c: Retry, n: nat) returns (k: nat)
    requires c.Normalised()
    ensures k <= n + 1
    ensures forall j: nat | j < k :: Iterate(f, c.initialDelay, j) <= c.maxDelay
    ensures k <= n ==> FirstOver(f, c, k)
  {
    if n == 0 {
      k := 1;
    } else {
      k := FindOver(f, c, n - 1);
      if k == n && Iterate(f, c.initialDelay, n) <= c.maxDelay {
        k := n + 1;
      }
    }
  }

  lemma NoNegative(f: int -> int, step: int -> int, overflow: int, c: Retry, n: nat)
    requires c.Accepted() && Converts(f, step, overflow) && (overflow >= 0 || !OverflowsBy(f, c))
    ensures Run(step, c, n).delay >= 0
  {
    var k := FindOver(f, c, n);
    if k == n + 1 {
      RunFollows(f, step, overflow, c, n);
    } else if Iterate(f, c.initialDelay, k) < INT64 {
      RunOver(f, step, overflow, c, k);
      LeftStays(step, c, k, n);
    } else {
      StaysNonNegative(f, step, overflow, c, n);
    }
  }

  lemma {:induction false} StaysNonNegative(f: int -> int, step: int -> int, overflow: int, c: Retry, n: nat)
    requires c.Accepted() && Converts(f, step, overflow) && overflow >= 0
    ensures Run(step, c, n).delay >= 0
  {
    if n > 0 {
      StaysNonNegative(f, step, overflow, c, n - 1);
    }
  }

  /** Where an overflow turns negative: an accepted configuration has a negative delay if and only if the first
      iterate above its cap is no int64. */
  lemma NegativeDelayIff(overflow: int, c: Retry)
    requires c.Accepted() && overflow < 0
    ensures (exists n: nat :: Run(Machine(overflow, c.multiplier), c, n).delay < 0) <==> Overflows(c)
  {
    MachineConverts(overflow, c.multiplier);
    NegativeIff(Float(c.multiplier), Machine(overflow, c.multiplier), overflow, c);
  }

  lemma NegativeIff(f: int -> int, step: int -> int, overflow: int, c: Retry)
    requires c.Accepted() && Converts(f, step, overflow) && overflow < 0
    ensures (exists n: nat :: Run(step, c, n).delay < 0) <==> OverflowsBy(f, c)
  {
    if k: nat :| FirstOver(f, c, k) && Iterate(f, c.initialDelay, k) >= INT64 {
      RunOver(f, step, overflow, c, k);
      assert Run(step, c, k).delay < 0;
    } else {
      forall n: nat ensures Run(step, c, n).delay >= 0 {
        NoNegative(f, step, overflow, c, n);
      }
    }
  }

  /** For a multiplier and a cap: some accepted configuration with these two overflows if and only if the cap
      times the multiplier is no int64. */
  lemma OverflowWithIff(m: real, hi: int)
    requires IsMultiplier(m) && 1 <= hi < INT64
    ensures (exists c :: With(c, m, hi) && Overflows(c)) <==> !Fits(m, hi)
  {
    if !Fits(m, hi) {
      var c := Retry(true, 1, hi, hi, m);
      OverflowAtOnce(Float(m), c);
      assert With(c, m, hi) && Overflows(c);
    }
    if c :| With(c, m, hi) && Overflows(c) {
      MachineConverts(0, m);
      var u := LastWithin(Float(m), Machine(0, m), c);
      FloatMonotone(m, u, hi);
    }
  }

  lemma OverflowAtOnce(f: int -> int, c: Retry)
    requires c.initialDelay == c.maxDelay < INT64 <= f(c.maxDelay)
    ensures OverflowsBy(f, c)
  {
    assert Iterate(f, c.initialDelay, 0) == c.initialDelay;
    assert Iterate(f, c.initialDelay, 1) == f(c.initialDelay);
    assert FirstOver(f, c, 1);
  }

  lemma LastWithin(f: int -> int, step: int -> int, c: Retry) returns (u: int)
    requires c.Accepted() && Converts(f, step, 0) && OverflowsBy(f, c)
    ensures 0 <= u <= c.maxDelay && f(u) >= INT64
  {
    var k: nat :| FirstOver(f, c, k) && Iterate(f, c.initialDelay, k) >= INT64;
    RunOver(f, step, 0, c, k);
    u := Iterate(f, c.initialDelay, k - 1);
    assert Iterate(f, c.initialDelay, k) == f(u);
  }

  lemma FloatNegative(m: real, d: int)
    requires d < 0 && m >= 1.0
    ensures Float(m)(d) < 0
  {
    RoundExact(1);
    RoundMonotone(1.0, Whole(-d));
    var r := Round(Whole(-d));
    assert Whole(d) == -Whole(-d) && Round(Whole(d)) == -r;
    ProductGrows(r, m, 1.0);
    assert Product(-r, m) == -Product(r, m);
    RoundMonotone(1.0, Product(r, m));
  }

  /** Once negative, the delay of every later attempt is, and the loop is never left. */
  lemma {:induction false} NegativeStays(overflow: int, c: Retry, k: nat, n: nat)
    requires c.Accepted() && c.multiplier >= 1.0 && overflow < 0 && k <= n
    requires Run(Machine(overflow, c.multiplier), c, k).delay < 0
    ensures Run(Machine(overflow, c.multiplier), c, n).delay < 0 && !Run(Machine(overflow, c.multiplier), c, n).left
  {
    RunAtMost(Machine(overflow, c.multiplier), c, n);
    if k < n {
      NegativeStays(overflow, c, k, n - 1);
      FloatNegative(c.multiplier, Run(Machine(overflow, c.multiplier), c, n - 1).delay);
    }
  }

  /** One second, capped at one second, times 10^10: accepted, and negative from the first retry on. */
  lemma NegativeDelay(overflow: int, n: nat) returns (c: Retry)
    requires overflow < 0 && n >= 1
    ensures c == Retry(true, 3, 1_000_000_000, 1_000_000_000, 10_000_000_000.0) && c.Accepted()
    ensures Delay(Machine(overflow, c.multiplier), c, n) < 0
  {
    c := Retry(true, 3, 1_000_000_000, 1_000_000_000, 10_000_000_000.0);
    RoundExact(1_000_000_000);
    var p := Product(Whole(1_000_000_000), 10_000_000_000.0);
    assert p == 10_000_000_000_000_000_000.0;
    RoundClose(p);
    TruncateBounds(Round(p), INT64);
    assert Float(c.multiplier)(1_000_000_000) == Truncate(Round(p)) >= INT64;
    assert Run(Machine(overflow, c.multiplier), c, 0).delay == 1_000_000_000;
    assert Run(Machine(overflow, c.multiplier), c, 1).delay == overflow;
    NegativeStays(overflow, c, 1, n);
  }

  /** When no product is an int64, as for an infinite or a NaN multiplier, every retry has what the conversion
      yields, up to the cap. */
  lemma {:induction false} NoNumber(step: int -> int, overflow: int, c: Retry, n: nat)
    requires c.Normalised() && (forall d :: step(d) == overflow) && n >= 1
    ensures Run(step, c, n) == if overflow > c.maxDelay then Course(c.maxDelay, true) else Course(overflow, false)
  {
    if n > 1 {
      NoNumber(step, overflow, c, n - 1);
    }
  }
}
