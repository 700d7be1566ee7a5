/** Rounding of real numbers to float64: to nearest, ties to even (section 4.3.1 of IEEE 754-2019), with 53
    significant bits. The exponent is unbounded: the products of this project lie between 2^-149, the least
    float32, and 2^191, well inside the range of float64. */
module Float64 {

  const P52: real := 4503599627370496.0          // 2^52
  const P53: real := 9007199254740992.0          // 2^53
  const EXACT: int := 9007199254740992           // 2^53: every integer up to here is a float64

  function Whole(k: int): real { k as real }

  /** The nearest integer, the even one of two. */
  function NearestEven(x: real): int {
    var f := x.Floor;
    if x - Whole(f) < 0.5 || (x - Whole(f) == 0.5 && f % 2 == 0) then f else f + 1
  }

  /** From 2^52 up to 2^53 the floats are the integers; one binade up they are twice as far apart. */
  function RoundLarge(x: real): real
    requires x >= P52
    decreases x.Floor
  {
    if x < P53 then Whole(NearestEven(x)) else 2.0 * RoundLarge(x / 2.0)
  }

  /** One binade down they are half as far apart. */
  function RoundSmall(x: real): real
    requires 0.0 < x < P52
    decreases Inverse(x)
  {
    Doubling(x);
    (if 2.0 * x < P52 then RoundSmall(2.0 * x) else RoundLarge(2.0 * x)) / 2.0
  }

  function Round(x: real): real {
    if x == 0.0 then 0.0
    else if x >= P52 then RoundLarge(x)
    else if x > 0.0 then RoundSmall(x)
    else if x <= -P52 then -RoundLarge(-x)
    else -RoundSmall(-x)
  }

  /** How far below 2^53 a number is. */
  function Inverse(x: real): nat
    requires 0.0 < x
  {
    InverseNat(x);
    (P53 / x).Floor
  }

  lemma InverseNat(x: real)
    requires 0.0 < x
    ensures (P53 / x).Floor >= 0
  {}

  lemma Doubling(x: real)
    requires 0.0 < x < P52
    ensures Inverse(2.0 * x) < Inverse(x)
  {
    assert P53 / (2.0 * x) == (P53 / x) / 2.0;
    assert P53 / x > 2.0 by {
      assert (P53 / x) * x == P53;
    }
  }

  // ---- Doubling

  lemma HalfOfDouble(x: real)
    ensures (2.0 * x) / 2.0 == x
  {}

  /** Rounding does not depend on the binade: it commutes with doubling. */
  lemma RoundDouble(x: real)
    requires x > 0.0
    ensures Round(2.0 * x) == 2.0 * Round(x)
  {
    HalfOfDouble(x);
  }

  /** Every positive number is in the base binade, or the double or the half of one nearer to it. */
  lemma RoundHalf(x: real)
    requires x > 0.0
    ensures Round(x) == 2.0 * Round(x / 2.0)
  {
    RoundDouble(x / 2.0);
    assert 2.0 * (x / 2.0) == x;
  }

  // ---- Where results lie

  lemma {:induction false} LargeAbove(x: real)
    requires x >= P52
    ensures RoundLarge(x) >= P52 && (x >= P53 ==> RoundLarge(x) >= P53)
    ensures x < P53 ==> RoundLarge(x) <= P53
    decreases x.Floor
  {
    if x >= P53 {
      LargeAbove(x / 2.0);
    }
  }

  lemma {:induction false} SmallBelow(x: real)
    requires 0.0 < x < P52
    ensures 0.0 <= RoundSmall(x) <= P52
    decreases Inverse(x)
  {
    Doubling(x);
    if 2.0 * x < P52 {
      SmallBelow(2.0 * x);
    } else {
      LargeAbove(2.0 * x);
    }
  }

  lemma RoundNonNegative(x: real)
    requires x >= 0.0
    ensures Round(x) >= 0.0
  {
    if x >= P52 { LargeAbove(x); } else if x > 0.0 { SmallBelow(x); }
  }

  // ---- Order

  lemma NearestMonotone(x: real, y: real)
    requires x <= y
    ensures NearestEven(x) <= NearestEven(y)
  {
    if x.Floor < y.Floor {
      assert NearestEven(x) <= x.Floor + 1;
    }
  }

  lemma {:induction false} LargeMonotone(x: real, y: real)
    requires P52 <= x <= y
    ensures RoundLarge(x) <= RoundLarge(y)
    decreases x.Floor
  {
    if x >= P53 {
      LargeMonotone(x / 2.0, y / 2.0);
    } else if y >= P53 {
      LargeAbove(x);
      LargeAbove(y);
    } else {
      NearestMonotone(x, y);
    }
  }

  lemma {:induction false} SmallMonotone(x: real, y: real)
    requires 0.0 < x <= y < P52
    ensures RoundSmall(x) <= RoundSmall(y)
    decreases Inverse(x)
  {
    Doubling(x);
    Doubling(y);
    if 2.0 * y < P52 {
      SmallMonotone(2.0 * x, 2.0 * y);
    } else if 2.0 * x < P52 {
      SmallBelow(2.0 * x);
      LargeAbove(2.0 * y);
    } else {
      LargeMonotone(2.0 * x, 2.0 * y);
    }
  }

  /** Rounding keeps the order. */
  lemma RoundMonotone(x: real, y: real)
    requires 0.0 <= x <= y
    ensures Round(x) <= Round(y)
  {
    RoundNonNegative(y);
    if x >= P52 {
      LargeMonotone(x, y);
    } else if x > 0.0 {
      SmallBelow(x);
      if y >= P52 { LargeAbove(y); } else { SmallMonotone(x, y); }
    }
  }

  // ---- Error

  /** At most half a unit in the last place: 2^-53 of the number. */
  predicate Close(r: real, x: real) { -x <= (r - x) * P53 <= x }

  lemma {:induction false} LargeClose(x: real)
    requires x >= P52
    ensures Close(RoundLarge(x), x)
    decreases x.Floor
  {
    if x >= P53 {
      LargeClose(x / 2.0);
    }
  }

  lemma {:induction false} SmallClose(x: real)
    requires 0.0 < x < P52
    ensures Close(RoundSmall(x), x)
    decreases Inverse(x)
  {
    Doubling(x);
    if 2.0 * x < P52 {
      SmallClose(2.0 * x);
    } else {
      LargeClose(2.0 * x);
    }
  }

  lemma RoundClose(x: real)
    requires x >= 0.0
    ensures Close(Round(x), x)
  {
    if x >= P52 { LargeClose(x); } else if x > 0.0 { SmallClose(x); }
  }

  // ---- Integers

  predicate Integral(x: real) { x == Whole(x.Floor) }

  lemma {:induction false} LargeIntegral(x: real)
    requires x >= P52
    ensures Integral(RoundLarge(x))
    decreases x.Floor
  {
    if x >= P53 {
      LargeIntegral(x / 2.0);
      var k := RoundLarge(x / 2.0).Floor;
      assert RoundLarge(x) == Whole(2 * k);
    }
  }

  lemma {:induction false} SmallExact(k: int)
    requires 0 < k && Whole(k) < P52
    ensures RoundSmall(Whole(k)) == Whole(k)
    decreases Inverse(Whole(k))
  {
    Doubling(Whole(k));
    assert 2.0 * Whole(k) == Whole(2 * k);
    if 2.0 * Whole(k) < P52 {
      SmallExact(2 * k);
    }
  }

  /** Up to 2^53 every integer is a float. */
  lemma RoundExact(k: int)
    requires 0 <= k <= EXACT
    ensures Round(Whole(k)) == Whole(k)
  {
    if k > 0 && Whole(k) < P52 { SmallExact(k); }
  }

  /** A rounded integer is an integer. */
  lemma RoundIntegral(k: int)
    requires k >= 0
    ensures Integral(Round(Whole(k)))
  {
    if k <= EXACT { RoundExact(k); } else { LargeIntegral(Whole(k)); }
  }

  // ---- Floats

  lemma {:induction false} LargeTwice(x: real)
    requires x >= P52
    ensures Round(RoundLarge(x)) == RoundLarge(x)
    decreases x.Floor
  {
    if x >= P53 {
      LargeTwice(x / 2.0);
      LargeAbove(x / 2.0);
      RoundDouble(RoundLarge(x / 2.0));
    } else {
      RoundExact(NearestEven(x));
    }
  }

  lemma {:induction false} SmallTwice(x: real)
    requires 0.0 < x < P52
    ensures Round(RoundSmall(x)) == RoundSmall(x)
    decreases Inverse(x)
  {
    Doubling(x);
    var r := if 2.0 * x < P52 then RoundSmall(2.0 * x) else RoundLarge(2.0 * x);
    if 2.0 * x < P52 {
      SmallTwice(2.0 * x);
      SmallBelow(2.0 * x);
    } else {
      LargeTwice(2.0 * x);
      LargeAbove(2.0 * x);
    }
    if r > 0.0 { RoundHalf(r); }
  }

  /** Rounding yields a float: rounding that changes nothing. */
  lemma RoundTwice(x: real)
    requires x >= 0.0
    ensures Round(Round(x)) == Round(x)
  {
    if x >= P52 { LargeTwice(x); } else if x > 0.0 { SmallTwice(x); }
  }

  /** 2^53 + 1 lies half way between two floats and goes down. */
  lemma RoundTie()
    ensures Round(Whole(EXACT + 1)) == Whole(EXACT)
  {
    var half := P52 + 0.5;
    assert Whole(EXACT + 1) == 2.0 * half;
    RoundDouble(half);
    assert half.Floor == 4503599627370496 && half - Whole(half.Floor) == 0.5;
    assert NearestEven(half) == half.Floor;
    assert Round(half) == RoundLarge(half) == P52;
  }

  /** From 2^52 up to 2^53 the floats are the integers, so k + 1/2 lies half way between two: rounding takes the
      even one. Doubling carries this to every binade. */
  lemma RoundTies(k: int)
    requires P52 <= Whole(k) < P53
    ensures Round(Whole(k) + 0.5) == Whole(if k % 2 == 0 then k else k + 1)
  {
    var x := Whole(k) + 0.5;
    assert x.Floor == k && x - Whole(x.Floor) == 0.5;
    assert x < P53;
    assert Round(x) == RoundLarge(x) == Whole(NearestEven(x));
  }

  // ---- Nearest

  function Distance(x: real, y: real): real { if x <= y then y - x else x - y }

  predicate IsFloat(v: real) { v >= 0.0 && Round(v) == v }

  lemma NearestInteger(x: real, k: int)
    ensures Distance(Whole(NearestEven(x)), x) <= Distance(Whole(k), x)
  {
    var f := x.Floor;
    assert Whole(f) <= x < Whole(f) + 1.0 && Whole(f + 1) == Whole(f) + 1.0;
    if k <= f {
      assert Whole(k) <= Whole(f);
    } else {
      assert Whole(k) >= Whole(f + 1);
    }
  }

  lemma {:induction false} LargeNearest(x: real, v: real)
    requires x >= P52 && IsFloat(v)
    ensures Distance(RoundLarge(x), x) <= Distance(v, x)
    decreases x.Floor
  {
    if x >= P53 {
      if v > 0.0 { RoundHalf(v); }
      LargeNearest(x / 2.0, v / 2.0);
    } else if v < P52 {
      NearestInteger(x, 4503599627370496);
    } else if v > P53 {
      NearestInteger(x, EXACT);
    } else {
      if v < P53 { LargeIntegral(v); }
      NearestInteger(x, v.Floor);
    }
  }

  lemma {:induction false} SmallNearest(x: real, v: real)
    requires 0.0 < x < P52 && IsFloat(v)
    ensures Distance(RoundSmall(x), x) <= Distance(v, x)
    decreases Inverse(x)
  {
    Doubling(x);
    if v > 0.0 { RoundDouble(v); }
    if 2.0 * x < P52 {
      SmallNearest(2.0 * x, 2.0 * v);
    } else {
      LargeNearest(2.0 * x, 2.0 * v);
    }
  }

  /** The result is a float, and no float is nearer. */
  lemma RoundNearest(x: real, v: real)
    requires x >= 0.0 && IsFloat(v)
    ensures IsFloat(Round(x)) && Distance(Round(x), x) <= Distance(v, x)
  {
    RoundTwice(x);
    RoundNonNegative(x);
    if x >= P52 { LargeNearest(x, v); } else if x > 0.0 { SmallNearest(x, v); }
  }
}
