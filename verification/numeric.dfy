/**
 * Exact-real stand-ins for the few numeric built-ins of Python the core uses:
 * `round(x, n)`, `int(x)` and `abs(x)`. Floating point itself is not modelled;
 * every score, weight and distance is an exact `real`.
 */
module Numeric {

  function AbsInt(x: int): (r: nat)
    ensures r == x || r == -x
  {
    if x < 0 then -x else x
  }

  function AbsReal(x: real): (r: real)
    ensures r >= 0.0
    ensures r == x || r == -x
  {
    if x < 0.0 then -x else x
  }

  function Pow10(n: nat): (p: nat)
    ensures p >= 1
  {
    if n == 0 then 1 else 10 * Pow10(n - 1)
  }

  /** The integer nearest to `y`, ties going to the even neighbour. */
  function RoundHalfEven(y: real): (n: int)
    ensures NearestHalfEven(n, y)
  {
    var n := y.Floor;
    var frac := y - n as real;
    if frac > 0.5 then n + 1
    else if frac < 0.5 then n
    else if n % 2 == 0 then n
    else n + 1
  }

  /** `y` lies exactly half-way between `n` and one of its neighbours. */
  predicate IsTie(n: int, y: real)
  {
    n as real - y == 0.5 || y - n as real == 0.5
  }

  /** `n` is within one half of `y`, and even when `y` is a tie. */
  predicate NearestHalfEven(n: int, y: real)
  {
    && -0.5 <= n as real - y <= 0.5
    && (IsTie(n, y) ==> n % 2 == 0)
  }

  /** Half-even rounding is the only integer within one half of `y` that
      is even whenever `y` is a tie. */
  lemma {:induction false} RoundHalfEvenUnique(y: real, n: int)
    requires NearestHalfEven(n, y)
    ensures n == RoundHalfEven(y)
  {
    var m := RoundHalfEven(y);
    if n != m {
      assert IsTie(n, y) && IsTie(m, y);
    }
  }

  /** `x * 10^places`, the value `round` rounds to an integer. */
  function ScaledValue(x: real, places: nat): real
  {
    x * Pow10(places) as real
  }

  /** The integer `k` such that `round(x, places) == k / 10^places`; for a
      unit value it lies between 0 and the scale. */
  function RoundScaled(x: real, places: nat): (k: int)
    ensures NearestHalfEven(k, ScaledValue(x, places))
    ensures 0.0 <= x <= 1.0 ==> 0 <= k <= Pow10(places)
  {
    if 0.0 <= x <= 1.0 then
      RoundedUnitInRange(x, places);
      RoundHalfEven(ScaledValue(x, places))
    else
      RoundHalfEven(ScaledValue(x, places))
  }

  /** Python's `round(x, places)` on an exact value (banker's rounding). */
  function Round(x: real, places: nat): (r: real)
    ensures r * Pow10(places) as real == RoundScaled(x, places) as real
    ensures 0.0 <= x <= 1.0 ==> 0.0 <= r <= 1.0
  {
    var s := Pow10(places) as real;
    var k := RoundScaled(x, places) as real;
    assert k / s * s == k;
    if 0.0 <= x <= 1.0 then
      FractionInUnit(k, s);
      k / s
    else
      k / s
  }

  /** `round(x, n)` is `k / 10^n` exactly for the integer `k` nearest to
      `x * 10^n`, ties going to the even one. */
  lemma {:induction false} RoundIsHalfEven(x: real, places: nat, k: int)
    ensures NearestHalfEven(k, ScaledValue(x, places)) <==> k == RoundScaled(x, places)
    ensures NearestHalfEven(k, ScaledValue(x, places)) <==> Round(x, places) * Pow10(places) as real == k as real
  {
    HalfEvenIff(ScaledValue(x, places), RoundScaled(x, places), RoundScaled(x, places) as real, k);
  }

  /** Given one half-even rounding `scaled` of `y`, an integer is one too
      exactly when it equals `scaled`. */
  lemma HalfEvenIff(y: real, scaled: int, value: real, k: int)
    requires NearestHalfEven(scaled, y)
    requires value == scaled as real
    ensures NearestHalfEven(k, y) <==> value == k as real
  {
    RoundHalfEvenUnique(y, scaled);
    if NearestHalfEven(k, y) {
      RoundHalfEvenUnique(y, k);
    }
  }

  /** Python's `int(x)` on a real: truncation toward zero. */
  function Trunc(x: real): int
  {
    if x >= 0.0 then x.Floor else -((-x).Floor)
  }

  /** The scaled rounding is never more than one half away from the scaled value. */
  lemma {:induction false} RoundScaledClose(x: real, places: nat)
    ensures -0.5 <= RoundScaled(x, places) as real - x * Pow10(places) as real <= 0.5
  {
  }

  /** `round` moves its argument by at most half a unit in the last kept place. */
  lemma {:induction false} RoundClose(x: real, places: nat)
    ensures -0.5 <= (Round(x, places) - x) * Pow10(places) as real <= 0.5
  {
    var s := Pow10(places) as real;
    var k := RoundScaled(x, places) as real;
    RoundScaledClose(x, places);
    assert Round(x, places) * s == k;
    assert (Round(x, places) - x) * s == k - x * s;
  }

  /** `y` lies within half a unit in the fourth decimal place of `x`. */
  predicate Within4(y: real, x: real)
  {
    -0.00005 <= y - x <= 0.00005
  }

  /** `round(x, 4)` is within 0.00005 of `x`. */
  lemma {:induction false} Round4Close(x: real)
    ensures Within4(Round(x, 4), x)
  {
    RoundClose(x, 4);
    assert Pow10(4) == 10000;
  }

  /** `round(x, 2)` is within 0.005 of `x`. */
  lemma {:induction false} Round2Close(x: real)
    ensures -0.005 <= Round(x, 2) - x <= 0.005
  {
    RoundClose(x, 2);
    assert Pow10(2) == 100;
  }

  /** Multiplying a fraction of the unit interval by a positive scale stays within the scale. */
  lemma ScaledUnitBounds(x: real, s: real)
    requires 0.0 <= x <= 1.0 && s >= 1.0
    ensures 0.0 <= x * s <= s
  {
  }

  /** Rounding to an integer keeps a value inside any integer interval [0, m]. */
  lemma RoundHalfEvenInRange(y: real, m: int)
    requires 0.0 <= y <= m as real
    ensures 0 <= RoundHalfEven(y) <= m
  {
    if y.Floor == m {
      assert y - m as real == 0.0;
    }
  }

  /** A unit value scaled by `10^places` rounds into [0, 10^places]. */
  lemma RoundedUnitInRange(x: real, places: nat)
    requires 0.0 <= x <= 1.0
    ensures 0 <= RoundHalfEven(ScaledValue(x, places)) <= Pow10(places)
  {
    ScaledUnitBounds(x, Pow10(places) as real);
    RoundHalfEvenInRange(ScaledValue(x, places), Pow10(places));
  }

  /** Rounding keeps a value of the unit interval inside it: 0 and 1 are
      themselves representable with any number of places. */
  lemma {:induction false} RoundStaysInUnit(x: real, places: nat)
    requires 0.0 <= x <= 1.0
    ensures 0.0 <= Round(x, places) <= 1.0
  {
    FractionInUnit(RoundScaled(x, places) as real, Pow10(places) as real);
  }

  /** A quotient `k / s` with `0 <= k <= s` lies in the unit interval. */
  lemma FractionInUnit(k: real, s: real)
    requires 0.0 <= k <= s && s >= 1.0
    ensures 0.0 <= k / s <= 1.0
  {
    assert k / s * s == k;
  }
}
