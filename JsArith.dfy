/**
 * The few pieces of JavaScript number arithmetic the engine relies on, on
 * unbounded integers.  Dafny's `%` is Euclidean; JavaScript's `%` keeps the
 * sign of the dividend, so it is written out here.  A JavaScript number is a
 * double: an integer result of magnitude 2^53 or more is rounded to the
 * nearest double, which is written out here too.
 */
module JsArith {

  /**
   * JavaScript `a % m` for a positive modulus: the truncated remainder.  It
   * agrees with Dafny's `%` on a non-negative dividend and is never positive
   * on a negative one.
   */
  function JsRem(a: int, m: int): (r: int)
    requires m > 0
    ensures a >= 0 ==> r == a % m
    ensures a < 0 ==> -m < r <= 0
  {
    if a >= 0 then a % m else -((-a) % m)
  }

  /** `Math.max` on two integers. */
  function Max(a: int, b: int): (r: int)
    ensures r >= a && r >= b && (r == a || r == b)
  {
    if a >= b then a else b
  }

  /** `Math.min` on two integers. */
  function Min(a: int, b: int): (r: int)
    ensures r <= a && r <= b && (r == a || r == b)
  {
    if a <= b then a else b
  }

  /** 2^53: every integer of smaller magnitude is exactly a double. */
  const TwoTo53: int := 0x20_0000_0000_0000

  /**
   * The spacing of the doubles next to a non-negative integer `x`: 1 below
   * 2^53, and twice as wide in each binade above.
   */
  function Ulp(x: nat): (u: nat)
    ensures u >= 1
    ensures x < TwoTo53 ==> u == 1
  {
    if x < TwoTo53 then 1 else 2 * Ulp(x / 2)
  }

  /** The leading 53 bits of `x`: `x` shifted right until it is below 2^53. */
  function Mantissa(x: nat): (m: nat)
    ensures m < TwoTo53
  {
    if x < TwoTo53 then x else Mantissa(x / 2)
  }

  /** `x` with the bits below its spacing cleared: the double just below or at `x`. */
  function Truncated(x: nat): (lo: nat)
    ensures lo <= x < lo + Ulp(x)
  {
    if x < TwoTo53 then x else 2 * Truncated(x / 2)
  }

  function Abs(x: int): nat
  {
    if x < 0 then -x else x
  }

  /**
   * Rounding as the hardware does it: `x` stands for `x + half/2 + sticky*e`
   * with `e` a positive amount below 1/2.  Shift right, the bit shifted out
   * becoming the new guard bit and the old guard and sticky bits the new
   * sticky bit, until the value fits in 53 bits; then round up when past
   * the half, or at exactly the half when the mantissa is odd.
   */
  function RoundShifted(x: nat, half: bool, sticky: bool): nat
  {
    if x < TwoTo53 then
      x + (if half && (sticky || x % 2 == 1) then 1 else 0)
    else
      2 * RoundShifted(x / 2, x % 2 == 1, half || sticky)
  }

  /** The double nearest to a non-negative integer. */
  function RoundMagnitude(x: nat): nat
  {
    RoundShifted(x, false, false)
  }

  /**
   * What `RoundShifted` computes, in terms of the double just below: it keeps
   * `Truncated(x)` when the dropped part, in half-spacings, is below one
   * spacing, or exactly one with no sticky bit and an even mantissa, and
   * otherwise moves up one spacing.
   */
  lemma {:induction false} RoundShiftedChoice(x: nat, half: bool, sticky: bool)
    ensures
      var lo, u := Truncated(x), Ulp(x);
      var dropped := 2 * (x - lo) + (if half then 1 else 0);
      RoundShifted(x, half, sticky)
        == if dropped < u || (dropped == u && !sticky && Mantissa(x) % 2 == 0) then lo else lo + u
  {
    if x >= TwoTo53 {
      RoundShiftedChoice(x / 2, x % 2 == 1, half || sticky);
    }
  }

  /** The truncated value is the mantissa times the spacing. */
  lemma {:induction false} TruncatedIsScaledMantissa(x: nat)
    ensures Truncated(x) == Mantissa(x) * Ulp(x)
  {
    if x >= TwoTo53 {
      TruncatedIsScaledMantissa(x / 2);
      assert Truncated(x) == 2 * (Mantissa(x / 2) * Ulp(x / 2));
    }
  }

  /**
   * `RoundMagnitude(x)` is a double next to `x`: a multiple of the spacing
   * there, at most half a spacing away, and on a tie the even multiple.
   */
  lemma RoundMagnitudeIsNearest(x: nat)
    ensures RoundMagnitude(x) % Ulp(x) == 0
    ensures 2 * Abs(RoundMagnitude(x) - x) <= Ulp(x)
    ensures 2 * Abs(RoundMagnitude(x) - x) == Ulp(x) ==> (RoundMagnitude(x) / Ulp(x)) % 2 == 0
  {
    var m, u, lo, r := Mantissa(x), Ulp(x), Truncated(x), RoundMagnitude(x);
    RoundShiftedChoice(x, false, false);
    TruncatedIsScaledMantissa(x);
    if r == lo {
      MultipleHasNoRemainder(m, u);
      assert Abs(r - x) == x - lo;
      assert 2 * (x - lo) == u ==> m % 2 == 0;
    } else {
      MultipleHasNoRemainder(m + 1, u);
      NextMultiple(m, u);
      assert r == (m + 1) * u;
      assert Abs(r - x) == lo + u - x;
      assert 2 * (lo + u - x) == u ==> m % 2 == 1;
    }
  }

  lemma NextMultiple(q: int, u: int)
    ensures (q + 1) * u == q * u + u
  {
  }

  /** `k * u` lies outside (-u, u) unless `k` is 0. */
  lemma WholeMultiples(k: int, u: int)
    requires u >= 1
    ensures k >= 1 ==> k * u >= u
    ensures k <= -1 ==> k * u <= -u
  {
    if k >= 1 {
      assert k * u - u == (k - 1) * u;
      assert (k - 1) * u >= 0;
    }
    if k <= -1 {
      assert k * u + u == (k + 1) * u;
      assert (-(k + 1)) * u >= 0;
    }
  }

  lemma MultipleHasNoRemainder(q: nat, u: nat)
    requires u >= 1
    ensures (q * u) % u == 0 && (q * u) / u == q
  {
    var p := q * u;
    var k := q - p / u;
    assert p == (p / u) * u + p % u;
    assert k * u == p % u;
    WholeMultiples(k, u);
  }

  /**
   * The double JavaScript stores for an integer-valued result `x`: `x`
   * itself below 2^53 in magnitude, otherwise the nearest double (ties to
   * even), with the sign of `x`.
   */
  function RoundToDouble(x: int): (r: int)
    ensures Abs(x) < TwoTo53 ==> r == x
    ensures x >= 0 ==> r >= 0
  {
    if x < 0 then -(RoundMagnitude(-x) as int) else RoundMagnitude(x) as int
  }

  /** `RoundToDouble(x)` is the double nearest `x`, ties to even. */
  lemma RoundToDoubleIsNearest(x: int)
    ensures Abs(RoundToDouble(x)) % Ulp(Abs(x)) == 0
    ensures 2 * Abs(RoundToDouble(x) - x) <= Ulp(Abs(x))
    ensures 2 * Abs(RoundToDouble(x) - x) == Ulp(Abs(x)) ==> (Abs(RoundToDouble(x)) / Ulp(Abs(x))) % 2 == 0
  {
    RoundMagnitudeIsNearest(Abs(x));
  }
}
