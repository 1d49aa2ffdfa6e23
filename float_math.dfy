/** Scalar helpers that the engine code borrows from its math library,
    restated over `real` (single-precision rounding is not modelled). */
module FloatMath {

  /** Degrees in one full turn: the only modulus the engine code uses. */
  const FULL_TURN: real := 360.0

  /** The engine's Sign: 1 for zero and positive arguments, -1 for negative ones. */
  function Sign(x: real): (r: real)
    ensures r == 1.0 || r == -1.0
    ensures r == 1.0 <==> x >= 0.0
    ensures r * x >= 0.0
  {
    if x >= 0.0 then 1.0 else -1.0
  }

  /** The engine's Abs. */
  function Abs(x: real): (r: real)
    ensures r >= 0.0
    ensures r == x || r == -x
  {
    if x >= 0.0 then x else -x
  }

  /** The engine's Max of two floats. */
  function Max(a: real, b: real): (r: real)
    ensures r >= a && r >= b
    ensures r == a || r == b
  {
    if a >= b then a else b
  }

  /** `d` is a whole number of full turns. */
  predicate WholeTurns(d: real)
  {
    (d / FULL_TURN).Floor as real * FULL_TURN == d
  }

  /** `x` and `y` name the same direction: they differ by whole turns. */
  predicate SameAngle(x: real, y: real)
  {
    WholeTurns(x - y)
  }

  /** The floating-point remainder `x % 360` of C#: the quotient is truncated
      toward zero, so the remainder takes the sign of `x`. */
  function Rem360(x: real): (r: real)
    ensures x >= 0.0 ==> 0.0 <= r < FULL_TURN
    ensures x < 0.0 ==> -FULL_TURN < r <= 0.0
    ensures SameAngle(r, x)
  {
    if x >= 0.0 then RemNonNegative(x)
    else
      var r := RemNonNegative(-x);
      WholeTurnsNeg(r - -x);
      assert r - -x == -(-r - x);
      -r
  }

  /** Remainder of a non-negative dividend: the quotient counted by Floor. */
  function RemNonNegative(x: real): (r: real)
    requires x >= 0.0
    ensures 0.0 <= r < FULL_TURN
    ensures SameAngle(r, x)
  {
    var q := (x / FULL_TURN).Floor;
    var r := x - q as real * FULL_TURN;
    IntegerTurns(-q);
    assert r - x == (-q) as real * FULL_TURN;
    r
  }

  /** An integer number of full turns is whole turns. */
  lemma IntegerTurns(k: int)
    ensures WholeTurns(k as real * FULL_TURN)
  {
    assert k as real * FULL_TURN / FULL_TURN == k as real;
  }

  /** Whole turns add up to whole turns. */
  lemma WholeTurnsAdd(d: real, e: real)
    requires WholeTurns(d) && WholeTurns(e)
    ensures WholeTurns(d + e)
  {
    var k, l := (d / FULL_TURN).Floor, (e / FULL_TURN).Floor;
    assert (d + e) / FULL_TURN == (k + l) as real;
  }

  /** The negation of whole turns is whole turns. */
  lemma WholeTurnsNeg(d: real)
    requires WholeTurns(d)
    ensures WholeTurns(-d)
  {
    var k := (d / FULL_TURN).Floor;
    assert -d / FULL_TURN == (-k) as real;
  }

  /** Less than one full turn either way is no turn at all. */
  lemma SmallWholeTurnsIsZero(d: real)
    requires WholeTurns(d) && -FULL_TURN < d < FULL_TURN
    ensures d == 0.0
  {
    assert (d / FULL_TURN).Floor == 0;
  }
}
