/**
 * Exact fixed-point arithmetic at a given number of decimals. This is what the
 * verifier relies on from `Utils::toDec`, `Utils::toString` and PHP's
 * `number_format`: scaling an integer count of 10^-d units to a decimal, and
 * rounding a decimal to d places, half away from zero.
 */
module Fixed {

  function Pow10(d: nat): (p: nat)
    ensures p >= 1
    ensures d > 0 ==> p >= 10
  {
    if d == 0 then 1 else 10 * Pow10(d - 1)
  }

  function Abs(x: real): (y: real)
    ensures y >= 0.0
    ensures y == x || y == -x
  {
    if x < 0.0 then -x else x
  }

  /** `x` expressed in units of 10^-d. */
  function Scaled(x: real, d: nat): real {
    x * Pow10(d) as real
  }

  /** `Utils::toDec(units, d)`: an integer count of 10^-d units as a decimal. */
  function ToDec(units: int, d: nat): (x: real)
    ensures Scaled(x, d) == units as real
    ensures x < 0.0 <==> units < 0
  {
    units as real / Pow10(d) as real
  }

  /**
   * The number of 10^-d units that `x` shows when printed with d decimals:
   * the integer nearest to `x * 10^d`, a tie going away from zero.
   */
  function RoundUnits(x: real, d: nat): (n: int)
    ensures Scaled(x, d) - 0.5 <= n as real <= Scaled(x, d) + 0.5
    ensures n as real == Scaled(x, d) + 0.5 ==> x > 0.0
    ensures n as real == Scaled(x, d) - 0.5 ==> x < 0.0
  {
    var s := Scaled(x, d);
    assert x > 0.0 <==> s > 0.0;
    assert x < 0.0 <==> s < 0.0;
    if s >= 0.0 then (s + 0.5).Floor else -((0.5 - s).Floor)
  }

  /** `Utils::toString(x, d) == Utils::toString(y, d)`: both print the same with d decimals. */
  predicate SameAt(x: real, y: real, d: nat) {
    RoundUnits(x, d) == RoundUnits(y, d)
  }

  /**
   * `floatval(number_format(x, d, '.', ""))`: the decimal with at most d
   * places nearest to `x`, a tie going away from zero.
   */
  function Quantize(x: real, d: nat): (y: real)
    ensures Scaled(y, d) == RoundUnits(x, d) as real
    ensures SameAt(y, x, d)
    ensures Abs(Scaled(y, d) - Scaled(x, d)) <= 0.5
  {
    RoundUnitsOfToDec(RoundUnits(x, d), d);
    ToDec(RoundUnits(x, d), d)
  }

  /** A decimal that has at most d places prints as exactly its own units. */
  lemma RoundUnitsOfToDec(k: int, d: nat)
    ensures RoundUnits(ToDec(k, d), d) == k
  {
  }

  /** Decimals with at most d places are equal exactly when they print the same. */
  lemma SameAtExact(j: int, k: int, d: nat)
    ensures SameAt(ToDec(j, d), ToDec(k, d), d) <==> j == k
    ensures ToDec(j, d) == ToDec(k, d) <==> j == k
  {
  }

  /** Rounding a decimal that is already rounded changes nothing. */
  lemma QuantizeIdempotent(x: real, d: nat)
    ensures Quantize(Quantize(x, d), d) == Quantize(x, d)
  {
  }
}
