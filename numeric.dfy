/** Exact-arithmetic stand-ins for the JavaScript number operations the pricing rules use. */
module Numeric {

  /** `Math.ceil`: the least integer that is not below `x`. */
  function Ceil(x: real): (r: int)
    ensures r as real - 1.0 < x <= r as real
  {
    var f := x.Floor;
    if f as real == x then f else f + 1
  }

  /** Any integer at or above `x` is at least `Ceil(x)`. */
  lemma CeilIsLeast(x: real, k: int)
    requires x <= k as real
    ensures Ceil(x) <= k
  {
  }

  /** `toFixed(0)` read back as a number: the nearest integer, ties away from zero
      (toFixed rounds the magnitude and prefixes the sign). */
  function RoundHalfAway(x: real): (r: int)
    ensures 0.0 <= x ==> 0 <= r && x - 0.5 < r as real <= x + 0.5
    ensures x < 0.0 ==> r <= 0 && x - 0.5 <= r as real < x + 0.5
  {
    if 0.0 <= x then (x + 0.5).Floor else -((-x + 0.5).Floor)
  }

  /** Rounding moves a value by at most half a unit. */
  lemma RoundsToNearest(x: real)
    ensures -0.5 <= RoundHalfAway(x) as real - x <= 0.5
  {
  }

  /** `toFixed(1)` read back as a number: a whole number of tenths within a twentieth of `x`,
      ties away from zero. */
  function RoundTenth(x: real): (r: real)
    ensures (r * 10.0).Floor as real == r * 10.0
    ensures 0.0 <= x ==> x - 0.05 < r <= x + 0.05
    ensures x < 0.0 ==> x - 0.05 <= r < x + 0.05
  {
    var tenths := RoundHalfAway(x * 10.0);
    assert (0.0 <= x) == (0.0 <= x * 10.0);
    tenths as real / 10.0
  }
}
