/** The roundings that decimal.js performs for the allocation math (round half even, and truncation). */
module Rounding {

  function Pow10(n: nat): (r: int)
    ensures r >= 1
  {
    if n == 0 then 1 else 10 * Pow10(n - 1)
  }

  /** `ROUND_DOWN` to an integer: toward zero. */
  function Truncate(x: real): int {
    if x >= 0.0 then x.Floor else -(-x).Floor
  }

  /** `ROUND_HALF_EVEN` to an integer. */
  function HalfEven(x: real): int {
    var down := x.Floor;
    var rest := x - down as real;
    if rest < 0.5 || (rest == 0.5 && down % 2 == 0) then down else down + 1
  }

  /** `toDecimalPlaces(places)` under the configured rounding. */
  function ToDecimalPlaces(x: real, places: nat): real {
    HalfEven(x * Pow10(places) as real) as real / Pow10(places) as real
  }

  lemma TruncateError(x: real)
    ensures x >= 0.0 ==> 0.0 <= Truncate(x) as real <= x < Truncate(x) as real + 1.0
    ensures x <= 0.0 ==> Truncate(x) as real - 1.0 < x <= Truncate(x) as real <= 0.0
  {}

  /** The rounded integer is a nearest one, and no other integer is as near unless it is odd. */
  lemma HalfEvenNearest(x: real, other: int)
    ensures -0.5 <= HalfEven(x) as real - x <= 0.5
    ensures other != HalfEven(x) && -0.5 <= other as real - x <= 0.5 ==> other % 2 == 1
  {}
}
