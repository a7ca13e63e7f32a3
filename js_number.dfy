/**
 * The few pieces of JavaScript number semantics the pricing calculator relies on:
 * the value kinds its guards can tell apart, the comparisons it makes against
 * constants, `Math.round` and `Math.min`.
 *
 * Finite numbers are exact reals here, not IEEE-754 doubles.
 */
module JsNumber {

  /** A JavaScript number as the guards of the calculator observe it. */
  datatype Number = NaN | NegativeInfinity | PositiveInfinity | Finite(value: real)

  /** The global `isNaN`, applied to a number. */
  predicate IsNaN(x: Number)
  {
    x.NaN?
  }

  /** `x <= c` for a finite constant `c`; every comparison with NaN is false. */
  predicate AtMost(x: Number, c: real)
  {
    match x
    case NaN => false
    case NegativeInfinity => true
    case PositiveInfinity => false
    case Finite(v) => v <= c
  }

  /** `x > c` for a finite constant `c`; every comparison with NaN is false. */
  predicate Exceeds(x: Number, c: real)
  {
    match x
    case NaN => false
    case NegativeInfinity => false
    case PositiveInfinity => true
    case Finite(v) => v > c
  }

  /** Apart from NaN, which satisfies neither, `x <= c` and `x > c` are complementary. */
  lemma ComparisonIsTotalExceptNaN(x: Number, c: real)
    ensures IsNaN(x) ==> !AtMost(x, c) && !Exceeds(x, c)
    ensures !IsNaN(x) ==> (AtMost(x, c) <==> !Exceeds(x, c))
  {
  }

  function Abs(x: real): (r: real)
    ensures r >= 0.0 && (r == x || r == -x)
  {
    if x < 0.0 then -x else x
  }

  /**
   * `Math.round`: the integer closest to `x`, and of two equally close ones the
   * one nearer to +infinity (section 21.3.2.28 of ECMA-262, 2023 edition).
   */
  function Round(x: real): (r: int)
    ensures r as real - 0.5 <= x < r as real + 0.5
  {
    (x + 0.5).Floor
  }

  /** `Round` meets the standard's definition: no integer is closer, and a tie goes upwards. */
  lemma RoundIsNearest(x: real, k: int)
    ensures Abs(x - Round(x) as real) <= Abs(x - k as real)
    ensures Abs(x - Round(x) as real) == Abs(x - k as real) ==> k <= Round(x)
  {
    var r := Round(x);
    if k > r {
      assert k as real >= r as real + 1.0;
    } else if k < r {
      assert k as real <= r as real - 1.0;
    }
  }

  /** An integral argument is returned unchanged. */
  lemma RoundOfInteger(n: int)
    ensures Round(n as real) == n
  {
  }

  /** Rounding is monotone. */
  lemma RoundMonotone(x: real, y: real)
    requires x <= y
    ensures Round(x) <= Round(y)
  {
  }

  /** Arguments at least one apart round to different integers. */
  lemma RoundSeparates(x: real, y: real)
    requires x + 1.0 <= y
    ensures Round(x) < Round(y)
  {
  }

  /** `Math.min(a, b, c)` on integral arguments. */
  function Min3(a: int, b: int, c: int): (m: int)
    ensures m <= a && m <= b && m <= c
    ensures m == a || m == b || m == c
  {
    var ab := if a <= b then a else b;
    if ab <= c then ab else c
  }
}
