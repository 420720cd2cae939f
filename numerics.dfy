/**
 * Numeric vocabulary of the core: the floating-point library functions it calls, the
 * integer conversions it performs and JUCE's `jlimit` clamp.
 *
 * Samples, levels and decibel values are modelled as reals; single- and double-precision
 * rounding is not modelled.  `std::sqrt`, `std::log10`, `std::exp` and
 * `juce::Decibels::decibelsToGain` are not given definitions: callers pass in a `Math`
 * value holding each of them as a total map from argument to result, and `Lawful` states
 * the only facts about them that the core relies on.
 */
module Numerics {

  /** The transcendental functions the core calls, supplied by the caller as argument-to-result maps. */
  datatype Math = Math(
    sqrt: imap<real, real>,
    log10: imap<real, real>,
    exp: imap<real, real>,
    decibelsToGain: imap<real, real>)

  /**
   * The facts the core relies on: each function is defined everywhere; square roots of
   * non-negative values are non-negative and the root of zero is zero; `exp` maps negative
   * arguments into (0, 1); and `decibelsToGain` is JUCE's conversion with its default
   * -100 dB floor (gain 0 at or below the floor, positive above it, exactly 1 at 0 dB).
   */
  ghost predicate Lawful(m: Math)
  {
    && (forall x :: x in m.sqrt)
    && (forall x :: x in m.log10)
    && (forall x :: x in m.exp)
    && (forall x :: x in m.decibelsToGain)
    && m.sqrt[0.0] == 0.0
    && (forall x :: x >= 0.0 ==> m.sqrt[x] >= 0.0)
    && (forall x :: x < 0.0 ==> 0.0 < m.exp[x] < 1.0)
    && m.decibelsToGain[0.0] == 1.0
    && (forall d :: d > -100.0 ==> m.decibelsToGain[d] > 0.0)
    && (forall d :: d <= -100.0 ==> m.decibelsToGain[d] == 0.0)
  }

  function Sqrt(m: Math, x: real): (r: real)
    requires Lawful(m)
    ensures x >= 0.0 ==> r >= 0.0
    ensures x == 0.0 ==> r == 0.0
  {
    m.sqrt[x]
  }

  function Log10(m: Math, x: real): real
    requires Lawful(m)
  {
    m.log10[x]
  }

  function Exp(m: Math, x: real): (r: real)
    requires Lawful(m)
    ensures x < 0.0 ==> 0.0 < r < 1.0
  {
    m.exp[x]
  }

  /** `juce::Decibels::decibelsToGain` with its default -100 dB floor. */
  function DecibelsToGain(m: Math, dB: real): (r: real)
    requires Lawful(m)
    ensures dB <= -100.0 ==> r == 0.0
    ensures dB > -100.0 ==> r > 0.0
    ensures dB == 0.0 ==> r == 1.0
  {
    m.decibelsToGain[dB]
  }

  /** Values of a C++ `uint64_t` are taken modulo this. */
  const Uint64Modulus: int := 0x1_0000_0000_0000_0000

  function Abs(x: real): (r: real)
    ensures r >= 0.0
  {
    if x < 0.0 then -x else x
  }

  function MinInt(a: int, b: int): (r: int)
    ensures r <= a && r <= b && (r == a || r == b)
  {
    if a < b then a else b
  }

  /** `static_cast<int>` of a floating-point value: truncation toward zero. */
  function Trunc(x: real): (n: int)
    ensures x >= 0.0 ==> 0 <= n && n as real <= x < n as real + 1.0
    ensures x < 0.0 ==> n as real - 1.0 < x <= n as real <= 0.0
  {
    if x >= 0.0 then x.Floor else -((-x).Floor)
  }

  /** Truncation of non-negative values never reverses their order. */
  lemma TruncMonotone(x: real, y: real)
    requires 0.0 <= x <= y
    ensures Trunc(x) <= Trunc(y)
  {
  }

  /** `juce::jlimit(lower, upper, v)` on ints: `lower` if `v < lower`, else `upper` if `upper < v`, else `v`. */
  function LimitInt(lower: int, upper: int, v: int): (r: int)
    ensures lower <= upper ==> lower <= r <= upper
    ensures lower <= v <= upper ==> r == v
    ensures r == v || r == lower || r == upper
  {
    if v < lower then lower else if upper < v then upper else v
  }

  /** `juce::jlimit(lower, upper, v)` on floating-point values. */
  function LimitReal(lower: real, upper: real, v: real): (r: real)
    ensures lower <= upper ==> lower <= r <= upper
    ensures lower <= v <= upper ==> r == v
    ensures r == v || r == lower || r == upper
  {
    if v < lower then lower else if upper < v then upper else v
  }

  // Products of reals, for the proofs about scaling by a coefficient.

  lemma MulNonNegative(a: real, b: real)
    requires a >= 0.0 && b >= 0.0
    ensures a * b >= 0.0
  {
  }

  lemma MulPositive(a: real, b: real)
    requires a > 0.0 && b > 0.0
    ensures a * b > 0.0
  {
  }

  lemma MulNonPositive(a: real, b: real)
    requires a >= 0.0 && b <= 0.0
    ensures a * b <= 0.0
  {
    MulNonNegative(a, -b);
  }

  /** Scaling by a factor in [0, 1] keeps a value between 0 and itself. */
  lemma ScaleBetween(c: real, d: real)
    requires 0.0 <= c <= 1.0
    ensures d >= 0.0 ==> 0.0 <= c * d <= d
    ensures d <= 0.0 ==> d <= c * d <= 0.0
  {
    if d >= 0.0 {
      MulNonNegative(c, d);
      MulNonNegative(1.0 - c, d);
    } else {
      MulNonNegative(c, -d);
      MulNonNegative(1.0 - c, -d);
    }
  }

  lemma ZeroProduct(a: real, b: real)
    requires b != 0.0 && a * b == 0.0
    ensures a == 0.0
  {
  }
}
