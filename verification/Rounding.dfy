/** The minute arithmetic of the response parser, over exact reals. */
module Rounding {
  import CStrings

  /** `static_cast<long long>` of a floating value in range: truncation towards zero. */
  function Truncate(x: real): int {
    if x >= 0.0 then x.Floor else -((-x).Floor)
  }

  /** `std::round`: to nearest, ties away from zero (section 7.12.9.6 of C11). */
  function Round(x: real): int {
    if x >= 0.0 then (x + 0.5).Floor else -((0.5 - x).Floor)
  }

  function Minutes(departure: int, apiTime: real): int {
    Round((departure as real - apiTime) / 60.0)
  }

  function Abs(x: real): real {
    if x < 0.0 then -x else x
  }

  /** `m` is a nearest integer of `x`, and the one farther from zero when two are equally near. */
  predicate IsRounded(m: int, x: real) {
    && Abs(m as real - x) <= 0.5
    && (Abs(m as real - x) == 0.5 ==> Abs(m as real) > Abs(x))
  }

  lemma RoundIsTheRounded(m: int, x: real)
    ensures m == Round(x) <==> IsRounded(m, x)
  {
  }

  lemma TruncateTowardsZero(x: real)
    ensures Abs(Truncate(x) as real) <= Abs(x) < Abs(Truncate(x) as real) + 1.0
    ensures Truncate(x) as real * x >= 0.0
  {
  }

  /** Sixty times the reported minutes is within 30 seconds of the true distance, and at
      exactly 30 seconds the value farther from zero is reported. */
  lemma MinutesAreNearest(departure: int, apiTime: real)
    ensures Abs(60.0 * Minutes(departure, apiTime) as real - (departure as real - apiTime)) <= 30.0
    ensures Abs(60.0 * Minutes(departure, apiTime) as real - (departure as real - apiTime)) == 30.0
        ==> Abs(60.0 * Minutes(departure, apiTime) as real) > Abs(departure as real - apiTime)
  {
  }

  lemma MinutesAreMonotone(d1: int, d2: int, apiTime: real)
    requires d1 <= d2
    ensures Minutes(d1, apiTime) <= Minutes(d2, apiTime)
  {
  }

  /** Departures equally far before and after the API time get opposite values. */
  lemma MinutesAreAntisymmetric(d1: int, d2: int, apiTime: real)
    requires d1 as real - apiTime == apiTime - d2 as real
    ensures Minutes(d1, apiTime) == -Minutes(d2, apiTime)
  {
  }

  /** Exactly when the value fits the `int` it is cast to. */
  lemma MinutesFitInt(departure: int, apiTime: real)
    ensures CStrings.INT_MIN <= Minutes(departure, apiTime) <= CStrings.INT_MAX
       <==> && 60.0 * (CStrings.INT_MIN as real - 0.5) < departure as real - apiTime
            && departure as real - apiTime < 60.0 * (CStrings.INT_MAX as real + 0.5)
  {
  }
}
