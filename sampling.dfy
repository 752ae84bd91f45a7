/**
 * Adaptive GPS polling: how the service turns the geometry engine's
 * "next update in" hint into a location-request interval, and when it
 * re-registers its location listener.
 *
 * Times are integer milliseconds. The engine's hint is a `double` of
 * seconds; a finite hint is represented by `(long) (seconds * 1000)`,
 * the value the service computes first. For a finite hint the test
 * `seconds < 1.0` is the same as that value being below 1000.
 */
module Sampling {

  /** The engine's suggested interval, as the service sees it. */
  datatype Hint =
    | NaN
    | PosInf
    | NegInf
    | Finite(millis: int)

  /** Hints under one second mean "request continuously". */
  const MinHintMillis: int := 1000

  /** The dead band: an increase of at most this much is not re-registered. */
  const ReregisterSlack: int := 1000

  /**
   * The interval the service would request for hint `h` when the
   * configured maximum sleep is `maxSleep`: 0 for NaN and for hints
   * under one second, `maxSleep` for infinite and too long hints, and
   * the hint itself otherwise.
   */
  function RequestInterval(h: Hint, maxSleep: int): (r: int)
    ensures 0 <= maxSleep ==> 0 <= r <= maxSleep
    ensures h.Finite? && MinHintMillis <= h.millis <= maxSleep ==> r == h.millis
    ensures r == 0 || r == maxSleep || (h.Finite? && r == h.millis)
    ensures h.NaN? || h.NegInf? || (h.Finite? && h.millis < MinHintMillis) ==> r == 0
    ensures h.PosInf? || (h.Finite? && MinHintMillis <= h.millis && maxSleep < h.millis) ==> r == maxSleep
  {
    match h
    case NaN => 0
    case NegInf => 0
    case PosInf => maxSleep
    case Finite(millis) =>
      if millis < MinHintMillis then 0
      else if millis > maxSleep then maxSleep
      else millis
  }

  /**
   * Whether a newly computed interval makes the service remove and
   * re-request location updates: any decrease, or an increase of more
   * than one second.
   */
  function ShouldReregister(millis: int, lastSleep: int): (b: bool)
    ensures Distance(millis, lastSleep) > ReregisterSlack ==> b
    ensures b && Distance(millis, lastSleep) <= ReregisterSlack ==> millis < lastSleep
  {
    millis < lastSleep || millis - lastSleep > ReregisterSlack
  }

  /** How far apart two intervals are, in either direction. */
  function Distance(a: int, b: int): nat
  {
    if a < b then b - a else a - b
  }

  /** Once `lastSleep` has been set to an interval, the same interval does not re-register again. */
  lemma RepeatedIntervalIsQuiet(h: Hint, maxSleep: int)
    ensures !ShouldReregister(RequestInterval(h, maxSleep), RequestInterval(h, maxSleep))
  {
  }

  /**
   * The rule is not a symmetric distance test: for every `lastSleep`, a
   * decrease of up to one second re-registers and an increase of the same
   * size does not.
   */
  lemma ReregisterIsAsymmetric(lastSleep: int, d: int)
    requires 0 < d <= ReregisterSlack
    ensures ShouldReregister(lastSleep - d, lastSleep)
    ensures !ShouldReregister(lastSleep + d, lastSleep)
  {
  }

  /** Hints ordered by length, with NaN and negative infinity at the bottom and positive infinity at the top. */
  predicate HintBelow(a: Hint, b: Hint)
  {
    match (a, b)
    case (NaN, _) => true
    case (NegInf, _) => true
    case (_, PosInf) => true
    case (Finite(x), Finite(y)) => x <= y
    case _ => false
  }

  /** The requested interval never decreases when the hint grows, as long as the maximum is not negative. */
  lemma RequestIntervalMonotone(a: Hint, b: Hint, maxSleep: int)
    requires 0 <= maxSleep
    requires HintBelow(a, b)
    ensures RequestInterval(a, maxSleep) <= RequestInterval(b, maxSleep)
  {
  }

  /** With a negative maximum (a wrapped-around setting) the bound fails: a long hint yields a negative interval. */
  lemma NegativeMaximumGivesNegativeInterval(maxSleep: int)
    requires maxSleep < 0
    ensures RequestInterval(PosInf, maxSleep) < 0
    ensures RequestInterval(Finite(MinHintMillis), maxSleep) < 0
  {
  }
}
