/**
 * Java `long` timestamps as used by the Flink streaming operator: the value
 * range, two's-complement wrap-around of subtraction, the Beam timestamp
 * bounds and the one-millisecond adjustment applied to Flink timer times.
 */
module Timestamps {

  const LONG_MIN: int := -9223372036854775808
  const LONG_MAX: int := 9223372036854775807
  const TWO_TO_64: int := 18446744073709551616

  /** A Java `long`. */
  type Long = x: int | -9223372036854775808 <= x <= 9223372036854775807

  /** BoundedWindow.TIMESTAMP_MIN_VALUE and TIMESTAMP_MAX_VALUE, in milliseconds. */
  const TIMESTAMP_MIN_VALUE: Long := -9223372036854775
  const TIMESTAMP_MAX_VALUE: Long := 9223372036854775

  predicate InLongRange(x: int) {
    LONG_MIN <= x <= LONG_MAX
  }

  /** The `long` that Java arithmetic yields for the mathematical value `x`. */
  function WrapLong(x: int): (r: Long)
    ensures (x - r) % TWO_TO_64 == 0
    ensures InLongRange(x) ==> r == x
  {
    var m := (x - LONG_MIN) % TWO_TO_64;
    assert x - (m + LONG_MIN) == ((x - LONG_MIN) / TWO_TO_64) * TWO_TO_64;
    m + LONG_MIN
  }

  /** Java `a - b` on two longs. */
  function LongSub(a: Long, b: Long): (r: Long)
    ensures InLongRange(a - b) ==> r == a - b
    ensures a - b > LONG_MAX ==> r == a - b - TWO_TO_64
    ensures a - b < LONG_MIN ==> r == a - b + TWO_TO_64
  {
    WrapLong(a - b)
  }

  /** Math.min on longs. */
  function Min(a: Long, b: Long): (r: Long)
    ensures r <= a && r <= b
    ensures r == a || r == b
  {
    if a <= b then a else b
  }

  /**
   * Flink fires a timer once time reaches its registered time, Beam only once
   * time has passed it, so the registered time is one millisecond later; the
   * largest long is left alone because adding to it would overflow.
   */
  function AdjustTimestampForFlink(beamTimerTimestamp: Long): (r: Long)
    ensures beamTimerTimestamp <= r <= beamTimerTimestamp + 1
    ensures r == beamTimerTimestamp <==> beamTimerTimestamp == LONG_MAX
  {
    if beamTimerTimestamp == LONG_MAX then LONG_MAX else beamTimerTimestamp + 1
  }

  /** The adjustment preserves the order of timer times. */
  lemma AdjustMonotone(a: Long, b: Long)
    requires a <= b
    ensures AdjustTimestampForFlink(a) <= AdjustTimestampForFlink(b)
  {
  }

  /** The adjustment is injective except that LONG_MAX - 1 and LONG_MAX share a registered time. */
  lemma AdjustInjectiveBelowMax(a: Long, b: Long)
    requires a != b
    ensures AdjustTimestampForFlink(a) == AdjustTimestampForFlink(b)
        <==> ({a, b} == {LONG_MAX - 1, LONG_MAX})
  {
    if AdjustTimestampForFlink(a) == AdjustTimestampForFlink(b) {
      assert a == LONG_MAX || b == LONG_MAX;
    }
  }
}
