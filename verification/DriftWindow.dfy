/** The timestamp check: a request is accepted when its timestamp is within five minutes of the
    server's clock.  Go does the arithmetic in 64-bit integers, with two surprises: time.Unix shifts
    seconds to the year 1 and wraps around, and the difference of two times saturates. */
module DriftWindow {
  import opened Domain
  import opened SignedRequest

  const SECOND: int := 1_000_000_000
  const MAX_DRIFT: int := 300 * SECOND

  /** Seconds from 1 January of the year 1 to the Unix epoch. */
  const EPOCH_SHIFT: int := 62_135_596_800

  /** Two's complement: the int64 congruent to `x` modulo 2^64. */
  function Wrap(x: int): (r: int)
    ensures MIN_INT64 <= r <= MAX_INT64
  {
    (x - MIN_INT64) % 0x1_0000_0000_0000_0000 + MIN_INT64
  }

  /** The internal seconds of time.Unix(timestamp, 0). */
  function InternalSeconds(timestamp: int64): int {
    Wrap(timestamp as int + EPOCH_SHIFT)
  }

  /** Time.Sub: the difference in nanoseconds, or the nearest Duration when it does not fit. */
  function Saturate(ns: int): int {
    if ns < MIN_INT64 then MIN_INT64 else if ns > MAX_INT64 then MAX_INT64 else ns
  }

  /** time.Since(time.Unix(timestamp, 0)) when the clock reads `now`, in nanoseconds since the
      Unix epoch. */
  function TimeDiff(now: int, timestamp: int64): int {
    Saturate(now + EPOCH_SHIFT * SECOND - InternalSeconds(timestamp) * SECOND)
  }

  predicate Accepted(now: int, timestamp: int64) {
    !(TimeDiff(now, timestamp) < -MAX_DRIFT || TimeDiff(now, timestamp) > MAX_DRIFT)
  }

  function Abs(x: int): nat {
    if x < 0 then -x else x
  }

  /** A clock reading that Go's Time can hold: its seconds since the year 1 fit 64 bits. */
  predicate Representable(now: int) {
    MIN_INT64 * SECOND <= now + EPOCH_SHIFT * SECOND < (MAX_INT64 + 1) * SECOND
  }

  /** The last EPOCH_SHIFT timestamps before the end of int64 wrap around to the first EPOCH_SHIFT
      seconds Time can hold: the clock is more than five minutes after those, and more than five
      minutes before the first of the timestamps, which is just past the last second Time can hold. */
  predicate ClearOfTheEnds(now: int) {
    && now + EPOCH_SHIFT * SECOND > (MIN_INT64 + EPOCH_SHIFT - 1) * SECOND + MAX_DRIFT
    && now < (MAX_INT64 - EPOCH_SHIFT + 1) * SECOND - MAX_DRIFT
  }

  /** The distance between clock and timestamp is at most 300 seconds. */
  predicate InWindow(now: int, timestamp: int64) {
    Abs(now - timestamp as int * 1_000_000_000) <= 300 * 1_000_000_000
  }

  lemma WrapIs(x: int)
    ensures MIN_INT64 <= x <= MAX_INT64 ==> Wrap(x) == x
    ensures MAX_INT64 < x <= MAX_INT64 + EPOCH_SHIFT ==> Wrap(x) == x - 0x1_0000_0000_0000_0000
  {
  }

  /** For every int64 timestamp, wrapped or not, saturated or not, the check accepts exactly when
      the true distance between clock and timestamp is at most 300 seconds. */
  lemma AcceptsTheWindow(now: int, timestamp: int64)
    requires Representable(now) && ClearOfTheEnds(now)
    ensures Accepted(now, timestamp) <==> InWindow(now, timestamp)
  {
    WrapIs(timestamp as int + EPOCH_SHIFT);
  }

  /** A timestamp the check gets wrong when the clock is near an end: near the last seconds it rejects
      one that is in the window, near the first it accepts one that is an age away. */
  lemma MisjudgedTimestamp(now: int) returns (timestamp: int64)
    requires Representable(now) && !ClearOfTheEnds(now)
    ensures Accepted(now, timestamp) != InWindow(now, timestamp)
  {
    var first := MAX_INT64 - EPOCH_SHIFT + 1;
    if now >= first * SECOND - MAX_DRIFT {
      timestamp := first as int64;
    } else {
      // the wrapped timestamp whose seconds are the clock's, or the last of them
      var seconds := (now + EPOCH_SHIFT * SECOND) / SECOND;
      var wrapped := if seconds < MIN_INT64 + EPOCH_SHIFT then seconds else MIN_INT64 + EPOCH_SHIFT - 1;
      timestamp := (wrapped - EPOCH_SHIFT + 0x1_0000_0000_0000_0000) as int64;
    }
    WrapIs(timestamp as int + EPOCH_SHIFT);
  }

  /** At any clock Time can hold, the check is right about every int64 timestamp exactly when the
      clock is clear of the ends. */
  lemma AcceptsExactlyTheWindowIff(now: int)
    requires Representable(now)
    ensures (forall timestamp: int64 :: Accepted(now, timestamp) <==> InWindow(now, timestamp)) <==> ClearOfTheEnds(now)
  {
    if ClearOfTheEnds(now) {
      forall timestamp: int64 ensures Accepted(now, timestamp) <==> InWindow(now, timestamp) {
        AcceptsTheWindow(now, timestamp);
      }
    } else {
      var timestamp := MisjudgedTimestamp(now);
    }
  }

  /** The window moves with the clock: a request accepted when it arrives is refused by any check
      that happens more than ten minutes later. */
  lemma ReplayWindow(now: int, later: int, timestamp: int64)
    requires Representable(now) && Representable(later) && ClearOfTheEnds(now) && ClearOfTheEnds(later)
    requires Accepted(now, timestamp) && later > now + 2 * MAX_DRIFT
    ensures !Accepted(later, timestamp)
  {
    AcceptsTheWindow(now, timestamp);
    AcceptsTheWindow(later, timestamp);
  }
}
