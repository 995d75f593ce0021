/** Clock readings and durations. Go's `time.Time` and `time.Duration` are
    modelled as integer nanoseconds; every reading of the wall clock is passed
    in by the caller. */
module Clock {

  /** A clock reading, in nanoseconds. */
  type Time = int

  /** A span of time, in nanoseconds (Go's `time.Duration`). */
  type Duration = int

  /** Go's zero `time.Time`, the value of a timestamp field nobody has set. */
  const ZeroTime: Time := 0

  const Second: Duration := 1_000_000_000
  const Minute: Duration := 60 * Second

  /** Integer division rounding toward zero, as Go's `/` and float-to-int
      conversion do (Dafny's own `/` is Euclidean). */
  function TruncDiv(a: int, b: int): (q: int)
    requires 0 < b
    ensures 0 <= a ==> 0 <= q && q * b <= a < q * b + b
    ensures a < 0 ==> q <= 0 && q * b - b < a <= q * b
  {
    if 0 <= a then a / b else -((-a) / b)
  }

  /** The remainder that goes with `TruncDiv`: it takes the sign of `a`. */
  function TruncMod(a: int, b: int): (m: int)
    requires 0 < b
    ensures a == b * TruncDiv(a, b) + m
    ensures 0 <= a ==> 0 <= m < b
    ensures a < 0 ==> -b < m <= 0
  {
    a - b * TruncDiv(a, b)
  }

  /** The boss-spawn gate of the frame step, over the elapsed game time:
      the whole number of elapsed minutes is a multiple of 5, no boss is
      present, and the elapsed time lies in the first second of its minute. */
  function BossSpawnDue(elapsed: Duration, bossPresent: bool): (due: bool)
    ensures bossPresent ==> !due
    ensures 0 <= elapsed < Second && !bossPresent ==> due
  {
    TruncMod(TruncDiv(elapsed, Minute), 5) == 0 && !bossPresent && TruncMod(elapsed, Minute) < Second
  }

  /** For a non-negative elapsed time and no boss, the gate is open exactly
      during the first second after each 5-minute boundary. */
  lemma BossSpawnWindow(elapsed: Duration)
    requires 0 <= elapsed
    ensures BossSpawnDue(elapsed, false) <==> elapsed % (5 * Minute) < Second
    ensures !BossSpawnDue(elapsed, true)
  {
    var q, r := elapsed / (5 * Minute), elapsed % (5 * Minute);
    assert elapsed == 5 * Minute * q + r && 0 <= r < 5 * Minute;
    var s, t := r / Minute, r % Minute;
    assert r == Minute * s + t && 0 <= s < 5 && 0 <= t < Minute;
    assert elapsed == Minute * (5 * q + s) + t;
    assert elapsed / Minute == 5 * q + s;
    assert elapsed % Minute == t;
  }
}
