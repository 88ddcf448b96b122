/** The re-arm delay of the interactive update timer.

    After each tick the engine posts the next update message with a delay of
    `INTERACTIVE_UPDATE_RATE_MS - (now % INTERACTIVE_UPDATE_RATE_MS)`, where
    `now` is the wall clock in milliseconds and `%` is Java's remainder, which
    truncates toward zero (Dafny's `%` is Euclidean, so it is written out). */
module TickDelay {

  /** One second, the interactive update rate. */
  const UpdateRateMs: int := 1000

  /** Java's truncating integer division. */
  function JavaDiv(a: int, b: int): int
    requires b > 0
  {
    if a >= 0 then a / b else -((-a) / b)
  }

  /** Java's remainder operator: it satisfies `a == b * (a / b) + a % b` with
      truncating division, so it takes the sign of `a`. */
  function JavaRem(a: int, b: int): (r: int)
    requires b > 0
    ensures a == b * JavaDiv(a, b) + r
    ensures a >= 0 ==> 0 <= r < b
    ensures a < 0 ==> -b < r <= 0
  {
    if a >= 0 then a % b else -((-a) % b)
  }

  /** The delay before the next tick when the current tick runs at `now`. */
  function NextTickDelay(now: int): (d: int)
    ensures now + d == UpdateRateMs * (JavaDiv(now, UpdateRateMs) + 1)
  {
    UpdateRateMs - JavaRem(now, UpdateRateMs)
  }

  /** For a wall clock at or after the epoch the delay is between 1 ms and a full
      second, and the next tick lands exactly on a second boundary. */
  lemma DelayAlignsToSecond(now: int)
    requires now >= 0
    ensures 1 <= NextTickDelay(now) <= UpdateRateMs
    ensures (now + NextTickDelay(now)) % UpdateRateMs == 0
    ensures now < now + NextTickDelay(now) <= now + UpdateRateMs
  {
    var q := JavaDiv(now, UpdateRateMs);
    assert now + NextTickDelay(now) == UpdateRateMs * (q + 1);
  }

  /** Before the epoch Java's remainder is not positive, so the delay grows to
      between one and two seconds; the tick still lands on a second boundary. */
  lemma DelayBeforeEpoch(now: int)
    requires now < 0
    ensures UpdateRateMs <= NextTickDelay(now) < 2 * UpdateRateMs
    ensures (now + NextTickDelay(now)) % UpdateRateMs == 0
  {
    var q := JavaDiv(now, UpdateRateMs);
    assert now + NextTickDelay(now) == UpdateRateMs * (q + 1);
  }
}
