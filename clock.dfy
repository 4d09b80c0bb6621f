/**
 * The board's millisecond clock: a 32-bit unsigned counter that wraps
 * around.  Every time comparison in the firmware subtracts two readings
 * in unsigned 32-bit arithmetic, which stays right across a wrap.
 */
module Clock {
  const Modulus: int := 0x1_0000_0000

  /** A reading of the clock, or a duration, as a uint32_t. */
  type Millis = x: int | 0 <= x < 0x1_0000_0000

  /** `now - since` in uint32_t arithmetic: the time from `since` to
      `now`, assuming less than one wrap separates them. */
  function Elapsed(now: Millis, since: Millis): (d: Millis)
    ensures since <= now ==> d == now - since
    ensures now < since ==> d == now - since + Modulus
  {
    (now - since) % Modulus
  }

  /** `t + d` in uint32_t arithmetic. */
  function Later(t: Millis, d: Millis): (r: Millis)
    ensures Elapsed(r, t) == d
  {
    (t + d) % Modulus
  }
}
