/**
 * Time as the gateway sees it: instants are Unix times in nanoseconds and
 * durations are nanosecond counts, as Go's `time.Time` and `time.Duration`.
 */
module Clock {

  const Second: int := 1_000_000_000
  const Minute: int := 60 * Second

  /**
   * `t.Truncate(d)` for a positive `d`: the greatest multiple of `d` that is
   * not after `t`. Go measures multiples from its zero time, which lies a
   * whole number of minutes before the Unix epoch, so on Unix nanoseconds
   * this is a floor.
   */
  function Truncate(t: int, d: int): (r: int)
    requires d > 0
    ensures r <= t < r + d
    ensures r == d * (t / d)
  {
    t - t % d
  }

  /** Integer division that rounds toward zero, as Go's `int(x)` of a quotient. */
  function TruncDiv(a: int, b: int): (q: int)
    requires b > 0
    ensures a >= 0 ==> q * b <= a < (q + 1) * b
    ensures a < 0 ==> q == -((-a) / b)
  {
    if a >= 0 then a / b else -((-a) / b)
  }

  /** `t.Unix()`: the whole seconds of `t`, rounded down. */
  function UnixSeconds(t: int): (s: int)
    ensures s * Second <= t < (s + 1) * Second
  {
    t / Second
  }
}
