/** The package-level timing and size constants of the connection code, with Go's
    `time.Duration` arithmetic written out. */
module Timing {

  const Two63: int := 0x8000_0000_0000_0000
  const Two64: int := 0x1_0000_0000_0000_0000

  /** time.Duration: a signed 64-bit count of nanoseconds. */
  newtype Duration = x: int | -0x8000_0000_0000_0000 <= x < 0x8000_0000_0000_0000

  const Second: Duration := 1_000_000_000

  /** Deadline for every write on a transport (left as a constant: deadlines are not modelled). */
  const WriteTimeout: Duration := 10 * Second

  /** How long the read side waits for a pong before the read fails. */
  const PongTimeout: Duration := 60 * Second

  /** The ticker period of the write loop's keepalive pings. */
  const PingPeriod: Duration := NineTenths(PongTimeout)

  /** The read limit in bytes and the capacity of every outbound channel. */
  const PayloadSize: nat := 4096

  /** Two's-complement wrap-around of a mathematical integer into int64. */
  function Wrap64(x: int): (r: Duration)
    ensures -Two63 <= x < Two63 ==> r as int == x
    ensures (x - r as int) % Two64 == 0
  {
    ((x + Two63) % Two64 - Two63) as Duration
  }

  /** Go's integer division by 10, which truncates toward zero. */
  function QuotTen(a: int): (q: int)
    ensures 0 <= a ==> 0 <= q * 10 <= a < q * 10 + 10
    ensures a < 0 ==> q * 10 - 10 < a <= q * 10 <= 0
  {
    if 0 <= a then a / 10 else -((-a) / 10)
  }

  /** The Duration expression `d * 9 / 10`: the product wraps to 64 bits, then the
      quotient truncates. */
  function NineTenths(d: Duration): (r: Duration)
    ensures 0 < d && d as int * 9 < Two63 ==> 0 <= r < d
    ensures 0 <= d && d as int * 9 < Two63 ==> r as int * 10 <= d as int * 9 < r as int * 10 + 10
    ensures 10 <= d && d as int * 9 < Two63 ==> 0 < r
  {
    QuotTen(Wrap64(d as int * 9) as int) as Duration
  }

  /** The ping period is 54 seconds and falls strictly inside the pong timeout, so a
      healthy peer is pinged before its read deadline expires. */
  lemma PingPeriodValue()
    ensures PingPeriod == 54 * Second
    ensures 0 < PingPeriod < PongTimeout
  {
  }
}
