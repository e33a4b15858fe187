/** The requeue delays of internal/controller/helpers.go, as 64-bit durations in nanoseconds. */
module Requeue {
  import opened Base

  const MAX_INT64: int := 0x7fff_ffff_ffff_ffff
  const SECOND: int := 1_000_000_000
  const DEFAULT_REQUEUE: int := 30 * SECOND
  const DEFAULT_RETRY: int := 5 * SECOND

  /** The sum of two int64 values wraps around. */
  function Wrap(n: int): (r: int)
    ensures -MAX_INT64 - 1 <= r <= MAX_INT64
    ensures -MAX_INT64 - 1 <= n <= MAX_INT64 ==> r == n
  {
    (n + MAX_INT64 + 1) % (2 * (MAX_INT64 + 1)) - (MAX_INT64 + 1)
  }

  /** jitter is the random number drawn below five seconds. */
  function AddJitter(d: int, jitter: int): int {
    Wrap(d + jitter)
  }

  function Interval(configured: Option<int>, default: int): int {
    match configured
    case None => default
    case Some(d) => d
  }

  /** The interval alone decides whether every draw below five seconds schedules another attempt: below one nanosecond
      some draw gives a delay that is not positive, above the bound some draw wraps around. */
  lemma WakesUp(d: int)
    requires -0x8000_0000_0000_0000 <= d <= 0x7fff_ffff_ffff_ffff
    ensures (forall j :: 0 <= j < 5_000_000_000 ==> AddJitter(d, j) == d + j && 0 < AddJitter(d, j))
            <==> 1 <= d <= 0x7fff_ffff_ffff_ffff - 4_999_999_999
  {
    if d < 1 {
      assert AddJitter(d, 0) == d;
    } else if d > MAX_INT64 - 4_999_999_999 {
      assert AddJitter(d, 4_999_999_999) < 0;
    }
  }
}
