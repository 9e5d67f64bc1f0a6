/**
 * .NET `DateTime` and `TimeSpan` values, as the tick counts (100 ns units)
 * they are made of, and the C# remainder operator they are combined with.
 */
module Clock {

  const TicksPerDay: int := 864_000_000_000

  /** `DateTime.MinValue`, `DateTime.UnixEpoch` and `DateTime.MaxValue`, in ticks. */
  const MinValue: int := 0
  const UnixEpoch: int := 621_355_968_000_000_000
  const MaxValue: int := 3_155_378_975_999_999_999

  /** The sentinel instants that the crop timers use in place of a real time. */
  predicate IsSentinel(t: int) {
    t == MinValue || t == UnixEpoch || t == MaxValue
  }

  /** C#'s `a / b` for `long` operands: the quotient truncated toward zero. */
  function TruncDiv(a: int, b: int): int
    requires b > 0
  {
    if a >= 0 then a / b else -((-a) / b)
  }

  /**
   * C#'s `a % b` for `long` operands: the quotient is truncated toward zero,
   * so the remainder takes the sign of the dividend.
   */
  function TruncRem(a: int, b: int): (r: int)
    requires b > 0
    ensures -b < r < b
    ensures a >= 0 ==> 0 <= r
    ensures a < 0 ==> r <= 0
    ensures a == b * TruncDiv(a, b) + r
  {
    if a >= 0 then a % b
    else
      var q := (-a) / b;
      assert -a == b * q + (-a) % b;
      assert b * -q == -(b * q);
      -((-a) % b)
  }
}
