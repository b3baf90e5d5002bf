/**
 * The elapsed-time helpers of `DateUtil`: a difference of two millisecond
 * timestamps divided by the length of a minute, an hour or a day, with
 * Java's `long` division, which truncates toward zero.
 */
module Durations {
  const MINUTE_MS: nat := 1000 * 60
  const HOUR_MS: nat := 1000 * 60 * 60
  const DAY_MS: nat := 1000 * 60 * 60 * 24

  /** Java's `/`: the quotient truncated toward zero, for a positive divisor. */
  function TruncDiv(a: int, d: nat): int
    requires d > 0
  {
    if a >= 0 then a / d else -((-a) / d)
  }

  /** The number of whole `unit`s elapsed from `start` to `end`, negative when `end` is earlier. */
  function Between(start: int, end: int, unit: nat): int
    requires unit > 0
  {
    TruncDiv(end - start, unit)
  }

  function MinutesBetween(start: int, end: int): int { Between(start, end, MINUTE_MS) }
  function HoursBetween(start: int, end: int): int { Between(start, end, HOUR_MS) }
  function DaysBetween(start: int, end: int): int { Between(start, end, DAY_MS) }

  lemma MulMonotone(d: nat, a: nat, b: nat)
    requires a <= b
    ensures d * a <= d * b
  {
    assert d * b == d * a + d * (b - a);
  }

  lemma MulCancel(d: nat, a: nat, b: nat)
    requires d * a < d * b
    ensures a < b
  {
    if a >= b {
      MulMonotone(d, b, a);
    }
  }

  lemma DivMonotone(x: nat, y: nat, d: nat)
    requires x <= y && d > 0
    ensures x / d <= y / d
  {
    var qx: nat := x / d;
    var qy: nat := y / d;
    assert d * qx <= x by {
      assert x == d * qx + x % d;
    }
    assert y < d * (qy + 1) by {
      assert y == d * qy + y % d;
    }
    MulCancel(d, qx, qy + 1);
  }

  /** For a forward interval the result counts the whole units in it. */
  lemma BetweenBounds(start: int, end: int, unit: nat)
    requires unit > 0 && start <= end
    ensures var r := Between(start, end, unit);
      r >= 0 && r * unit <= end - start < (r + 1) * unit
  {
  }

  /** Swapping the ends negates the result, which is why it truncates rather than floors. */
  lemma BetweenAntisymmetric(a: int, b: int, unit: nat)
    requires unit > 0
    ensures Between(a, b, unit) == -Between(b, a, unit)
    ensures Between(a, a, unit) == 0
  {
    if b - a < 0 && (a - b) / unit == 0 {
      assert -(-(b - a) / unit) == 0;
    }
  }

  lemma TruncDivMonotone(a: int, b: int, d: nat)
    requires a <= b && d > 0
    ensures TruncDiv(a, d) <= TruncDiv(b, d)
  {
    if 0 <= a {
      DivMonotone(a, b, d);
    } else if b < 0 {
      DivMonotone(-b, -a, d);
    } else {
      DivMonotone(0, -a, d);
      DivMonotone(0, b, d);
      assert 0 / d == 0;
    }
  }

  /** For a fixed start the result never decreases as the end moves later. */
  lemma BetweenMonotone(start: int, end1: int, end2: int, unit: nat)
    requires unit > 0 && end1 <= end2
    ensures Between(start, end1, unit) <= Between(start, end2, unit)
  {
    TruncDivMonotone(end1 - start, end2 - start, unit);
  }

  /** Within one minute of each other two timestamps are zero minutes apart, in either order. */
  lemma UnitsInstances(start: int, end: int)
    requires start <= end < start + MINUTE_MS || end <= start < end + MINUTE_MS
    ensures MinutesBetween(start, end) == 0 && HoursBetween(start, end) == 0 && DaysBetween(start, end) == 0
  {
  }
}
