// Rounding of timestamps to an interval, and the minute-bucket names the
// schedule queue is cached under.

module TimeUtils {
  import opened Common
  import opened Messages

  /** `RoundDown`: the latest multiple of `d` that is not after `dt`. */
  function RoundDown(dt: Ticks, d: int): (r: Ticks)
    requires d > 0
    ensures r % d == 0
    ensures r <= dt < r + d
  {
    var q := dt / d;
    MultipleMod(q, d);
    q * d
  }

  /** `RoundUp`: the earliest multiple of `d` that is not before `dt`. */
  function RoundUp(dt: Ticks, d: int): (r: Ticks)
    requires d > 0
    ensures r % d == 0
    ensures dt <= r < dt + d
    ensures r == dt <==> dt % d == 0
  {
    var modTicks := dt % d;
    var delta := if modTicks != 0 then d - modTicks else 0;
    assert dt + delta == (dt / d + (if modTicks != 0 then 1 else 0)) * d;
    MultipleMod(dt / d + (if modTicks != 0 then 1 else 0), d);
    dt + delta
  }

  lemma MultipleMod(q: int, d: int)
    requires d > 0
    ensures (q * d) % d == 0
  {
    var r := (q * d) % d;
    var t := q - (q * d) / d;
    assert t * d == r;
    if t >= 1 {
      assert t * d == (t - 1) * d + d;
    } else if t <= -1 {
      assert t * d == -((-t - 1) * d) - d;
    }
  }

  /** Two distinct multiples of `d` are at least `d` apart. */
  lemma {:induction false} MultiplesApart(m1: int, m2: int, d: int)
    requires d > 0 && m1 % d == 0 && m2 % d == 0 && m1 < m2
    ensures m1 + d <= m2
  {
    var a, b := m1 / d, m2 / d;
    assert m1 == a * d && m2 == b * d;
    assert (b - a) * d == m2 - m1;
    MultipleSign(b - a, d);
  }

  /** A positive multiple of `d` by `k` is at least `d`; a non-positive one is at most 0. */
  lemma {:induction false} MultipleSign(k: int, d: int)
    requires d > 0
    ensures k >= 1 ==> k * d >= d
    ensures k <= 0 ==> k * d <= 0
    decreases if k >= 0 then k else -k
  {
    if k > 1 {
      MultipleSign(k - 1, d);
      assert k * d == (k - 1) * d + d;
    } else if k < 0 {
      MultipleSign(k + 1, d);
      assert k * d == (k + 1) * d - d;
    }
  }

  /** `RoundDown(dt, d)` is the only multiple of `d` in the interval ending at `dt`. */
  lemma {:induction false} RoundDownUnique(dt: Ticks, d: int, m: Ticks)
    requires d > 0 && m % d == 0 && m <= dt < m + d
    ensures RoundDown(dt, d) == m
  {
    var r := RoundDown(dt, d);
    if r < m {
      MultiplesApart(r, m, d);
    } else if m < r {
      MultiplesApart(m, r, d);
    }
  }

  /** `RoundUp(dt, d)` is the only multiple of `d` in the interval starting at `dt`. */
  lemma {:induction false} RoundUpUnique(dt: Ticks, d: int, m: Ticks)
    requires d > 0 && m % d == 0 && dt <= m < dt + d
    ensures RoundUp(dt, d) == m
  {
    var r := RoundUp(dt, d);
    if r < m {
      MultiplesApart(r, m, d);
    } else if m < r {
      MultiplesApart(m, r, d);
    }
  }

  /** Rounding down is idempotent. */
  lemma {:induction false} RoundDownIdempotent(dt: Ticks, d: int)
    requires d > 0
    ensures RoundDown(RoundDown(dt, d), d) == RoundDown(dt, d)
  {
    var r := RoundDown(dt, d);
    RoundDownUnique(r, d, r);
  }

  /** Rounding down is monotone. */
  lemma {:induction false} RoundDownMonotone(a: Ticks, b: Ticks, d: int)
    requires d > 0 && a <= b
    ensures RoundDown(a, d) <= RoundDown(b, d)
  {
    var ra, rb := RoundDown(a, d), RoundDown(b, d);
    if rb < ra {
      MultiplesApart(rb, ra, d);
    }
  }

  /** Rounding up and down agree exactly on multiples of `d`, and are one interval apart elsewhere. */
  lemma {:induction false} RoundUpDownGap(dt: Ticks, d: int)
    requires d > 0
    ensures dt % d == 0 ==> RoundUp(dt, d) == RoundDown(dt, d)
    ensures dt % d != 0 ==> RoundUp(dt, d) == RoundDown(dt, d) + d
  {
    var lo := RoundDown(dt, d);
    if dt % d == 0 {
      RoundDownUnique(dt, d, dt);
    } else {
      assert lo != dt;
      MultipleMod(lo / d + 1, d);
      assert lo == (lo / d) * d;
      assert lo + d == (lo / d + 1) * d;
      RoundUpUnique(dt, d, lo + d);
    }
  }

  /** The file-name suffix of a timestamp: its minute, rendered by `format` as yyyyMMdd-HHmmss. */
  function CalculateTimeSuffixFromTimeStamp(timeStamp: Ticks, format: Ticks -> string): string
  {
    format(RoundDown(timeStamp, TicksPerMinute))
  }

  const ScheduleQueuePrefix: string := "scheduleQueue_"

  /**
   * The cache item name of the schedule-queue bucket a timestamp falls in:
   * the prefix, then the suffix of the timestamp's minute.
   */
  function CalculateCacheNameFromTimeStamp(timeStamp: Ticks, format: Ticks -> string): (r: string)
    ensures StartsWith(r, ScheduleQueuePrefix)
    ensures r[|ScheduleQueuePrefix|..] == format(RoundDown(timeStamp, TicksPerMinute))
  {
    RoundDownIdempotent(timeStamp, TicksPerMinute);
    ScheduleQueuePrefix + CalculateTimeSuffixFromTimeStamp(RoundDown(timeStamp, TicksPerMinute), format)
  }

  /** A timestamp and its minute share a suffix: the suffix only sees the minute. */
  lemma {:induction false} SuffixSeesOnlyTheMinute(t: Ticks, format: Ticks -> string)
    ensures CalculateTimeSuffixFromTimeStamp(t, format)
         == CalculateTimeSuffixFromTimeStamp(RoundDown(t, TicksPerMinute), format)
  {
    RoundDownIdempotent(t, TicksPerMinute);
  }

  /** Two timestamps within the same minute land in the same bucket. */
  lemma {:induction false} SameMinuteSameBucket(a: Ticks, b: Ticks, format: Ticks -> string)
    requires RoundDown(a, TicksPerMinute) <= b < RoundDown(a, TicksPerMinute) + TicksPerMinute
    ensures CalculateCacheNameFromTimeStamp(a, format) == CalculateCacheNameFromTimeStamp(b, format)
  {
    RoundDownUnique(b, TicksPerMinute, RoundDown(a, TicksPerMinute));
  }

  /**
   * With a format that tells different instants apart, two timestamps share
   * a bucket exactly when they fall in the same minute.
   */
  lemma {:induction false} SameBucketIffSameMinute(a: Ticks, b: Ticks, format: Ticks -> string)
    requires forall x, y :: format(x) == format(y) ==> x == y
    ensures CalculateCacheNameFromTimeStamp(a, format) == CalculateCacheNameFromTimeStamp(b, format)
        <==> RoundDown(a, TicksPerMinute) == RoundDown(b, TicksPerMinute)
  {
    var na, nb := CalculateCacheNameFromTimeStamp(a, format), CalculateCacheNameFromTimeStamp(b, format);
    if na == nb {
      assert format(RoundDown(a, TicksPerMinute)) == format(RoundDown(b, TicksPerMinute));
    }
  }
}
