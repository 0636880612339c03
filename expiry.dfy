/** Day arithmetic on expiration timestamps shared by the screens: the whole-day
    count until an expiration date, and the expiration date a number of days ahead.
    Timestamps are `Long` milliseconds; the current time is a parameter. */
module Expiry {
  import opened Numeric

  /** `1000 * 60 * 60 * 24`, an `Int` product that fits without wrapping. */
  const MillisPerDay: Int32 := 86_400_000

  /** The two timestamps are fewer than 2^31 days apart, so the day count between
      them is an `Int` without wrapping. */
  predicate WithinIntDays(expirationDate: Int64, now: Int64)
  {
    -0x8000_0000 * MillisPerDay < expirationDate - now < 0x8000_0000 * MillisPerDay
  }

  /** `((expirationDate - now) / (1000 * 60 * 60 * 24)).toInt()`: a `Long`
      difference, a `Long` division truncating toward zero, a narrowing to `Int`. */
  function DaysUntilExpiration(expirationDate: Int64, now: Int64): (days: Int32)
    ensures WithinIntDays(expirationDate, now) ==> days == TruncDiv(expirationDate - now, MillisPerDay)
  {
    var diff := LongMinus(expirationDate, now);
    var q := LongDiv(diff, MillisPerDay);
    assert WithinIntDays(expirationDate, now) ==> diff == expirationDate - now && MinInt <= q <= MaxInt;
    LongToInt(q)
  }

  /** The sign of the day count: positive from one full day ahead on, zero for any
      difference strictly within one day either side of now (an item that expired
      an hour ago still counts as expiring today), negative from one full day
      past on. */
  lemma DaysSign(expirationDate: Int64, now: Int64)
    requires WithinIntDays(expirationDate, now)
    ensures DaysUntilExpiration(expirationDate, now) > 0 <==> expirationDate - now >= MillisPerDay
    ensures DaysUntilExpiration(expirationDate, now) == 0 <==>
      -MillisPerDay < expirationDate - now < MillisPerDay
    ensures DaysUntilExpiration(expirationDate, now) < 0 <==> expirationDate - now <= -MillisPerDay
  {
    var d := DaysUntilExpiration(expirationDate, now);
    var diff := expirationDate - now;
    if diff >= 0 {
      assert d * MillisPerDay <= diff < d * MillisPerDay + MillisPerDay;
    } else {
      assert d * MillisPerDay - MillisPerDay < diff <= d * MillisPerDay;
    }
  }

  /** A later expiration date never has fewer days left. */
  lemma DaysMonotone(e1: Int64, e2: Int64, now: Int64)
    requires WithinIntDays(e1, now) && WithinIntDays(e2, now)
    requires e1 <= e2
    ensures DaysUntilExpiration(e1, now) <= DaysUntilExpiration(e2, now)
  {
  }

  /** The division truncates, unlike a floor: one millisecond short of a full day
      past the expiration still reads 0 days, where flooring would read -1. */
  lemma DaysTruncateTowardZero(now: Int64)
    requires now >= MinLong + MillisPerDay
    ensures DaysUntilExpiration(now - MillisPerDay + 1, now) == 0
    ensures ((now - MillisPerDay + 1) - now) / MillisPerDay == -1
  {
    DaysSign(now - MillisPerDay + 1, now);
  }

  /** Beyond 2^31 days the `toInt()` wraps: an expiration exactly 2^31 days ahead
      reads as the most negative day count. */
  lemma DaysWrapFarAhead()
    ensures DaysUntilExpiration(0x8000_0000 * MillisPerDay, 0) == MinInt
  {
    var q := LongDiv(0x8000_0000 * MillisPerDay, MillisPerDay);
    TruncDivUnique(0x8000_0000 * MillisPerDay, MillisPerDay, 0x8000_0000);
    assert q == 0x8000_0000;
  }

  /** `now + days * 24 * 60 * 60 * 1000L`, evaluated left to right: the factor
      `days * 24 * 60 * 60` is an `Int` product (and may wrap), which is widened
      to `Long` for the final `* 1000L` and the addition. */
  function ExpirationAfterDays(now: Int64, days: Int32): (r: Int64)
    ensures 0 <= days <= 24855 && now + days * MillisPerDay <= MaxLong ==> r == now + days * MillisPerDay
  {
    var seconds := IntTimes(IntTimes(IntTimes(days, 24), 60), 60);
    assert 0 <= days <= 24855 ==> seconds == days * 86_400;
    LongPlus(now, LongTimes(seconds, 1000))
  }

  /** The first day count the `Int` product cannot hold: 24856 days ahead lands
      about 24854 days in the past. */
  lemma ExpirationAfterDaysWraps(now: Int64)
    requires 0 <= now <= MaxLong / 2
    ensures ExpirationAfterDays(now, 24856) == now + (24856 * 86_400 - IntModulus) * 1000
    ensures ExpirationAfterDays(now, 24856) < now
  {
    var seconds := IntTimes(IntTimes(IntTimes(24856, 24), 60), 60);
    assert IntTimes(24856, 24) == 596544;
    assert IntTimes(596544, 60) == 35792640;
    assert seconds == Wrap32(2147558400);
    assert seconds == 2147558400 - IntModulus by {
      var w := Wrap32(2147558400);
      assert (2147558400 - w) % IntModulus == 0;
    }
  }

  /** Counting the days to an expiration set `days` ahead gives back `days`, for
      every day count the `Int` product holds. */
  lemma DaysAfterRoundTrip(now: Int64, days: Int32)
    requires 0 <= days <= 24855
    requires now + days * MillisPerDay <= MaxLong
    ensures DaysUntilExpiration(ExpirationAfterDays(now, days), now) == days
  {
    var e := ExpirationAfterDays(now, days);
    assert e - now == days * MillisPerDay;
    TruncDivUnique(e - now, MillisPerDay, days);
  }
}
