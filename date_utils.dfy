/** Day arithmetic of src/lib/utils/date.ts. The current moment is the
    parameter `now`; the time zone is a fixed offset, so a day is exactly
    86 400 000 ms and days begin at multiples of that length. */
module DateUtils {
  import opened Models

  const DAY: int := 24 * 60 * 60 * 1000

  /** date-fns `startOfDay`: the last midnight at or before `t`. */
  function StartOfDay(t: Instant): (r: Instant)
    ensures r <= t < r + DAY
    ensures r % DAY == 0
  {
    t - t % DAY
  }

  /** date-fns `endOfDay`: the last millisecond of `t`'s day. */
  function EndOfDay(t: Instant): (r: Instant)
    ensures StartOfDay(t) <= r < StartOfDay(t) + DAY
    ensures StartOfDay(r) == StartOfDay(t)
    ensures StartOfDay(r + 1) == StartOfDay(t) + DAY
  {
    StartOfDay(t) + DAY - 1
  }

  /** The number of the calendar day holding `t`, counted from the epoch. */
  function DayNumber(t: Instant): int {
    t / DAY
  }

  lemma StartOfDayIsDayNumber(t: Instant)
    ensures StartOfDay(t) == DayNumber(t) * DAY
  {
  }

  /** Two instants share a calendar day exactly when their start-of-day
      instants are equal. */
  lemma {:induction false} SameDayNumber(a: Instant, b: Instant)
    ensures StartOfDay(a) == StartOfDay(b) <==> DayNumber(a) == DayNumber(b)
  {
    StartOfDayIsDayNumber(a);
    StartOfDayIsDayNumber(b);
  }

  /** Euclidean division by DAY of `k * DAY + rest`. */
  lemma DivDay(k: int, rest: int)
    requires 0 <= rest < DAY
    ensures (k * DAY + rest) / DAY == k
  {
  }

  /** date-fns `differenceInDays(a, b)`: the number of whole 24-hour periods
      from `b` to `a`, truncated toward zero. */
  function DifferenceInDays(a: Instant, b: Instant): (r: int)
    ensures a >= b ==> 0 <= r && r * DAY <= a - b < (r + 1) * DAY
    ensures a < b ==> r <= 0 && (r - 1) * DAY < a - b <= r * DAY
  {
    if a >= b then (a - b) / DAY else -((b - a) / DAY)
  }

  /** `differenceInDays` of two midnights is the difference of their day
      numbers. */
  lemma {:induction false} DifferenceOfStartsOfDays(a: Instant, b: Instant)
    ensures DifferenceInDays(StartOfDay(a), StartOfDay(b)) == DayNumber(a) - DayNumber(b)
  {
    StartOfDayIsDayNumber(a);
    StartOfDayIsDayNumber(b);
    var d := DayNumber(a) - DayNumber(b);
    assert StartOfDay(a) - StartOfDay(b) == d * DAY;
    if d >= 0 {
      DivDay(d, 0);
    } else {
      DivDay(-d, 0);
    }
  }

  /** `getTotalDays`: the inclusive day count of a period. */
  function TotalDays(startDate: Instant, endDate: Instant): (r: int)
    ensures endDate >= startDate ==> r >= 1
    ensures endDate < startDate ==> r <= 1
  {
    DifferenceInDays(endDate, startDate) + 1
  }

  /** `getDaysInPeriod`, written separately in the source with the same
      expression as `getTotalDays`. */
  function DaysInPeriod(startDate: Instant, endDate: Instant): (r: int)
    ensures endDate >= startDate ==> r >= 1
  {
    DifferenceInDays(endDate, startDate) + 1
  }

  lemma TotalDaysOfOneDay(d: Instant)
    ensures TotalDays(d, d) == 1
  {
  }

  lemma TotalDaysIsDaysInPeriod(startDate: Instant, endDate: Instant)
    ensures TotalDays(startDate, endDate) == DaysInPeriod(startDate, endDate)
  {
  }

  /** For whole-day dates, `getTotalDays` counts both end days. */
  lemma {:induction false} TotalDaysOfMidnights(startDate: Instant, endDate: Instant)
    requires startDate % DAY == 0 && endDate % DAY == 0
    ensures TotalDays(startDate, endDate) == DayNumber(endDate) - DayNumber(startDate) + 1
  {
    DifferenceOfStartsOfDays(endDate, startDate);
  }

  /** `getDaysElapsed`: the days from the start date through today, but
      never more than the period's total days. */
  function DaysElapsed(startDate: Instant, endDate: Instant, now: Instant): (r: int)
    ensures r <= TotalDays(startDate, endDate)
    ensures r <= DayNumber(now) - DayNumber(startDate) + 1
    ensures r == TotalDays(startDate, endDate) || r == DayNumber(now) - DayNumber(startDate) + 1
  {
    DifferenceOfStartsOfDays(now, startDate);
    var today := StartOfDay(now);
    var start := StartOfDay(startDate);
    var elapsed := DifferenceInDays(today, start) + 1;
    var total := DifferenceInDays(endDate, startDate) + 1;
    if elapsed < total then elapsed else total
  }

  /** `getDaysRemaining`: from today through the end of the end date,
      never negative. The start date plays no part. */
  function DaysRemaining(startDate: Instant, endDate: Instant, now: Instant): (r: int)
    ensures r >= 0
  {
    var today := StartOfDay(now);
    var end := EndOfDay(endDate);
    var days := DifferenceInDays(end, today) + 1;
    if days > 0 then days else 0
  }

  /** Up to and including the end date, the remaining days count today and
      the end date. */
  lemma {:induction false} DaysRemainingUntilEnd(startDate: Instant, endDate: Instant, now: Instant)
    requires DayNumber(now) <= DayNumber(endDate)
    ensures DaysRemaining(startDate, endDate, now) == DayNumber(endDate) - DayNumber(now) + 1
  {
    StartOfDayIsDayNumber(now);
    StartOfDayIsDayNumber(endDate);
    var d := DayNumber(endDate) - DayNumber(now);
    assert EndOfDay(endDate) - StartOfDay(now) == d * DAY + (DAY - 1);
    DivDay(d, DAY - 1);
  }

  /** Because the difference is truncated toward zero, the day after the
      end date still has one remaining day. */
  lemma {:induction false} DaysRemainingDayAfterEnd(startDate: Instant, endDate: Instant, now: Instant)
    requires DayNumber(now) == DayNumber(endDate) + 1
    ensures DaysRemaining(startDate, endDate, now) == 1
  {
    StartOfDayIsDayNumber(now);
    StartOfDayIsDayNumber(endDate);
    assert EndOfDay(endDate) - StartOfDay(now) == -1;
  }

  /** From the second day after the end date on, no days remain. */
  lemma {:induction false} DaysRemainingLaterAfterEnd(startDate: Instant, endDate: Instant, now: Instant)
    requires DayNumber(now) >= DayNumber(endDate) + 2
    ensures DaysRemaining(startDate, endDate, now) == 0
  {
    StartOfDayIsDayNumber(now);
    StartOfDayIsDayNumber(endDate);
    assert EndOfDay(endDate) - StartOfDay(now) <= -DAY - 1;
  }

  /** `getDailyBudget`: what is left, spread over the remaining days; zero
      when no day remains or nothing is left. */
  function DailyBudget(totalBudget: real, totalSpent: real, daysRemaining: int): (r: real)
    ensures r >= 0.0
    ensures daysRemaining <= 0 ==> r == 0.0
    ensures daysRemaining > 0 && totalSpent <= totalBudget ==>
              r * daysRemaining as real == totalBudget - totalSpent
    ensures daysRemaining > 0 && totalSpent >= totalBudget ==> r == 0.0
  {
    if daysRemaining <= 0 then 0.0
    else
      var share := (totalBudget - totalSpent) / daysRemaining as real;
      if share > 0.0 then share else 0.0
  }

  /** `isToday`: `date` falls on the same calendar day as `now`, that is,
      between today's midnight and the next one. */
  predicate IsToday(date: Instant, now: Instant)
    ensures IsToday(date, now) <==> StartOfDay(now) <= date < StartOfDay(now) + DAY
  {
    StartOfDay(now) == StartOfDay(date)
  }

  /** `getDateRange` (date-fns `eachDayOfInterval`): the midnights from the
      start date's day through the end date's day, one day apart. */
  function DateRange(startDate: Instant, endDate: Instant): (r: seq<Instant>)
    requires startDate <= endDate
    ensures |r| == DayNumber(endDate) - DayNumber(startDate) + 1
    ensures r[0] == StartOfDay(startDate) && r[|r| - 1] == StartOfDay(endDate)
    ensures forall k :: 0 <= k < |r| ==> r[k] % DAY == 0 && StartOfDay(startDate) <= r[k] <= endDate
    ensures forall k :: 0 <= k < |r| ==> r[k] == r[0] + k * DAY
  {
    StartOfDayIsDayNumber(startDate);
    StartOfDayIsDayNumber(endDate);
    var first := StartOfDay(startDate);
    seq(DayNumber(endDate) - DayNumber(startDate) + 1, k => first + k * DAY)
  }

  /** Consecutive dates of the range are one day apart. */
  lemma {:induction false} DateRangeConsecutive(startDate: Instant, endDate: Instant, k: int)
    requires startDate <= endDate && 0 <= k < |DateRange(startDate, endDate)| - 1
    ensures DateRange(startDate, endDate)[k + 1] == DateRange(startDate, endDate)[k] + DAY
  {
    var r := DateRange(startDate, endDate);
    assert r[k] == r[0] + k * DAY && r[k + 1] == r[0] + (k + 1) * DAY;
  }

  /** Every midnight between the two dates is in the range. */
  lemma {:induction false} DateRangeComplete(startDate: Instant, endDate: Instant, t: Instant)
    requires startDate <= endDate
    requires t % DAY == 0 && StartOfDay(startDate) <= t <= endDate
    ensures t in DateRange(startDate, endDate)
  {
    StartOfDayIsDayNumber(startDate);
    StartOfDayIsDayNumber(endDate);
    var r := DateRange(startDate, endDate);
    var k := (t - StartOfDay(startDate)) / DAY;
    DivDay(DayNumber(t), 0);
    assert t == DayNumber(t) * DAY;
    assert k == DayNumber(t) - DayNumber(startDate);
    assert r[k] == t;
  }
}
