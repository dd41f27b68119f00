/** The quota arithmetic of `prepare_rewards` (rewarding/reward_crons.py):
    the daily target of rewarded members, the number of winners a coupon may
    have today, and `get_remaining_days_in_month` on a Gregorian calendar. */
module Quota {
  import opened Models

  /** Python 2 `/` on integers: floor division. Dafny's `/` is Euclidean,
      which agrees with floor division for a positive divisor. */
  function PyDiv(a: int, b: int): (q: int)
    requires b > 0
    ensures q * b <= a < q * b + b
  {
    a / b
  }

  /** `audience_size` is spread over a month of 30 days. */
  const DaysPerAudience: int := 30

  /** N, the number of members rewarded per day: `audience_size / 30`. */
  function DailyTarget(audience: int): (n: int)
    ensures audience >= 0 ==> n >= 0
    ensures n * DaysPerAudience <= audience < (n + 1) * DaysPerAudience
  {
    PyDiv(audience, DaysPerAudience)
  }

  /** The number of winning indexes drawn for a coupon: what is left of its
      monthly quota, spread over the remaining days, and kept within the n
      slots `random.sample` can draw from. */
  function WinnersToday(monthQuota: int, monthWinners: int, remainingDays: int, n: int): (w: int)
    requires remainingDays >= 1 && n >= 0
    ensures 0 <= w <= n
    ensures w == 0 || w * remainingDays <= monthQuota - monthWinners
    ensures w == n || monthQuota - monthWinners < (w + 1) * remainingDays
  {
    var share := PyDiv(monthQuota - monthWinners, remainingDays);
    if share < 0 then 0 else if share > n then n else share
  }

  /** A quota that is already used up gives no winner today. */
  lemma ExhaustedQuotaHasNoWinner(monthQuota: int, monthWinners: int, remainingDays: int, n: int)
    requires remainingDays >= 1 && n >= 0 && monthWinners >= monthQuota
    ensures WinnersToday(monthQuota, monthWinners, remainingDays, n) == 0
  {
  }

  // -------------------------------------------------------------- calendar

  predicate IsLeap(y: int)
  {
    y % 4 == 0 && (y % 100 != 0 || y % 400 == 0)
  }

  function DaysInMonth(y: int, m: int): (d: int)
    requires 1 <= m <= 12
    ensures 28 <= d <= 31
    ensures m == 2 ==> (d == 29 <==> IsLeap(y))
  {
    if m == 2 then (if IsLeap(y) then 29 else 28)
    else if m == 4 || m == 6 || m == 9 || m == 11 then 30
    else 31
  }

  /** A local date and time: a calendar day and the seconds elapsed since its
      midnight. */
  datatype Moment = Moment(year: int, month: int, day: int, second: int)

  predicate ValidMoment(t: Moment)
  {
    1 <= t.month <= 12 && 1 <= t.day <= DaysInMonth(t.year, t.month) && 0 <= t.second < SecondsPerDay
  }

  /** The (year, month) that follows (y, m). */
  function NextMonth(y: int, m: int): (r: (int, int))
    requires 1 <= m <= 12
    ensures 1 <= r.1 <= 12
    ensures m < 12 ==> r == (y, m + 1)
    ensures m == 12 ==> r == (y + 1, 1)
  {
    (if m < 12 then y else y + 1, m % 12 + 1)
  }

  /** The length of the interval from `t` to midnight of the first day of the
      next month, in seconds. */
  function SecondsToNextMonth(t: Moment): (r: int)
    requires ValidMoment(t)
    ensures 0 < r <= DaysInMonth(t.year, t.month) * SecondsPerDay
  {
    (DaysInMonth(t.year, t.month) - t.day + 1) * SecondsPerDay - t.second
  }

  /** `(now.month + 1) % 12`, as reward_crons.py computes the next month. */
  function NextMonthAsWritten(m: int): int
  {
    (m + 1) % 12
  }

  /** `get_remaining_days_in_month` as written. `datetime(year, 0, 1)` raises
      `ValueError`, which is `None` here; for every other month the date built
      is the first of the next month and the result is the `.days` of the
      interval, a floor. */
  function RemainingDaysAsWritten(t: Moment): (r: Option<int>)
    requires ValidMoment(t)
    ensures r.Some? ==> (t.month != 11 && NextMonth(t.year, t.month)
                           == (if t.month < 12 then t.year else t.year + 1, NextMonthAsWritten(t.month)))
  {
    var nm := NextMonthAsWritten(t.month);
    if nm < 1 then None
    else Some(DaysBetween(0, SecondsToNextMonth(t)))
  }

  /** Every month except November is handled: the next month is the one the
      calendar gives, and the year rolls over after December. */
  lemma NextMonthAsWrittenAgrees(y: int, m: int)
    requires 1 <= m <= 12 && m != 11
    ensures NextMonth(y, m) == (if m < 12 then y else y + 1, NextMonthAsWritten(m))
  {
  }

  /** Finding: in November the month computed is 0, so no date can be built. */
  lemma NovemberHasNoNextMonth(t: Moment)
    requires ValidMoment(t) && t.month == 11
    ensures NextMonthAsWritten(t.month) == 0
    ensures RemainingDaysAsWritten(t).None?
  {
  }

  /** Finding: on the last day of a month, any time after midnight, the
      remaining days are 0 and the division of `prepare_rewards` by them fails. */
  lemma LastDayGivesZeroDays(t: Moment)
    requires ValidMoment(t) && t.month != 11
    requires t.day == DaysInMonth(t.year, t.month) && t.second > 0
    ensures RemainingDaysAsWritten(t) == Some(0)
  {
  }

  /** The remaining days of the month as `get_remaining_days_in_month`
      means them: the whole days to the first of the next month, the next
      month taken from the calendar (so November is handled), and at least 1,
      so that on the last day of a month the daily share of a monthly quota is
      still defined. */
  function RemainingDaysInMonth(t: Moment): (r: int)
    requires ValidMoment(t)
    ensures 1 <= r <= DaysInMonth(t.year, t.month)
    ensures r == 1 || r * SecondsPerDay <= SecondsToNextMonth(t) < (r + 1) * SecondsPerDay
    ensures r == 1 ==> SecondsToNextMonth(t) < 2 * SecondsPerDay
  {
    var d := DaysBetween(0, SecondsToNextMonth(t));
    if d < 1 then 1 else d
  }

  /** Wherever the code as written yields a count, it is this one, except on
      the last day of the month after midnight, where the code gives 0 and
      the count is 1. */
  lemma RemainingDaysCorrection(t: Moment)
    requires ValidMoment(t) && t.month != 11
    ensures var lastDay := t.day == DaysInMonth(t.year, t.month) && t.second > 0;
      && (!lastDay ==> RemainingDaysAsWritten(t) == Some(RemainingDaysInMonth(t)))
      && (lastDay ==> RemainingDaysAsWritten(t) == Some(0) && RemainingDaysInMonth(t) == 1)
  {
    var k := DaysInMonth(t.year, t.month) - t.day + 1;
    if t.second > 0 {
      assert SecondsToNextMonth(t) == (k - 1) * SecondsPerDay + (SecondsPerDay - t.second);
      assert DaysBetween(0, SecondsToNextMonth(t)) == k - 1;
    } else {
      assert DaysBetween(0, SecondsToNextMonth(t)) == k;
    }
  }
}
