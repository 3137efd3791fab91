/**
 * The date arithmetic the activities route asks of its date library,
 * restated over integer instants.
 *
 * An instant is a count of milliseconds since the epoch, read in one fixed
 * reference calendar (UTC: every day is exactly DAY milliseconds long and
 * there is no daylight-saving shift). Instants before the epoch are
 * negative; their calendar day is still the floor of the division, which
 * Dafny's `/` computes for a positive divisor.
 */
module DayCalendar {

  type Instant = int

  /** Milliseconds in one calendar day of the reference calendar. */
  const DAY: int := 86_400_000

  /** The calendar day an instant falls on, counted from the epoch's day. */
  function CalendarDay(t: Instant): (d: int)
    ensures d * DAY <= t < (d + 1) * DAY
  {
    t / DAY
  }

  /** Milliseconds elapsed since the start of the instant's calendar day. */
  function TimeOfDay(t: Instant): (ms: int)
    ensures 0 <= ms < DAY
    ensures t == CalendarDay(t) * DAY + ms
  {
    t % DAY
  }

  /** The first millisecond of the instant's calendar day (`startOf('day')`). */
  function StartOfDay(t: Instant): (s: Instant)
    ensures s <= t < s + DAY
    ensures CalendarDay(s) == CalendarDay(t) && TimeOfDay(s) == 0
  {
    CalendarDay(t) * DAY
  }

  /** The last millisecond of the instant's calendar day (`endOf('day')`). */
  function EndOfDay(t: Instant): (e: Instant)
    ensures t <= e && e - StartOfDay(t) == DAY - 1
    ensures CalendarDay(e) == CalendarDay(t) && TimeOfDay(e) == DAY - 1
  {
    StartOfDay(t) + DAY - 1
  }

  /**
   * `dayjs(later).diff(earlier, 'days')`: the elapsed time in whole days,
   * the fraction dropped toward zero (not floored) for either sign.
   */
  function DiffDays(later: Instant, earlier: Instant): (n: int)
    ensures earlier <= later ==> 0 <= n && n * DAY <= later - earlier < (n + 1) * DAY
    ensures later < earlier ==> n <= 0 && (n - 1) * DAY < later - earlier <= n * DAY
  {
    var elapsed := later - earlier;
    if elapsed >= 0 then elapsed / DAY else -((-elapsed) / DAY)
  }

  /** `dayjs(t).add(n, 'days')`: the same time of day, n calendar days on. */
  function AddDays(t: Instant, n: int): (u: Instant)
    ensures CalendarDay(u) == CalendarDay(t) + n
    ensures TimeOfDay(u) == TimeOfDay(t)
  {
    t + n * DAY
  }

  /** An instant lies within another's day exactly when the two share a calendar day. */
  lemma WithinDayIsSameCalendarDay(t: Instant, reference: Instant)
    ensures StartOfDay(reference) <= t <= EndOfDay(reference) <==> CalendarDay(t) == CalendarDay(reference)
  {
    var d, r := CalendarDay(t), CalendarDay(reference);
    if d < r {
      assert t < (d + 1) * DAY <= r * DAY == StartOfDay(reference);
    } else if d > r {
      assert t >= d * DAY >= (r + 1) * DAY > EndOfDay(reference);
    }
  }

  /**
   * `dayjs(t).isSame(reference, 'day')`, as the library decides it: the
   * reference lies between the start and the end of t's day. That holds
   * exactly when the two instants share a calendar day.
   */
  predicate IsSameDay(t: Instant, reference: Instant): (same: bool)
    ensures same <==> CalendarDay(t) == CalendarDay(reference)
  {
    WithinDayIsSameCalendarDay(reference, t);
    StartOfDay(t) <= reference <= EndOfDay(t)
  }
}
