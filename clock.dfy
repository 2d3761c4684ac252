/**
 * Time as the walk-in queue sees it. An instant is a whole number of seconds
 * in the server's local time zone; a calendar day is a day number.
 */
module Clock {

  type Instant = int

  const SecondsPerMinute: int := 60
  const SecondsPerDay: int := 86400

  /** The calendar day of an instant (the `__date` lookup and `date.today()`). */
  function DayOf(t: Instant): (day: int)
    ensures day * SecondsPerDay <= t < day * SecondsPerDay + SecondsPerDay
  {
    t / SecondsPerDay
  }

  /**
   * Whole minutes in a duration given in seconds, as `int(seconds / 60)`:
   * Python's `int` truncates toward zero, so a negative duration rounds up.
   */
  function WholeMinutes(seconds: int): (m: int)
    ensures seconds >= 0 ==> 0 <= m && m * SecondsPerMinute <= seconds < m * SecondsPerMinute + SecondsPerMinute
    ensures seconds < 0 ==> m <= 0 && m * SecondsPerMinute - SecondsPerMinute < seconds <= m * SecondsPerMinute
  {
    if seconds >= 0 then seconds / SecondsPerMinute else -((-seconds) / SecondsPerMinute)
  }
}
