/**
 * Wall-clock time in the bot's fixed reference zone (Europe/Istanbul), in whole
 * seconds. A moment is a day index plus the second of that day; the zone has no
 * daylight-saving shift, so every day has 86400 seconds.
 */
module Clock {

  const SecondsPerHour: int := 3600
  const SecondsPerDay: int := 86400

  /** The sleep window is [SleepStartHour, SleepEndHour) on the local clock. */
  const SleepStartHour: int := 2
  const SleepEndHour: int := 9

  type SecondOfDay = s: int | 0 <= s < 86400

  datatype Moment = Moment(day: int, second: SecondOfDay)

  /** Seconds since midnight of day 0; the order of moments is the order of these. */
  function Seconds(m: Moment): int
  {
    m.day * SecondsPerDay + m.second
  }

  /** The clock's hour field (datetime.hour). */
  function Hour(m: Moment): (h: int)
    ensures 0 <= h < 24
    ensures h * SecondsPerHour <= m.second < (h + 1) * SecondsPerHour
  {
    m.second / SecondsPerHour
  }

  /** Whether the correspondent is asleep: the hour lies in [2, 9). */
  function IsSleepingTime(now: Moment): (asleep: bool)
    ensures asleep <==> SleepStartHour * SecondsPerHour <= now.second < SleepEndHour * SecondsPerHour
  {
    SleepStartHour <= Hour(now) < SleepEndHour
  }

  /** Moments are ordered by day first and second of the day next. */
  lemma SecondsOrder(a: Moment, b: Moment)
    ensures Seconds(a) < Seconds(b) <==> a.day < b.day || (a.day == b.day && a.second < b.second)
  {
  }
}
