/** Instants on the local wall clock, counted in whole minutes; a calendar day is
    1440 minutes (no daylight-saving jumps on this clock). */
module WallClock {

  const MillisPerMinute: int := 60000
  const MinutesPerDay: int := 1440

  /** The calendar day an instant falls on. */
  function Day(t: int): int {
    t / MinutesPerDay
  }

  /** The time of day of an instant, in minutes after midnight. */
  function MinuteOfDay(t: int): int {
    t % MinutesPerDay
  }

  /** `today = sdf.parse(sdf.format(timestamp))` with the pattern `yyyy-MM-dd HH:mm`:
      the current millisecond reading, truncated to the minute it falls in. */
  function TruncateToMinute(nowMillis: int): (today: int)
    ensures today * MillisPerMinute <= nowMillis < today * MillisPerMinute + MillisPerMinute
  {
    nowMillis / MillisPerMinute
  }

  /** `addDays(date, days)`: move the calendar date by `days` (backwards when
      negative) and keep the time of day. */
  function AddDays(t: int, days: int): (r: int)
    ensures Day(r) == Day(t) + days
    ensures MinuteOfDay(r) == MinuteOfDay(t)
  {
    t + days * MinutesPerDay
  }

  /** An instant is fixed by its day and its time of day. */
  lemma DayAndMinuteDetermineInstant(t: int, u: int)
    requires Day(t) == Day(u) && MinuteOfDay(t) == MinuteOfDay(u)
    ensures t == u
  {
  }

  /** So `AddDays` is the only shift that moves the date by `days` and keeps the time. */
  lemma AddDaysIsCalendarShift(t: int, days: int, r: int)
    requires Day(r) == Day(t) + days && MinuteOfDay(r) == MinuteOfDay(t)
    ensures r == AddDays(t, days)
  {
    DayAndMinuteDetermineInstant(r, AddDays(t, days));
  }

  lemma AddDaysZero(t: int)
    ensures AddDays(t, 0) == t
  {
  }

  lemma AddDaysCompose(t: int, m: int, n: int)
    ensures AddDays(AddDays(t, m), n) == AddDays(t, m + n)
  {
  }

  /** Shifting back by the same number of days returns the original instant. */
  lemma AddDaysInverse(t: int, n: int)
    ensures AddDays(AddDays(t, n), -n) == t
  {
  }

  /** A positive shift moves later, a negative one earlier. */
  lemma AddDaysOrder(t: int, n: int)
    ensures AddDays(t, n) > t <==> n > 0
    ensures AddDays(t, n) < t <==> n < 0
  {
  }
}
