/**
 * Python `datetime` values as the legacy script uses them: it reads their fields (`.minute`,
 * `.day`, `.hour`), compares them and replaces the clock fields, but never adds to them.
 * Sub-second precision is not kept.
 */
module CivilTime {

  datatype DateTime = DateTime(year: int, month: int, day: int, hour: int, minute: int, second: int)

  function DaysInMonth(year: int, month: int): int
  {
    if month == 2 then (if (year % 4 == 0 && year % 100 != 0) || year % 400 == 0 then 29 else 28)
    else if month == 4 || month == 6 || month == 9 || month == 11 then 30
    else 31
  }

  /** The values `datetime` accepts. */
  predicate Valid(d: DateTime)
  {
    && 1 <= d.year <= 9999 && 1 <= d.month <= 12 && 1 <= d.day <= DaysInMonth(d.year, d.month)
    && 0 <= d.hour < 24 && 0 <= d.minute < 60 && 0 <= d.second < 60
  }

  /** `datetime.min`. */
  const Min: DateTime := DateTime(1, 1, 1, 0, 0, 0)

  /** The calendar date of `a` is strictly earlier than that of `b`. */
  predicate DateBefore(a: DateTime, b: DateTime)
  {
    a.year < b.year
    || (a.year == b.year && (a.month < b.month || (a.month == b.month && a.day < b.day)))
  }

  predicate SameDate(a: DateTime, b: DateTime)
  {
    a.year == b.year && a.month == b.month && a.day == b.day
  }

  /** The clock of `a` is strictly earlier than the clock of `b`, whatever their dates. */
  predicate ClockBefore(a: DateTime, b: DateTime)
  {
    a.hour < b.hour
    || (a.hour == b.hour && (a.minute < b.minute || (a.minute == b.minute && a.second < b.second)))
  }

  /** `a < b` on datetimes: date first, then clock. */
  predicate Before(a: DateTime, b: DateTime)
  {
    DateBefore(a, b) || (SameDate(a, b) && ClockBefore(a, b))
  }

  /** `d.replace(hour=h, minute=m, second=0, microsecond=0)`. */
  function AtClock(d: DateTime, h: int, m: int): (r: DateTime)
    ensures SameDate(r, d) && r.hour == h && r.minute == m && r.second == 0
  {
    d.(hour := h, minute := m, second := 0)
  }
}
