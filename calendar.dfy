/** Calendar dates and local times of day, in Europe/Copenhagen local time,
    with the ordering Python's `datetime` uses. */
module Calendar {

  datatype Date = Date(year: nat, month: nat, day: nat)

  /** A local timestamp to the minute. */
  datatype DateTime = DateTime(year: nat, month: nat, day: nat, hour: nat, minute: nat)

  function DateOf(t: DateTime): Date {
    Date(t.year, t.month, t.day)
  }

  /** `datetime(year, month, day)`: the start of that day. */
  function Midnight(d: Date): (t: DateTime)
    ensures DateOf(t) == d && t.hour == 0 && t.minute == 0
  {
    DateTime(d.year, d.month, d.day, 0, 0)
  }

  /** Chronological order of dates. */
  predicate DateBefore(a: Date, b: Date) {
    a.year < b.year
    || (a.year == b.year && a.month < b.month)
    || (a.year == b.year && a.month == b.month && a.day < b.day)
  }

  /** Chronological order of timestamps: by date, then by time of day. */
  predicate DateTimeBefore(a: DateTime, b: DateTime) {
    DateBefore(DateOf(a), DateOf(b))
    || (DateOf(a) == DateOf(b) && (a.hour < b.hour || (a.hour == b.hour && a.minute < b.minute)))
  }

  predicate IsLeapYear(year: nat) {
    year % 4 == 0 && (year % 100 != 0 || year % 400 == 0)
  }

  function DaysInMonth(year: nat, month: nat): (n: nat)
    requires 1 <= month <= 12
    ensures 28 <= n <= 31
    ensures month == 2 ==> (n == 29 <==> IsLeapYear(year))
    ensures month == 2 ==> n <= 29
    ensures month != 2 ==> 30 <= n && (n == 30 <==> month in {4, 6, 9, 11})
  {
    if month == 2 then (if IsLeapYear(year) then 29 else 28)
    else if month == 4 || month == 6 || month == 9 || month == 11 then 30
    else 31
  }

  /** What `datetime(year, month, day)` accepts: years 1 to 9999 of the Gregorian calendar. */
  predicate ValidDate(d: Date) {
    1 <= d.year <= 9999 && 1 <= d.month <= 12 && 1 <= d.day <= DaysInMonth(d.year, d.month)
  }

  predicate ValidDateTime(t: DateTime) {
    ValidDate(DateOf(t)) && t.hour < 24 && t.minute < 60
  }

  /** Midnight of a date lies after a moment exactly when the date is after that moment's day. */
  lemma MidnightAfter(d: Date, now: DateTime)
    ensures DateTimeBefore(now, Midnight(d)) <==> DateBefore(DateOf(now), d)
  {
  }

  lemma DateBeforeIsStrictOrder(a: Date, b: Date, c: Date)
    ensures !DateBefore(a, a)
    ensures DateBefore(a, b) && DateBefore(b, c) ==> DateBefore(a, c)
    ensures a == b || DateBefore(a, b) || DateBefore(b, a)
  {
  }
}
