/** The daily update gate (`update_available`): post at most once per local
    calendar day, not before 12:30 Danish time, and only once the price
    service has published a date later than today. The stored last update,
    the current local time and the service's newest date are inputs. */
module Gate {
  import opened Outcomes
  import opened Calendar
  import opened DataDate

  /** The same local calendar day (the comparison of year, month and day). */
  predicate SameDay(a: DateTime, b: DateTime) {
    a.year == b.year && a.month == b.month && a.day == b.day
  }

  /** Before 12:30, the hour new prices are normally published. */
  predicate BeforeCutoff(now: DateTime) {
    now.hour < 12 || (now.hour == 12 && now.minute < 30)
  }

  /** The gate as intended: the midnight that starts the newest published date
      must lie after the current time. No stored update (`not last_update`,
      which is a `None` check since a `datetime` is always truthy) always
      opens the gate. */
  function UpdateAvailable(lastUpdate: Option<DateTime>, now: DateTime, latest: Date): (available: bool)
    ensures available <==>
      lastUpdate.None?
      || (!SameDay(lastUpdate.value, now) && !BeforeCutoff(now) && DateBefore(DateOf(now), latest))
  {
    if lastUpdate.None? then true
    else if SameDay(lastUpdate.value, now) then false
    else if BeforeCutoff(now) then false
    else
      MidnightAfter(latest, now);
      DateTimeBefore(now, Midnight(latest))
  }

  /** `update_available` with the newest date read from the service's `HourDK`
      text. The text is only parsed on the last branch, so a malformed text
      can only raise there. */
  function CheckUpdate(lastUpdate: Option<DateTime>, now: DateTime, latestHourDK: string): (r: Result<bool>)
    ensures !UpdateAsksService(lastUpdate, now) ==> r == Ok(lastUpdate.None?)
    ensures r.Err? <==> UpdateAsksService(lastUpdate, now) && ParseDataDate(latestHourDK).Err?
    ensures r.Ok? && UpdateAsksService(lastUpdate, now) ==>
      r.value == DateBefore(DateOf(now), ParseDataDate(latestHourDK).value)
  {
    if lastUpdate.None? then Ok(true)
    else if SameDay(lastUpdate.value, now) then Ok(false)
    else if BeforeCutoff(now) then Ok(false)
    else
      var latest :- ParseDataDate(latestHourDK);
      Ok(UpdateAvailable(lastUpdate, now, latest))
  }

  /** The gate reaches its last branch and consults the price service. */
  predicate UpdateAsksService(lastUpdate: Option<DateTime>, now: DateTime) {
    lastUpdate.Some? && !SameDay(lastUpdate.value, now) && !BeforeCutoff(now)
  }

  /** The gate as written: its last line orders the naive `datetime(year, month,
      day)` against the zone-aware current time, and Python refuses to order
      the two, so that branch always raises. */
  function UpdateAvailableAsWritten(lastUpdate: Option<DateTime>, now: DateTime, latestHourDK: string): (r: Result<bool>)
    ensures r.Ok? ==> !UpdateAsksService(lastUpdate, now)
  {
    if lastUpdate.None? then Ok(true)
    else if SameDay(lastUpdate.value, now) then Ok(false)
    else if BeforeCutoff(now) then Ok(false)
    else
      var latest :- ParseDataDate(latestHourDK);
      Err(NaiveAwareComparison)
  }

  /** First run: with nothing stored the gate opens, whatever the time and the data. */
  lemma FirstRunOpens(now: DateTime, latest: Date)
    ensures UpdateAvailable(None, now, latest)
  {
  }

  /** Already posted today: the gate stays shut. */
  lemma SameDayShut(last: DateTime, now: DateTime, latest: Date)
    requires SameDay(last, now)
    ensures !UpdateAvailable(Some(last), now, latest)
  {
  }

  /** A new day before 12:30: the gate stays shut, and the answer does not depend
      on what the service has published (it is not consulted). */
  lemma BeforeCutoffShut(last: DateTime, now: DateTime, latest: Date, latestHourDK: string)
    requires !SameDay(last, now) && BeforeCutoff(now)
    ensures !UpdateAvailable(Some(last), now, latest)
    ensures CheckUpdate(Some(last), now, latestHourDK) == Ok(false)
  {
  }

  /** A new day from 12:30 on: the gate opens exactly when the newest published
      date is a later calendar day than today. */
  lemma AfterCutoffOpensIffNewData(last: DateTime, now: DateTime, latest: Date)
    requires !SameDay(last, now) && !BeforeCutoff(now)
    ensures UpdateAvailable(Some(last), now, latest) <==> DateBefore(DateOf(now), latest)
    ensures UpdateAvailable(Some(last), now, latest) <==> DateTimeBefore(now, Midnight(latest))
  {
    MidnightAfter(latest, now);
  }

  /** Once the stored update is set to a time, the gate stays shut for the rest
      of that day, so at most one message is posted per calendar day. */
  lemma AtMostOncePerDay(posted: DateTime, later: DateTime, latest: Date, latestHourDK: string)
    requires SameDay(posted, later)
    ensures !UpdateAvailable(Some(posted), later, latest)
    ensures CheckUpdate(Some(posted), later, latestHourDK) == Ok(false)
  {
  }

  /** The gate as written can never open again once an update has been stored:
      every call that gets past the day and 12:30 checks raises. */
  lemma AsWrittenNeverReopens(last: DateTime, now: DateTime, latestHourDK: string)
    ensures UpdateAvailableAsWritten(Some(last), now, latestHourDK) != Ok(true)
  {
  }

  /** The two gates agree except on the last branch, where the written one raises. */
  lemma AsWrittenDiffersOnlyOnLastBranch(lastUpdate: Option<DateTime>, now: DateTime, latestHourDK: string)
    ensures UpdateAsksService(lastUpdate, now) ==> UpdateAvailableAsWritten(lastUpdate, now, latestHourDK).Err?
    ensures !UpdateAsksService(lastUpdate, now) ==>
      UpdateAvailableAsWritten(lastUpdate, now, latestHourDK) == CheckUpdate(lastUpdate, now, latestHourDK)
  {
  }

  /** An input that shows it: posted on 16 September 2022, asked at 13:00 on the
      17th, with prices for the 18th published. The intended gate opens, the
      written one raises. */
  lemma NaiveAwareCounterexample(latestHourDK: string)
    requires latestHourDK == FormatHourDK(DateTime(2022, 9, 18, 23, 0))
    ensures CheckUpdate(Some(DateTime(2022, 9, 16, 13, 0)), DateTime(2022, 9, 17, 13, 0), latestHourDK) == Ok(true)
    ensures UpdateAvailableAsWritten(Some(DateTime(2022, 9, 16, 13, 0)), DateTime(2022, 9, 17, 13, 0), latestHourDK)
      == Err(NaiveAwareComparison)
  {
    ParseFormatHourDK(DateTime(2022, 9, 18, 23, 0));
  }
}
