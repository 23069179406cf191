/** The date of the newest record the price service has published
    (`get_latest_data_date`): the `HourDK` text of that record, such as
    "2022-09-17T23:00:00", is cut at the first `T`, the date part is split on
    `-` and its three fields become `datetime(year, month, day)`. Fetching the
    record is left to the caller; this module turns its `HourDK` into a date. */
module DataDate {
  import opened Outcomes
  import opened Text
  import opened Calendar

  /** The fields of the date part of an `HourDK` text. */
  function DateFields(hourDK: string): seq<string> {
    Split(Split(hourDK, 'T')[0], '-')
  }

  /** Some field `int()` rejects among the first `k`. */
  predicate SomeFieldRejected(fields: seq<string>, k: nat)
    requires k <= |fields|
  {
    exists i :: 0 <= i < k && ParseInt(fields[i]).None?
  }

  /** `int()` reads the three fields as the year, the month and the day of `d`. */
  predicate FieldsRead(fields: seq<string>, d: Date) {
    |fields| == 3
    && ParseInt(fields[0]) == Some(d.year as int)
    && ParseInt(fields[1]) == Some(d.month as int)
    && ParseInt(fields[2]) == Some(d.day as int)
  }

  function Min(a: nat, b: nat): nat {
    if a < b then a else b
  }

  /** `year, month, day = map(int, ...)` followed by `datetime(year, month, day)`.
      Unpacking converts fields one at a time and stops after a fourth, so a
      field that is not an integer is reported before a wrong number of fields. */
  function ParseDataDate(hourDK: string): (r: Result<Date>)
    ensures r.Ok? ==> ValidDate(r.value) && FieldsRead(DateFields(hourDK), r.value)
    ensures forall d :: FieldsRead(DateFields(hourDK), d) && ValidDate(d) ==> r == Ok(d)
  {
    var fields := DateFields(hourDK);
    if SomeFieldRejected(fields, Min(|fields|, 4)) then Err(NotAnInteger)
    else if |fields| != 3 then Err(WrongFieldCount)
    else
      var year, month, day := ParseInt(fields[0]).value, ParseInt(fields[1]).value, ParseInt(fields[2]).value;
      if year < 0 || month < 0 || day < 0 then Err(DateOutOfRange)
      else if !ValidDate(Date(year, month, day)) then Err(DateOutOfRange)
      else Ok(Date(year, month, day))
  }

  /** The text the price service uses for an hour: "YYYY-MM-DDTHH:MM:00". */
  function FormatHourDK(t: DateTime): string {
    DatePart(DateOf(t)) + "T" + ZeroPadded(t.hour, 2) + ":" + ZeroPadded(t.minute, 2) + ":00"
  }

  function DatePart(d: Date): string {
    Join([ZeroPadded(d.year, 4), ZeroPadded(d.month, 2), ZeroPadded(d.day, 2)], "-")
  }

  lemma DigitsHaveNo(s: string, ch: char)
    requires AllDigits(s) && !IsDigit(ch)
    ensures ch !in s
  {
  }

  /** Parsing the service's text for any valid hour gives back that hour's date;
      the time of day is ignored. */
  lemma ParseFormatHourDK(t: DateTime)
    requires ValidDateTime(t)
    ensures ParseDataDate(FormatHourDK(t)) == Ok(DateOf(t))
  {
    var timePart := ZeroPadded(t.hour, 2) + ":" + ZeroPadded(t.minute, 2) + ":00";
    assert FormatHourDK(t) == DatePart(DateOf(t)) + "T" + timePart;
    ParseIgnoresTime(DateOf(t), timePart);
  }

  /** Whatever follows the first `T` is ignored: a valid date's text followed
      by `T` and any time part parses to that date. */
  lemma ParseIgnoresTime(d: Date, rest: string)
    requires ValidDate(d)
    ensures ParseDataDate(DatePart(d) + "T" + rest) == Ok(d)
  {
    var y, m, dd := ZeroPadded(d.year, 4), ZeroPadded(d.month, 2), ZeroPadded(d.day, 2);
    DigitsHaveNo(y, '-'); DigitsHaveNo(m, '-'); DigitsHaveNo(dd, '-');
    DigitsHaveNo(y, 'T'); DigitsHaveNo(m, 'T'); DigitsHaveNo(dd, 'T');
    var datePart := DatePart(d);
    JoinThree(y, m, dd, "-");
    assert 'T' !in datePart;
    assert datePart + "T" + rest == datePart + ['T'] + rest;
    SplitAtFirst(datePart, 'T', rest);
    SplitJoin([y, m, dd], '-');
    ParseIntOfZeroPadded(d.year, 4);
    ParseIntOfZeroPadded(d.month, 2);
    ParseIntOfZeroPadded(d.day, 2);
    assert FieldsRead(DateFields(datePart + "T" + rest), d);
  }

  /** The service's text for 17 September 2022, 23:00. */
  lemma ExampleText(hourDK: string)
    requires hourDK == "2022-09-17T23:00:00"
    ensures FormatHourDK(DateTime(2022, 9, 17, 23, 0)) == hourDK
  {
    ExampleFields();
    JoinThree("2022", "09", "17", "-");
    assert DatePart(Date(2022, 9, 17)) == "2022-09-17";
  }

  lemma ExampleFields()
    ensures ZeroPadded(2022, 4) == "2022" && ZeroPadded(9, 2) == "09" && ZeroPadded(17, 2) == "17"
    ensures ZeroPadded(23, 2) == "23" && ZeroPadded(0, 2) == "00"
  {
    PaddedTwoDigits(9, '0', '9');
    PaddedTwoDigits(17, '1', '7');
    PaddedTwoDigits(23, '2', '3');
    PaddedTwoDigits(0, '0', '0');
    PaddedTwoDigits(20, '2', '0');
    PaddedTwoDigits(22, '2', '2');
    assert ZeroPadded(2022, 4) == ZeroPadded(20, 2) + ZeroPadded(22, 2) by {
      assert ZeroPadded(2022, 4) == ZeroPadded(202, 3) + ['2'];
      assert ZeroPadded(202, 3) == ZeroPadded(20, 2) + ['2'];
    }
  }

  lemma PaddedTwoDigits(n: nat, tens: char, ones: char)
    requires n < 100 && IsDigit(tens) && IsDigit(ones)
    requires DigitValue(tens) == n / 10 && DigitValue(ones) == n % 10
    ensures ZeroPadded(n, 2) == [tens, ones]
  {
    assert ZeroPadded(n / 10, 1) == [DigitChar(n / 10)];
  }

  /** The documented example: "2022-09-17T23:00:00" is 17 September 2022. */
  lemma ParseExample(hourDK: string)
    requires hourDK == "2022-09-17T23:00:00"
    ensures ParseDataDate(hourDK) == Ok(Date(2022, 9, 17))
  {
    ExampleText(hourDK);
    ParseFormatHourDK(DateTime(2022, 9, 17, 23, 0));
  }

  /** Text with no `T` is parsed whole, so a bare date is accepted too. */
  lemma ParseWithoutTime(d: Date)
    requires ValidDate(d)
    ensures ParseDataDate(DatePart(d)) == Ok(d)
  {
    var y, m, dd := ZeroPadded(d.year, 4), ZeroPadded(d.month, 2), ZeroPadded(d.day, 2);
    DigitsHaveNo(y, '-'); DigitsHaveNo(m, '-'); DigitsHaveNo(dd, '-');
    DigitsHaveNo(y, 'T'); DigitsHaveNo(m, 'T'); DigitsHaveNo(dd, 'T');
    JoinThree(y, m, dd, "-");
    SplitWithoutSeparator(DatePart(d), 'T');
    SplitJoin([y, m, dd], '-');
    ParseIntOfZeroPadded(d.year, 4);
    ParseIntOfZeroPadded(d.month, 2);
    ParseIntOfZeroPadded(d.day, 2);
    assert !SomeFieldRejected(DateFields(DatePart(d)), 3);
  }

  /** A date part with only two fields ("2022-09T23:00:00") is rejected by the
      unpacking into year, month and day. */
  lemma TwoFieldsRejected(year: nat, month: nat, time: string)
    requires year < 10000 && month < 100
    ensures ParseDataDate(ZeroPadded(year, 4) + "-" + ZeroPadded(month, 2) + "T" + time) == Err(WrongFieldCount)
  {
    var y, m := ZeroPadded(year, 4), ZeroPadded(month, 2);
    DigitsHaveNo(y, '-'); DigitsHaveNo(m, '-');
    DigitsHaveNo(y, 'T'); DigitsHaveNo(m, 'T');
    var datePart := y + ['-'] + m;
    assert y + "-" + m + "T" + time == datePart + ['T'] + time;
    SplitAtFirst(datePart, 'T', time);
    SplitAtFirst(y, '-', m);
    SplitWithoutSeparator(m, '-');
    var fields := DateFields(y + "-" + m + "T" + time);
    assert fields == [y, m];
    ParseIntOfZeroPadded(year, 4);
    ParseIntOfZeroPadded(month, 2);
    assert !SomeFieldRejected(fields, 2);
  }
}
