/**
 * The calendar and the digits behind the keys, apart from how `Keys` computes them: dates follow one
 * another as in the Gregorian calendar, and a key's text reads back as its date and hour.
 */
module Calendar {
  import opened Prelude
  import opened Keys

  /** Thirty days hath September. */
  function DaysInMonth(year: int, month: int): int {
    if month == 2 then (if IsLeap(year) then 29 else 28)
    else if month == 4 || month == 6 || month == 9 || month == 11 then 30
    else 31
  }

  /** The day after. */
  function Tomorrow(date: Date): Date {
    if date.day < DaysInMonth(date.year, date.month) then date.(day := date.day + 1)
    else if date.month < 12 then Date(date.year, date.month + 1, 1)
    else Date(date.year + 1, 1, 1)
  }

  lemma SameDaySameDate(d: int, a: Date, b: Date)
    requires HasDate(d, a) && HasDate(d, b)
    ensures a == b
  {
    hide DayFromYear, IsLeap, MonthStart;
    if a.year < b.year && a.year + 1 < b.year { YearsAreOrdered(a.year + 1, b.year); }
    if b.year < a.year && b.year + 1 < a.year { YearsAreOrdered(b.year + 1, a.year); }
    if a.month < b.month { LaterMonth(a.month, a.day, b.month, IsLeap(a.year)); }
    if b.month < a.month { LaterMonth(b.month, b.day, a.month, IsLeap(a.year)); }
  }

  lemma MonthLengths(year: int, month: int)
    requires 1 <= month <= 12
    ensures MonthStart(month + 1, IsLeap(year)) == MonthStart(month, IsLeap(year)) + DaysInMonth(year, month)
  {
  }

  lemma TomorrowIsNext(d: int, date: Date)
    requires HasDate(d, date)
    ensures HasDate(d + 1, Tomorrow(date))
  {
    hide DayFromYear, IsLeap;
    MonthLengths(date.year, date.month);
    YearLength(date.year);
    YearLength(date.year + 1);
    if date.day < DaysInMonth(date.year, date.month) {
      MonthsAreOrdered(date.month + 1, 13, IsLeap(date.year));
    } else if date.month < 12 {
      MonthLengths(date.year, date.month + 1);
      MonthsAreOrdered(date.month + 2, 13, IsLeap(date.year));
    }
  }

  lemma Epoch()
    ensures HasDate(0, Date(1970, 1, 1))
  {
    assert DayFromYear(1971) == DayFromYear(1970) + DaysInYear(1970);
  }

  lemma HasItsDate(d: int)
    ensures HasDate(d, DateOf(d))
  {
  }

  /**
   * Day 0 is the first of January 1970, and each day's date is the one that follows the date of the day
   * before: on every day, before 1970 as well as after, in common years and in leap years.
   */
  lemma DatesFollowTheCalendar(d: int)
    ensures DateOf(0) == Date(1970, 1, 1)
    ensures DateOf(d + 1) == Tomorrow(DateOf(d))
  {
    hide DateOf, HasDate, Tomorrow, DaysInMonth;
    Epoch();
    HasItsDate(0);
    SameDaySameDate(0, DateOf(0), Date(1970, 1, 1));
    HasItsDate(d);
    HasItsDate(d + 1);
    TomorrowIsNext(d, DateOf(d));
    SameDaySameDate(d + 1, DateOf(d + 1), Tomorrow(DateOf(d)));
  }

  /** `Date.UTC` takes a year from 0 to 99 for one of the last century; February 29 may become March 1 there. */
  lemma TwoDigitYearIsLast(date: Date)
    requires 0 <= date.year <= 99 && 1 <= date.month <= 12 && 1 <= date.day <= DaysInMonth(date.year, date.month)
    ensures var there := Date(1900 + date.year, date.month, date.day);
            DateOf(DateUtc(date)) == if date.day <= DaysInMonth(there.year, there.month) then there
                                     else Date(there.year, 3, 1)
  {
    hide DateOf, HasDate;
    var y := 1900 + date.year;
    var d := DateUtc(date);
    var there := if date.day <= DaysInMonth(y, date.month) then Date(y, date.month, date.day) else Date(y, 3, 1);
    IsThere(date, d, there);
    HasItsDate(d);
    SameDaySameDate(d, DateOf(d), there);
  }

  lemma IsThere(date: Date, d: int, there: Date)
    requires 0 <= date.year <= 99 && 1 <= date.month <= 12 && 1 <= date.day <= DaysInMonth(date.year, date.month)
    requires d == DateUtc(date)
    requires there == if date.day <= DaysInMonth(1900 + date.year, date.month)
      then Date(1900 + date.year, date.month, date.day) else Date(1900 + date.year, 3, 1)
    ensures HasDate(d, there)
  {
    hide DayFromYear, IsLeap;
    YearLength(there.year);
    MonthLengths(there.year, date.month);
    MonthLengths(there.year, there.month);
    MonthsAreOrdered(date.month + 1, 13, IsLeap(there.year));
    MonthsAreOrdered(there.month + 1, 13, IsLeap(there.year));
  }

  /** An instant is so many whole days, so many whole hours, and less than an hour. */
  lemma InstantParts(t: int)
    ensures 0 <= HourOf(t) <= 23
    ensures 0 <= t - (86_400_000 * DayOf(t) + 3_600_000 * HourOf(t)) < 3_600_000
  {
  }

  // ---------------------------------------------------------------------------------------------
  // What a key says
  // ---------------------------------------------------------------------------------------------

  predicate IsNumber(s: string) { s != [] && forall i :: 0 <= i < |s| ==> '0' <= s[i] <= '9' }

  /** The number that a row of digits stands for. */
  function ValueOf(s: string): int {
    if s == [] then 0 else 10 * ValueOf(s[..|s| - 1]) + (s[|s| - 1] as int - '0' as int)
  }

  lemma {:induction false} DecimalReadsBack(n: nat)
    ensures IsNumber(Decimal(n)) && ValueOf(Decimal(n)) == n
    ensures n > 0 ==> Decimal(n)[0] != '0'
    ensures n == 0 ==> Decimal(n) == "0"
  {
    if n < 10 {
      assert Decimal(n)[..0] == [];
    } else {
      DecimalReadsBack(n / 10);
      var s := Decimal(n);
      assert s[..|s| - 1] == Decimal(n / 10) && s[|s| - 1] == Digit(n % 10);
    }
  }

  lemma TwoDigitsReadBack(n: int)
    requires 0 <= n < 100
    ensures IsNumber(ZeroPad(n, 2)) && |ZeroPad(n, 2)| == 2 && ValueOf(ZeroPad(n, 2)) == n
  {
    TwoDigits(n);
    var s := ZeroPad(n, 2);
    assert s[..1] == [Digit(n / 10)] && s[..1][..0] == [];
    assert ValueOf(s[..1]) == n / 10;
  }

  /** A year as `String` writes it: no padding, and a sign below zero. */
  predicate WritesYear(s: string, year: int) {
    if year < 0 then |s| > 1 && s[0] == '-' && IsNumber(s[1..]) && ValueOf(s[1..]) == -year && s[1] != '0'
    else IsNumber(s) && ValueOf(s) == year && (year > 0 ==> s[0] != '0') && (year == 0 ==> |s| == 1)
  }

  predicate WritesTwoDigits(s: string, n: int) { |s| == 2 && IsNumber(s) && ValueOf(s) == n }

  /**
   * The key of a batch names the UTC date and hour of its first event: the year unpadded, month, day and
   * hour with two digits each.
   */
  lemma KeyNamesItsHour(batchId: string, t: int) returns (year: string, month: string, day: string, hour: string)
    ensures var date := DateOf(DayOf(t));
            && WritesYear(year, date.year) && WritesTwoDigits(month, date.month) && WritesTwoDigits(day, date.day)
            && WritesTwoDigits(hour, HourOf(t))
    ensures EventBatchKey(batchId, t)
      == "events/dt=" + year + "-" + month + "-" + day + "/hour=" + hour + "/" + batchId + ".ndjson"
  {
    InstantParts(t);
    var date := DateOf(DayOf(t));
    year, month, day, hour := Decimal(date.year), ZeroPad(date.month, 2), ZeroPad(date.day, 2), ZeroPad(HourOf(t), 2);
    hide DateOf, DayOf, HourOf, ZeroPad, ValueOf, IsNumber;
    TwoDigitsReadBack(date.month);
    TwoDigitsReadBack(date.day);
    TwoDigitsReadBack(HourOf(t));
    YearReadsBack(date.year);
  }

  lemma YearReadsBack(year: int)
    ensures WritesYear(Decimal(year), year)
  {
    if year < 0 {
      DecimalReadsBack(-year);
      assert Decimal(year)[1..] == Decimal(-year);
    } else {
      DecimalReadsBack(year);
    }
  }
}
