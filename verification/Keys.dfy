/**
 * packages/core/src/r2/keys.ts: the calendar partition of the event log in R2.
 *
 * An instant is a number of milliseconds since 1970-01-01T00:00:00Z. Parsing of ISO-8601 text is
 * outside the model: an argument that does not parse is `None`. The calendar is the proleptic
 * Gregorian one of section 21.4.1 of ECMA-262.
 */
module Keys {
  import opened Prelude

  const MAX_RANGE_DAYS: int := 3660

  function HourOf(t: int): int { (t % MS_PER_DAY) / 3_600_000 }

  // ---------------------------------------------------------------------------------------------
  // From day numbers to dates
  // ---------------------------------------------------------------------------------------------

  predicate IsLeap(y: int) {
    y % 4 == 0 && (y % 100 != 0 || y % 400 == 0)
  }

  function DaysInYear(y: int): int { if IsLeap(y) then 366 else 365 }

  /** The day number of January 1st of year `y`. */
  function DayFromYear(y: int): int
    decreases if y < 1970 then 1970 - y else y - 1970
  {
    if y == 1970 then 0
    else if y > 1970 then DayFromYear(y - 1) + DaysInYear(y - 1)
    else DayFromYear(y + 1) - DaysInYear(y)
  }

  /** The closed form that ECMA-262 gives. */
  lemma {:induction false} DayFromYearFormula(y: int)
    ensures DayFromYear(y) == 365 * (y - 1970) + (y - 1969) / 4 - (y - 1901) / 100 + (y - 1601) / 400
    decreases if y < 1970 then 1970 - y else y - 1970
  {
    if y > 1970 {
      DayFromYearFormula(y - 1);
      LeapCounts(y - 1);
    } else if y < 1970 {
      DayFromYearFormula(y + 1);
      LeapCounts(y);
    }
  }

  lemma LeapCounts(y: int)
    ensures (y - 1968) / 4 - (y - 1969) / 4 == if y % 4 == 0 then 1 else 0
    ensures (y - 1900) / 100 - (y - 1901) / 100 == if y % 100 == 0 then 1 else 0
    ensures (y - 1600) / 400 - (y - 1601) / 400 == if y % 400 == 0 then 1 else 0
    ensures y % 400 == 0 ==> y % 100 == 0
    ensures y % 100 == 0 ==> y % 4 == 0
  {
    CountBy4(y);
    CountBy100(y);
    CountBy400(y);
  }

  lemma CountBy4(y: int)
    ensures (y - 1968) / 4 - (y - 1969) / 4 == if y % 4 == 0 then 1 else 0
  {
    var q, r := y / 4, y % 4;
    assert (y - 1968) / 4 == q - 492;
    assert (y - 1969) / 4 == if r == 0 then q - 493 else q - 492;
  }

  lemma CountBy100(y: int)
    ensures (y - 1900) / 100 - (y - 1901) / 100 == if y % 100 == 0 then 1 else 0
    ensures y % 100 == 0 ==> y % 4 == 0
  {
    var q, r := y / 100, y % 100;
    assert (y - 1900) / 100 == q - 19;
    assert (y - 1901) / 100 == if r == 0 then q - 20 else q - 19;
    if r == 0 { assert y == 4 * (25 * q); }
  }

  lemma CountBy400(y: int)
    ensures (y - 1600) / 400 - (y - 1601) / 400 == if y % 400 == 0 then 1 else 0
    ensures y % 400 == 0 ==> y % 100 == 0
  {
    var q, r := y / 400, y % 400;
    assert (y - 1600) / 400 == q - 4;
    assert (y - 1601) / 400 == if r == 0 then q - 5 else q - 4;
    if r == 0 { assert y == 100 * (4 * q); }
  }

  lemma YearLength(y: int)
    ensures DayFromYear(y + 1) - DayFromYear(y) == DaysInYear(y)
  {
  }

  lemma {:induction false} YearsAreOrdered(y: int, z: int)
    requires y < z
    ensures DayFromYear(y) + 365 <= DayFromYear(z)
    decreases z - y
  {
    YearLength(z - 1);
    if y < z - 1 { YearsAreOrdered(y, z - 1); }
  }

  function YearFrom(d: int, y: int): (r: int)
    ensures DayFromYear(r) <= d < DayFromYear(r + 1)
    decreases if d < DayFromYear(y) then DayFromYear(y) - d else if d >= DayFromYear(y + 1) then d - DayFromYear(y)
      else 0
  {
    YearLength(y);
    YearLength(y - 1);
    if d < DayFromYear(y) then YearFrom(d, y - 1)
    else if d >= DayFromYear(y + 1) then YearFrom(d, y + 1)
    else y
  }

  /** The only year whose days include day `d`. */
  function YearOf(d: int): (y: int)
    ensures DayFromYear(y) <= d < DayFromYear(y + 1)
  {
    YearFrom(d, 1970)
  }

  /** Days of the year before month `m`, counting months from 1; month 13 stands for the year's end. */
  function MonthStart(m: int, leap: bool): int
    requires 1 <= m <= 13
  {
    var l := if leap then 1 else 0;
    if m == 1 then 0 else if m == 2 then 31 else if m == 3 then 59 + l else if m == 4 then 90 + l
    else if m == 5 then 120 + l else if m == 6 then 151 + l else if m == 7 then 181 + l else if m == 8 then 212 + l
    else if m == 9 then 243 + l else if m == 10 then 273 + l else if m == 11 then 304 + l else if m == 12 then 334 + l
    else 365 + l
  }

  function MonthFrom(dayInYear: int, leap: bool, m: int): (r: int)
    requires 1 <= m <= 12 && MonthStart(m, leap) <= dayInYear < MonthStart(13, leap)
    ensures 1 <= r <= 12 && MonthStart(r, leap) <= dayInYear < MonthStart(r + 1, leap)
    decreases 12 - m
  {
    if dayInYear < MonthStart(m + 1, leap) then m else MonthFrom(dayInYear, leap, m + 1)
  }

  datatype Date = Date(year: int, month: int, day: int)

  lemma MonthLength(m: int, leap: bool)
    requires 1 <= m <= 12
    ensures 28 <= MonthStart(m + 1, leap) - MonthStart(m, leap) <= 31
  {
  }

  function DateInYear(y: int, inYear: int, leap: bool): (r: Date)
    requires 0 <= inYear < MonthStart(13, leap)
    ensures r.year == y && 1 <= r.month <= 12 && 1 <= r.day <= 31
    ensures inYear == MonthStart(r.month, leap) + r.day - 1
    ensures inYear < MonthStart(r.month + 1, leap)
  {
    var m := MonthFrom(inYear, leap, 1);
    MonthLength(m, leap);
    Date(y, m, inYear - MonthStart(m, leap) + 1)
  }

  lemma DayFits(y: int, d: int)
    requires DayFromYear(y) <= d < DayFromYear(y + 1)
    ensures 0 <= d - DayFromYear(y) < MonthStart(13, IsLeap(y))
  {
    YearLength(y);
  }

  function DateOf(d: int): (r: Date)
    ensures 1 <= r.month <= 12 && 1 <= r.day <= 31
    ensures d == DayFromYear(r.year) + MonthStart(r.month, IsLeap(r.year)) + r.day - 1
    ensures DayFromYear(r.year) <= d < DayFromYear(r.year + 1)
    ensures r.day - 1 < MonthStart(r.month + 1, IsLeap(r.year)) - MonthStart(r.month, IsLeap(r.year))
  {
    var y := YearOf(d);
    DayFits(y, d);
    DateInYear(y, d - DayFromYear(y), IsLeap(y))
  }

  predicate Earlier(a: Date, b: Date) {
    a.year < b.year || (a.year == b.year && (a.month < b.month || (a.month == b.month && a.day < b.day)))
  }

  /** The day with this number has this date. */
  predicate HasDate(d: int, date: Date) {
    && 1 <= date.month <= 12 && 1 <= date.day <= 31
    && d == DayFromYear(date.year) + MonthStart(date.month, IsLeap(date.year)) + date.day - 1
    && DayFromYear(date.year) <= d < DayFromYear(date.year + 1)
    && date.day - 1 < MonthStart(date.month + 1, IsLeap(date.year)) - MonthStart(date.month, IsLeap(date.year))
  }

  lemma DatesAreOrdered(d: int, e: int)
    requires d < e
    ensures Earlier(DateOf(d), DateOf(e))
  {
    assert HasDate(d, DateOf(d)) && HasDate(e, DateOf(e));
    OrderOfDates(d, DateOf(d), e, DateOf(e));
  }

  lemma OrderOfDates(d: int, a: Date, e: int, b: Date)
    requires d < e && HasDate(d, a) && HasDate(e, b)
    ensures Earlier(a, b)
  {
    hide DayFromYear, IsLeap, MonthStart;
    if a.year > b.year {
      if b.year + 1 < a.year { YearsAreOrdered(b.year + 1, a.year); }
    } else if a.year == b.year && a.month > b.month {
      LaterMonth(b.month, b.day, a.month, IsLeap(a.year));
    }
  }

  /** The days of a month come before those of any later month. */
  lemma LaterMonth(m: int, day: int, n: int, leap: bool)
    requires 1 <= m < n <= 12
    requires day - 1 < MonthStart(m + 1, leap) - MonthStart(m, leap)
    ensures MonthStart(m, leap) + day - 1 < MonthStart(n, leap)
  {
    MonthsAreOrdered(m + 1, n, leap);
  }

  lemma MonthsAreOrdered(m: int, n: int, leap: bool)
    requires 1 <= m <= n <= 13
    ensures MonthStart(m, leap) <= MonthStart(n, leap)
  {
  }

  /**
   * JavaScript's `Date.UTC(year, month, day)` as a day number, months from 1 here: a year from 0 to
   * 99 is read as 1900 to 1999.
   */
  function DateUtc(date: Date): int
    requires 1 <= date.month <= 12
  {
    var y := if 0 <= date.year <= 99 then 1900 + date.year else date.year;
    DayFromYear(y) + MonthStart(date.month, IsLeap(y)) + date.day - 1
  }

  // ---------------------------------------------------------------------------------------------
  // Decimal text
  // ---------------------------------------------------------------------------------------------

  function Digit(n: int): char
    requires 0 <= n < 10
  {
    '0' + n as char
  }

  /** `String(n)` for an integer. */
  function Decimal(n: int): (s: string)
    ensures s != []
    decreases n < 0, if n < 0 then -n else n
  {
    if n < 0 then "-" + Decimal(-n)
    else if n < 10 then [Digit(n)]
    else Decimal(n / 10) + [Digit(n % 10)]
  }

  function PadStart(s: string, length: nat): string
    decreases length - |s|
  {
    if |s| >= length then s else PadStart("0" + s, length)
  }

  function ZeroPad(n: int, length: nat): string {
    PadStart(Decimal(n), length)
  }

  lemma TwoDigits(n: int)
    requires 0 <= n < 100
    ensures ZeroPad(n, 2) == [Digit(n / 10), Digit(n % 10)]
  {
    if n < 10 {
      assert PadStart(Decimal(n), 2) == PadStart("0" + Decimal(n), 2);
    } else {
      assert Decimal(n) == Decimal(n / 10) + [Digit(n % 10)];
      assert Decimal(n / 10) == [Digit(n / 10)];
    }
  }

  lemma {:induction false} DecimalChars(n: int)
    ensures '/' !in Decimal(n)
    ensures n >= 0 ==> '-' !in Decimal(n)
    decreases n < 0, if n < 0 then -n else n
  {
    if n < 0 { DecimalChars(-n); }
    else if n >= 10 { DecimalChars(n / 10); }
  }

  lemma {:induction false} DecimalInjective(m: int, n: int)
    requires Decimal(m) == Decimal(n)
    ensures m == n
    decreases m < 0, if m < 0 then -m else m
  {
    DecimalChars(m);
    DecimalChars(n);
    assert (Decimal(m)[0] == '-') == (m < 0) && (Decimal(n)[0] == '-') == (n < 0);
    if m < 0 {
      assert Decimal(m)[0] == '-';
      assert Decimal(m)[1..] == Decimal(-m) && Decimal(n)[1..] == Decimal(-n);
      DecimalInjective(-m, -n);
    } else {
      var s := Decimal(m);
      assert s[|s| - 1] == Digit(m % 10) == Digit(n % 10);
      if m >= 10 {
        assert s[..|s| - 1] == Decimal(m / 10);
        assert n >= 10 ==> s[..|s| - 1] == Decimal(n / 10);
        DecimalInjective(m / 10, n / 10);
      }
    }
  }

  // ---------------------------------------------------------------------------------------------
  // The two functions of the file
  // ---------------------------------------------------------------------------------------------

  /** `events/dt=YYYY-MM-DD/hour=HH/` for one hour of one day. */
  function Partition(day: int, hour: int): string {
    var date := DateOf(day);
    "events/dt=" + Decimal(date.year) + "-" + ZeroPad(date.month, 2) + "-" + ZeroPad(date.day, 2)
    + "/hour=" + ZeroPad(hour, 2) + "/"
  }

  function EventBatchKey(batchId: string, occurredAt: int): string {
    Partition(DayOf(occurredAt), HourOf(occurredAt)) + batchId + ".ndjson"
  }

  datatype PrefixError = InvalidTimestamp | FromAfterTo | RangeTooLong(days: int)

  /** The `i`-th hour counted from the start of day `fromDay`. */
  function PartitionAt(fromDay: int, i: nat): string {
    Partition(fromDay + i / 24, i % 24)
  }

  /** The walk over whole UTC days, every hour of each. */
  function PrefixesOfDays(fromDay: int, toDay: int): seq<string>
    requires fromDay <= toDay + 1
  {
    FirstPartitions(fromDay, 24 * (toDay - fromDay + 1))
  }

  function FirstPartitions(fromDay: int, n: nat): seq<string> {
    seq(n, i requires 0 <= i < n => PartitionAt(fromDay, i))
  }

  lemma NextPartition(fromDay: int, day: int, hour: int)
    requires fromDay <= day && 0 <= hour < 24
    ensures var n := 24 * (day - fromDay) + hour;
            FirstPartitions(fromDay, n + 1) == FirstPartitions(fromDay, n) + [Partition(day, hour)]
  {
    hide Partition;
    SlotParts(day - fromDay, hour);
  }

  lemma SlotParts(days: nat, hour: int)
    requires 0 <= hour < 24
    ensures (24 * days + hour) / 24 == days && (24 * days + hour) % 24 == hour
  {
  }

  method EventPrefixes(from: Option<int>, to: Option<int>) returns (r: Result<seq<string>, PrefixError>)
    ensures r.Err? && r.error.InvalidTimestamp? <==> from.None? || to.None?
    ensures from.Some? && to.Some? ==>
      var fromDay, toDay := DateUtc(DateOf(DayOf(from.value))), DateUtc(DateOf(DayOf(to.value)));
      r == if fromDay > toDay then Err(FromAfterTo)
           else if toDay - fromDay + 1 > MAX_RANGE_DAYS then Err(RangeTooLong(toDay - fromDay + 1))
           else Ok(PrefixesOfDays(fromDay, toDay))
  {
    if from.None? || to.None? {
      return Err(InvalidTimestamp);
    }
    var fromDay := DateUtc(DateOf(DayOf(from.value)));
    var toDay := DateUtc(DateOf(DayOf(to.value)));
    if fromDay > toDay {
      return Err(FromAfterTo);
    }
    if toDay - fromDay + 1 > MAX_RANGE_DAYS {
      return Err(RangeTooLong(toDay - fromDay + 1));
    }
    var prefixes := WalkDays(fromDay, toDay);
    return Ok(prefixes);
  }

  /** The two nested loops. */
  method WalkDays(fromDay: int, toDay: int) returns (prefixes: seq<string>)
    requires fromDay <= toDay
    ensures prefixes == PrefixesOfDays(fromDay, toDay)
  {
    prefixes := [];
    var day := fromDay;
    while day <= toDay
      invariant fromDay <= day <= toDay + 1
      invariant prefixes == FirstPartitions(fromDay, 24 * (day - fromDay))
      decreases toDay - day
    {
      var hour := 0;
      while hour < 24
        invariant 0 <= hour <= 24
        invariant prefixes == FirstPartitions(fromDay, 24 * (day - fromDay) + hour)
      {
        NextPartition(fromDay, day, hour);
        prefixes := prefixes + [Partition(day, hour)];
        hour := hour + 1;
      }
      day := day + 1;
    }
  }
}
