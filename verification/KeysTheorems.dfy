/** The prefixes are an exact inverse of the key layout. */
module KeysTheorems {
  import opened Prelude
  import opened Keys

  // ---------------------------------------------------------------------------------------------
  // Partitions are injective and prefix free
  // ---------------------------------------------------------------------------------------------

  function Slashes(s: string): nat {
    if s == [] then 0 else (if s[0] == '/' then 1 else 0) + Slashes(s[1..])
  }

  lemma {:induction false} SlashesAppend(s: string, t: string)
    ensures Slashes(s + t) == Slashes(s) + Slashes(t)
  {
    if s == [] {
      assert s + t == t;
    } else {
      assert (s + t)[1..] == s[1..] + t;
      SlashesAppend(s[1..], t);
    }
  }

  lemma {:induction false} NoSlashes(s: string)
    requires '/' !in s
    ensures Slashes(s) == 0
  {
    if s != [] { NoSlashes(s[1..]); }
  }

  /** Everything after the year has a fixed width. */
  function AfterYear(month: int, day: int, hour: int): string
    requires 1 <= month <= 12 && 1 <= day <= 31 && 0 <= hour < 24
  {
    "-" + [Digit(month / 10), Digit(month % 10)] + "-" + [Digit(day / 10), Digit(day % 10)]
    + "/hour=" + [Digit(hour / 10), Digit(hour % 10)] + "/"
  }

  lemma PartitionLayout(day: int, hour: int)
    requires 0 <= hour < 24
    ensures var date := DateOf(day);
            Partition(day, hour) == "events/dt=" + Decimal(date.year) + AfterYear(date.month, date.day, hour)
    ensures |AfterYear(DateOf(day).month, DateOf(day).day, hour)| == 15
  {
    var date := DateOf(day);
    TwoDigits(date.month);
    TwoDigits(date.day);
    TwoDigits(hour);
  }

  lemma AfterYearInjective(m1: int, d1: int, h1: int, m2: int, d2: int, h2: int)
    requires 1 <= m1 <= 12 && 1 <= d1 <= 31 && 0 <= h1 < 24 && 1 <= m2 <= 12 && 1 <= d2 <= 31 && 0 <= h2 < 24
    requires AfterYear(m1, d1, h1) == AfterYear(m2, d2, h2)
    ensures m1 == m2 && d1 == d2 && h1 == h2
  {
    var a, b := AfterYear(m1, d1, h1), AfterYear(m2, d2, h2);
    assert a[1] == Digit(m1 / 10) && b[1] == Digit(m2 / 10);
    assert a[2] == Digit(m1 % 10) && b[2] == Digit(m2 % 10);
    assert a[4] == Digit(d1 / 10) && b[4] == Digit(d2 / 10);
    assert a[5] == Digit(d1 % 10) && b[5] == Digit(d2 % 10);
    assert a[12] == Digit(h1 / 10) && b[12] == Digit(h2 / 10);
    assert a[13] == Digit(h1 % 10) && b[13] == Digit(h2 % 10);
  }

  lemma SplitAtEnd<T>(a: seq<T>, b: seq<T>, c: seq<T>, d: seq<T>)
    requires a + b == c + d && |b| == |d|
    ensures a == c && b == d
  {
    assert a == (a + b)[..|a|] && c == (c + d)[..|a|];
    assert b == (a + b)[|a|..] && d == (c + d)[|a|..];
  }

  lemma PartitionInjective(d1: int, h1: int, d2: int, h2: int)
    requires 0 <= h1 < 24 && 0 <= h2 < 24
    requires Partition(d1, h1) == Partition(d2, h2)
    ensures d1 == d2 && h1 == h2
  {
    var a, b := DateOf(d1), DateOf(d2);
    PartitionLayout(d1, h1);
    PartitionLayout(d2, h2);
    SplitAtEnd("events/dt=" + Decimal(a.year), AfterYear(a.month, a.day, h1), "events/dt=" + Decimal(b.year),
      AfterYear(b.month, b.day, h2));
    assert ("events/dt=" + Decimal(a.year))[10..] == Decimal(a.year);
    assert ("events/dt=" + Decimal(b.year))[10..] == Decimal(b.year);
    DecimalInjective(a.year, b.year);
    AfterYearInjective(a.month, a.day, h1, b.month, b.day, h2);
  }

  lemma SlashesAfterYear(month: int, day: int, hour: int)
    requires 1 <= month <= 12 && 1 <= day <= 31 && 0 <= hour < 24
    ensures Slashes(AfterYear(month, day, hour)) == 2
  {
    var left := ['-', Digit(month / 10), Digit(month % 10), '-', Digit(day / 10), Digit(day % 10)];
    var right := ['h', 'o', 'u', 'r', '=', Digit(hour / 10), Digit(hour % 10)];
    assert AfterYear(month, day, hour) == left + ("/" + (right + "/"));
    NoSlashes(left);
    NoSlashes(right);
    SlashOne();
    SlashesAppend(left, "/" + (right + "/"));
    SlashesAppend("/", right + "/");
    SlashesAppend(right, "/");
  }

  lemma SlashesBeforeYear()
    ensures Slashes("events/dt=") == 1
  {
    assert "events/dt=" == "events" + ("/" + "dt=");
    NoSlashes("events");
    NoSlashes("dt=");
    SlashOne();
    SlashesAppend("events", "/" + "dt=");
    SlashesAppend("/", "dt=");
  }

  lemma PartitionSlashes(day: int, hour: int)
    requires 0 <= hour < 24
    ensures var p := Partition(day, hour); Slashes(p) == 3 && p[|p| - 1] == '/'
  {
    var date := DateOf(day);
    PartitionLayout(day, hour);
    DecimalChars(date.year);
    NoSlashes(Decimal(date.year));
    SlashesBeforeYear();
    SlashesAfterYear(date.month, date.day, hour);
    SlashesAppend("events/dt=", Decimal(date.year));
    SlashesAppend("events/dt=" + Decimal(date.year), AfterYear(date.month, date.day, hour));
  }

  lemma SlashOne()
    ensures Slashes("/") == 1
  {
    assert "/"[1..] == [];
  }

  /** No partition is a proper prefix of another one: each holds exactly three slashes, the last at its end. */
  lemma PartitionsArePrefixFree(d1: int, h1: int, d2: int, h2: int, key: string)
    requires 0 <= h1 < 24 && 0 <= h2 < 24
    requires Partition(d1, h1) <= key && Partition(d2, h2) <= key
    ensures d1 == d2 && h1 == h2
  {
    PartitionSlashes(d1, h1);
    PartitionSlashes(d2, h2);
    if |Partition(d1, h1)| <= |Partition(d2, h2)| {
      SamePrefix(Partition(d1, h1), Partition(d2, h2), key);
    } else {
      SamePrefix(Partition(d2, h2), Partition(d1, h1), key);
    }
    PartitionInjective(d1, h1, d2, h2);
  }

  lemma SamePrefix(p: string, q: string, key: string)
    requires p <= key && q <= key && |p| <= |q|
    requires q != [] && q[|q| - 1] == '/' && Slashes(p) == Slashes(q)
    ensures p == q
  {
    if |p| < |q| {
      var n := |q| - 1;
      assert q == p + q[|p|..n] + "/";
      SlashesAppend(p + q[|p|..n], "/");
      SlashesAppend(p, q[|p|..n]);
      SlashOne();
    }
  }

  // ---------------------------------------------------------------------------------------------
  // Keys
  // ---------------------------------------------------------------------------------------------

  function AfterLastSlash(s: string): string {
    if s == [] || s[|s| - 1] == '/' then [] else AfterLastSlash(s[..|s| - 1]) + [s[|s| - 1]]
  }

  lemma {:induction false} AfterLastSlashIs(p: string, t: string)
    requires p != [] && p[|p| - 1] == '/' && '/' !in t
    ensures AfterLastSlash(p + t) == t
  {
    if t == [] {
      assert p + t == p;
    } else {
      var n := |t| - 1;
      assert (p + t)[..|p + t| - 1] == p + t[..n];
      AfterLastSlashIs(p, t[..n]);
      assert t == t[..n] + [t[n]];
    }
  }

  lemma NameOfKey(batchId: string, t: int)
    requires '/' !in batchId
    ensures AfterLastSlash(EventBatchKey(batchId, t)) == batchId + ".ndjson"
  {
    var p := Partition(DayOf(t), HourOf(t));
    PartitionSlashes(DayOf(t), HourOf(t));
    assert EventBatchKey(batchId, t) == p + (batchId + ".ndjson");
    AfterLastSlashIs(p, batchId + ".ndjson");
  }

  /** Batches with different ids never share an object, whatever hour they are filed under. */
  lemma KeyDeterminesBatch(b1: string, t1: int, b2: string, t2: int)
    requires '/' !in b1 && '/' !in b2
    requires EventBatchKey(b1, t1) == EventBatchKey(b2, t2)
    ensures b1 == b2
  {
    NameOfKey(b1, t1);
    NameOfKey(b2, t2);
    SplitAtEnd(b1, ".ndjson", b2, ".ndjson");
  }

  lemma KeyIsUnderItsHour(batchId: string, t: int)
    ensures Partition(DayOf(t), HourOf(t)) <= EventBatchKey(batchId, t)
  {
    hide Partition, DayOf, HourOf;
    var own := Partition(DayOf(t), HourOf(t));
    assert EventBatchKey(batchId, t) == own + (batchId + ".ndjson");
  }

  lemma KeyStartsWithPartition(batchId: string, t: int, day: int, hour: int)
    requires 0 <= hour < 24
    ensures Partition(day, hour) <= EventBatchKey(batchId, t) <==> day == DayOf(t) && hour == HourOf(t)
  {
    hide Partition, DayOf, HourOf, EventBatchKey;
    HourBounds(t);
    KeyIsUnderItsHour(batchId, t);
    if Partition(day, hour) <= EventBatchKey(batchId, t) {
      PartitionsArePrefixFree(day, hour, DayOf(t), HourOf(t), EventBatchKey(batchId, t));
    }
  }

  /** The position in the list of the hour that holds instant `t`. */
  function SlotOf(fromDay: int, t: int): int {
    24 * (DayOf(t) - fromDay) + HourOf(t)
  }

  /**
   * An instant of the walked days has its key under exactly one listed prefix, the one for its UTC
   * day and hour; an instant of any other day has its key under none.
   */
  lemma ExactlyOnePrefix(fromDay: int, toDay: int, batchId: string, t: int, i: nat)
    requires fromDay <= toDay && i < |PrefixesOfDays(fromDay, toDay)|
    ensures PrefixesOfDays(fromDay, toDay)[i] <= EventBatchKey(batchId, t) <==> i == SlotOf(fromDay, t)
    ensures fromDay <= DayOf(t) <= toDay <==> 0 <= SlotOf(fromDay, t) < |PrefixesOfDays(fromDay, toDay)|
  {
    hide Partition, EventBatchKey, DayOf, HourOf;
    KeyStartsWithPartition(batchId, t, fromDay + i / 24, i % 24);
    HourBounds(t);
    SlotArithmetic(DayOf(t) - fromDay, HourOf(t), i);
    SlotBounds(DayOf(t) - fromDay, HourOf(t), toDay - fromDay);
  }

  lemma SlotBounds(d: int, h: int, last: nat)
    requires 0 <= h < 24
    ensures 0 <= d <= last <==> 0 <= 24 * d + h < 24 * (last + 1)
  {
  }

  lemma HourBounds(t: int)
    ensures 0 <= HourOf(t) < 24
  {
  }

  lemma SlotArithmetic(d: int, h: int, i: int)
    requires 0 <= h < 24
    ensures i / 24 == d && i % 24 == h <==> i == 24 * d + h
  {
  }

  // ---------------------------------------------------------------------------------------------
  // `Date.UTC` and the years 0 to 99
  // ---------------------------------------------------------------------------------------------

  predicate TwoDigitYear(day: int) { 0 <= DateOf(day).year <= 99 }

  lemma DateUtcInvertsDateOf(day: int)
    ensures !TwoDigitYear(day) ==> DateUtc(DateOf(day)) == day
    ensures TwoDigitYear(day) ==> DateUtc(DateOf(day)) > day
  {
    DateUtcOf(day, DateOf(day));
  }

  /** Over the year, month and day of any date. */
  lemma DateUtcOf(day: int, date: Date)
    requires 1 <= date.month <= 12 && date.day >= 1 && DayFromYear(date.year) <= day < DayFromYear(date.year + 1)
    requires day == DayFromYear(date.year) + MonthStart(date.month, IsLeap(date.year)) + date.day - 1
    ensures !(0 <= date.year <= 99) ==> DateUtc(date) == day
    ensures 0 <= date.year <= 99 ==> DateUtc(date) > day
  {
    if 0 <= date.year <= 99 {
      YearsApart(date.year, 1900 + date.year);
      YearLength(date.year);
    }
  }

  lemma YearsApart(y: int, z: int)
    requires y + 2 <= z
    ensures DayFromYear(y) + 730 <= DayFromYear(z)
  {
    YearsAreOrdered(y, y + 1);
    YearsAreOrdered(y + 1, z);
  }

  ghost predicate Listed(prefixes: seq<string>, batchId: string, t: int) {
    exists i :: 0 <= i < |prefixes| && prefixes[i] <= EventBatchKey(batchId, t)
  }

  /** Every key of every instant from the UTC day of `from` to that of `to` is under some prefix. */
  ghost predicate Covers(prefixes: seq<string>, from: int, to: int) {
    forall t, b: string :: DayOf(from) <= DayOf(t) <= DayOf(to) ==> Listed(prefixes, b, t)
  }

  /**
   * Whenever `eventPrefixes(from, to)` returns a list, that list covers the days from `from` to `to`
   * if and only if `from` is not in one of the years 0 to 99, which `Date.UTC` takes for 1900 to
   * 1999.
   */
  lemma PrefixesCover(from: int, to: int)
    requires DayOf(from) <= DayOf(to)
    requires var f, t := DateUtc(DateOf(DayOf(from))), DateUtc(DateOf(DayOf(to)));
             f <= t && t - f + 1 <= MAX_RANGE_DAYS
    ensures Covers(PrefixesOfDays(DateUtc(DateOf(DayOf(from))), DateUtc(DateOf(DayOf(to)))), from, to)
            <==> !TwoDigitYear(DayOf(from))
  {
    var f, t := DateUtc(DateOf(DayOf(from))), DateUtc(DateOf(DayOf(to)));
    var ps := PrefixesOfDays(f, t);
    DateUtcInvertsDateOf(DayOf(from));
    DateUtcInvertsDateOf(DayOf(to));
    if TwoDigitYear(DayOf(from)) {
      forall i | 0 <= i < |ps| ensures !(ps[i] <= EventBatchKey("b", from)) {
        ExactlyOnePrefix(f, t, "b", from, i);
        HourBounds(from);
      }
      assert !Listed(ps, "b", from);
    } else {
      assert f == DayOf(from) && DayOf(to) <= t;
      forall u, b: string | DayOf(from) <= DayOf(u) <= DayOf(to)
        ensures Listed(ps, b, u)
      {
        HourBounds(u);
        ExactlyOnePrefix(f, t, b, u, SlotOf(f, u));
      }
    }
  }

  // ---------------------------------------------------------------------------------------------
  // Order
  // ---------------------------------------------------------------------------------------------

  /** String order decided at the first position where the two differ. */
  ghost predicate LexLess(s: string, t: string) {
    exists k :: 0 <= k < |s| && k < |t| && s[..k] == t[..k] && s[k] < t[k]
  }

  lemma LexLessInContext(p: string, s: string, t: string, u: string, v: string)
    requires LexLess(s, t)
    ensures LexLess(p + s + u, p + t + v)
  {
    var k :| 0 <= k < |s| && k < |t| && s[..k] == t[..k] && s[k] < t[k];
    var n := |p| + k;
    assert (p + s + u)[..n] == p + s[..k];
    assert (p + t + v)[..n] == p + t[..k];
    assert (p + s + u)[n] == s[k] && (p + t + v)[n] == t[k];
  }

  /** Two numbers written with the same number of digits. */
  lemma {:induction false} DecimalOrder(m: int, n: int)
    requires 0 <= m < n && |Decimal(m)| == |Decimal(n)|
    ensures LexLess(Decimal(m), Decimal(n))
    decreases n
  {
    if n < 10 {
      assert Decimal(m)[..0] == Decimal(n)[..0] && Decimal(m)[0] < Decimal(n)[0];
    } else {
      assert m >= 10;
      if m / 10 == n / 10 {
        var k := |Decimal(m)| - 1;
        assert Decimal(m)[..k] == Decimal(n)[..k] == Decimal(m / 10);
        assert Decimal(m)[k] == Digit(m % 10) && Decimal(n)[k] == Digit(n % 10);
      } else {
        DecimalOrder(m / 10, n / 10);
        LexLessInContext("", Decimal(m / 10), Decimal(n / 10), [Digit(m % 10)], [Digit(n % 10)]);
        assert "" + Decimal(m / 10) + [Digit(m % 10)] == Decimal(m);
        assert "" + Decimal(n / 10) + [Digit(n % 10)] == Decimal(n);
      }
    }
  }

  lemma TwoDigitOrder(m: int, n: int)
    requires 0 <= m < n < 100
    ensures LexLess([Digit(m / 10), Digit(m % 10)], [Digit(n / 10), Digit(n % 10)])
  {
    var s, t := [Digit(m / 10), Digit(m % 10)], [Digit(n / 10), Digit(n % 10)];
    if m / 10 == n / 10 {
      assert s[..1] == t[..1] && s[1] < t[1];
    } else {
      assert s[..0] == t[..0] && s[0] < t[0];
    }
  }

  lemma FourDigits(y: int)
    requires 1000 <= y <= 9999
    ensures |Decimal(y)| == 4
  {
    assert Decimal(y) == Decimal(y / 10) + [Digit(y % 10)];
    assert Decimal(y / 10) == Decimal(y / 100) + [Digit(y / 10 % 10)];
    assert Decimal(y / 100) == Decimal(y / 1000) + [Digit(y / 100 % 10)];
  }

  lemma LexTransitive(s: string, t: string, u: string)
    requires LexLess(s, t) && LexLess(t, u)
    ensures LexLess(s, u)
  {
    var j :| 0 <= j < |s| && j < |t| && s[..j] == t[..j] && s[j] < t[j];
    var k :| 0 <= k < |t| && k < |u| && t[..k] == u[..k] && t[k] < u[k];
    var n := if j < k then j else k;
    assert s[..n] == s[..j][..n] && t[..n] == t[..j][..n] && t[..n] == t[..k][..n] && u[..n] == u[..k][..n];
    assert j < k ==> t[j] == t[..k][j] == u[..k][j];
    assert k < j ==> t[k] == t[..j][k] == s[..j][k];
  }

  lemma LexIrreflexive(s: string)
    ensures !LexLess(s, s)
  {
  }

  lemma LexAsymmetric(s: string, t: string)
    requires LexLess(s, t)
    ensures !LexLess(t, s)
  {
    hide LexLess;
    LexIrreflexive(s);
    if LexLess(t, s) { LexTransitive(s, t, s); }
  }

  /**
   * The text of year `y` sorts before that of `y + 1`: both have as many characters, or, for negative
   * years, they do not.
   */
  predicate YearStepsUp(y: int) { (y >= 0) == (|Decimal(y)| == |Decimal(y + 1)|) }

  ghost predicate YearsStepUp(y: int, z: int) { forall x :: y <= x < z ==> YearStepsUp(x) }

  /** A number has one digit more than the one before it only where that is all nines. */
  lemma {:induction false} DigitsGrow(n: nat)
    ensures |Decimal(n)| == |Decimal(n + 1)| || (Decimal(n)[0] == '9' && Decimal(n + 1)[0] == '1')
  {
    if n == 9 {
      assert Decimal(10) == Decimal(1) + [Digit(0)];
    } else if n >= 10 {
      DigitsGrow(n / 10);
      assert (n + 1) / 10 == n / 10 || (n + 1) / 10 == n / 10 + 1;
    }
  }

  lemma FirstDecides(s: string, t: string)
    requires s != [] && t != [] && s[0] < t[0]
    ensures LexLess(s, t)
  {
    assert s[..0] == t[..0];
  }

  lemma YearStep(y: int)
    ensures if YearStepsUp(y) then LexLess(Decimal(y), Decimal(y + 1)) else LexLess(Decimal(y + 1), Decimal(y))
  {
    if y >= 0 {
      DigitsGrow(y);
      if YearStepsUp(y) { DecimalOrder(y, y + 1); } else { FirstDecides(Decimal(y + 1), Decimal(y)); }
    } else if y == -1 {
      assert Decimal(-1) == "-" + Decimal(1);
      FirstDecides(Decimal(-1), Decimal(0));
    } else {
      NegativeStep(-y - 1);
    }
  }

  /** Below zero the order is that of the digits, turned around. */
  lemma NegativeStep(n: int)
    requires n > 0
    ensures if |Decimal(-n - 1)| != |Decimal(-n)| then LexLess(Decimal(-n - 1), Decimal(-n))
            else LexLess(Decimal(-n), Decimal(-n - 1))
  {
    var s, t := Decimal(n), Decimal(n + 1);
    assert Decimal(-n) == "-" + s + "" && Decimal(-n - 1) == "-" + t + "";
    DigitsGrow(n);
    if |s| == |t| {
      DecimalOrder(n, n + 1);
      LexLessInContext("-", s, t, "", "");
    } else {
      FirstDecides(t, s);
      LexLessInContext("-", t, s, "", "");
    }
  }

  lemma {:induction false} YearOrder(y: int, z: int)
    requires y < z && YearsStepUp(y, z)
    ensures LexLess(Decimal(y), Decimal(z))
    decreases z - y
  {
    YearStep(z - 1);
    assert YearStepsUp(z - 1);
    if y < z - 1 {
      YearOrder(y, z - 1);
      LexTransitive(Decimal(y), Decimal(z - 1), Decimal(z));
    }
  }

  lemma PartitionOrder(d1: int, h1: int, d2: int, h2: int)
    requires 0 <= h1 < 24 && 0 <= h2 < 24 && YearsStepUp(DateOf(d1).year, DateOf(d2).year)
    requires d1 < d2 || (d1 == d2 && h1 < h2)
    ensures LexLess(Partition(d1, h1), Partition(d2, h2))
  {
    var a, b := DateOf(d1), DateOf(d2);
    PartitionLayout(d1, h1);
    PartitionLayout(d2, h2);
    var head := "events/dt=" + Decimal(a.year);
    var s, t := AfterYear(a.month, a.day, h1), AfterYear(b.month, b.day, h2);
    if d1 < d2 { DatesAreOrdered(d1, d2); }
    if a.year < b.year {
      YearOrder(a.year, b.year);
      LexLessInContext("events/dt=", Decimal(a.year), Decimal(b.year), s, t);
    } else {
      AfterYearOrder(a.month, a.day, h1, b.month, b.day, h2);
      LexLessInContext(head, s, t, "", "");
      assert head + s + "" == Partition(d1, h1) && head + t + "" == Partition(d2, h2);
    }
  }

  lemma AfterYearOrder(m1: int, d1: int, h1: int, m2: int, d2: int, h2: int)
    requires 1 <= m1 <= 12 && 1 <= d1 <= 31 && 0 <= h1 < 24 && 1 <= m2 <= 12 && 1 <= d2 <= 31 && 0 <= h2 < 24
    requires m1 < m2 || (m1 == m2 && (d1 < d2 || (d1 == d2 && h1 < h2)))
    ensures LexLess(AfterYear(m1, d1, h1), AfterYear(m2, d2, h2))
  {
    var s, t := AfterYear(m1, d1, h1), AfterYear(m2, d2, h2);
    AfterYearSlices(m1, d1, h1);
    AfterYearSlices(m2, d2, h2);
    hide AfterYear, LexLess, Digit;
    if m1 < m2 {
      TwoDigitOrder(m1, m2);
      SliceLess(s, t, 1, 3);
    } else if d1 < d2 {
      TwoDigitOrder(d1, d2);
      SliceLess(s, t, 4, 6);
    } else {
      TwoDigitOrder(h1, h2);
      SliceLess(s, t, 12, 14);
    }
  }

  lemma AfterYearSlices(month: int, day: int, hour: int)
    requires 1 <= month <= 12 && 1 <= day <= 31 && 0 <= hour < 24
    ensures var s := AfterYear(month, day, hour);
            && |s| == 15 && s[..1] == "-" && s[1..3] == [Digit(month / 10), Digit(month % 10)]
            && s[..4] == "-" + [Digit(month / 10), Digit(month % 10)] + "-"
              && s[4..6] == [Digit(day / 10), Digit(day % 10)]
            && s[..12] == "-" + [Digit(month / 10), Digit(month % 10)] + "-" + [Digit(day / 10), Digit(day % 10)]
              + "/hour="
            && s[12..14] == [Digit(hour / 10), Digit(hour % 10)]
  {
    hide Digit;
  }

  /** Two texts of one length that first differ within a slice, and there in this order. */
  lemma SliceLess(s: string, t: string, i: nat, j: nat)
    requires i <= j <= |s| == |t| && s[..i] == t[..i] && LexLess(s[i..j], t[i..j])
    ensures LexLess(s, t)
  {
    LexLessInContext(s[..i], s[i..j], t[i..j], s[j..], t[j..]);
    hide LexLess;
    assert s[..i] + s[i..j] + s[j..] == s && t[..i] + t[i..j] + t[j..] == t;
  }

  /**
   * For every range: the list has 24 entries a day, and it is strictly increasing as strings, which is
   * the order in which R2 lists keys, if and only if the text of each year in the range but the last
   * sorts before that of the next year.
   */
  lemma PrefixesIncrease(fromDay: int, toDay: int)
    requires fromDay <= toDay
    ensures |PrefixesOfDays(fromDay, toDay)| == 24 * (toDay - fromDay + 1)
    ensures Increasing(PrefixesOfDays(fromDay, toDay)) <==> YearsStepUp(DateOf(fromDay).year, DateOf(toDay).year)
  {
    hide LexLess, YearsStepUp, DateOf, PrefixesOfDays;
    if YearsStepUp(DateOf(fromDay).year, DateOf(toDay).year) {
      UpwardsIncrease(fromDay, toDay);
    } else {
      DownwardsDoNot(fromDay, toDay);
    }
  }

  lemma UpwardsIncrease(fromDay: int, toDay: int)
    requires fromDay <= toDay && YearsStepUp(DateOf(fromDay).year, DateOf(toDay).year)
    ensures |PrefixesOfDays(fromDay, toDay)| == 24 * (toDay - fromDay + 1)
    ensures Increasing(PrefixesOfDays(fromDay, toDay))
  {
    hide LexLess, YearsStepUp, DateOf;
    var keys := PrefixesOfDays(fromDay, toDay);
    forall i: nat, j: nat | i < j < |keys| ensures LexLess(keys[i], keys[j]) {
      var a, g, b, h := SlotOrder(fromDay, toDay, i, j);
      PrefixElement(fromDay, toDay, i, a, g);
      PrefixElement(fromDay, toDay, j, b, h);
      YearsBetween(fromDay, a, b, toDay);
      PartitionOrder(a, g, b, h);
    }
  }

  lemma YearsGrow(d: int, e: int)
    requires d <= e
    ensures DateOf(d).year <= DateOf(e).year
  {
    hide DateOf;
    if d < e { DatesAreOrdered(d, e); }
  }

  lemma YearsBetween(fromDay: int, a: int, b: int, toDay: int)
    requires fromDay <= a <= b <= toDay && YearsStepUp(DateOf(fromDay).year, DateOf(toDay).year)
    ensures YearsStepUp(DateOf(a).year, DateOf(b).year)
  {
    hide DateOf;
    YearsGrow(fromDay, a);
    YearsGrow(b, toDay);
  }

  /** Where a year's text does not sort before the next one's, neither do their days'. */
  lemma DownwardsDoNot(fromDay: int, toDay: int)
    requires fromDay <= toDay && !YearsStepUp(DateOf(fromDay).year, DateOf(toDay).year)
    ensures |PrefixesOfDays(fromDay, toDay)| == 24 * (toDay - fromDay + 1)
    ensures !Increasing(PrefixesOfDays(fromDay, toDay))
  {
    hide DateOf, LexLess, PrefixesOfDays, YearStepsUp, Decimal, Partition, IsSlot;
    var y :| DateOf(fromDay).year <= y < DateOf(toDay).year && !YearStepsUp(y);
    var d := NewYear(fromDay, toDay, y);
    YearStep(y);
    YearOutOfOrder(d - 1, d);
    var i, j := Midnight(fromDay, d - 1), Midnight(fromDay, d);
    PrefixElement(fromDay, toDay, i, d - 1, 0);
    PrefixElement(fromDay, toDay, j, d, 0);
    LexAsymmetric(Partition(d, 0), Partition(d - 1, 0));
  }

  /** Where the list has the first hour of a day. */
  function Midnight(fromDay: int, day: int): (i: nat)
    requires fromDay <= day
    ensures i == 24 * (day - fromDay) && IsSlot(fromDay, i, day, 0)
  {
    24 * (day - fromDay)
  }

  /** The turn of a year within a range. */
  lemma NewYear(fromDay: int, toDay: int, y: int) returns (d: int)
    requires DateOf(fromDay).year <= y < DateOf(toDay).year
    ensures fromDay < d <= toDay && DateOf(d - 1).year == y && DateOf(d).year == y + 1
  {
    hide DateOf, DayFromYear;
    d := DayFromYear(y + 1);
    var a, b := DateOf(fromDay).year, DateOf(toDay).year;
    YearSpan(fromDay);
    YearSpan(toDay);
    YearsAreOrdered(y, y + 1);
    YearsAreOrdered(y + 1, y + 2);
    InYear(d, y + 1);
    InYear(d - 1, y);
    if a < y { YearsAreOrdered(a + 1, y + 1); }
    if y + 1 < b { YearsAreOrdered(y + 1, b); }
  }

  lemma YearSpan(d: int)
    ensures DayFromYear(DateOf(d).year) <= d < DayFromYear(DateOf(d).year + 1)
  {
  }

  lemma InYear(d: int, y: int)
    requires DayFromYear(y) <= d < DayFromYear(y + 1)
    ensures DateOf(d).year == y
  {
    hide DateOf, DayFromYear;
    YearSpan(d);
    var z := DateOf(d).year;
    if z + 1 < y { YearsAreOrdered(z + 1, y); }
    if y + 1 < z { YearsAreOrdered(y + 1, z); }
  }

  lemma YearOutOfOrder(d: int, e: int)
    requires LexLess(Decimal(DateOf(e).year), Decimal(DateOf(d).year))
    ensures LexLess(Partition(e, 0), Partition(d, 0))
  {
    var a, b := DateOf(d), DateOf(e);
    PartitionLayout(d, 0);
    PartitionLayout(e, 0);
    LexLessInContext("events/dt=", Decimal(b.year), Decimal(a.year), AfterYear(b.month, b.day, 0),
      AfterYear(a.month, a.day, 0));
  }

  ghost predicate Increasing(keys: seq<string>) {
    forall i: nat, j: nat :: i < j < |keys| ==> LexLess(keys[i], keys[j])
  }

  predicate IsSlot(fromDay: int, i: nat, day: int, hour: int) {
    day == fromDay + i / 24 && hour == i % 24
  }

  lemma PrefixElement(fromDay: int, toDay: int, i: nat, day: int, hour: int)
    requires i < 24 * (toDay - fromDay + 1) && IsSlot(fromDay, i, day, hour)
    ensures |PrefixesOfDays(fromDay, toDay)| == 24 * (toDay - fromDay + 1)
    ensures PrefixesOfDays(fromDay, toDay)[i] == Partition(day, hour)
  {
    hide Partition;
  }

  /** An increasing list holds nothing twice. */
  lemma IncreasingIsNoDup(keys: seq<string>)
    requires Increasing(keys)
    ensures NoDup(keys)
  {
    forall i, j | 0 <= i < j < |keys| ensures keys[i] != keys[j] {
      assert LexLess(keys[i], keys[j]);
    }
  }

  lemma SlotOrder(fromDay: int, toDay: int, i: nat, j: nat) returns (a: int, g: int, b: int, h: int)
    requires i < j < 24 * (toDay - fromDay + 1)
    ensures IsSlot(fromDay, i, a, g) && IsSlot(fromDay, j, b, h)
    ensures fromDay <= a <= b <= toDay && 0 <= g < 24 && 0 <= h < 24
    ensures a < b || (a == b && g < h)
  {
    a, g, b, h := fromDay + i / 24, i % 24, fromDay + j / 24, j % 24;
  }

  /** Within the years 1000 to 9999 the list increases. */
  lemma FourDigitYearsIncrease(fromDay: int, toDay: int)
    requires fromDay <= toDay && 1000 <= DateOf(fromDay).year && DateOf(toDay).year <= 9999
    ensures Increasing(PrefixesOfDays(fromDay, toDay))
  {
    forall x | DateOf(fromDay).year <= x < DateOf(toDay).year ensures YearStepsUp(x) {
      FourDigits(x);
      FourDigits(x + 1);
    }
    PrefixesIncrease(fromDay, toDay);
  }

  /** No range over the change from year 999 to year 1000 does: 1000 sorts before 999. */
  lemma OrderBreaksAtYear1000(fromDay: int, toDay: int)
    requires DateOf(fromDay).year <= 999 < DateOf(toDay).year
    ensures fromDay < toDay && !Increasing(PrefixesOfDays(fromDay, toDay))
  {
    if toDay <= fromDay { YearsGrow(toDay, fromDay); }
    DigitsOf999();
    hide DateOf, PrefixesOfDays, Decimal;
    assert !YearStepsUp(999);
    PrefixesIncrease(fromDay, toDay);
  }

  lemma DigitsOf999()
    ensures |Decimal(999)| == 3 && |Decimal(1000)| == 4
  {
    FourDigits(1000);
    assert Decimal(999) == Decimal(99) + [Digit(9)] && Decimal(99) == Decimal(9) + [Digit(9)];
  }
}
