/** Civil date-times in UTC, with the parts of Go's `time` package that the
    analytics service uses: ordering, `AddDate(0, 1, 0)` with day-of-month
    overflow, the first and last day of a month, and the "2006-01" layout. */
module Calendar {
  import opened Text

  const NanosPerDay: nat := 86_400_000_000_000

  predicate IsLeapYear(y: int) {
    y % 4 == 0 && (y % 100 != 0 || y % 400 == 0)
  }

  function DaysIn(year: int, month: int): (n: int)
    requires 1 <= month <= 12
    ensures 28 <= n <= 31
    ensures month == 2 ==> (n == 29 <==> IsLeapYear(year))
  {
    if month == 2 then (if IsLeapYear(year) then 29 else 28)
    else if month == 4 || month == 6 || month == 9 || month == 11 then 30
    else 31
  }

  /** A UTC instant: calendar date plus nanoseconds since midnight. */
  datatype DateTime = DateTime(year: int, month: int, day: int, nanoOfDay: nat)

  ghost predicate ValidDateTime(t: DateTime) {
    1 <= t.month <= 12 && 1 <= t.day <= DaysIn(t.year, t.month) && t.nanoOfDay < NanosPerDay
  }

  type Time = t: DateTime | ValidDateTime(t) witness DateTime(2000, 1, 1, 0)

  /** `a.Before(b)`: strictly earlier. */
  predicate Before(a: Time, b: Time) {
    a.year < b.year
    || (a.year == b.year && a.month < b.month)
    || (a.year == b.year && a.month == b.month && a.day < b.day)
    || (a.year == b.year && a.month == b.month && a.day == b.day && a.nanoOfDay < b.nanoOfDay)
  }

  /** `a.Before(b) || a.Equal(b)`. */
  predicate NotAfter(a: Time, b: Time) {
    Before(a, b) || a == b
  }

  /** `Before` is a strict total order on instants. */
  lemma BeforeTrichotomy(a: Time, b: Time)
    ensures Before(a, b) || a == b || Before(b, a)
  {
  }

  lemma BeforeTransitive(a: Time, b: Time, c: Time)
    requires Before(a, b) && Before(b, c)
    ensures Before(a, c)
  {
  }

  /** Months since the start of year 0: consecutive calendar months have consecutive indices. */
  function MonthIndex(t: Time): int {
    t.year * 12 + t.month - 1
  }

  lemma BeforeMonthIndex(a: Time, b: Time)
    requires NotAfter(a, b)
    ensures MonthIndex(a) <= MonthIndex(b)
  {
  }

  /** The month after `year`-`month`. */
  function NextMonth(year: int, month: int): (r: (int, int))
    requires 1 <= month <= 12
    ensures 1 <= r.1 <= 12 && r.0 * 12 + r.1 == year * 12 + month + 1
  {
    if month == 12 then (year + 1, 1) else (year, month + 1)
  }

  /** Go's `t.AddDate(0, 1, 0)`: the same day and clock time one month later; a
      day that the next month does not have spills over into the month after
      (January 31 becomes March 3, or March 2 in a leap year). */
  function AddOneMonth(t: Time): (r: Time)
    ensures Before(t, r)
    ensures r.nanoOfDay == t.nanoOfDay
    ensures t.day <= 28 ==> r.day == t.day && MonthIndex(r) == MonthIndex(t) + 1
    ensures MonthIndex(t) + 1 <= MonthIndex(r) <= MonthIndex(t) + 2
    ensures MonthIndex(r) == MonthIndex(t) + 1 <==> t.day <= DaysIn(NextMonth(t.year, t.month).0, NextMonth(t.year, t.month).1)
    ensures MonthIndex(r) == MonthIndex(t) + 1 ==> r.day == t.day
    ensures MonthIndex(r) == MonthIndex(t) + 2 ==> r.day == t.day - DaysIn(NextMonth(t.year, t.month).0, NextMonth(t.year, t.month).1)
  {
    var (y, m) := NextMonth(t.year, t.month);
    if t.day <= DaysIn(y, m) then DateTime(y, m, t.day, t.nanoOfDay)
    else
      var (y2, m2) := NextMonth(y, m);
      DateTime(y2, m2, t.day - DaysIn(y, m), t.nanoOfDay)
  }

  /** `time.Date(t.Year(), t.Month(), 1, 0, 0, 0, 0, time.UTC)`. */
  function MonthStart(t: Time): (r: Time)
    ensures r.year == t.year && r.month == t.month && r.day == 1 && r.nanoOfDay == 0
  {
    DateTime(t.year, t.month, 1, 0)
  }

  /** `monthStart.AddDate(0, 1, -1)` for a first-of-month: one month later is the
      first of the next month, and day 0 of a month normalises to the last day
      of the month before, at the same clock time (midnight). */
  function MonthEnd(monthStart: Time): (r: Time)
    requires monthStart.day == 1
    ensures r.year == monthStart.year && r.month == monthStart.month
    ensures r.day == DaysIn(monthStart.year, monthStart.month)
    ensures r.nanoOfDay == monthStart.nanoOfDay
  {
    DateTime(monthStart.year, monthStart.month, DaysIn(monthStart.year, monthStart.month), monthStart.nanoOfDay)
  }

  /** Left-pads with '0' to at least `width` characters, as `%0*d` does. */
  function ZeroPad(s: string, width: nat): (r: string)
    ensures |r| >= width && |r| >= |s|
    ensures r[|r| - |s|..] == s
    decreases width - |s|
  {
    if |s| >= width then s else ZeroPad("0" + s, width)
  }

  /** `t.Format("2006-01")`: the year with at least four digits, "-", the month with two. */
  function Period(t: Time): (s: string)
  {
    (if t.year < 0 then "-" else "") + ZeroPad(NatToString(if t.year < 0 then -t.year else t.year), 4)
      + "-" + ZeroPad(NatToString(t.month), 2)
  }

  /** A leading '0' does not change the value of a digit string. */
  lemma {:induction false} LeadingZeroValue(s: string)
    requires AllDigits(s)
    ensures AllDigits("0" + s) && DigitsValue("0" + s) == DigitsValue(s)
  {
    if s != [] {
      var t := "0" + s;
      assert t[..|t| - 1] == "0" + s[..|s| - 1];
      LeadingZeroValue(s[..|s| - 1]);
    }
  }

  /** Padding a digit string keeps its value and gives exactly `width` characters
      when it was not longer. */
  lemma {:induction false} ZeroPadValue(s: string, width: nat)
    requires AllDigits(s)
    ensures AllDigits(ZeroPad(s, width)) && DigitsValue(ZeroPad(s, width)) == DigitsValue(s)
    ensures |s| <= width ==> |ZeroPad(s, width)| == width
    decreases width - |s|
  {
    if |s| < width {
      LeadingZeroValue(s);
      ZeroPadValue("0" + s, width);
    }
  }

  /** Numbers below 10000 have at most four digits, below 100 at most two. */
  lemma {:induction false} NatToStringShort(n: nat)
    ensures n < 100 ==> |NatToString(n)| <= 2
    ensures n < 1000 ==> |NatToString(n)| <= 3
    ensures n < 10000 ==> |NatToString(n)| <= 4
  {
    if n >= 10 {
      NatToStringShort(n / 10);
    }
  }

  /** A four-digit and a two-digit group joined by '-' split back at index 4. */
  lemma DashJoined(y: string, m: string)
    requires |y| == 4 && |m| == 2
    ensures var s := y + "-" + m; |s| == 7 && s[4] == '-' && s[..4] == y && s[5..] == m
  {
  }

  /** For a year from 0 to 9999 the period is "YYYY-MM": seven characters, a dash
      at index 4, and digit groups that read back as the year and the month. */
  lemma PeriodLayout(t: Time)
    requires 0 <= t.year <= 9999
    ensures var s := Period(t);
      && |s| == 7 && s[4] == '-'
      && AllDigits(s[..4]) && DigitsValue(s[..4]) == t.year
      && AllDigits(s[5..]) && DigitsValue(s[5..]) == t.month
  {
    var y := ZeroPad(NatToString(t.year), 4);
    var m := ZeroPad(NatToString(t.month), 2);
    assert Period(t) == y + "-" + m;
    NatToStringShort(t.year);
    NatToStringShort(t.month);
    ZeroPadValue(NatToString(t.year), 4);
    ZeroPadValue(NatToString(t.month), 2);
    NatToStringRoundTrip(t.year);
    NatToStringRoundTrip(t.month);
    DashJoined(y, m);
  }

  /** Distinct months of years 0 to 9999 get distinct periods. */
  lemma PeriodDistinguishesMonths(a: Time, b: Time)
    requires 0 <= a.year <= 9999 && 0 <= b.year <= 9999
    requires Period(a) == Period(b)
    ensures a.year == b.year && a.month == b.month
  {
    PeriodLayout(a);
    PeriodLayout(b);
  }
}
