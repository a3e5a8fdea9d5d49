// Calendar dates and the fixed `%Y-%m-%d?%H:%M:%S` form read by `strptime`.
module DateTimes {
  import opened Wrappers
  import Text

  datatype Date = Date(year: nat, month: nat, day: nat)
  datatype DateTime = DateTime(year: nat, month: nat, day: nat, hour: nat, minute: nat, second: nat)

  predicate IsLeap(y: nat) {
    (y % 4 == 0 && y % 100 != 0) || y % 400 == 0
  }

  function DaysInMonth(y: nat, m: nat): nat
    requires 1 <= m <= 12
  {
    if m == 2 then (if IsLeap(y) then 29 else 28)
    else if m == 4 || m == 6 || m == 9 || m == 11 then 30
    else 31
  }

  /** What Python's `datetime` constructor accepts. */
  predicate ValidDate(d: Date) {
    1 <= d.year <= 9999 && 1 <= d.month <= 12 && 1 <= d.day <= DaysInMonth(d.year, d.month)
  }

  predicate ValidDateTime(t: DateTime) {
    ValidDate(DateOf(t)) && t.hour < 24 && t.minute < 60 && t.second < 60
  }

  /** `dt.date()`. */
  function DateOf(t: DateTime): Date {
    Date(t.year, t.month, t.day)
  }

  /** A number that orders dates as `date.toordinal()` does. */
  function DayKey(d: Date): int {
    d.year * 10000 + d.month * 100 + d.day
  }

  /** A number that orders date-times as `datetime.timestamp()` does. */
  function SecondKey(t: DateTime): int {
    DayKey(DateOf(t)) * 86400 + t.hour * 3600 + t.minute * 60 + t.second
  }

  lemma DayKeyMonotone(a: Date, b: Date)
    requires ValidDate(a) && ValidDate(b)
    ensures DayKey(a) < DayKey(b) <==>
      (a.year < b.year || (a.year == b.year && (a.month < b.month || (a.month == b.month && a.day < b.day))))
    ensures DayKey(a) == DayKey(b) <==> a == b
  {
  }

  function Digits(n: nat, width: nat): (r: string)
    ensures |r| == width
    ensures forall i :: 0 <= i < |r| ==> Text.IsDigit(r[i])
  {
    if width == 0 then "" else Digits(n / 10, width - 1) + [Text.DigitChar(n % 10)]
  }

  lemma {:induction false} DigitsValueOfDigits(n: nat, width: nat)
    requires n < Pow10(width)
    ensures Text.DigitsValue(Digits(n, width)) == n
  {
    if width > 0 {
      var s := Digits(n, width);
      assert s[..|s| - 1] == Digits(n / 10, width - 1);
      DigitsValueOfDigits(n / 10, width - 1);
    }
  }

  function Pow10(k: nat): nat {
    if k == 0 then 1 else 10 * Pow10(k - 1)
  }

  /** `datetime.strftime("%Y-%m-%d" + [sep] + "%H:%M:%S")`. */
  function Format(t: DateTime, sep: char): string {
    Digits(t.year, 4) + "-" + Digits(t.month, 2) + "-" + Digits(t.day, 2) + [sep]
      + Digits(t.hour, 2) + ":" + Digits(t.minute, 2) + ":" + Digits(t.second, 2)
  }

  predicate DigitsAt(s: string, lo: nat, hi: nat)
    requires lo <= hi <= |s|
  {
    forall i :: lo <= i < hi ==> Text.IsDigit(s[i])
  }

  /** `datetime.strptime(s, "%Y-%m-%d" + [sep] + "%H:%M:%S")` on its two-digit form:
      `None` where Python raises `ValueError`. */
  function ParseFixed(s: string, sep: char): (r: Option<DateTime>)
    ensures r.Some? ==> ValidDateTime(r.value)
  {
    if |s| != 19 || s[4] != '-' || s[7] != '-' || s[10] != sep || s[13] != ':' || s[16] != ':'
       || !DigitsAt(s, 0, 4) || !DigitsAt(s, 5, 7) || !DigitsAt(s, 8, 10)
       || !DigitsAt(s, 11, 13) || !DigitsAt(s, 14, 16) || !DigitsAt(s, 17, 19)
    then None
    else
      var t := DateTime(Text.DigitsValue(s[0..4]), Text.DigitsValue(s[5..7]), Text.DigitsValue(s[8..10]),
                        Text.DigitsValue(s[11..13]), Text.DigitsValue(s[14..16]), Text.DigitsValue(s[17..19]));
      if ValidDateTime(t) then Some(t) else None
  }

  /** Every valid date-time is read back from its own text. */
  lemma ParseFormat(t: DateTime, sep: char)
    requires ValidDateTime(t) && !Text.IsDigit(sep)
    ensures ParseFixed(Format(t, sep), sep) == Some(t)
  {
    var s := Format(t, sep);
    assert s[0..4] == Digits(t.year, 4);
    assert s[5..7] == Digits(t.month, 2);
    assert s[8..10] == Digits(t.day, 2);
    assert s[11..13] == Digits(t.hour, 2);
    assert s[14..16] == Digits(t.minute, 2);
    assert s[17..19] == Digits(t.second, 2);
    assert Pow10(4) == 10000 && Pow10(2) == 100 by {
      assert Pow10(1) == 10;
      assert Pow10(3) == 1000;
    }
    DigitsValueOfDigits(t.year, 4);
    DigitsValueOfDigits(t.month, 2);
    DigitsValueOfDigits(t.day, 2);
    DigitsValueOfDigits(t.hour, 2);
    DigitsValueOfDigits(t.minute, 2);
    DigitsValueOfDigits(t.second, 2);
  }

  /** Whatever parses is the text of what it parsed to. */
  lemma ParsedIsFormatted(s: string, sep: char)
    requires ParseFixed(s, sep).Some?
    ensures Format(ParseFixed(s, sep).value, sep) == s
  {
    var t := ParseFixed(s, sep).value;
    DigitsRoundTrip(s[0..4]);
    DigitsRoundTrip(s[5..7]);
    DigitsRoundTrip(s[8..10]);
    DigitsRoundTrip(s[11..13]);
    DigitsRoundTrip(s[14..16]);
    DigitsRoundTrip(s[17..19]);
    FixedSplit(s);
    assert [s[4]] == "-" && [s[7]] == "-" && [s[10]] == [sep] && [s[13]] == ":" && [s[16]] == ":";
  }

  /** A 19-character text is its six digit fields and the five delimiters between them. */
  lemma FixedSplit(s: string)
    requires |s| == 19
    ensures s == s[0..4] + [s[4]] + s[5..7] + [s[7]] + s[8..10] + [s[10]]
      + s[11..13] + [s[13]] + s[14..16] + [s[16]] + s[17..19]
  {
  }

  lemma {:induction false} DigitsRoundTrip(s: string)
    requires forall i :: 0 <= i < |s| ==> Text.IsDigit(s[i])
    ensures Text.DigitsValue(s) < Pow10(|s|)
    ensures Digits(Text.DigitsValue(s), |s|) == s
  {
    if s != [] {
      var p := s[..|s| - 1];
      DigitsRoundTrip(p);
      var d := s[|s| - 1] as int - '0' as int;
      var v := Text.DigitsValue(p) * 10 + d;
      assert v / 10 == Text.DigitsValue(p) && v % 10 == d;
      assert Text.DigitChar(d) == s[|s| - 1];
      assert s == p + [s[|s| - 1]];
    }
  }

  /** A date Python's `date` type can hold, and a date-time its `datetime` type can hold. */
  type Day = d: Date | ValidDate(d) witness Date(1970, 1, 1)
  type Moment = t: DateTime | ValidDateTime(t) witness DateTime(1970, 1, 1, 0, 0, 0)

  /** Calendar order of dates and of date-times. */
  predicate DayBefore(a: Date, b: Date) {
    a.year < b.year || (a.year == b.year && (a.month < b.month || (a.month == b.month && a.day < b.day)))
  }

  predicate MomentBefore(a: DateTime, b: DateTime) {
    DayBefore(DateOf(a), DateOf(b))
    || (DateOf(a) == DateOf(b)
        && (a.hour < b.hour || (a.hour == b.hour && (a.minute < b.minute || (a.minute == b.minute && a.second < b.second)))))
  }

  function YearLength(y: nat): nat {
    if IsLeap(y) then 366 else 365
  }

  /** Days from 1970-01-01 to the first of January of year `y` (negative before 1970). */
  function YearStart(y: nat): int
    decreases if y < 1970 then 1970 - y else y - 1970
  {
    if y == 1970 then 0
    else if y > 1970 then YearStart(y - 1) + YearLength(y - 1)
    else YearStart(y + 1) - YearLength(y)
  }

  /** Days of year `y` before the first of month `m`; month 13 stands for the next January. */
  function MonthStart(y: nat, m: nat): nat
    requires 1 <= m <= 13
  {
    if m == 1 then 0 else MonthStart(y, m - 1) + DaysInMonth(y, m - 1)
  }

  /** `d.toordinal()` counted from 1970-01-01 rather than from year 1. */
  function EpochDay(d: Day): int {
    YearStart(d.year) + MonthStart(d.year, d.month) + d.day - 1
  }

  /** `datetime.timestamp()` of a naive date-time read as UTC. */
  function Timestamp(t: Moment): int {
    EpochDay(DateOf(t)) * 86400 + t.hour * 3600 + t.minute * 60 + t.second
  }

  lemma {:induction false} MonthStartGrows(y: nat, m: nat, n: nat)
    requires 1 <= m <= n <= 13
    ensures MonthStart(y, m) + (n - m) <= MonthStart(y, n)
    ensures m < n ==> MonthStart(y, m) + DaysInMonth(y, m) <= MonthStart(y, n)
    decreases n - m
  {
    if m < n {
      MonthStartGrows(y, m + 1, n);
    }
  }

  lemma {:induction false} YearHasMonths(y: nat)
    ensures MonthStart(y, 13) == YearLength(y)
  {
    assert MonthStart(y, 2) == 31;
    assert MonthStart(y, 3) == 31 + DaysInMonth(y, 2);
    assert MonthStart(y, 4) == MonthStart(y, 3) + 31;
    assert MonthStart(y, 5) == MonthStart(y, 4) + 30;
    assert MonthStart(y, 6) == MonthStart(y, 5) + 31;
    assert MonthStart(y, 7) == MonthStart(y, 6) + 30;
    assert MonthStart(y, 8) == MonthStart(y, 7) + 31;
    assert MonthStart(y, 9) == MonthStart(y, 8) + 31;
    assert MonthStart(y, 10) == MonthStart(y, 9) + 30;
    assert MonthStart(y, 11) == MonthStart(y, 10) + 31;
    assert MonthStart(y, 12) == MonthStart(y, 11) + 30;
  }

  lemma {:induction false} YearStartGrows(x: nat, y: nat)
    requires x < y
    ensures YearStart(x) + YearLength(x) <= YearStart(y)
    decreases y - x
  {
    if x + 1 < y {
      YearStartGrows(x + 1, y);
    }
    if x >= 1970 {
      assert YearStart(x + 1) == YearStart(x) + YearLength(x);
    } else {
      assert YearStart(x) == YearStart(x + 1) - YearLength(x);
    }
  }

  /** Later dates have larger day numbers, as `toordinal()` promises. */
  lemma EpochDayMonotone(a: Day, b: Day)
    requires DayBefore(a, b)
    ensures EpochDay(a) < EpochDay(b)
  {
    if a.year == b.year {
      if a.month < b.month {
        MonthStartGrows(a.year, a.month, b.month);
      }
    } else {
      MonthStartGrows(a.year, a.month, 13);
      YearHasMonths(a.year);
      YearStartGrows(a.year, b.year);
    }
  }

  /** Later date-times have larger timestamps. */
  lemma TimestampMonotone(a: Moment, b: Moment)
    requires MomentBefore(a, b)
    ensures Timestamp(a) < Timestamp(b)
  {
    if DayBefore(DateOf(a), DateOf(b)) {
      EpochDayMonotone(DateOf(a), DateOf(b));
    }
  }

  /** Every date-time after 1970-01-01 00:00:00 has a positive timestamp. */
  lemma TimestampPositive(t: Moment)
    requires MomentBefore(DateTime(1970, 1, 1, 0, 0, 0), t)
    ensures Timestamp(t) > 0
  {
    TimestampMonotone(DateTime(1970, 1, 1, 0, 0, 0), t);
  }

  /** `datetime.combine(d, time.min)`. */
  function Midnight(d: Day): (t: Moment)
    ensures DateOf(t) == d && Timestamp(t) == EpochDay(d) * 86400
  {
    DateTime(d.year, d.month, d.day, 0, 0, 0)
  }

  /** `date.strftime("%Y-%m-%d")`. */
  function FormatDay(d: Date): string {
    Digits(d.year, 4) + "-" + Digits(d.month, 2) + "-" + Digits(d.day, 2)
  }

  /** `datetime.strptime(s[:10], "%Y-%m-%d").date()` on its zero-padded form:
      `None` where Python raises `ValueError`. What parses is the text of the
      date it parsed to, followed by anything. */
  function ParseDay(s: string): (r: Option<Day>)
    ensures r.Some? ==> |s| >= 10 && FormatDay(r.value) == s[..10]
  {
    if |s| < 10 then None
    else
      var p := s[..10];
      if p[4] != '-' || p[7] != '-' || !DigitsAt(p, 0, 4) || !DigitsAt(p, 5, 7) || !DigitsAt(p, 8, 10) then None
      else
        var d := Date(Text.DigitsValue(p[0..4]), Text.DigitsValue(p[5..7]), Text.DigitsValue(p[8..10]));
        if ValidDate(d) then
          DayText(p);
          var day: Day := d; Some(day)
        else None
  }

  /** The digit fields of a zero-padded day's text read back as that text. */
  lemma DayText(p: string)
    requires |p| == 10 && p[4] == '-' && p[7] == '-' && DigitsAt(p, 0, 4) && DigitsAt(p, 5, 7) && DigitsAt(p, 8, 10)
    ensures FormatDay(Date(Text.DigitsValue(p[0..4]), Text.DigitsValue(p[5..7]), Text.DigitsValue(p[8..10]))) == p
  {
    DigitsRoundTrip(p[0..4]);
    DigitsRoundTrip(p[5..7]);
    DigitsRoundTrip(p[8..10]);
    assert p == p[0..4] + [p[4]] + p[5..7] + [p[7]] + p[8..10];
  }

  /** Every date is read back from its own text, whatever follows it. */
  lemma ParseFormatDay(d: Day, rest: string)
    ensures ParseDay(FormatDay(d) + rest) == Some(d)
  {
    var p := (FormatDay(d) + rest)[..10];
    assert p == FormatDay(d);
    assert p[0..4] == Digits(d.year, 4);
    assert p[5..7] == Digits(d.month, 2);
    assert p[8..10] == Digits(d.day, 2);
    assert p[4] == '-' && p[7] == '-';
    assert DigitsAt(p, 0, 4) && DigitsAt(p, 5, 7) && DigitsAt(p, 8, 10);
    assert Pow10(4) == 10000 && Pow10(2) == 100 by {
      assert Pow10(1) == 10;
      assert Pow10(3) == 1000;
    }
    DigitsValueOfDigits(d.year, 4);
    DigitsValueOfDigits(d.month, 2);
    DigitsValueOfDigits(d.day, 2);
  }
}
