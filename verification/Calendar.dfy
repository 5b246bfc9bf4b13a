/** The proleptic Gregorian calendar that Go's time package uses. */
module Calendar {
  predicate Leap(year: int) {
    year % 4 == 0 && (year % 100 != 0 || year % 400 == 0)
  }

  function DaysIn(year: int, month: int): (n: int)
    requires 1 <= month <= 12
    ensures 28 <= n <= 31
  {
    if month == 2 then (if Leap(year) then 29 else 28)
    else if month in {4, 6, 9, 11} then 30
    else 31
  }

  /** The Gregorian months: thirty days hath September, and February follows the rule of four centuries. */
  lemma MonthLengths(year: int)
    ensures forall m :: 1 <= m <= 12 ==> (DaysIn(year, m) == 30 <==> m == 4 || m == 6 || m == 9 || m == 11)
    ensures forall m :: 1 <= m <= 12 ==> (DaysIn(year, m) < 30 <==> m == 2)
    ensures DaysIn(year, 2) == 29 <==>
            exists k :: year == 4 * k && (year % 100 == 0 ==> year % 400 == 0)
    ensures DaysIn(year, 2) in {28, 29}
  {
    assert year % 4 == 0 ==> year == 4 * (year / 4);
  }

  datatype Date = Date(year: int, month: int, day: int)

  predicate Real(d: Date) {
    1 <= d.month <= 12 && 1 <= d.day <= DaysIn(d.year, d.month)
  }

  predicate Before(a: Date, b: Date) {
    || a.year < b.year
    || (a.year == b.year && a.month < b.month)
    || (a.year == b.year && a.month == b.month && a.day < b.day)
  }

  function NextDay(d: Date): Date
    requires Real(d)
  {
    if d.day < DaysIn(d.year, d.month) then d.(day := d.day + 1)
    else if d.month < 12 then Date(d.year, d.month + 1, 1)
    else Date(d.year + 1, 1, 1)
  }

  /** time.Date: days outside the month roll over into the months around it. */
  function Normalize(year: int, month: int, day: int): (d: Date)
    requires 1 <= month <= 12
    ensures Real(d)
    decreases if day < 1 then 1 else 0, if day < 1 then -day else day
  {
    if day < 1 then
      if month == 1 then Normalize(year - 1, 12, day + DaysIn(year - 1, 12))
      else Normalize(year, month - 1, day + DaysIn(year, month - 1))
    else if day > DaysIn(year, month) then
      if month == 12 then Normalize(year + 1, 1, day - DaysIn(year, month))
      else Normalize(year, month + 1, day - DaysIn(year, month))
    else Date(year, month, day)
  }

  function DaysBeforeMonth(year: int, month: int): int
    requires 1 <= month <= 13
  {
    if month == 1 then 0 else DaysBeforeMonth(year, month - 1) + DaysIn(year, month - 1)
  }

  /** The leap years from year 1 on, up to and including the given one. */
  function LeapYears(year: int): int {
    year / 4 - year / 100 + year / 400
  }

  function DaysBeforeYear(year: int): int {
    365 * (year - 1) + LeapYears(year - 1)
  }

  /** The number of a day, counted from the day before 1 January of year 1. */
  function DayNumber(d: Date): int
    requires 1 <= d.month <= 12
  {
    DaysBeforeYear(d.year) + DaysBeforeMonth(d.year, d.month) + d.day
  }

  lemma MonthsTotal(year: int)
    ensures DaysBeforeMonth(year, 13) == if Leap(year) then 366 else 365
  {
    var feb := DaysIn(year, 2);
    assert DaysBeforeMonth(year, 2) == 31;
    assert DaysBeforeMonth(year, 4) == 62 + feb;
    assert DaysBeforeMonth(year, 6) == 123 + feb;
    assert DaysBeforeMonth(year, 8) == 184 + feb;
    assert DaysBeforeMonth(year, 10) == 245 + feb;
    assert DaysBeforeMonth(year, 12) == 306 + feb;
  }

  lemma OneMoreLeapYear(year: int)
    ensures LeapYears(year) == LeapYears(year - 1) + if Leap(year) then 1 else 0
  {
    DivideByStep(year, 4);
    DivideByStep(year, 100);
    DivideByStep(year, 400);
  }

  lemma DivideByStep(year: int, n: int)
    requires n in {4, 100, 400}
    ensures year / n == (year - 1) / n + if year % n == 0 then 1 else 0
  {
  }

  lemma YearLength(year: int)
    ensures DaysBeforeYear(year + 1) == DaysBeforeYear(year) + DaysBeforeMonth(year, 13)
  {
    MonthsTotal(year);
    OneMoreLeapYear(year);
  }

  function NextMonth(d: Date): Date
    requires 1 <= d.month <= 12
  {
    if d.month == 12 then Date(d.year + 1, 1, d.day) else Date(d.year, d.month + 1, d.day)
  }

  lemma NextMonthCounts(d: Date)
    requires 1 <= d.month <= 12
    ensures DayNumber(NextMonth(d)) == DayNumber(d) + DaysIn(d.year, d.month)
  {
    YearLength(d.year);
  }

  /** Taking whole months out of the day and putting them into the month. */
  lemma Rolled(d: Date, day: int)
    requires 1 <= d.month <= 12 && day == d.day + DaysIn(d.year, d.month)
    ensures DayNumber(NextMonth(d)) == DayNumber(d.(day := day))
  {
    NextMonthCounts(d);
  }

  /** Rolling over preserves the position on the time line. */
  lemma {:induction false} NormalizeKeepsDay(year: int, month: int, day: int)
    requires 1 <= month <= 12
    ensures DayNumber(Normalize(year, month, day)) == DayNumber(Date(year, month, day))
    decreases if day < 1 then 1 else 0, if day < 1 then -day else day
  {
    if day < 1 {
      var before := if month == 1 then Date(year - 1, 12, day) else Date(year, month - 1, day);
      var rolled := day + DaysIn(before.year, before.month);
      Rolled(before, rolled);
      assert Date(year, month, day) == NextMonth(before);
      assert Normalize(year, month, day) == Normalize(before.year, before.month, rolled);
      NormalizeKeepsDay(before.year, before.month, rolled);
    } else if day > DaysIn(year, month) {
      var rest := Date(year, month, day - DaysIn(year, month));
      var next := NextMonth(rest);
      Rolled(rest, day);
      assert Normalize(year, month, day) == Normalize(next.year, next.month, next.day);
      NormalizeKeepsDay(next.year, next.month, next.day);
    }
  }

  lemma NextDayCounts(d: Date)
    requires Real(d)
    ensures Real(NextDay(d)) && DayNumber(NextDay(d)) == DayNumber(d) + 1
  {
    YearLength(d.year);
  }

  lemma {:induction false} MonthsGrow(year: int, month: int, later: int)
    requires 1 <= month < later <= 13
    ensures DaysBeforeMonth(year, month) + DaysIn(year, month) <= DaysBeforeMonth(year, later)
    decreases later
  {
    if later > month + 1 {
      MonthsGrow(year, month, later - 1);
    }
  }

  lemma {:induction false} YearsGrow(year: int, later: int)
    requires year < later
    ensures DaysBeforeYear(year) + DaysBeforeMonth(year, 13) <= DaysBeforeYear(later)
    decreases later - year
  {
    YearLength(year);
    YearLength(later - 1);
    if later > year + 1 {
      YearsGrow(year, later - 1);
    }
  }

  /** The calendar order is the order of the day numbers. */
  lemma BeforeCounts(a: Date, b: Date)
    requires Real(a) && Real(b) && Before(a, b)
    ensures DayNumber(a) < DayNumber(b)
  {
    if a.year < b.year {
      YearsGrow(a.year, b.year);
      MonthsGrow(a.year, a.month, 13);
      if b.month > 1 {
        MonthsGrow(b.year, 1, b.month);
      }
    } else if a.month < b.month {
      MonthsGrow(a.year, a.month, b.month);
    }
  }

  lemma SameDay(a: Date, b: Date)
    requires Real(a) && Real(b)
    ensures Before(a, b) <==> DayNumber(a) < DayNumber(b)
    ensures a == b <==> DayNumber(a) == DayNumber(b)
  {
    if Before(a, b) {
      BeforeCounts(a, b);
    } else if Before(b, a) {
      BeforeCounts(b, a);
    }
  }

  predicate Digits(s: string) {
    forall i :: 0 <= i < |s| ==> '0' <= s[i] <= '9'
  }

  function ToNat(s: string): nat
    requires Digits(s)
  {
    if s == "" then 0
    else
      10 * ToNat(s[..|s| - 1]) + (s[|s| - 1] as int - '0' as int)
  }

  /** n with leading zeros. */
  function Padded(n: nat, width: nat): string {
    if width == 0 then "" else Padded(n / 10, width - 1) + [('0' as int + n % 10) as char]
  }

  function Power10(k: nat): nat {
    if k == 0 then 1 else 10 * Power10(k - 1)
  }

  lemma {:induction false} PaddedReads(n: nat, width: nat)
    requires n < Power10(width)
    ensures |Padded(n, width)| == width && Digits(Padded(n, width)) && ToNat(Padded(n, width)) == n
  {
    if width > 0 {
      PaddedReads(n / 10, width - 1);
      var s := Padded(n, width);
      assert s[..|s| - 1] == Padded(n / 10, width - 1);
    }
  }

  lemma {:induction false} ReadPads(s: string)
    requires Digits(s)
    ensures ToNat(s) < Power10(|s|) && Padded(ToNat(s), |s|) == s
  {
    if s != "" {
      ReadPads(s[..|s| - 1]);
      var last := s[|s| - 1] as int - '0' as int;
      assert ToNat(s) / 10 == ToNat(s[..|s| - 1]) && ToNat(s) % 10 == last;
      assert s == s[..|s| - 1] + [s[|s| - 1]];
    }
  }

  function Written(d: Date): string
    requires Real(d) && d.year >= 0
  {
    Padded(d.year, 4) + "-" + Padded(d.month, 2) + "-" + Padded(d.day, 2)
  }

  lemma WrittenParts(d: Date)
    requires Real(d) && d.year >= 0
    ensures var s, y, m, n := Written(d), Padded(d.year, 4), Padded(d.month, 2), Padded(d.day, 2);
      |s| == 10 && s[..4] == y && s[4] == '-' && s[5..7] == m && s[7] == '-' && s[8..] == n
  {
    PaddedLength(d.year, 4);
    PaddedLength(d.month, 2);
    PaddedLength(d.day, 2);
  }

  lemma {:induction false} PaddedLength(n: nat, width: nat)
    ensures |Padded(n, width)| == width
  {
    if width > 0 {
      PaddedLength(n / 10, width - 1);
    }
  }

  lemma WrittenIsIso(d: Date)
    requires Real(d) && 0 <= d.year <= 9999
    ensures IsIsoDate(Written(d))
  {
    assert Power10(2) == 100 && Power10(4) == 10000;
    WrittenParts(d);
    PaddedReads(d.year, 4);
    PaddedReads(d.month, 2);
    PaddedReads(d.day, 2);
  }

  lemma IsoIsWritten(s: string) returns (d: Date)
    requires IsIsoDate(s)
    ensures Real(d) && 0 <= d.year <= 9999 && s == Written(d)
  {
    assert Power10(4) == 10000;
    d := Date(ToNat(s[..4]), ToNat(s[5..7]), ToNat(s[8..]));
    ReadPads(s[..4]);
    ReadPads(s[5..7]);
    ReadPads(s[8..]);
    assert s == s[..4] + "-" + s[5..7] + "-" + s[8..];
  }

  /** The texts that pass are exactly the real dates of the years 0 to 9999 as they are written. */
  lemma IsoDateMeans(s: string)
    ensures IsIsoDate(s) <==> exists d :: Real(d) && 0 <= d.year <= 9999 && s == Written(d)
  {
    if IsIsoDate(s) {
      var d := IsoIsWritten(s);
    }
    forall d | Real(d) && 0 <= d.year <= 9999 && s == Written(d) ensures IsIsoDate(s) {
      WrittenIsIso(d);
    }
  }

  /** time.Parse with layout "2006-01-02" succeeds. */
  predicate IsIsoDate(s: string) {
    && |s| == 10
    && s[4] == '-' && s[7] == '-'
    && Digits(s[..4]) && Digits(s[5..7]) && Digits(s[8..])
    && Real(Date(ToNat(s[..4]), ToNat(s[5..7]), ToNat(s[8..])))
  }
}
