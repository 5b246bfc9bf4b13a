/** The fiscal years of the tax pack: each starts on a configured month and day, clamped to the month. */
module FiscalYear {
  import opened Calendar
  import opened Wrappers

  /** The configured start of an entity's fiscal year; any integers may be stored. */
  datatype Config = Config(month: int, day: int)

  /** No entity, an unreadable one or an out-of-range field means January and the 1st. */
  function StartMonth(entity: Option<Config>): int {
    if entity.Some? && 1 <= entity.value.month <= 12 then entity.value.month else 1
  }

  function StartDay(entity: Option<Config>): int {
    if entity.Some? && 1 <= entity.value.day <= 31 then entity.value.day else 1
  }

  function Min(a: int, b: int): int {
    if a < b then a else b
  }

  /** The wanted day, or the last day of a shorter month. */
  function Start(entity: Option<Config>, year: int): Date {
    Date(year, StartMonth(entity), Min(StartDay(entity), DaysIn(year, StartMonth(entity))))
  }

  /** AddDate(1, 0, -1) on the start. */
  function End(entity: Option<Config>, year: int): Date {
    var start := Start(entity, year);
    Normalize(start.year + 1, start.month, start.day - 1)
  }

  /** time.Date keeps the month and the day exactly when the date exists. */
  lemma KeptMeansReal(year: int, month: int, day: int)
    requires 1 <= month <= 12 && 1 <= day <= 31
    ensures var d := Normalize(year, month, day);
      d.month == month && d.day == day <==> day <= DaysIn(year, month)
  {
    if day > DaysIn(year, month) {
      assert day - DaysIn(year, month) <= 3;
    }
  }

  /** The clamping loop ends at the latest day of the month that is not after the wanted one. */
  method ValidFiscalYearStart(year: int, month: int, wanted: int) returns (start: Date)
    requires 1 <= month <= 12 && 1 <= wanted <= 31
    ensures start == Date(year, month, Min(wanted, DaysIn(year, month))) && Real(start)
  {
    var day := wanted;
    while day > 28
      invariant 1 <= day <= wanted && Min(wanted, DaysIn(year, month)) <= day
    {
      KeptMeansReal(year, month, day);
      start := Normalize(year, month, day);
      if start.month == month && start.day == day {
        return;
      }
      day := day - 1;
    }
    start := Normalize(year, month, day);
  }

  method FiscalYearRange(entity: Option<Config>, year: int) returns (start: Date, end: Date)
    ensures start == Start(entity, year) && end == End(entity, year)
  {
    var month, day := 1, 1;
    if entity.Some? {
      if 1 <= entity.value.month <= 12 {
        month := entity.value.month;
      }
      if 1 <= entity.value.day <= 31 {
        day := entity.value.day;
      }
    }
    start := ValidFiscalYearStart(year, month, day);
    end := Normalize(start.year + 1, start.month, start.day - 1);
  }

  /** The start is clamped to a February day that not every year has. */
  predicate LateFebruary(entity: Option<Config>) {
    StartMonth(entity) == 2 && StartDay(entity) >= 29
  }

  /** How far the fiscal year's last day is from the day before the next start. */
  function Slip(entity: Option<Config>, year: int): int {
    if !LateFebruary(entity) then 0
    else (if Leap(year + 1) then 1 else 0) - (if Leap(year) then 1 else 0)
  }

  /** The clamped day depends on the year only for a late February start. */
  lemma ClampedDay(entity: Option<Config>, year: int)
    ensures Start(entity, year + 1).day == Start(entity, year).day + Slip(entity, year)
  {
  }

  lemma EndCounts(entity: Option<Config>, year: int)
    ensures DayNumber(End(entity, year)) + 1 + Slip(entity, year) == DayNumber(Start(entity, year + 1))
  {
    var start := Start(entity, year);
    NormalizeKeepsDay(start.year + 1, start.month, start.day - 1);
    ClampedDay(entity, year);
  }

  /** The last day of a fiscal year is the day before the next one starts, except exactly when the start is
      29 February or later and exactly one of the two years is leap. */
  lemma EndMeetsNextStart(entity: Option<Config>, year: int)
    ensures NextDay(End(entity, year)) == Start(entity, year + 1)
            <==> !(LateFebruary(entity) && Leap(year) != Leap(year + 1))
  {
    EndCounts(entity, year);
    NextDayCounts(End(entity, year));
    SameDay(NextDay(End(entity, year)), Start(entity, year + 1));
  }

  /** The range is inclusive at both ends. */
  predicate In(entity: Option<Config>, year: int, d: Date) {
    !Before(d, Start(entity, year)) && !Before(End(entity, year), d)
  }

  /** The only days that the fiscal years miss or share: 28 February of a leap year falls between two fiscal
      years, and that of the year after a leap year lies in both. */
  predicate Missed(entity: Option<Config>, d: Date) {
    LateFebruary(entity) && d.month == 2 && d.day == 28 && Leap(d.year)
  }

  predicate Shared(entity: Option<Config>, d: Date) {
    LateFebruary(entity) && d.month == 2 && d.day == 28 && Leap(d.year - 1)
  }

  /** A date belongs to the fiscal year that starts in its own year unless it comes before that start. */
  lemma OwnYear(entity: Option<Config>, d: Date)
    requires Real(d)
    ensures In(entity, d.year, d) <==> !Before(d, Start(entity, d.year))
  {
    EndCounts(entity, d.year);
    SameDay(End(entity, d.year), d);
    SameDay(d, Start(entity, d.year + 1));
    if LateFebruary(entity) {
      BeforeCounts(d, Date(d.year + 1, 2, 1));
    }
  }

  lemma MissedOrShared(entity: Option<Config>, d: Date)
    requires Real(d)
    ensures Missed(entity, d) <==>
            Slip(entity, d.year - 1) == 1 && DayNumber(d) == DayNumber(Start(entity, d.year)) - 1
    ensures Shared(entity, d) <==> Slip(entity, d.year - 1) == -1 && d == Start(entity, d.year)
  {
    if LateFebruary(entity) {
      SameDay(d, Date(d.year, 2, 28));
    }
  }

  /** It belongs to the one before if it comes before that start, but for the missed and shared days. */
  lemma YearBefore(entity: Option<Config>, d: Date)
    requires Real(d)
    ensures In(entity, d.year - 1, d) <==>
            Shared(entity, d) || (Before(d, Start(entity, d.year)) && !Missed(entity, d))
  {
    EndCounts(entity, d.year - 1);
    SameDay(End(entity, d.year - 1), d);
    SameDay(d, Start(entity, d.year));
    MissedOrShared(entity, d);
  }

  lemma OnlyTwoYears(entity: Option<Config>, year: int, d: Date)
    requires Real(d) && In(entity, year, d)
    ensures year == d.year || year == d.year - 1
  {
    var next, later := Start(entity, year + 1), Date(year + 2, 1, 1);
    EndCounts(entity, year);
    SameDay(End(entity, year), d);
    if d.year > year + 1 {
      SameDay(later, d);
      BeforeCounts(next, later);
    }
  }

  ghost predicate InExactlyOneYear(entity: Option<Config>, d: Date) {
    exists year :: In(entity, year, d) && forall other :: In(entity, other, d) ==> other == year
  }

  /** In which fiscal years a date lies. */
  lemma YearsOf(entity: Option<Config>, d: Date)
    requires Real(d)
    ensures Missed(entity, d) ==> !In(entity, d.year, d) && !In(entity, d.year - 1, d)
    ensures Shared(entity, d) ==> In(entity, d.year, d) && In(entity, d.year - 1, d)
    ensures !Missed(entity, d) && !Shared(entity, d) ==> (In(entity, d.year, d) <==> !In(entity, d.year - 1, d))
  {
    OwnYear(entity, d);
    YearBefore(entity, d);
    MissedOrShared(entity, d);
    SameDay(d, Start(entity, d.year));
  }

  /** The fiscal years tile the calendar: every real date is in exactly one of them, except exactly the
      missed and the shared days. */
  lemma FiscalYearsTile(entity: Option<Config>, d: Date)
    requires Real(d)
    ensures InExactlyOneYear(entity, d) <==> !Missed(entity, d) && !Shared(entity, d)
    ensures Missed(entity, d) ==> forall year :: !In(entity, year, d)
    ensures Shared(entity, d) ==> In(entity, d.year, d) && In(entity, d.year - 1, d)
  {
    YearsOf(entity, d);
    forall year | In(entity, year, d) ensures year == d.year || year == d.year - 1 {
      OnlyTwoYears(entity, year, d);
    }
  }
}
