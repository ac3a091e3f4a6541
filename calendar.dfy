/** Instants, calendar dates and date periods, as far as the diary core uses
    them. An instant is a number of milliseconds since 1970-01-01T00:00Z;
    its calendar date is taken in UTC. Dates follow the proleptic Gregorian
    calendar, and the period between two dates is computed the way
    `LocalDate.minus(LocalDate)` does: whole months first (with the day of
    the month clamped to the target month), then the remaining days. */
module Calendar {

  const MillisPerDay: int := 86_400_000

  /** A calendar date (kotlinx `LocalDate`). */
  datatype LocalDate = LocalDate(year: int, month: int, day: int)

  /** The result of subtracting two dates (kotlinx `DatePeriod`). */
  datatype DatePeriod = DatePeriod(totalMonths: int, days: int)

  predicate IsLeapYear(year: int) {
    year % 4 == 0 && (year % 100 != 0 || year % 400 == 0)
  }

  function MonthLength(year: int, month: int): (n: int)
    ensures 28 <= n <= 31
  {
    if month == 2 then (if IsLeapYear(year) then 29 else 28)
    else if month == 4 || month == 6 || month == 9 || month == 11 then 30
    else 31
  }

  /** A date that exists in the calendar. */
  predicate ValidDate(d: LocalDate) {
    1 <= d.month <= 12 && 1 <= d.day <= MonthLength(d.year, d.month)
  }

  /** Lexicographic order of dates, as `LocalDate.compareTo`. */
  predicate DateLe(a: LocalDate, b: LocalDate) {
    a.year < b.year
    || (a.year == b.year && a.month < b.month)
    || (a.year == b.year && a.month == b.month && a.day <= b.day)
  }

  /** Division truncating toward zero, as Kotlin's and Java's `/`. */
  function TruncDiv(x: int, d: int): (q: int)
    requires d > 0
    ensures x >= 0 ==> q == x / d
    ensures x < 0 ==> q == -((-x) / d)
  {
    if x >= 0 then x / d else -((-x) / d)
  }

  /** The number of days since 1970-01-01 of the UTC date of an instant. */
  function EpochDay(instant: int): (day: int)
    ensures day * MillisPerDay <= instant < (day + 1) * MillisPerDay
  {
    instant / MillisPerDay
  }

  /** The date with the given day number since 1970-01-01. */
  function CivilFromDays(days: int): LocalDate {
    var z := days + 719468;
    var era := z / 146097;
    var doe := z - era * 146097;
    var yoe := (doe - doe / 1460 + doe / 36524 - doe / 146096) / 365;
    var doy := doe - (365 * yoe + yoe / 4 - yoe / 100);
    var mp := (5 * doy + 2) / 153;
    var d := doy - (153 * mp + 2) / 5 + 1;
    var m := if mp < 10 then mp + 3 else mp - 9;
    var y := yoe + era * 400 + (if m <= 2 then 1 else 0);
    LocalDate(y, m, d)
  }

  /** The year of the algorithm below, which starts on 1 March: January and
      February count with the year before. */
  function MarchYear(date: LocalDate): int {
    date.year - (if date.month <= 2 then 1 else 0)
  }

  /** The position of a date within its March-based year, 1 March being 0. */
  function DayOfMarchYear(date: LocalDate): int {
    var mp := if date.month > 2 then date.month - 3 else date.month + 9;
    (153 * mp + 2) / 5 + date.day - 1
  }

  /** The day number of 1 March of year `y`, shifted by 719 468 days. */
  function MarchStart(y: int): int {
    var era := y / 400;
    var yoe := y - era * 400;
    era * 146097 + yoe * 365 + yoe / 4 - yoe / 100
  }

  /** The day number since 1970-01-01 of a date (`LocalDate.toEpochDays`). */
  function DaysFromCivil(date: LocalDate): int {
    MarchStart(MarchYear(date)) + DayOfMarchYear(date) - 719468
  }

  /** `Instant.toDate()`: the calendar date of an instant, in UTC. */
  function ToDate(instant: int): (date: LocalDate) {
    CivilFromDays(EpochDay(instant))
  }

  function ProlepticMonth(d: LocalDate): int {
    d.year * 12 + d.month - 1
  }

  /** `LocalDate.plusMonths`: the day of the month is clamped to the length
      of the month reached. */
  function PlusMonths(d: LocalDate, months: int): (r: LocalDate)
    ensures 1 <= r.month <= 12
    ensures r.day <= d.day && r.day <= MonthLength(r.year, r.month)
  {
    var pm := ProlepticMonth(d) + months;
    var year := pm / 12;
    var month := pm % 12 + 1;
    LocalDate(year, month, if d.day <= MonthLength(year, month) then d.day else MonthLength(year, month))
  }

  /** Whole months from `a` to `b`, truncated toward zero. */
  function MonthsUntil(a: LocalDate, b: LocalDate): (months: int) {
    TruncDiv((ProlepticMonth(b) * 32 + b.day) - (ProlepticMonth(a) * 32 + a.day), 32)
  }

  /** `a.periodUntil(b)`, which is also `b - a`. */
  function PeriodUntil(a: LocalDate, b: LocalDate): (p: DatePeriod)
    ensures ValidDate(a) && ValidDate(b) && DateLe(a, b) ==> p.totalMonths >= 0
    ensures ValidDate(a) && ValidDate(b) && DateLe(b, a) ==> p.totalMonths <= 0
  {
    var months := MonthsUntil(a, b);
    DatePeriod(months, DaysFromCivil(b) - DaysFromCivil(PlusMonths(a, months)))
  }

  /** A date minus itself is the empty period. */
  lemma SamePeriodIsZero(a: LocalDate)
    requires ValidDate(a)
    ensures PeriodUntil(a, a) == DatePeriod(0, 0)
  {
    var pm := ProlepticMonth(a);
    assert MonthsUntil(a, a) == 0;
    assert pm / 12 == a.year && pm % 12 + 1 == a.month by {
      assert pm == a.year * 12 + (a.month - 1) && 0 <= a.month - 1 < 12;
    }
    assert PlusMonths(a, 0) == a;
  }

  /** The calendar day after a date: the next day of the month, the first
      of the next month, or New Year's Day. */
  function NextDay(d: LocalDate): (r: LocalDate)
    ensures ValidDate(d) ==> ValidDate(r) && DateLe(d, r) && r != d
  {
    if d.day < MonthLength(d.year, d.month) then d.(day := d.day + 1)
    else if d.month < 12 then LocalDate(d.year, d.month + 1, 1)
    else LocalDate(d.year + 1, 1, 1)
  }

  /** Within one 400-year era, a year adds 365 days, and one more when the
      following year of the era is a leap year. */
  lemma YearOfEraLength(yoe: int)
    requires 0 <= yoe < 399
    ensures (yoe + 1) * 365 + (yoe + 1) / 4 - (yoe + 1) / 100 - (yoe * 365 + yoe / 4 - yoe / 100)
         == if (yoe + 1) % 4 == 0 && (yoe + 1) % 100 != 0 then 366 else 365
  {
  }

  /** Adding a multiple of 4, 100 or 400 keeps the remainder modulo it. */
  lemma RemainderOfShift4(a: int, t: int)
    ensures (4 * a + t) % 4 == t % 4
  {
    assert 4 * a + t == 4 * (a + t / 4) + t % 4;
  }

  lemma RemainderOfShift100(a: int, t: int)
    ensures (100 * a + t) % 100 == t % 100
  {
    assert 100 * a + t == 100 * (a + t / 100) + t % 100;
  }

  lemma RemainderOfShift400(a: int, t: int)
    ensures (400 * a + t) % 400 == t % 400
  {
    assert 400 * a + t == 400 * (a + t / 400) + t % 400;
  }

  /** Leap years repeat every 400 years. */
  lemma LeapYearPeriodic(era: int, yoe: int)
    ensures IsLeapYear(era * 400 + yoe) == IsLeapYear(yoe)
  {
    RemainderOfShift4(era * 100, yoe);
    RemainderOfShift100(era * 4, yoe);
    RemainderOfShift400(era, yoe);
  }

  /** The year from March of `y` to February of `y + 1` has 365 days, and
      one more when `y + 1` is a leap year. */
  lemma MarchYearLength(y: int)
    ensures MarchStart(y + 1) - MarchStart(y) == if IsLeapYear(y + 1) then 366 else 365
  {
    var era := y / 400;
    var yoe := y - era * 400;
    assert 0 <= yoe < 400;
    if yoe < 399 {
      assert (y + 1) / 400 == era;
      YearOfEraLength(yoe);
      LeapYearPeriodic(era, yoe + 1);
      assert y + 1 == era * 400 + (yoe + 1);
    } else {
      assert (y + 1) / 400 == era + 1;
      LeapYearPeriodic(era + 1, 0);
      assert y + 1 == (era + 1) * 400 + 0;
    }
  }

  /** At the end of any month but February, the next day keeps the
      March-based year and is one position further in it. */
  lemma MonthEndNextDay(d: LocalDate)
    requires ValidDate(d) && d.day == MonthLength(d.year, d.month) && d.month != 2
    ensures MarchYear(NextDay(d)) == MarchYear(d)
    ensures DayOfMarchYear(NextDay(d)) == DayOfMarchYear(d) + 1
  {
  }

  /** The next calendar day is the next day number. */
  lemma DaysFromCivilNextDay(d: LocalDate)
    requires ValidDate(d)
    ensures DaysFromCivil(NextDay(d)) == DaysFromCivil(d) + 1
  {
    if d.day < MonthLength(d.year, d.month) {
      assert MarchYear(NextDay(d)) == MarchYear(d);
    } else if d.month != 2 {
      MonthEndNextDay(d);
    } else {
      MarchYearLength(d.year - 1);
      assert DayOfMarchYear(d) == 336 + d.day;
      assert NextDay(d) == LocalDate(d.year, 3, 1);
      assert DayOfMarchYear(NextDay(d)) == 0;
    }
  }

  /** A valid date and the next calendar day are zero months and one day
      apart, at the end of a month or a year too. */
  lemma NextDayPeriod(a: LocalDate)
    requires ValidDate(a)
    ensures PeriodUntil(a, NextDay(a)) == DatePeriod(0, 1)
  {
    var b := NextDay(a);
    var pm := ProlepticMonth(a);
    assert ProlepticMonth(b) == pm || ProlepticMonth(b) == pm + 1;
    assert MonthsUntil(a, b) == 0;
    assert pm / 12 == a.year && pm % 12 + 1 == a.month by {
      assert pm == a.year * 12 + (a.month - 1) && 0 <= a.month - 1 < 12;
    }
    assert PlusMonths(a, 0) == a;
    DaysFromCivilNextDay(a);
  }

  /** 31 January and 1 March are one month and one day apart, although 29
      days separate them: the month is counted first, from 31 January to the
      clamped 28 February. */
  lemma MonthAndDayPeriod()
    ensures PeriodUntil(LocalDate(2023, 1, 31), LocalDate(2023, 3, 1)) == DatePeriod(1, 1)
    ensures DaysFromCivil(LocalDate(2023, 3, 1)) - DaysFromCivil(LocalDate(2023, 1, 31)) == 29
  {
    assert MonthsUntil(LocalDate(2023, 1, 31), LocalDate(2023, 3, 1)) == 1;
    assert PlusMonths(LocalDate(2023, 1, 31), 1) == LocalDate(2023, 2, 28);
    assert MarchStart(2022) == 738520 by {
      assert 2022 / 400 == 5;
    }
    assert MarchStart(2023) == 738885 by {
      assert 2023 / 400 == 5;
    }
    assert DaysFromCivil(LocalDate(2023, 2, 28)) == 19416;
    assert DaysFromCivil(LocalDate(2023, 3, 1)) == 19417;
    assert DaysFromCivil(LocalDate(2023, 1, 31)) == 19388;
  }

  /** Day 19388 after 1970-01-01 is 31 January 2023. */
  lemma CivilDayJan31()
    ensures CivilFromDays(19388) == LocalDate(2023, 1, 31)
  {
    assert 738856 / 146097 == 5;
    assert (8371 - 8371 / 1460 + 8371 / 36524 - 8371 / 146096) / 365 == 22;
    assert (5 * 336 + 2) / 153 == 10;
    assert (153 * 10 + 2) / 5 == 306;
  }

  /** Day 19417 after 1970-01-01 is 1 March 2023. */
  lemma CivilDayMar1()
    ensures CivilFromDays(19417) == LocalDate(2023, 3, 1)
  {
    assert 738885 / 146097 == 5;
    assert (8400 - 8400 / 1460 + 8400 / 36524 - 8400 / 146096) / 365 == 23;
    assert (5 * 0 + 2) / 153 == 0;
    assert (153 * 0 + 2) / 5 == 0;
  }
}
