/** The proleptic Gregorian calendar as Python's `datetime` and `calendar`
    modules compute it: day ordinals (0001-01-01 is day 1), month lengths,
    naive datetimes as microsecond counts, ISO 8601 week dates, and the
    `strftime`/`isoformat` renderings the analytics use. */
module Calendar {
  import opened Text
  import opened Options

  const MicrosPerSecond: nat := 1_000_000
  const MicrosPerDay: nat := 86_400_000_000

  /** A naive datetime, as microseconds since 0001-01-01T00:00:00 (`datetime.min`). */
  type Instant = nat

  datatype Date = Date(year: int, month: int, day: int)

  /** The Gregorian leap-year rule. */
  predicate IsLeap(y: int) {
    y % 4 == 0 && (y % 100 != 0 || y % 400 == 0)
  }

  function DaysInYear(y: int): nat {
    if IsLeap(y) then 366 else 365
  }

  /** The second component of `calendar.monthrange(y, m)`. */
  function DaysInMonth(y: int, m: int): (n: nat)
    requires 1 <= m <= 12
    ensures 28 <= n <= 31
  {
    if m == 2 then (if IsLeap(y) then 29 else 28)
    else if m == 4 || m == 6 || m == 9 || m == 11 then 30
    else 31
  }

  /** A date `datetime.date` accepts (its upper year limit 9999 is not modelled). */
  predicate ValidDate(d: Date) {
    d.year >= 1 && 1 <= d.month <= 12 && 1 <= d.day <= DaysInMonth(d.year, d.month)
  }

  /** Days of year y before the first of month m. */
  function DaysBeforeMonth(y: int, m: int): nat
    requires 1 <= m <= 12
  {
    var table := [0, 31, 59, 90, 120, 151, 181, 212, 243, 273, 304, 334];
    table[m - 1] + (if m > 2 && IsLeap(y) then 1 else 0)
  }

  /** Days before January 1 of year y, counted from 0001-01-01. */
  function DaysBeforeYear(y: int): int {
    var p := y - 1;
    365 * p + p / 4 - p / 100 + p / 400
  }

  /** `date.toordinal()` */
  function Ordinal(d: Date): int
    requires 1 <= d.month <= 12
  {
    DaysBeforeYear(d.year) + DaysBeforeMonth(d.year, d.month) + d.day
  }

  lemma DaysBeforeYearStep(y: int)
    ensures DaysBeforeYear(y + 1) == DaysBeforeYear(y) + DaysInYear(y)
  {
    var p := y - 1;
    assert y / 4 - p / 4 == if y % 4 == 0 then 1 else 0;
    assert y / 100 - p / 100 == if y % 100 == 0 then 1 else 0;
    assert y / 400 - p / 400 == if y % 400 == 0 then 1 else 0;
    if y % 400 == 0 {
      assert y % 100 == 0 && y % 4 == 0;
    } else if y % 100 == 0 {
      assert y % 4 == 0;
    }
  }

  lemma {:induction false} DaysBeforeYearMono(a: int, b: int)
    requires a <= b
    ensures DaysBeforeYear(a) + 365 * (b - a) <= DaysBeforeYear(b)
    decreases b - a
  {
    if a < b {
      DaysBeforeYearMono(a + 1, b);
      DaysBeforeYearStep(a);
    }
  }

  lemma DaysBeforeMonthStep(y: int, m: int)
    requires 1 <= m <= 12
    ensures m < 12 ==> DaysBeforeMonth(y, m + 1) == DaysBeforeMonth(y, m) + DaysInMonth(y, m)
    ensures m == 12 ==> DaysBeforeMonth(y, m) + DaysInMonth(y, m) == DaysInYear(y)
  {
  }

  lemma {:induction false} DaysBeforeMonthMono(y: int, a: int, b: int)
    requires 1 <= a <= b <= 12
    ensures DaysBeforeMonth(y, a) <= DaysBeforeMonth(y, b)
    ensures a < b ==> DaysBeforeMonth(y, a) + DaysInMonth(y, a) <= DaysBeforeMonth(y, b)
    decreases b - a
  {
    DaysBeforeMonthStep(y, a);
    if a < b {
      DaysBeforeMonthMono(y, a + 1, b);
    }
  }

  /** Every month ends within its year. */
  lemma {:induction false} MonthWithinYear(y: int, m: int)
    requires 1 <= m <= 12
    ensures DaysBeforeMonth(y, m) + DaysInMonth(y, m) <= DaysInYear(y)
    decreases 12 - m
  {
    DaysBeforeMonthStep(y, m);
    if m < 12 {
      MonthWithinYear(y, m + 1);
    }
  }

  /** Locate day k (0-based) of year y, starting the search at month m. */
  function MonthWalk(y: int, m: int, k: nat): Date
    requires 1 <= m <= 12
    decreases 12 - m
  {
    if m == 12 || k < DaysInMonth(y, m) then Date(y, m, k + 1)
    else MonthWalk(y, m + 1, k - DaysInMonth(y, m))
  }

  /** Locate day k (0-based) counted from January 1 of year y: a valid date,
      no earlier than year y, whose ordinal is k + 1 days past the end of
      year y - 1. */
  function YearWalk(y: int, k: nat): (d: Date)
    requires y >= 1
    ensures ValidDate(d) && d.year >= y && Ordinal(d) == DaysBeforeYear(y) + k + 1
    decreases k
  {
    if k < DaysInYear(y) then
      MonthWalkInYear(y, k);
      MonthWalk(y, 1, k)
    else
      DaysBeforeYearStep(y);
      YearWalk(y + 1, k - DaysInYear(y))
  }

  lemma {:induction false} MonthWalkSound(y: int, m0: int, k: nat)
    requires 1 <= m0 <= 12
    requires DaysBeforeMonth(y, m0) + k < DaysInYear(y)
    ensures var d := MonthWalk(y, m0, k);
      d.year == y && m0 <= d.month <= 12 && 1 <= d.day <= DaysInMonth(y, d.month) &&
      DaysBeforeMonth(y, d.month) + d.day - 1 == DaysBeforeMonth(y, m0) + k
    decreases 12 - m0
  {
    DaysBeforeMonthStep(y, m0);
    if m0 < 12 && k >= DaysInMonth(y, m0) {
      MonthWalkSound(y, m0 + 1, k - DaysInMonth(y, m0));
    }
  }

  /** Day k of year y, found by walking the months from January, is a date
      of that year k days after January 1. */
  lemma MonthWalkInYear(y: int, k: nat)
    requires y >= 1 && k < DaysInYear(y)
    ensures var d := MonthWalk(y, 1, k);
      ValidDate(d) && d.year == y && Ordinal(d) == DaysBeforeYear(y) + k + 1
  {
    MonthWalkSound(y, 1, k);
  }

  /** `date.fromordinal(n)`: the date n - 1 days after 0001-01-01. */
  function FromOrdinal(n: int): (d: Date)
    requires n >= 1
    ensures ValidDate(d) && Ordinal(d) == n
  {
    YearWalk(1, n - 1)
  }

  /** Ordinals and dates are in one-to-one correspondence. */
  lemma FromOrdinalOfOrdinal(d: Date)
    requires ValidDate(d)
    ensures Ordinal(d) >= 1 && FromOrdinal(Ordinal(d)) == d
  {
    DaysBeforeYearMono(1, d.year);
    OrdinalInjective(FromOrdinal(Ordinal(d)), d);
  }

  /** Distinct valid dates have distinct ordinals. */
  lemma OrdinalInjective(a: Date, b: Date)
    requires ValidDate(a) && ValidDate(b) && Ordinal(a) == Ordinal(b)
    ensures a == b
  {
    if a.year < b.year {
      LaterYearLaterOrdinal(a, b);
    } else if b.year < a.year {
      LaterYearLaterOrdinal(b, a);
    } else if a.month < b.month {
      DaysBeforeMonthMono(a.year, a.month, b.month);
    } else if b.month < a.month {
      DaysBeforeMonthMono(a.year, b.month, a.month);
    }
  }

  /** Every day of a later year comes after every day of an earlier one. */
  lemma LaterYearLaterOrdinal(p: Date, q: Date)
    requires ValidDate(p) && ValidDate(q) && p.year < q.year
    ensures Ordinal(p) < Ordinal(q)
  {
    MonthWithinYear(p.year, p.month);
    DaysBeforeYearStep(p.year);
    DaysBeforeYearMono(p.year + 1, q.year);
  }

  /** The day ordinal of an instant (`dt.toordinal()`). */
  function DayOrdinal(t: Instant): (n: int)
    ensures n >= 1
    ensures (n - 1) * MicrosPerDay <= t < n * MicrosPerDay
  {
    t / MicrosPerDay + 1
  }

  /** `dt.date()` */
  function DateOf(t: Instant): (d: Date)
    ensures ValidDate(d)
  {
    FromOrdinal(DayOrdinal(t))
  }

  /** `datetime(d.year, d.month, d.day, hh, mm, ss, us)` as an instant. */
  function At(d: Date, hh: nat, mm: nat, ss: nat, us: nat): int
    requires 1 <= d.month <= 12
  {
    (Ordinal(d) - 1) * MicrosPerDay + ((hh * 60 + mm) * 60 + ss) * MicrosPerSecond + us
  }

  lemma AtDate(d: Date, hh: nat, mm: nat, ss: nat, us: nat)
    requires ValidDate(d) && hh < 24 && mm < 60 && ss < 60 && us < MicrosPerSecond
    ensures At(d, hh, mm, ss, us) >= 0
    ensures DateOf(At(d, hh, mm, ss, us)) == d
  {
    FromOrdinalOfOrdinal(d);
    var t := At(d, hh, mm, ss, us);
    var tod := ((hh * 60 + mm) * 60 + ss) * MicrosPerSecond + us;
    assert 0 <= tod < MicrosPerDay;
    assert t == (Ordinal(d) - 1) * MicrosPerDay + tod;
    assert DayOrdinal(t) == Ordinal(d);
  }

  /** `dt.replace(day=1, hour=0, minute=0, second=0, microsecond=0)` for a date in (y, m). */
  function MonthStart(y: int, m: int): int
    requires 1 <= m <= 12
  {
    At(Date(y, m, 1), 0, 0, 0, 0)
  }

  /** `dt.replace(day=last_day, hour=23, minute=59, second=59, microsecond=999999)`,
      where last_day comes from `calendar.monthrange(y, m)`. */
  function MonthEnd(y: int, m: int): int
    requires 1 <= m <= 12
  {
    At(Date(y, m, DaysInMonth(y, m)), 23, 59, 59, 999_999)
  }

  /** The month before (y, m), rolling January back to December of the year before. */
  function PrevMonth(y: int, m: int): (r: (int, int))
    requires 1 <= m <= 12
    ensures 1 <= r.1 <= 12
    ensures 12 * r.0 + r.1 == 12 * y + m - 1
  {
    if m == 1 then (y - 1, 12) else (y, m - 1)
  }

  function NextMonth(y: int, m: int): (r: (int, int))
    requires 1 <= m <= 12
    ensures 1 <= r.1 <= 12
    ensures 12 * r.0 + r.1 == 12 * y + m + 1
  {
    if m == 12 then (y + 1, 1) else (y, m + 1)
  }

  lemma PrevNextInverse(y: int, m: int)
    requires 1 <= m <= 12
    ensures var p := PrevMonth(y, m); NextMonth(p.0, p.1) == (y, m)
    ensures var n := NextMonth(y, m); PrevMonth(n.0, n.1) == (y, m)
  {
  }

  /** The inclusive bounds [MonthStart, MonthEnd] hold exactly the instants of month (y, m). */
  lemma InMonthIff(t: Instant, y: int, m: int)
    requires y >= 1 && 1 <= m <= 12
    ensures DateOf(t).year == y && DateOf(t).month == m <==> MonthStart(y, m) <= t <= MonthEnd(y, m)
  {
    var n := DayOrdinal(t);
    var d := DateOf(t);
    var first := Date(y, m, 1);
    var last := Date(y, m, DaysInMonth(y, m));
    assert MonthStart(y, m) == (Ordinal(first) - 1) * MicrosPerDay;
    assert MonthEnd(y, m) + 1 == Ordinal(last) * MicrosPerDay;
    if MonthStart(y, m) <= t <= MonthEnd(y, m) {
      assert Ordinal(first) <= n <= Ordinal(last);
      var e := Date(y, m, n - Ordinal(first) + 1);
      assert ValidDate(e) && Ordinal(e) == n;
      FromOrdinalOfOrdinal(e);
    }
  }

  /** The instant after a month's last microsecond is the first of the next month. */
  lemma MonthEndMeetsNextStart(y: int, m: int)
    requires 1 <= m <= 12
    ensures var n := NextMonth(y, m); MonthEnd(y, m) + 1 == MonthStart(n.0, n.1)
  {
    DaysBeforeMonthStep(y, m);
    if m == 12 {
      DaysBeforeYearStep(y);
    }
  }

  /** Month starts grow with the month's position 12 * year + month. */
  lemma {:induction false} MonthStartMono(y1: int, m1: int, y2: int, m2: int)
    requires 1 <= m1 <= 12 && 1 <= m2 <= 12
    requires 12 * y1 + m1 <= 12 * y2 + m2
    ensures MonthStart(y1, m1) <= MonthStart(y2, m2)
    decreases 12 * y2 + m2 - (12 * y1 + m1)
  {
    if 12 * y1 + m1 < 12 * y2 + m2 {
      var n := NextMonth(y1, m1);
      MonthEndMeetsNextStart(y1, m1);
      MonthStartMono(n.0, n.1, y2, m2);
    }
  }

  /** An instant is at or after the start of month (y, m) exactly when its
      own month is (y, m) or a later one. */
  lemma MonthStartIff(t: Instant, y: int, m: int)
    requires y >= 1 && 1 <= m <= 12
    ensures MonthStart(y, m) <= t <==> 12 * y + m <= 12 * DateOf(t).year + DateOf(t).month
  {
    var d := DateOf(t);
    InMonthIff(t, d.year, d.month);
    if 12 * y + m <= 12 * d.year + d.month {
      MonthStartMono(y, m, d.year, d.month);
    } else {
      var n := NextMonth(d.year, d.month);
      MonthEndMeetsNextStart(d.year, d.month);
      MonthStartMono(n.0, n.1, y, m);
    }
  }

  // ---------------------------------------------------------------------
  // ISO 8601 week dates (section 4.1.4 of ISO 8601:2004): weeks start on
  // Monday, and week 1 of a year is the week holding its first Thursday.
  // ---------------------------------------------------------------------

  /** `date.weekday()` of the day with ordinal n: Monday is 0, Sunday 6. */
  function Weekday(n: int): (w: int)
    ensures 0 <= w < 7
  {
    (n + 6) % 7
  }

  /** The Monday starting the week that holds day n. */
  function MondayOf(n: int): (r: int)
    ensures Weekday(r) == 0
    ensures r <= n < r + 7
    ensures n >= 1 ==> r >= 1
  {
    n - Weekday(n)
  }

  lemma MondayOfMonday(n: int)
    ensures MondayOf(MondayOf(n)) == MondayOf(n)
  {
  }

  /** The ISO week-numbering year of day n: the calendar year of its week's Thursday. */
  function IsoYear(n: int): int
    requires n >= 1
  {
    FromOrdinal(MondayOf(n) + 3).year
  }

  /** The ISO week number of day n: weeks counted from the one holding that year's first Thursday. */
  function IsoWeek(n: int): int
    requires n >= 1
  {
    (MondayOf(n) + 3 - Ordinal(Date(IsoYear(n), 1, 1))) / 7 + 1
  }

  /** The week's Thursday lies in the ISO year, so the week number is between 1 and 53. */
  lemma IsoWeekRange(n: int)
    requires n >= 1
    ensures IsoYear(n) >= 1
    ensures Ordinal(Date(IsoYear(n), 1, 1)) <= MondayOf(n) + 3 < Ordinal(Date(IsoYear(n), 1, 1)) + DaysInYear(IsoYear(n))
    ensures 1 <= IsoWeek(n) <= 53
  {
    var thu := FromOrdinal(MondayOf(n) + 3);
    DaysBeforeMonthMono(thu.year, 1, thu.month);
    MonthWithinYear(thu.year, thu.month);
  }

  /** The Monday of ISO week 1 of the year whose January 1 has ordinal `first`. */
  function Week1Monday(first: int): int {
    var firstWeekday := (first + 6) % 7;
    var week1Monday := first - firstWeekday;
    if firstWeekday > 3 then week1Monday + 7 else week1Monday
  }

  /** Python's `_isoweek1monday(year)`: the Monday of ISO week 1 of year y. */
  function IsoWeek1Monday(y: int): int {
    Week1Monday(Ordinal(Date(y, 1, 1)))
  }

  /** Does ISO year y have a week 53? Python's test in `date.fromisocalendar`:
      January 1 is a Thursday, or a Wednesday in a leap year. */
  predicate HasWeek53(y: int) {
    var firstWeekday := Ordinal(Date(y, 1, 1)) % 7;
    firstWeekday == 4 || (firstWeekday == 3 && IsLeap(y))
  }

  /** `date.fromisocalendar(y, w, d).toordinal()`, None where Python raises ValueError. */
  function FromIsoCalendar(y: int, w: int, d: int): Option<int> {
    if !(1 <= y) || !(1 <= w <= 53) || (w == 53 && !HasWeek53(y)) || !(1 <= d <= 7) then None
    else Some(IsoWeek1Monday(y) + (w - 1) * 7 + (d - 1))
  }

  /** The Thursday of ISO week 1 falls within the first seven days of January. */
  lemma Week1Thursday(j: int)
    ensures j <= Week1Monday(j) + 3 <= j + 6 && Weekday(Week1Monday(j)) == 0
  {
  }

  lemma ThursdayAfterMonday(m: int)
    requires Weekday(m) == 0
    ensures Weekday(m + 3) == 3
  {
  }

  /** The arithmetic behind `fromisocalendar`: for a Thursday `thu` in the year
      that starts on day j and has `diy` days, counting whole weeks from j
      lands on the Monday before `thu`, and a week 53 needs January 1 to be a
      Thursday, or a Wednesday in a 366-day year. */
  lemma {:induction false} IsoWeekArithmetic(j: int, thu: int, diy: int)
    requires Weekday(thu) == 3 && j <= thu < j + diy && (diy == 365 || diy == 366)
    ensures var w := (thu - j) / 7 + 1;
      1 <= w <= 53 && Week1Monday(j) + (w - 1) * 7 == thu - 3 &&
      (w == 53 ==> j % 7 == 4 || (j % 7 == 3 && diy == 366))
  {
    Week1Thursday(j);
    var t1 := Week1Monday(j) + 3;
    var q := (thu - j) / 7;
    var r := (thu - j) % 7;
    assert thu == j + 7 * q + r;
    assert (t1 + 6) % 7 == (thu + 6) % 7;
    assert t1 - j == r;
  }

  /** Rebuilding the Monday from the ISO year and week of any day of the week
      (what the weekly spend-trend bucket does) gives back that Monday. */
  lemma FromIsoCalendarOfIsoWeek(n: int)
    requires n >= 1
    ensures FromIsoCalendar(IsoYear(n), IsoWeek(n), 1) == Some(MondayOf(n))
  {
    IsoWeekRange(n);
    IsoWeekOfThursday(IsoYear(n), IsoWeek(n), MondayOf(n));
  }

  /** The week number w counted from January 1 of year y to the Thursday of
      the week starting on Monday m, a Thursday of that year, names that
      week. */
  lemma IsoWeekOfThursday(y: int, w: int, m: int)
    requires y >= 1 && Weekday(m) == 0
    requires Ordinal(Date(y, 1, 1)) <= m + 3 < Ordinal(Date(y, 1, 1)) + DaysInYear(y)
    requires w == (m + 3 - Ordinal(Date(y, 1, 1))) / 7 + 1
    ensures FromIsoCalendar(y, w, 1) == Some(m)
  {
    var j := Ordinal(Date(y, 1, 1));
    ThursdayAfterMonday(m);
    IsoWeekArithmetic(j, m + 3, DaysInYear(y));
    assert w == 53 ==> HasWeek53(y) by {
      if w == 53 {
        assert j % 7 == 4 || (j % 7 == 3 && IsLeap(y));
      }
    }
    FromIsoCalendarMonday(y, w, m);
  }

  /** `fromisocalendar(y, w, 1)` succeeds for a week the year has, and is
      that week's Monday. */
  lemma FromIsoCalendarMonday(y: int, w: int, m: int)
    requires 1 <= y && 1 <= w <= 53 && (w == 53 ==> HasWeek53(y))
    requires IsoWeek1Monday(y) + (w - 1) * 7 == m
    ensures FromIsoCalendar(y, w, 1) == Some(m)
  {
  }

  /** The calendar-date label `YYYY-MM-DD` (`strftime("%Y-%m-%d")`). */
  function DayLabel(d: Date): string
    requires ValidDate(d)
  {
    Decimal(d.year, 4) + "-" + Decimal(d.month, 2) + "-" + Decimal(d.day, 2)
  }

  /** The month label `YYYY-MM` (`strftime("%Y-%m")`). */
  function MonthLabel(d: Date): string
    requires ValidDate(d)
  {
    Decimal(d.year, 4) + "-" + Decimal(d.month, 2)
  }

  /** The ISO week label `f"{iso_year}-W{iso_week:02d}"` of day n. */
  function WeekLabel(n: int): string
    requires n >= 1
  {
    IsoWeekRange(n);
    Digits(IsoYear(n)) + "-W" + Decimal(IsoWeek(n), 2)
  }

  /** All days of one week carry the label of its Monday. */
  lemma WeekLabelOfMonday(n: int)
    requires n >= 1
    ensures WeekLabel(MondayOf(n)) == WeekLabel(n)
  {
    var k := MondayOf(n);
    MondayOfMonday(n);
    assert IsoYear(k) == IsoYear(n);
    assert IsoWeek(k) == IsoWeek(n);
  }

  /** The ISO year of a day is the calendar year of its week's Thursday. */
  lemma IsoYearOfThursday(n: int, thursday: Date)
    requires n >= 1 && ValidDate(thursday) && Ordinal(thursday) == MondayOf(n) + 3
    ensures IsoYear(n) == thursday.year
  {
    FromOrdinalOfOrdinal(thursday);
  }

  /** 2024-12-30 is the Monday of ISO week 1 of 2025. */
  lemma IsoWeekExample(n: int)
    requires n == Ordinal(Date(2024, 12, 30))
    ensures n == 739250 && Weekday(n) == 0
    ensures IsoYear(n) == 2025 && IsoWeek(n) == 1
  {
    OrdinalExample(n);
    IsoYearOfThursday(n, Date(2025, 1, 2));
  }

  lemma OrdinalExample(n: int)
    requires n == Ordinal(Date(2024, 12, 30))
    ensures n == 739250 && Weekday(n) == 0
  {
  }

  /** ... so its week label names the ISO year 2025, not the calendar year 2024. */
  lemma WeekLabelExample(n: int)
    requires n == Ordinal(Date(2024, 12, 30))
    ensures WeekLabel(n) == "2025-W01"
  {
    IsoWeekExample(n);
    WeekLabelOf(n);
  }

  lemma WeekLabelOf(n: int)
    requires n >= 1 && IsoYear(n) == 2025 && IsoWeek(n) == 1
    ensures WeekLabel(n) == "2025-W01"
  {
    DigitsOf2025();
    assert Decimal(1, 2) == "01";
  }

  lemma DigitsOf2025()
    ensures Digits(2025) == "2025"
  {
    assert Digits(20) == "20";
    assert Digits(202) == Digits(20) + "2";
  }

  /** `dt.isoformat()`: `YYYY-MM-DDTHH:MM:SS`, with `.ffffff` only when the
      microsecond is not zero. */
  function IsoFormat(t: Instant): string {
    var tod := t % MicrosPerDay;
    DayLabel(DateOf(t)) + "T" + ClockText(tod / MicrosPerSecond, tod % MicrosPerSecond)
  }

  /** The time part of `isoformat()` for the second of the day and the
      microsecond. */
  function ClockText(secs: nat, us: nat): string {
    Decimal(secs / 3600, 2) + ":" + Decimal(secs / 60 % 60, 2) + ":" + Decimal(secs % 60, 2)
    + (if us != 0 then "." + Decimal(us, 6) else "")
  }

  /** c is `HH:MM:SS`, with `.ffffff` after it exactly when us is not 0, and
      its fields read back as the second of the day and the microsecond. */
  predicate ClockReadsAs(c: string, secs: nat, us: nat) {
    && |c| == (if us == 0 then 8 else 15)
    && c[2] == ':' && c[5] == ':'
    && AllDigits(c[..2]) && AllDigits(c[3..5]) && AllDigits(c[6..8])
    && ParseDigits(c[..2]) * 3600 + ParseDigits(c[3..5]) * 60 + ParseDigits(c[6..8]) == secs
    && (us != 0 ==> c[8] == '.' && AllDigits(c[9..]) && ParseDigits(c[9..]) == us)
  }

  /** The time part reads back as the time it was written from. */
  lemma ClockTextReadsBack(secs: nat, us: nat)
    requires secs < 86_400 && us < MicrosPerSecond
    ensures ClockReadsAs(ClockText(secs, us), secs, us)
  {
    SecondsSplit(secs);
    var h, m, s := secs / 3600, secs / 60 % 60, secs % 60;
    if us == 0 {
      WholeSecondFields(h, m, s);
    } else {
      FractionFields(h, m, s, us);
    }
  }

  /** A time on a whole second is written as `HH:MM:SS`, reading back. */
  lemma WholeSecondFields(h: nat, m: nat, s: nat)
    requires h < 100 && m < 100 && s < 100
    ensures ClockReadsAs(Decimal(h, 2) + ":" + Decimal(m, 2) + ":" + Decimal(s, 2) + "", h * 3600 + m * 60 + s, 0)
  {
    assert Pow10(2) == 100;
    DecimalField(h, 2);
    DecimalField(m, 2);
    DecimalField(s, 2);
    ClockLayout(Decimal(h, 2), Decimal(m, 2), Decimal(s, 2), "", h * 3600 + m * 60 + s, 0);
  }

  /** A time with a non-zero microsecond is written as `HH:MM:SS.ffffff`,
      reading back. */
  lemma FractionFields(h: nat, m: nat, s: nat, us: nat)
    requires h < 100 && m < 100 && s < 100 && 0 < us < MicrosPerSecond
    ensures ClockReadsAs(Decimal(h, 2) + ":" + Decimal(m, 2) + ":" + Decimal(s, 2) + ("." + Decimal(us, 6)),
                         h * 3600 + m * 60 + s, us)
  {
    assert Pow10(2) == 100;
    assert Pow10(6) == 1_000_000;
    DecimalField(h, 2);
    DecimalField(m, 2);
    DecimalField(s, 2);
    DecimalField(us, 6);
    var frac := "." + Decimal(us, 6);
    assert frac[1..] == Decimal(us, 6);
    ClockLayout(Decimal(h, 2), Decimal(m, 2), Decimal(s, 2), frac, h * 3600 + m * 60 + s, us);
  }

  /** Two-digit fields joined by `:`, then the fraction, have the layout of
      `ClockReadsAs`. */
  lemma ClockLayout(hh: string, mm: string, ss: string, frac: string, secs: nat, us: nat)
    requires |hh| == 2 && |mm| == 2 && |ss| == 2 && AllDigits(hh) && AllDigits(mm) && AllDigits(ss)
    requires ParseDigits(hh) * 3600 + ParseDigits(mm) * 60 + ParseDigits(ss) == secs
    requires us == 0 ==> frac == ""
    requires us != 0 ==> |frac| == 7 && frac[0] == '.' && AllDigits(frac[1..]) && ParseDigits(frac[1..]) == us
    ensures ClockReadsAs(hh + ":" + mm + ":" + ss + frac, secs, us)
  {
    var c := hh + ":" + mm + ":" + ss + frac;
    assert c[..2] == hh;
    assert c[3] == mm[0] && c[4] == mm[1];
    assert c[3..5] == mm;
    assert c[6] == ss[0] && c[7] == ss[1];
    assert c[6..8] == ss;
    assert c[8..] == frac;
    if us != 0 {
      assert c[9..] == frac[1..];
    }
  }

  /** `isoformat()` is the date label, `T`, and the time of day, which reads
      back as the instant's second of the day and microsecond. */
  lemma IsoFormatReadsBack(t: Instant)
    ensures var r := IsoFormat(t);
            var day := DayLabel(DateOf(t));
            var tod := t % MicrosPerDay;
            && |r| > |day| && r[..|day|] == day && r[|day|] == 'T'
            && ClockReadsAs(r[|day| + 1..], tod / MicrosPerSecond, tod % MicrosPerSecond)
  {
    var tod := t % MicrosPerDay;
    TimeOfDaySplit(tod);
    ClockTextReadsBack(tod / MicrosPerSecond, tod % MicrosPerSecond);
    LabelThenTime(DayLabel(DateOf(t)), ClockText(tod / MicrosPerSecond, tod % MicrosPerSecond));
  }

  /** The second of the day and the microsecond of a time of day are in range. */
  lemma TimeOfDaySplit(tod: int)
    requires 0 <= tod < MicrosPerDay
    ensures tod / MicrosPerSecond < 86_400 && tod % MicrosPerSecond < MicrosPerSecond
  {
  }

  /** A label, `T` and a time: the label is the prefix, `T` follows it and
      the time is the rest. */
  lemma LabelThenTime(day: string, c: string)
    ensures var r := day + "T" + c;
            |r| > |day| && r[..|day|] == day && r[|day|] == 'T' && r[|day| + 1..] == c
  {
  }

  /** Hours, minutes and seconds recombine into the seconds they came from. */
  lemma SecondsSplit(secs: nat)
    ensures (secs / 3600) * 3600 + (secs / 60 % 60) * 60 + secs % 60 == secs
  {
    var m := secs / 60;
    assert secs == m * 60 + secs % 60;
    assert m / 60 == secs / 3600;
  }
}
