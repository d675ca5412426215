/** The proleptic Gregorian calendar as Python's `datetime.date` computes it: day ordinals
    (`toordinal`, with 0001-01-01 as day 1), weekdays (Monday is 0) and ISO calendar weeks. */
module Calendar {

  predicate IsLeap(y: int) {
    y % 4 == 0 && (y % 100 != 0 || y % 400 == 0)
  }

  function DaysInMonth(y: int, m: int): int
    requires 1 <= m <= 12
  {
    if m == 2 then (if IsLeap(y) then 29 else 28)
    else [31, 28, 31, 30, 31, 30, 31, 31, 30, 31, 30, 31][m - 1]
  }

  /** A calendar date; `Valid` is what `datetime.date` accepts. */
  datatype Date = Date(year: int, month: int, day: int) {
    predicate Valid() {
      1 <= year <= 9999 && 1 <= month <= 12 && 1 <= day <= DaysInMonth(year, month)
    }
  }

  /** Days in the years before `y` (Python's floor division; for a positive divisor Dafny's
      division agrees with it). */
  function DaysBeforeYear(y: int): int {
    var p := y - 1;
    p * 365 + p / 4 - p / 100 + p / 400
  }

  /** Days in the months of year `y` before month `m`. */
  function DaysBeforeMonth(y: int, m: int): int
    requires 1 <= m <= 12
  {
    [0, 31, 59, 90, 120, 151, 181, 212, 243, 273, 304, 334][m - 1]
      + (if m > 2 && IsLeap(y) then 1 else 0)
  }

  /** `date.toordinal()` */
  function Ordinal(d: Date): int
    requires d.Valid()
  {
    DaysBeforeYear(d.year) + DaysBeforeMonth(d.year, d.month) + d.day
  }

  /** `date.fromordinal(n).weekday()`: Monday is 0, Sunday is 6. */
  function WeekdayOf(ordinal: int): (w: int)
    ensures 0 <= w < 7
  {
    (ordinal + 6) % 7
  }

  /** `date.weekday()` */
  function Weekday(d: Date): int
    requires d.Valid()
  {
    WeekdayOf(Ordinal(d))
  }

  /** The Monday of the week (Monday to Sunday) that holds the first Thursday on or after
      day `firstDay`. */
  function FirstThursdayWeekMonday(firstDay: int): int {
    var firstWeekday := WeekdayOf(firstDay);
    if firstWeekday > 3 then firstDay - firstWeekday + 7 else firstDay - firstWeekday
  }

  /** The ordinal of the Monday that starts ISO week 1 of year `y`: the week holding the
      year's first Thursday (Python's `_isoweek1monday`). */
  function IsoWeek1Monday(y: int): int {
    FirstThursdayWeekMonday(DaysBeforeYear(y) + 1)
  }

  datatype IsoWeek = IsoWeek(year: int, week: int)

  /** `date.isocalendar()[:2]`: the ISO year and the ISO week number. */
  function IsoYearWeek(d: Date): IsoWeek
    requires d.Valid()
  {
    IsoYearWeekOf(d.year, Ordinal(d))
  }

  /** Python's `isocalendar` on the day `today` of calendar year `year`. */
  function IsoYearWeekOf(year: int, today: int): IsoWeek {
    var week := (today - IsoWeek1Monday(year)) / 7;
    if week < 0 then
      IsoWeek(year - 1, (today - IsoWeek1Monday(year - 1)) / 7 + 1)
    else if week >= 52 && today >= IsoWeek1Monday(year + 1) then
      IsoWeek(year + 1, 1)
    else
      IsoWeek(year, week + 1)
  }

  /** The Monday that starts the week (Monday to Sunday) holding day `ordinal`. */
  function WeekStart(ordinal: int): (m: int)
    ensures WeekdayOf(m) == 0 && m <= ordinal < m + 7
  {
    ordinal - WeekdayOf(ordinal)
  }

  /** Stepping `p` by one changes `p / k` exactly when `p + 1` is a multiple of `k`. */
  lemma DivStep4(p: int)
    ensures (p + 1) / 4 == p / 4 + (if (p + 1) % 4 == 0 then 1 else 0)
  {
  }

  lemma DivStep100(p: int)
    ensures (p + 1) / 100 == p / 100 + (if (p + 1) % 100 == 0 then 1 else 0)
  {
  }

  lemma DivStep400(p: int)
    ensures (p + 1) / 400 == p / 400 + (if (p + 1) % 400 == 0 then 1 else 0)
  {
  }

  /** A year has 365 days, or 366 when it is a leap year. */
  lemma DaysInYear(y: int)
    ensures DaysBeforeYear(y + 1) == DaysBeforeYear(y) + (if IsLeap(y) then 366 else 365)
  {
    DivStep4(y - 1);
    DivStep100(y - 1);
    DivStep400(y - 1);
  }

  /** The last day of a year comes right before the first day of the next. */
  lemma OrdinalBeforeNextYear(d: Date)
    requires d.Valid()
    ensures Ordinal(d) <= DaysBeforeYear(d.year + 1)
  {
    DaysInYear(d.year);
  }

  /** Later years start later. */
  lemma {:induction false} DaysBeforeYearMonotone(a: int, b: int)
    requires a <= b
    ensures DaysBeforeYear(a) <= DaysBeforeYear(b)
    decreases b - a
  {
    if a < b {
      DaysBeforeYearMonotone(a, b - 1);
      DaysInYear(b - 1);
    }
  }

  /** A date no later than another is in the same year or an earlier one. */
  lemma OrdinalOrdersYears(a: Date, b: Date)
    requires a.Valid() && b.Valid() && Ordinal(a) <= Ordinal(b)
    ensures a.year <= b.year
  {
    if a.year > b.year {
      OrdinalBeforeNextYear(b);
      DaysBeforeYearMonotone(b.year + 1, a.year);
    }
  }

  /** Counting whole weeks from a Monday `m` lands on the Monday that starts the week of `t`. */
  lemma WeekStartFromMonday(m: int, t: int)
    requires WeekdayOf(m) == 0
    ensures WeekStart(t) == m + 7 * ((t - m) / 7)
  {
    var r := (t - m) % 7;
    assert (m + 6) % 7 == 0;
    assert (t + 6) % 7 == r;
  }

  /** That Monday is a Monday, at most three days before and at most three days after `firstDay`. */
  lemma FirstThursdayWeekMondayFacts(f: int)
    ensures WeekdayOf(FirstThursdayWeekMonday(f)) == 0
    ensures f - 3 <= FirstThursdayWeekMonday(f) <= f + 3
  {
    var w := WeekdayOf(f);
    assert (f + 6) % 7 == w;
    if w > 3 {
      assert (f - w + 7 + 6) % 7 == 0;
    } else {
      assert (f - w + 6) % 7 == 0;
    }
  }

  /** The Monday of ISO week 1 is a Monday, at most two days before and at most four days
      after the first day of the year. */
  lemma Week1MondayFacts(y: int)
    ensures WeekdayOf(IsoWeek1Monday(y)) == 0
    ensures DaysBeforeYear(y) - 2 <= IsoWeek1Monday(y) <= DaysBeforeYear(y) + 4
  {
    FirstThursdayWeekMondayFacts(DaysBeforeYear(y) + 1);
  }

  /** An ISO (year, week) pair names exactly one Monday: the day's week starts `week - 1`
      weeks after the Monday of ISO week 1 of that ISO year. */
  lemma IsoWeekDeterminesWeekStart(d: Date)
    requires d.Valid()
    ensures WeekStart(Ordinal(d)) == IsoWeek1Monday(IsoYearWeek(d).year) + 7 * (IsoYearWeek(d).week - 1)
  {
    OrdinalBeforeNextYear(d);
    IsoWeekStartOf(d.year, Ordinal(d));
  }

  lemma IsoWeekStartOf(year: int, today: int)
    requires today <= DaysBeforeYear(year + 1)
    ensures WeekStart(today) == IsoWeek1Monday(IsoYearWeekOf(year, today).year) + 7 * (IsoYearWeekOf(year, today).week - 1)
  {
    var week := (today - IsoWeek1Monday(year)) / 7;
    if week < 0 {
      PreviousIsoYearWeekStart(year, today);
    } else if week >= 52 && today >= IsoWeek1Monday(year + 1) {
      NextIsoYearWeekStart(year, today);
    } else {
      Week1MondayFacts(year);
      WeekStartFromMonday(IsoWeek1Monday(year), today);
    }
  }

  /** A day before ISO week 1 of its calendar year lies in the previous ISO year. */
  lemma PreviousIsoYearWeekStart(year: int, today: int)
    requires today < IsoWeek1Monday(year)
    ensures IsoYearWeekOf(year, today) == IsoWeek(year - 1, (today - IsoWeek1Monday(year - 1)) / 7 + 1)
    ensures WeekStart(today) == IsoWeek1Monday(year - 1) + 7 * ((today - IsoWeek1Monday(year - 1)) / 7)
  {
    Week1MondayFacts(year - 1);
    WeekStartFromMonday(IsoWeek1Monday(year - 1), today);
  }

  /** A day of the last days of December on or after ISO week 1 of the next year lies in that
      week. */
  lemma NextIsoYearWeekStart(year: int, today: int)
    requires today <= DaysBeforeYear(year + 1)
    requires (today - IsoWeek1Monday(year)) / 7 >= 52 && today >= IsoWeek1Monday(year + 1)
    ensures IsoYearWeekOf(year, today) == IsoWeek(year + 1, 1)
    ensures WeekStart(today) == IsoWeek1Monday(year + 1)
  {
    var m1 := IsoWeek1Monday(year + 1);
    Week1MondayFacts(year + 1);
    assert 0 <= today - m1 < 7;
    WeekStartFromMonday(m1, today);
  }
}
