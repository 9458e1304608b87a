/** Proleptic Gregorian days, month windows and billing periods. */
module Calendar {
  import opened Types

  const DAY_TICKS: int := 86_400_000_000

  /** Appendix C of RFC 3339. */
  predicate IsLeap(year: nat) {
    year % 4 == 0 && (year % 100 != 0 || year % 400 == 0)
  }

  /** Section 5.7 of RFC 3339. */
  function MonthLength(year: nat, month: nat): nat
    requires 1 <= month <= 12
  {
    if month == 2 then (if IsLeap(year) then 29 else 28)
    else if month == 4 || month == 6 || month == 9 || month == 11 then 30
    else 31
  }

  function DaysBeforeYear(year: nat): nat {
    365 * year + (year + 3) / 4 - (year + 99) / 100 + (year + 399) / 400
  }

  function DaysBeforeMonth(year: nat, month: nat): nat
    requires 1 <= month <= 12
  {
    [0, 31, 59, 90, 120, 151, 181, 212, 243, 273, 304, 334][month - 1]
    + if month > 2 && IsLeap(year) then 1 else 0
  }

  /** The day of year-month-day; a month past December or a day outside the month carries over. */
  function Date(year: nat, month: nat, day: int): Day
    requires 1 <= month
  {
    var y := year + (month - 1) / 12;
    var m := (month - 1) % 12 + 1;
    DaysBeforeYear(y) + DaysBeforeMonth(y, m) + day - 1
  }

  function MonthIndex(year: nat, month: nat): Month
    requires 1 <= month <= 12
  {
    12 * year + month - 1
  }

  function YearOf(k: Month): nat { k / 12 }

  function MonthOf(k: Month): (m: nat)
    ensures 1 <= m <= 12
  {
    k % 12 + 1
  }

  function MonthFirst(k: Month): Day { Date(YearOf(k), MonthOf(k), 1) }

  function LengthOf(k: Month): nat { MonthLength(YearOf(k), MonthOf(k)) }

  /** A parsed calendar date. */
  datatype CivilDate = CivilDate(year: nat, month: nat, day: nat)

  predicate ValidCivil(c: CivilDate) {
    1 <= c.month <= 12 && 1 <= c.day <= MonthLength(c.year, c.month)
  }

  type Civil = c: CivilDate | ValidCivil(c) witness CivilDate(2000, 1, 1)

  datatype Period = Period(month: Month, start: Day, end: Day, due: Day)

  /** The first bill: from the start date to the end of its month. */
  function FirstPeriod(start: Civil, dueDay: int): Period {
    var monthEnd := Date(start.year, start.month + 1, 1) - 1;
    var daysInMonth := monthEnd - Date(start.year, start.month, 1) + 1;
    var due := if dueDay > daysInMonth then daysInMonth else dueDay;
    Period(MonthIndex(start.year, start.month), Date(start.year, start.month, start.day),
           monthEnd, Date(start.year, start.month, due))
  }

  /** A later bill: the whole calendar month. */
  function MonthlyPeriod(k: Month, dueDay: int): Period {
    var year, month := YearOf(k), MonthOf(k);
    var monthEnd := Date(year, month + 1, 1) - 1;
    var daysInMonth := monthEnd - Date(year, month, 1) + 1;
    var due := if dueDay > daysInMonth then daysInMonth else dueDay;
    Period(k, Date(year, month, 1), monthEnd, Date(year, month, due))
  }

  lemma MonthParts(year: nat, month: nat)
    requires 1 <= month <= 12
    ensures YearOf(MonthIndex(year, month)) == year && MonthOf(MonthIndex(year, month)) == month
  {
  }

  lemma FourStep(n: nat)
    ensures (n + 4) / 4 == (n + 3) / 4 + if n % 4 == 0 then 1 else 0
  {
  }

  lemma CenturyStep(n: nat)
    ensures (n + 100) / 100 == (n + 99) / 100 + if n % 100 == 0 then 1 else 0
  {
  }

  lemma CycleStep(n: nat)
    ensures (n + 400) / 400 == (n + 399) / 400 + if n % 400 == 0 then 1 else 0
  {
  }

  lemma Nested(n: nat)
    ensures n % 400 == 0 ==> n % 100 == 0
    ensures n % 100 == 0 ==> n % 4 == 0
  {
    if n % 400 == 0 {
      var q := n / 400;
      assert n == 100 * (4 * q);
    }
    if n % 100 == 0 {
      var q := n / 100;
      assert n == 4 * (25 * q);
    }
  }

  lemma YearStep(year: nat)
    ensures DaysBeforeYear(year + 1) == DaysBeforeYear(year) + if IsLeap(year) then 366 else 365
  {
    FourStep(year); CenturyStep(year); CycleStep(year); Nested(year);
  }

  lemma DateShift(year: nat, month: nat, day: int)
    requires 1 <= month
    ensures Date(year, month, day) == Date(year, month, 1) + day - 1
  {
  }

  lemma MonthTableStep(year: nat, month: nat)
    requires 1 <= month < 12
    ensures DaysBeforeMonth(year, month + 1) == DaysBeforeMonth(year, month) + MonthLength(year, month)
  {
  }

  lemma DateInYear(year: nat, month: nat, day: int)
    requires 1 <= month <= 12
    ensures Date(year, month, day) == DaysBeforeYear(year) + DaysBeforeMonth(year, month) + day - 1
    ensures Date(year, 13, day) == DaysBeforeYear(year + 1) + day - 1
  {
    assert (month - 1) / 12 == 0 && (month - 1) % 12 == month - 1;
  }

  /** The first of the next month minus one day is the last day of the same month,
      in every year, across December and in leap Februaries. */
  lemma MonthEndIsLastDay(year: nat, month: nat)
    requires 1 <= month <= 12
    ensures Date(year, month + 1, 1) - 1 == Date(year, month, MonthLength(year, month))
  {
    DateInYear(year, month, MonthLength(year, month));
    if month < 12 {
      DateInYear(year, month + 1, 1);
      MonthTableStep(year, month);
    } else {
      DateInYear(year, month, 1);
      YearStep(year);
    }
  }

  lemma LengthBounds(year: nat, month: nat)
    requires 1 <= month <= 12
    ensures 28 <= MonthLength(year, month) <= 31
  {
  }

  lemma MonthStep(k: Month)
    ensures MonthFirst(k + 1) == MonthFirst(k) + LengthOf(k)
    ensures 28 <= LengthOf(k) <= 31
  {
    LengthBounds(YearOf(k), MonthOf(k));
    hide Date, MonthLength, DaysBeforeYear, DaysBeforeMonth;
    var year, month := YearOf(k), MonthOf(k);
    MonthEndIsLastDay(year, month);
    DateInYear(year, month, 1);
    DateInYear(year, month, LengthOf(k));
    if month < 12 {
      assert YearOf(k + 1) == year && MonthOf(k + 1) == month + 1;
    } else {
      assert YearOf(k + 1) == year + 1 && MonthOf(k + 1) == 1;
      DateInYear(year + 1, 1, 1);
    }
  }

  lemma {:induction false} MonthsAscend(j: Month, k: Month)
    requires j < k
    ensures MonthFirst(j) + LengthOf(j) <= MonthFirst(k)
    decreases k
  {
    hide MonthFirst, LengthOf;
    MonthStep(k - 1);
    if j < k - 1 { MonthsAscend(j, k - 1); }
    assert k - 1 + 1 == k;
  }

  predicate InMonth(d: Day, k: Month) {
    MonthFirst(k) <= d < MonthFirst(k) + LengthOf(k)
  }

  lemma MonthsAreDisjoint(d: Day, j: Month, k: Month)
    requires InMonth(d, j) && InMonth(d, k)
    ensures j == k
  {
    if j < k { MonthsAscend(j, k); }
    if k < j { MonthsAscend(k, j); }
  }

  /** Whole months tile the day line without a gap; MonthsAreDisjoint says without overlap. */
  lemma {:induction false} EveryDayHasAMonth(j: Month, d: Day, k: Month) returns (m: Month)
    requires j <= k && MonthFirst(j) <= d < MonthFirst(k)
    ensures j <= m < k && InMonth(d, m)
    decreases k
  {
    hide MonthFirst, LengthOf;
    MonthStep(k - 1);
    assert k - 1 + 1 == k;
    if MonthFirst(k - 1) <= d {
      m := k - 1;
    } else {
      m := EveryDayHasAMonth(j, d, k - 1);
    }
  }

  /** The month, from month k on, that holds day d. */
  function MonthFrom(k: Month, d: Day): (m: Month)
    requires MonthFirst(k) <= d
    ensures k <= m && InMonth(d, m)
    decreases d - MonthFirst(k)
  {
    MonthStep(k);
    if d < MonthFirst(k + 1) then k else MonthFrom(k + 1, d)
  }

  /** A due day clamped to the length of month k. */
  function DueIn(k: Month, dueDay: int): Day {
    MonthFirst(k) + (if dueDay > LengthOf(k) then LengthOf(k) else dueDay) - 1
  }

  /** The first period starts on the start date, ends with its month and is due inside it. */
  lemma FirstPeriodInMonth(start: Civil, dueDay: int)
    requires 1 <= dueDay <= 31
    ensures var p := FirstPeriod(start, dueDay);
            && p.month == MonthIndex(start.year, start.month) && p.start == Date(start.year, start.month, start.day)
            && MonthFirst(p.month) <= p.start <= p.end == MonthFirst(p.month + 1) - 1
            && p.due == DueIn(p.month, dueDay) && MonthFirst(p.month) <= p.due <= p.end
  {
    hide MonthIndex, YearOf, MonthOf, Date, MonthLength;
    var k := MonthIndex(start.year, start.month);
    MonthParts(start.year, start.month);
    MonthEndIsLastDay(start.year, start.month);
    MonthStep(k);
    DateShift(start.year, start.month, start.day);
    DateShift(start.year, start.month, MonthLength(start.year, start.month));
    DateShift(start.year, start.month, if dueDay > LengthOf(k) then LengthOf(k) else dueDay);
  }

  /** A later period is exactly month k and is due inside it. */
  lemma MonthlyPeriodIsMonth(k: Month, dueDay: int)
    requires 1 <= dueDay <= 31
    ensures var p := MonthlyPeriod(k, dueDay);
            && p.month == k && p.start == MonthFirst(k) && p.end == MonthFirst(k + 1) - 1
            && p.due == DueIn(k, dueDay) && p.start <= p.due <= p.end
  {
    hide YearOf, MonthOf, Date, MonthLength;
    MonthEndIsLastDay(YearOf(k), MonthOf(k));
    MonthStep(k);
    DateShift(YearOf(k), MonthOf(k), LengthOf(k));
    DateShift(YearOf(k), MonthOf(k), if dueDay > LengthOf(k) then LengthOf(k) else dueDay);
  }

  /** UTC midnight at the start of month k. */
  function MonthOpens(k: Month): Instant { MonthFirst(k) * DAY_TICKS }

  lemma MonthOpensAscend(j: Month, k: Month)
    requires j <= k
    ensures MonthOpens(j) <= MonthOpens(k)
  {
    if j < k { MonthsAscend(j, k); }
  }

  /** The UTC day of an instant. */
  function DayOf(t: Instant): (d: Day)
    ensures d * 86_400_000_000 <= t < (d + 1) * 86_400_000_000
  {
    t / DAY_TICKS
  }

  lemma DayZero()
    ensures MonthFirst(0) == 0
  {
    hide Date;
    DateInYear(0, 1, 1);
  }

  lemma DayInMonth(t: Instant, k: Month)
    requires InMonth(DayOf(t), k)
    ensures MonthOpens(k) <= t < MonthOpens(k + 1)
  {
    hide MonthFirst, LengthOf, DayOf;
    MonthStep(k);
  }

  lemma DayNotBefore(t: Instant)
    requires 0 <= t
    ensures MonthFirst(0) <= DayOf(t)
  {
    hide MonthFirst, DayOf;
    DayZero();
  }

  /** The month the clock shows. */
  function ClockMonth(now: Instant): Month
    requires 0 <= now
  {
    DayNotBefore(now);
    MonthFrom(0, DayOf(now))
  }

  lemma ClockMonthIsNow(now: Instant)
    requires 0 <= now
    ensures MonthOpens(ClockMonth(now)) <= now < MonthOpens(ClockMonth(now) + 1)
  {
    hide MonthFirst, LengthOf, InMonth, DayOf, MonthOpens, MonthFrom;
    DayNotBefore(now);
    DayInMonth(now, ClockMonth(now));
  }

  /** An instant lies in one month. */
  lemma InstantHasOneMonth(t: Instant, j: Month, k: Month)
    requires MonthOpens(j) <= t < MonthOpens(j + 1) && MonthOpens(k) <= t < MonthOpens(k + 1)
    ensures j == k
  {
    hide MonthOpens;
    if j < k { MonthOpensAscend(j + 1, k); }
    if k < j { MonthOpensAscend(k + 1, j); }
  }

  lemma InClockMonth(now: Instant, k: Month)
    requires 0 <= now
    ensures MonthOpens(k) <= now < MonthOpens(k + 1) <==> k == ClockMonth(now)
  {
    hide MonthOpens, ClockMonth;
    ClockMonthIsNow(now);
    if MonthOpens(k) <= now < MonthOpens(k + 1) { InstantHasOneMonth(now, k, ClockMonth(now)); }
  }

  /** Four hundred years later the same date is 146097 days later. */
  lemma CalendarCycle(year: nat, month: nat, day: int)
    requires 1 <= month <= 12
    ensures Date(year + 400, month, day) == Date(year, month, day) + 146_097
  {
    DateInYear(year, month, day);
    DateInYear(year + 400, month, day);
  }

  /** The day count agrees with the common one: 1970-01-01 is its day 719528. */
  lemma UnixDay()
    ensures Date(1970, 1, 1) == 719_528 && MonthOpens(MonthIndex(1970, 1)) == 719_528 * 86_400_000_000
  {
    hide Date, YearOf, MonthOf, MonthIndex;
    MonthParts(1970, 1);
    DateInYear(1970, 1, 1);
  }
}
