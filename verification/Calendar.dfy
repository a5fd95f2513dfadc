/**
 The proleptic Gregorian calendar that cron fields are read in, day by day. Days count
 from 1 January of year 0; day 719,528 is 1 January 1970, a Thursday.
 */
module Calendar {
  datatype Date = Date(year: int, month: nat, day: nat)

  predicate IsLeap(year: int) {
    year % 4 == 0 && (year % 100 != 0 || year % 400 == 0)
  }

  function YearLength(year: int): nat {
    if IsLeap(year) then 366 else 365
  }

  /** How many days of the cycle there are before 1 January of a year. */
  function YearStart(year: nat): nat {
    if year == 0 then 0 else YearStart(year - 1) + YearLength(year - 1)
  }

  function MonthLength(year: int, month: nat): nat {
    if month == 2 then (if IsLeap(year) then 29 else 28)
    else if month == 4 || month == 6 || month == 9 || month == 11 then 30 else 31
  }

  /** How many days of the year there are before a month. */
  function DaysBefore(leap: bool, month: nat): nat {
    var l := if leap then 1 else 0;
    if month <= 1 then 0
    else if month == 2 then 31
    else if month == 3 then 59 + l
    else if month == 4 then 90 + l
    else if month == 5 then 120 + l
    else if month == 6 then 151 + l
    else if month == 7 then 181 + l
    else if month == 8 then 212 + l
    else if month == 9 then 243 + l
    else if month == 10 then 273 + l
    else if month == 11 then 304 + l
    else if month == 12 then 334 + l
    else 365 + l
  }

  /** The last month, counted down from `month`, that does not start after the day of the year. */
  function MonthOf(leap: bool, dayOfYear: nat, month: nat): (m: nat)
    requires 1 <= month <= 12
    ensures 1 <= m <= month && DaysBefore(leap, m) <= dayOfYear
    ensures m < month ==> dayOfYear < DaysBefore(leap, m + 1)
  {
    if month == 1 || DaysBefore(leap, month) <= dayOfYear then month else MonthOf(leap, dayOfYear, month - 1)
  }

  lemma NextOfFour(year: int)
    ensures (year + 4) / 4 == (year + 3) / 4 + if year % 4 == 0 then 1 else 0
  {
  }

  lemma NextOfHundred(year: int)
    ensures (year + 100) / 100 == (year + 99) / 100 + if year % 100 == 0 then 1 else 0
  {
  }

  lemma NextOfFourHundred(year: int)
    ensures (year + 400) / 400 == (year + 399) / 400 + if year % 400 == 0 then 1 else 0
  {
  }

  lemma Multiples(year: int)
    ensures year % 400 == 0 ==> year % 100 == 0
    ensures year % 100 == 0 ==> year % 4 == 0
  {
    var a, b := year / 400, year / 100;
    assert year % 400 == 0 ==> year == 100 * (4 * a);
    assert year % 100 == 0 ==> year == 4 * (25 * b);
  }

  /** One leap year in four, but not in a hundred, but in four hundred. */
  lemma {:induction false} YearStartFormula(year: nat)
    ensures YearStart(year) == 365 * year + (year + 3) / 4 - (year + 99) / 100 + (year + 399) / 400
  {
    if year > 0 {
      YearStartFormula(year - 1);
      NextOfFour(year - 1);
      NextOfHundred(year - 1);
      NextOfFourHundred(year - 1);
      Multiples(year - 1);
    }
  }

  /** Each year starts where the one before it ends. */
  lemma YearsFollowOn(year: nat)
    ensures YearStart(year + 1) == YearStart(year) + YearLength(year)
  {
  }

  /** The first year from `year` on that a day of the 400-year cycle falls in. */
  function YearFrom(day: int, year: nat): (y: nat)
    requires year < 400 && YearStart(year) <= day < YearStart(400)
    ensures year <= y < 400 && YearStart(y) <= day < YearStart(y + 1)
    decreases 400 - year
  {
    if day < YearStart(year + 1) || year == 399 then year else YearFrom(day, year + 1)
  }

  /** The date of a day of a 400-year cycle. */
  function CivilIn(cycle: int, rest: int): Date
    requires 0 <= rest < 146097
  {
    CycleLength();
    var year := YearFrom(rest, 0);
    var dayOfYear: int := rest - YearStart(year);
    var month := MonthOf(IsLeap(year), dayOfYear, 12);
    Date(400 * cycle + year, month, dayOfYear - DaysBefore(IsLeap(year), month) + 1)
  }

  /** The calendar date of a day. */
  function CivilOf(day: int): Date {
    CivilIn(day / 146097, day % 146097)
  }

  /** The day of the week, 0 for Sunday. */
  function Weekday(day: int): nat {
    (day - 719528 + 4) % 7
  }

  /** The day after, by the rules of the calendar. */
  function Tomorrow(date: Date): Date {
    if date.day < MonthLength(date.year, date.month) then date.(day := date.day + 1)
    else if date.month < 12 then Date(date.year, date.month + 1, 1)
    else Date(date.year + 1, 1, 1)
  }

  lemma {:induction false} YearFromIs(day: int, year: nat, found: nat)
    requires year <= found < 400 && YearStart(year) <= YearStart(found) <= day < YearStart(found + 1) <= YearStart(400)
    ensures YearFrom(day, year) == found
    decreases 400 - year
  {
    StartsGrow(year, found);
    if year < found {
      StartsGrow(year + 1, found);
      YearFromIs(day, year + 1, found);
    }
  }

  lemma {:induction false} StartsGrow(early: nat, late: nat)
    requires early <= late
    ensures YearStart(early) + 365 * (late - early) <= YearStart(late)
    decreases late - early
  {
    if early < late {
      YearsFollowOn(late - 1);
      StartsGrow(early, late - 1);
    }
  }

  lemma {:induction false} MonthOfIs(leap: bool, dayOfYear: nat, month: nat, found: nat)
    requires 1 <= found <= month <= 12 && DaysBefore(leap, found) <= dayOfYear < DaysBefore(leap, found + 1)
    ensures MonthOf(leap, dayOfYear, month) == found
  {
    if found < month {
      MonthOfIs(leap, dayOfYear, month - 1, found);
    }
  }

  lemma MonthsFollowOn(year: int, month: nat)
    requires 1 <= month <= 12
    ensures DaysBefore(IsLeap(year), month + 1) == DaysBefore(IsLeap(year), month) + MonthLength(year, month)
    ensures DaysBefore(IsLeap(year), 13) == YearLength(year)
  {
  }

  lemma SplitCycle(cycle: int, rest: int)
    requires 0 <= rest < 146097
    ensures (146097 * cycle + rest) / 146097 == cycle && (146097 * cycle + rest) % 146097 == rest
  {
  }

  /** Where a date is in the 400-year cycle. */
  lemma {:induction false} InCycle(year: nat, month: nat, day: nat)
    requires year < 400 && 1 <= month <= 12 && 1 <= day <= MonthLength(year, month)
    ensures var dayOfYear := DaysBefore(IsLeap(year), month) + day - 1;
            0 <= dayOfYear < DaysBefore(IsLeap(year), month + 1) && dayOfYear < YearLength(year) &&
            0 <= YearStart(year) && YearStart(year) + dayOfYear < YearStart(year + 1) <= 146097
  {
    hide YearStart, IsLeap;
    MonthsFollowOn(year, month);
    BeforeYearEnd(IsLeap(year), month + 1);
    YearsFollowOn(year);
    CycleLength();
    StartsGrow(0, year);
    StartsGrow(year + 1, 400);
  }

  lemma {:induction false} CivilAt(cycle: int, rest: int)
    requires 0 <= rest < 146097
    ensures CivilOf(146097 * cycle + rest) == CivilIn(cycle, rest)
  {
    SplitCycle(cycle, rest);
    hide CivilIn;
  }

  /** The day of a date: where its year, its month and it start. */
  function DayIn(year: nat, month: nat, day: nat): int {
    YearStart(year) + DaysBefore(IsLeap(year), month) + day - 1
  }

  lemma {:induction false} CivilIs(cycle: int, year: nat, month: nat, day: nat)
    requires year < 400 && 1 <= month <= 12 && 1 <= day <= MonthLength(year, month)
    ensures 0 <= DayIn(year, month, day) < 146097
    ensures CivilIn(cycle, DayIn(year, month, day)) == Date(400 * cycle + year, month, day)
  {
    var dayOfYear := DaysBefore(IsLeap(year), month) + day - 1;
    hide YearStart, IsLeap, DaysBefore, YearFrom, MonthOf;
    InCycle(year, month, day);
    CycleLength();
    StartsGrow(0, year);
    YearFromIs(DayIn(year, month, day), 0, year);
    MonthOfIs(IsLeap(year), dayOfYear, 12, month);
  }

  lemma BeforeYearEnd(leap: bool, month: nat)
    ensures DaysBefore(leap, month) <= DaysBefore(leap, 13)
  {
  }

  /** The parts of a day: its place in its year and in its month. */
  lemma {:induction false} PartsIn(cycle: int, rest: int) returns (year: nat)
    requires 0 <= rest < 146097
    ensures var date := CivilIn(cycle, rest);
            date.year == 400 * cycle + year && year < 400 && 1 <= date.month <= 12 &&
            1 <= date.day <= MonthLength(year, date.month) && rest == DayIn(year, date.month, date.day)
  {
    CycleLength();
    hide YearStart, IsLeap;
    year := YearFrom(rest, 0);
    var date := CivilIn(cycle, rest);
    YearsFollowOn(year);
    MonthsFollowOn(year, date.month);
  }

  lemma ByFours(q: int, year: int)
    ensures (4 * q + year) % 4 == year % 4
  {
  }

  lemma ByHundreds(q: int, year: int)
    ensures (100 * q + year) % 100 == year % 100
  {
  }

  lemma ByFourHundreds(q: int, year: int)
    ensures (400 * q + year) % 400 == year % 400
  {
  }

  lemma LeapRepeats(year: int, cycle: int)
    ensures IsLeap(400 * cycle + year) == IsLeap(year)
  {
    ByFours(100 * cycle, year);
    ByHundreds(4 * cycle, year);
    ByFourHundreds(cycle, year);
  }

  lemma {:induction false} EpochDay()
    ensures DayIn(370, 1, 1) == 135140
  {
    YearStartFormula(370);
  }

  lemma {:induction false} EpochIs()
    ensures CivilOf(719528) == Date(1970, 1, 1)
  {
    hide CivilIn, YearFrom, YearStart, IsLeap, MonthOf, DayIn;
    EpochDay();
    CivilIs(4, 370, 1, 1);
    CivilAt(4, 135140);
  }

  lemma EpochIsThursday()
    ensures Weekday(719528) == 4
  {
  }

  /** The next day is in the same month, starts the next month, the next year, or the next cycle. */
  lemma {:induction false} NextDayIs(year: nat, month: nat, day: nat)
    requires year < 400 && 1 <= month <= 12 && 1 <= day <= MonthLength(year, month)
    ensures var rest := DayIn(year, month, day);
            0 <= rest < 146097 &&
            (day < MonthLength(year, month) ==> DayIn(year, month, day + 1) == rest + 1) &&
            (day == MonthLength(year, month) && month < 12 ==> DayIn(year, month + 1, 1) == rest + 1) &&
            (day == MonthLength(year, month) && month == 12 && year < 399 ==> DayIn(year + 1, 1, 1) == rest + 1) &&
            (day == MonthLength(year, month) && month == 12 && year == 399 ==> rest == 146096) &&
            DayIn(0, 1, 1) == 0
  {
    hide YearStart, IsLeap;
    CycleLength();
    InCycle(year, month, day);
    MonthsFollowOn(year, month);
    YearsFollowOn(year);
  }

  /** The day after a date, in its month, its year or its cycle. */
  lemma {:induction false} TomorrowIs(cycle: int, year: nat, month: nat, day: nat)
    requires year < 400 && 1 <= month <= 12 && 1 <= day <= MonthLength(year, month)
    ensures var rest := DayIn(year, month, day);
            var tomorrow := Tomorrow(Date(400 * cycle + year, month, day));
            0 <= rest < 146097 &&
            (if rest < 146096 then CivilIn(cycle, rest + 1) == tomorrow else CivilIn(cycle + 1, 0) == tomorrow)
  {
    hide CivilIn, YearFrom, YearStart, IsLeap, MonthOf, DaysBefore, MonthLength, DayIn;
    SameMonths(cycle, year, month);
    NextDayIs(year, month, day);
    if day < MonthLength(year, month) {
      CivilIs(cycle, year, month, day + 1);
    } else if month < 12 {
      SomeDays(year, month + 1);
      CivilIs(cycle, year, month + 1, 1);
    } else if year < 399 {
      SomeDays(year + 1, 1);
      CivilIs(cycle, year + 1, 1, 1);
    } else {
      SomeDays(0, 1);
      CivilIs(cycle + 1, 0, 1, 1);
    }
  }

  lemma SameMonths(cycle: int, year: nat, month: nat)
    ensures MonthLength(400 * cycle + year, month) == MonthLength(year, month)
  {
    LeapRepeats(year, cycle);
  }

  lemma SomeDays(year: int, month: nat)
    ensures MonthLength(year, month) >= 28
  {
  }

  lemma WeekdaysFollow(day: int)
    ensures Weekday(day + 1) == (Weekday(day) + 1) % 7
  {
  }

  /** The calendar is the one its rules give, day after day, from any day on and across every cycle. */
  lemma {:induction false} CalendarFollowsItsRules(day: int)
    ensures CivilOf(day + 1) == Tomorrow(CivilOf(day))
    ensures CivilOf(719528) == Date(1970, 1, 1) && Weekday(719528) == 4
    ensures Weekday(day + 1) == (Weekday(day) + 1) % 7
  {
    hide *;
    EpochIs();
    EpochIsThursday();
    WeekdaysFollow(day);
    DayAfter(day);
  }

  lemma {:induction false} DayAfter(day: int)
    ensures CivilOf(day + 1) == Tomorrow(CivilOf(day))
  {
    hide CivilIn, CivilOf, Tomorrow;
    var cycle, rest := day / 146097, day % 146097;
    assert day == 146097 * cycle + rest;
    DayAfterIn(cycle, rest);
  }

  lemma {:induction false} DayAfterIn(cycle: int, rest: int)
    requires 0 <= rest < 146097
    ensures CivilOf(146097 * cycle + rest + 1) == Tomorrow(CivilOf(146097 * cycle + rest))
  {
    hide CivilIn, Tomorrow, YearFrom, YearStart, IsLeap, MonthOf, DaysBefore, Weekday, MonthLength, DayIn, CivilOf;
    var year := PartsIn(cycle, rest);
    var date := CivilIn(cycle, rest);
    assert date == Date(400 * cycle + year, date.month, date.day);
    TomorrowIs(cycle, year, date.month, date.day);
    CivilAt(cycle, rest);
    if rest < 146096 {
      CivilAt(cycle, rest + 1);
    } else {
      CivilAt(cycle + 1, 0);
    }
  }

  /** The 400-year cycle has 146,097 days, which are 20,871 weeks. */
  lemma CycleLength()
    ensures YearStart(400) == 146097 == 20871 * 7 && YearStart(0) == 0
  {
    YearStartFormula(400);
  }

  /** Months, days and weekdays repeat after 400 years, which are 20,871 whole weeks. */
  lemma {:induction false} CalendarRepeats(day: int, cycles: int)
    ensures var later := day + 146097 * cycles;
            CivilOf(later).month == CivilOf(day).month && CivilOf(later).day == CivilOf(day).day &&
            Weekday(later) == Weekday(day)
  {
    var cycle, rest := day / 146097, day % 146097;
    CivilAt(cycle + cycles, rest);
    assert 146097 * (cycle + cycles) + rest == day + 146097 * cycles;
    WeeksRepeat(day, cycles);
    hide Weekday, CivilOf, YearFrom, YearStart, IsLeap, MonthOf, DaysBefore;
    assert CivilOf(day) == CivilIn(cycle, rest) by { CivilAt(cycle, rest); }
  }

  lemma WeeksRepeat(day: int, cycles: int)
    ensures Weekday(day + 146097 * cycles) == Weekday(day)
  {
    assert day + 146097 * cycles - 719528 + 4 == (day - 719528 + 4) + 7 * (20871 * cycles);
  }
}
