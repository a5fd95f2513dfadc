/**
 What a cron expression means on the clock of its zone (packages/core/src/schedules/cron.ts):
 which local times match, and how the two day fields come together. Days count from
 1 January 1970 in the zone's own time.
 */
module CronRules {
  import opened WorkflowTypes
  import opened Calendar
  import opened Cron

  /** The instant at which a clock `offset` minutes ahead shows `hour:minute` on a day. */
  function InstantAt(offset: int, day: int, hour: nat, minute: nat): int {
    60000 * (1440 * day + 60 * hour + minute - offset)
  }

  /** A date or a weekday suffices when both fields restrict the days, and both are needed otherwise. */
  predicate IsDayOf(s: Schedule, date: Date, weekday: nat) {
    date.month in s.months &&
    (if s.restrictsDayOfMonth && s.restrictsDayOfWeek
     then date.day in s.daysOfMonth || weekday in s.daysOfWeek
     else date.day in s.daysOfMonth && weekday in s.daysOfWeek)
  }

  /** An instant matches exactly when the clock and the calendar of its zone say so. */
  lemma {:induction false} MatchesOnTheClock(s: Schedule, offset: int, day: int, hour: nat, minute: nat)
    requires hour < 24 && minute < 60
    ensures IsMatch(s, offset, InstantAt(offset, day, hour, minute)) <==>
            hour in s.hours && minute in s.minutes && IsDayOf(s, CivilOf(719528 + day), Weekday(719528 + day))
  {
    MinuteIs(day, hour, minute);
    var local := 1440 * day + 60 * hour + minute;
    var instant := InstantAt(offset, day, hour, minute);
    assert instant % 60000 == 0 && instant / 60000 == local - offset;
    hide CivilOf, Weekday, DayOf, HourOf, MinuteOf;
  }

  /** Only whole minutes match, and each is some time on the clock. */
  lemma {:induction false} WholeMinutesMatch(s: Schedule, offset: int, instant: int) returns (day: int, hour: nat, minute: nat)
    requires IsMatch(s, offset, instant)
    ensures hour < 24 && minute < 60 && instant == InstantAt(offset, day, hour, minute)
  {
    WholeMinute(instant);
    var local := instant / 60000 + offset;
    PartsOfMinute(local);
    day, hour, minute := DayOf(local), HourOf(local), MinuteOf(local);
    hide Matches, DayOf, HourOf, MinuteOf;
  }

  // ---- the two day fields ------------------------------------------------------------------

  function DatesUpTo(last: nat): (dates: set<nat>)
    ensures forall d :: d in dates <==> 1 <= d <= last
  {
    if last == 0 then {} else DatesUpTo(last - 1) + {last}
  }

  /** The schedule by its dates alone: every weekday will do. */
  function ByDate(s: Schedule): Schedule {
    s.(daysOfWeek := {0, 1, 2, 3, 4, 5, 6}, restrictsDayOfWeek := false)
  }

  /** The schedule by its weekdays alone: every date will do. */
  function ByWeekday(s: Schedule): Schedule {
    s.(daysOfMonth := DatesUpTo(31), restrictsDayOfMonth := false)
  }

  lemma {:induction false} DatesAreInRange(day: int)
    ensures 1 <= CivilOf(day).day <= 31 && 1 <= CivilOf(day).month <= 12 && Weekday(day) < 7
  {
    var year := PartsIn(day / 146097, day % 146097);
    hide CivilIn;
  }

  lemma {:induction false} DaysComeTogether(s: Schedule, day: int)
    ensures DayMatches(s, day) <==>
            if s.restrictsDayOfMonth && s.restrictsDayOfWeek then DayMatches(ByDate(s), day) || DayMatches(ByWeekday(s), day)
            else DayMatches(ByDate(s), day) && DayMatches(ByWeekday(s), day)
  {
    DatesAreInRange(day + 719528);
    hide CivilOf, Weekday, DatesUpTo;
  }

  /** With both fields restricted a day matches when it matches by its date or by its weekday; otherwise it must match by both. */
  lemma {:induction false} DayFieldsComeTogether(s: Schedule, offset: int, instant: int)
    ensures IsMatch(s, offset, instant) <==>
            if s.restrictsDayOfMonth && s.restrictsDayOfWeek
            then IsMatch(ByDate(s), offset, instant) || IsMatch(ByWeekday(s), offset, instant)
            else IsMatch(ByDate(s), offset, instant) && IsMatch(ByWeekday(s), offset, instant)
  {
    DaysComeTogether(s, DayOf(instant / 60000 + offset));
    hide DayMatches, DayOf, HourOf, MinuteOf;
  }

  // ---- the search --------------------------------------------------------------------------

  function Earlier(left: Option<int>, right: Option<int>): Option<int> {
    if left.None? then right
    else if right.None? || left.value <= right.value then left
    else right
  }

  /** With both day fields restricted, the search finds the earlier of what it finds by dates and by weekdays. */
  lemma {:induction false} NextIsTheEarlier(s: Schedule, offset: int, after: int, next: Option<int>, byDate: Option<int>, byWeekday: Option<int>)
    requires s.restrictsDayOfMonth && s.restrictsDayOfWeek && IsNextMatch(s, offset, after, next)
    requires IsNextMatch(ByDate(s), offset, after, byDate) && IsNextMatch(ByWeekday(s), offset, after, byWeekday)
    ensures next == Earlier(byDate, byWeekday)
  {
    hide IsMatch, ByDate, ByWeekday;
    forall t
      ensures IsMatch(s, offset, t) <==> IsMatch(ByDate(s), offset, t) || IsMatch(ByWeekday(s), offset, t)
    {
      DayFieldsComeTogether(s, offset, t);
    }
  }

  // ---- expressions ---------------------------------------------------------------------------

  /** The time and the day are among those an expression names. */
  ghost predicate IsNamedTime(fields: seq<seq<PartText>>, date: Date, weekday: nat, hour: nat, minute: nat)
    requires |fields| == 5 && fields[2] != [] && fields[4] != []
  {
    IsNamed(minute, fields[0], 0, 59) && IsNamed(hour, fields[1], 0, 23) && IsNamed(date.month, fields[3], 1, 12) &&
    if fields[2][0].range.Star? || fields[4][0].range.Star?
    then IsNamed(date.day, fields[2], 1, 31) && NamesWeekday(weekday, fields[4])
    else IsNamed(date.day, fields[2], 1, 31) || NamesWeekday(weekday, fields[4])
  }

  /** An expression matches exactly the times it names, on the days its two day fields name together. */
  lemma {:induction false} ExpressionMatches(fields: seq<seq<PartText>>, s: Schedule, offset: int, day: int, hour: nat, minute: nat)
    requires IsReadAs(fields, s) && hour < 24 && minute < 60
    ensures IsMatch(s, offset, InstantAt(offset, day, hour, minute)) <==>
            IsNamedTime(fields, CivilOf(719528 + day), Weekday(719528 + day), hour, minute)
  {
    MatchesOnTheClock(s, offset, day, hour, minute);
    DatesAreInRange(719528 + day);
    hide IsMatch, CivilOf, Weekday, IsNamed, InstantAt, IsField;
  }
}
