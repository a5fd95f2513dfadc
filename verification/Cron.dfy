/**
 Cron schedules in a time zone of fixed offset (packages/core/src/schedules/cron.ts): the
 search for the next matching minute jumps over days and hours, and is exact. Minutes
 count from midnight of 1 January 1970 in the zone's own time.
 */
module Cron {
  import opened WorkflowTypes
  import opened Calendar

  const MAX_SEARCH_STEPS: nat := 200000

  datatype Schedule = Schedule(
    minutes: set<nat>,
    hours: set<nat>,
    daysOfMonth: set<nat>,
    months: set<nat>,
    daysOfWeek: set<nat>,
    restrictsDayOfMonth: bool,
    restrictsDayOfWeek: bool)

  function DayOf(minute: int): int {
    minute / 1440
  }

  function HourOf(minute: int): nat {
    minute % 1440 / 60
  }

  function MinuteOf(minute: int): nat {
    minute % 60
  }

  /** Whether a day matches: both fields when one of them is free, either when both are restricted. */
  predicate DayMatches(s: Schedule, day: int) {
    var date := CivilOf(day + 719528);
    var byDate, byWeekday := date.day in s.daysOfMonth, Weekday(day + 719528) in s.daysOfWeek;
    date.month in s.months && if s.restrictsDayOfMonth && s.restrictsDayOfWeek then byDate || byWeekday else byDate && byWeekday
  }

  predicate Matches(s: Schedule, minute: int) {
    DayMatches(s, DayOf(minute)) && HourOf(minute) in s.hours && MinuteOf(minute) in s.minutes
  }

  /** A parsed schedule has some minute and some hour, all of them in range. */
  ghost predicate IsParsed(s: Schedule) {
    (exists h :: h in s.hours && h < 24) && (forall h :: h in s.hours ==> h < 24) &&
    (exists m :: m in s.minutes && m < 60) && (forall m :: m in s.minutes ==> m < 60)
  }

  // ---- fields --------------------------------------------------------------------------

  /** A part as written between commas: its range, and the step after its slash if it has one. */
  datatype Range = Star | Single(value: nat) | Span(low: nat, high: nat)
  datatype PartText = PartText(range: Range, step: Option<nat>)

  /** The values a part runs over: first, last, and the step between them. */
  datatype Part = Part(start: nat, stop: nat, step: nat)

  /** A single value with a step runs to the end of the field; without one it stands for itself. */
  function PartOf(text: PartText, min: nat, max: nat): Part {
    var step := if text.step.Some? then text.step.value else 1;
    match text.range
    case Star => Part(min, max, step)
    case Single(value) => Part(value, if text.step.Some? then max else value, step)
    case Span(low, high) => Part(low, high, step)
  }

  /** `v` is reached from `value` in whole steps, without passing `stop`. */
  predicate IsReached(v: nat, value: nat, stop: nat, step: nat)
    requires step > 0
    decreases if value <= stop then stop - value + 1 else 0
  {
    value <= stop && (v == value || IsReached(v, value + step, stop, step))
  }

  lemma {:induction false} ReachedIsBetween(v: nat, value: nat, stop: nat, step: nat)
    requires step > 0 && IsReached(v, value, stop, step)
    ensures value <= v <= stop
    decreases if value <= stop then stop - value + 1 else 0
  {
    if v != value {
      ReachedIsBetween(v, value + step, stop, step);
    }
  }

  predicate IsOfPart(v: nat, part: Part) {
    part.step > 0 && IsReached(v, part.start, part.stop, part.step)
  }

  predicate IsPart(part: Part, min: nat, max: nat) {
    part.step > 0 && min <= part.start <= part.stop <= max
  }

  /** Adds the values of one part. */
  method AddPart(collected: set<nat>, part: Part) returns (values: set<nat>)
    requires part.step > 0
    ensures forall v :: v in values <==> v in collected || IsOfPart(v, part)
  {
    values := collected;
    var value := part.start;
    while value <= part.stop
      invariant forall v :: (v in values || IsReached(v, value, part.stop, part.step)) <==> (v in collected || IsOfPart(v, part))
      invariant forall v :: v in values ==> v in collected || IsOfPart(v, part)
      decreases part.stop + part.step - value
    {
      values := values + {value};
      value := value + part.step;
    }
  }

  /** The parts of a field that can be read: none stands still, runs backwards or leaves the field. */
  ghost predicate IsField(parts: seq<PartText>, min: nat, max: nat) {
    forall i :: 0 <= i < |parts| ==> IsPart(PartOf(parts[i], min, max), min, max)
  }

  /** `v` is one of the values a field names. */
  ghost predicate IsNamed(v: nat, parts: seq<PartText>, min: nat, max: nat) {
    exists i :: 0 <= i < |parts| && IsOfPart(v, PartOf(parts[i], min, max))
  }

  lemma {:induction false} NamedIsInRange(v: nat, parts: seq<PartText>, min: nat, max: nat)
    requires IsField(parts, min, max) && IsNamed(v, parts, min, max)
    ensures min <= v <= max
  {
    var i :| 0 <= i < |parts| && IsOfPart(v, PartOf(parts[i], min, max));
    var part := PartOf(parts[i], min, max);
    ReachedIsBetween(v, part.start, part.stop, part.step);
  }

  /** Every field that can be read names some value. */
  lemma {:induction false} FieldNamesSomething(parts: seq<PartText>, min: nat, max: nat)
    requires IsField(parts, min, max) && parts != []
    ensures IsNamed(PartOf(parts[0], min, max).start, parts, min, max)
  {
    assert IsOfPart(PartOf(parts[0], min, max).start, PartOf(parts[0], min, max));
  }

  /** Collects the values of a field's parts. */
  method ParseField(parts: seq<PartText>, min: nat, max: nat) returns (values: Option<set<nat>>)
    ensures values.Some? <==> IsField(parts, min, max)
    ensures values.Some? ==> forall v :: v in values.value <==> IsNamed(v, parts, min, max)
  {
    var collected: set<nat> := {};
    for i := 0 to |parts|
      invariant forall k :: 0 <= k < i ==> IsPart(PartOf(parts[k], min, max), min, max)
      invariant forall v :: v in collected <==> exists k :: 0 <= k < i && IsOfPart(v, PartOf(parts[k], min, max))
    {
      var part := PartOf(parts[i], min, max);
      if !IsPart(part, min, max) {
        return None;
      }
      collected := AddPart(collected, part);
    }
    return Some(collected);
  }

  /** Whether a field restricts the days, which it does unless it begins with a star. */
  predicate Restricts(parts: seq<PartText>)
    requires parts != []
  {
    !parts[0].range.Star?
  }

  /** The five fields, in order: minute, hour, day of month, month and day of week. */
  ghost predicate AreFields(fields: seq<seq<PartText>>) {
    |fields| == 5 && IsField(fields[0], 0, 59) && IsField(fields[1], 0, 23) && IsField(fields[2], 1, 31) &&
    IsField(fields[3], 1, 12) && IsField(fields[4], 0, 7)
  }

  /** The schedule an expression is read as. */
  ghost predicate IsReadAs(fields: seq<seq<PartText>>, s: Schedule) {
    AreFields(fields) && IsParsed(s) && (forall i :: 0 <= i < 5 ==> fields[i] != []) &&
    (forall v :: v in s.minutes <==> IsNamed(v, fields[0], 0, 59)) &&
    (forall v :: v in s.hours <==> IsNamed(v, fields[1], 0, 23)) &&
    (forall v :: v in s.daysOfMonth <==> IsNamed(v, fields[2], 1, 31)) &&
    (forall v :: v in s.months <==> IsNamed(v, fields[3], 1, 12)) &&
    (forall v :: v in s.daysOfWeek <==> v < 7 && NamesWeekday(v, fields[4])) &&
    s.restrictsDayOfMonth == Restricts(fields[2]) && s.restrictsDayOfWeek == Restricts(fields[4])
  }

  /** Sunday goes by 0 and by 7. */
  ghost predicate NamesWeekday(weekday: nat, parts: seq<PartText>) {
    IsNamed(weekday, parts, 0, 7) || (weekday == 0 && IsNamed(7, parts, 0, 7))
  }

  /** Reads an expression split at its blanks and commas; day of week 7 means Sunday, which is day 0. */
  method ParseCron(fields: seq<seq<PartText>>) returns (parsed: Option<Schedule>)
    requires forall i :: 0 <= i < |fields| ==> fields[i] != []
    ensures parsed.Some? <==> AreFields(fields)
    ensures parsed.Some? ==> IsReadAs(fields, parsed.value)
  {
    if |fields| != 5 {
      return None;
    }
    var weekdays := ParseField(fields[4], 0, 7);
    var minutes := ParseField(fields[0], 0, 59);
    var hours := ParseField(fields[1], 0, 23);
    var days := ParseField(fields[2], 1, 31);
    var months := ParseField(fields[3], 1, 12);
    hide IsField, IsNamed;
    if minutes.None? || hours.None? || days.None? || months.None? || weekdays.None? {
      return None;
    }
    forall v | v in weekdays.value
      ensures v <= 7
    {
      NamedIsInRange(v, fields[4], 0, 7);
    }
    IsParsedWhen(fields, minutes.value, hours.value);
    var daysOfWeek := set v | v in weekdays.value :: if v == 7 then 0 else v;
    return Some(Schedule(minutes.value, hours.value, days.value, months.value, daysOfWeek, Restricts(fields[2]), Restricts(fields[4])));
  }

  lemma {:induction false} IsParsedWhen(fields: seq<seq<PartText>>, minutes: set<nat>, hours: set<nat>)
    requires |fields| == 5 && fields[0] != [] && fields[1] != []
    requires IsField(fields[0], 0, 59) && IsField(fields[1], 0, 23)
    requires forall v :: v in minutes <==> IsNamed(v, fields[0], 0, 59)
    requires forall v :: v in hours <==> IsNamed(v, fields[1], 0, 23)
    ensures (exists h :: h in hours && h < 24) && forall h :: h in hours ==> h < 24
    ensures (exists m :: m in minutes && m < 60) && forall m :: m in minutes ==> m < 60
  {
    FieldNamesSomething(fields[0], 0, 59);
    FieldNamesSomething(fields[1], 0, 23);
    hide IsField, IsNamed;
    forall v | v in minutes
      ensures v < 60
    {
      NamedIsInRange(v, fields[0], 0, 59);
    }
    forall v | v in hours
      ensures v < 24
    {
      NamedIsInRange(v, fields[1], 0, 23);
    }
    assert PartOf(fields[0][0], 0, 59).start in minutes;
    assert PartOf(fields[1][0], 0, 23).start in hours;
  }

  // ---- the search ------------------------------------------------------------------------

  lemma PartsOfMinute(minute: int)
    ensures minute == 1440 * DayOf(minute) + 60 * HourOf(minute) + MinuteOf(minute)
    ensures 0 <= HourOf(minute) < 24 && 0 <= MinuteOf(minute) < 60
  {
    assert minute % 1440 % 60 == minute % 60;
  }

  lemma MinuteIs(day: int, hour: nat, m: nat)
    requires hour < 24 && m < 60
    ensures var minute := 1440 * day + 60 * hour + m;
            DayOf(minute) == day && HourOf(minute) == hour && MinuteOf(minute) == m
  {
    var rest := 60 * hour + m;
    assert 0 <= rest < 1440;
    assert (1440 * day + rest) / 1440 == day && (1440 * day + rest) % 1440 == rest;
    assert rest / 60 == hour && (1440 * day + rest) % 60 == m by { assert 1440 * day + rest == 60 * (24 * day + hour) + m; }
  }

  lemma {:induction false} DayRepeats(s: Schedule, day: int, cycles: int)
    ensures DayMatches(s, day + 146097 * cycles) == DayMatches(s, day)
  {
    CalendarRepeats(day + 719528, cycles);
    hide CivilOf, Weekday;
    assert day + 146097 * cycles + 719528 == day + 719528 + 146097 * cycles;
  }

  /** What matches once matches again after every 400 years. */
  lemma {:induction false} MatchesRepeat(s: Schedule, minute: int, cycles: int)
    ensures Matches(s, minute + 1440 * (146097 * cycles)) == Matches(s, minute)
  {
    var day, hour, m := DayOf(minute), HourOf(minute), MinuteOf(minute);
    PartsOfMinute(minute);
    hide DayMatches, DayOf, HourOf, MinuteOf;
    var later := 1440 * (day + 146097 * cycles) + 60 * hour + m;
    assert later == minute + 1440 * (146097 * cycles);
    MinuteIs(day + 146097 * cycles, hour, m);
    DayRepeats(s, day, cycles);
  }

  /** Nothing matches from `start` up to `stop`. */
  ghost predicate NoneBetween(s: Schedule, start: int, stop: int) {
    forall minute {:trigger Matches(s, minute)} :: start <= minute < stop ==> !Matches(s, minute)
  }

  /** A day that does not match has no matching minute left. */
  lemma {:induction false} SkipDay(s: Schedule, start: int, minute: int)
    requires NoneBetween(s, start, minute) && !DayMatches(s, DayOf(minute))
    ensures var next := 1440 * (DayOf(minute) + 1);
            minute < next && NoneBetween(s, start, next) && DayOf(next) == DayOf(minute) + 1 && HourOf(next) == 0 && MinuteOf(next) == 0
  {
    var day := DayOf(minute);
    PartsOfMinute(minute);
    MinuteIs(day + 1, 0, 0);
    hide DayMatches;
    forall m | minute <= m < 1440 * (day + 1)
      ensures !Matches(s, m)
    {
      assert DayOf(m) == day;
    }
  }

  /** An hour that does not match has no matching minute left. */
  lemma {:induction false} SkipHour(s: Schedule, start: int, minute: int)
    requires NoneBetween(s, start, minute) && HourOf(minute) !in s.hours
    ensures var next := minute + 60 - MinuteOf(minute);
            minute < next && NoneBetween(s, start, next) && MinuteOf(next) == 0 &&
            if HourOf(minute) < 23 then DayOf(next) == DayOf(minute) && HourOf(next) == HourOf(minute) + 1
            else DayOf(next) == DayOf(minute) + 1 && HourOf(next) == 0
  {
    var day, hour := DayOf(minute), HourOf(minute);
    PartsOfMinute(minute);
    if hour < 23 {
      MinuteIs(day, hour + 1, 0);
    } else {
      MinuteIs(day + 1, 0, 0);
    }
    hide DayMatches;
    forall m | minute <= m < minute + 60 - MinuteOf(minute)
      ensures !Matches(s, m)
    {
      SameHour(minute, m);
    }
  }

  lemma SameHour(minute: int, later: int)
    requires minute <= later < minute + 60 - MinuteOf(minute)
    ensures HourOf(later) == HourOf(minute) && DayOf(later) == DayOf(minute)
  {
    PartsOfMinute(minute);
    MinuteIs(DayOf(minute), HourOf(minute), MinuteOf(minute) + (later - minute));
  }

  // ---- how many steps a search can take --------------------------------------------------

  /** An earlier moment of the same day that lies in the searched stretch does not match. */
  lemma {:induction false} EarlierFailed(s: Schedule, start: int, minute: int, h: nat, m: nat)
    requires NoneBetween(s, start, minute) && DayMatches(s, DayOf(minute)) && h < 24 && m < 60
    requires start <= 1440 * DayOf(minute) + 60 * h + m < minute
    ensures h !in s.hours || m !in s.minutes
  {
    MinuteIs(DayOf(minute), h, m);
    hide DayMatches;
    assert !Matches(s, 1440 * DayOf(minute) + 60 * h + m);
  }

  /** On a matching day entered at midnight, an hour that fails is not the last: a matching one is still to come. */
  lemma {:induction false} HourStillToCome(s: Schedule, start: int, minute: int)
    requires IsParsed(s) && NoneBetween(s, start, minute) && start <= 1440 * DayOf(minute)
    requires DayMatches(s, DayOf(minute)) && HourOf(minute) !in s.hours
    ensures HourOf(minute) < 23
  {
    PartsOfMinute(minute);
    var h :| h in s.hours && h < 24;
    var m :| m in s.minutes && m < 60;
    hide DayMatches, NoneBetween;
    if h < HourOf(minute) {
      EarlierFailed(s, start, minute, h, m);
    }
  }

  /** In a matching hour entered at its first minute, a minute that fails is not the last. */
  lemma {:induction false} MinuteStillToCome(s: Schedule, start: int, minute: int)
    requires IsParsed(s) && NoneBetween(s, start, minute) && start <= minute - MinuteOf(minute)
    requires DayMatches(s, DayOf(minute)) && HourOf(minute) in s.hours && MinuteOf(minute) !in s.minutes
    ensures MinuteOf(minute) < 59
  {
    PartsOfMinute(minute);
    var m :| m in s.minutes && m < 60;
    hide DayMatches, NoneBetween;
    if m < MinuteOf(minute) {
      EarlierFailed(s, start, minute, HourOf(minute), m);
    }
  }

  lemma NextMinuteIs(minute: int)
    ensures MinuteOf(minute) < 59 ==>
      DayOf(minute + 1) == DayOf(minute) && HourOf(minute + 1) == HourOf(minute) && MinuteOf(minute + 1) == MinuteOf(minute) + 1
    ensures MinuteOf(minute) == 59 ==>
      (MinuteOf(minute + 1) == 0 &&
       if HourOf(minute) < 23 then DayOf(minute + 1) == DayOf(minute) && HourOf(minute + 1) == HourOf(minute) + 1
       else DayOf(minute + 1) == DayOf(minute) + 1 && HourOf(minute + 1) == 0)
  {
    PartsOfMinute(minute);
    if MinuteOf(minute) < 59 {
      MinuteIs(DayOf(minute), HourOf(minute), MinuteOf(minute) + 1);
    } else if HourOf(minute) < 23 {
      MinuteIs(DayOf(minute), HourOf(minute) + 1, 0);
    } else {
      MinuteIs(DayOf(minute) + 1, 0, 0);
    }
  }

  /**
   The search is paced: minute by minute in its first hour, at most one step an hour and a
   minute on its first day, and from then on one step a day until it meets a day that
   matches, which it does not leave.
   */
  ghost predicate IsPaced(s: Schedule, start: int, minute: int, steps: nat) {
    var days := DayOf(minute) - DayOf(start);
    start <= minute && 0 <= days && NoneBetween(s, start, minute) &&
    if minute < start + 60 - MinuteOf(start) then steps == minute - start
    else
      (if days == 0 then steps <= 84 + HourOf(minute) + MinuteOf(minute)
       else steps <= 200 + days + HourOf(minute) + MinuteOf(minute)) &&
      (MinuteOf(minute) > 0 ==> DayMatches(s, DayOf(minute)) && HourOf(minute) in s.hours) &&
      (days > 0 && (HourOf(minute) > 0 || MinuteOf(minute) > 0) ==> DayMatches(s, DayOf(minute)))
  }

  lemma {:induction false} FirstHour(start: int, minute: int)
    requires start <= minute < start + 60 - MinuteOf(start)
    ensures DayOf(minute) == DayOf(start) && HourOf(minute) == HourOf(start) && MinuteOf(minute) == MinuteOf(start) + (minute - start)
  {
    PartsOfMinute(start);
    MinuteIs(DayOf(start), HourOf(start), MinuteOf(start) + (minute - start));
  }

  /** The day after the first is past the first hour. */
  lemma {:induction false} PastFirstHour(start: int, minute: int)
    requires DayOf(start) < DayOf(minute)
    ensures start + 60 - MinuteOf(start) <= minute && start <= 1440 * DayOf(minute)
  {
    PartsOfMinute(start);
    PartsOfMinute(minute);
  }

  lemma {:induction false} DayStepPaced(s: Schedule, start: int, minute: int, steps: nat)
    requires IsPaced(s, start, minute, steps) && !DayMatches(s, DayOf(minute))
    ensures IsPaced(s, start, 1440 * (DayOf(minute) + 1), steps + 1)
  {
    hide DayMatches, NoneBetween, DayOf, HourOf, MinuteOf;
    SkipDay(s, start, minute);
    PartsOfMinute(minute);
    PartsOfMinute(start);
    PastFirstHour(start, 1440 * (DayOf(minute) + 1));
  }

  lemma {:induction false} HourStepPaced(s: Schedule, start: int, minute: int, steps: nat)
    requires IsParsed(s) && IsPaced(s, start, minute, steps)
    requires DayMatches(s, DayOf(minute)) && HourOf(minute) !in s.hours
    ensures IsPaced(s, start, minute + 60 - MinuteOf(minute), steps + 1)
  {
    hide DayMatches, NoneBetween, DayOf, HourOf, MinuteOf, IsParsed;
    SkipHour(s, start, minute);
    PartsOfMinute(minute);
    PartsOfMinute(start);
    if DayOf(start) < DayOf(minute) {
      PastFirstHour(start, minute);
      HourStillToCome(s, start, minute);
    }
    if minute < start + 60 - MinuteOf(start) {
      FirstHour(start, minute);
    }
  }

  lemma {:induction false} SkipMinute(s: Schedule, start: int, minute: int)
    requires NoneBetween(s, start, minute) && MinuteOf(minute) !in s.minutes
    ensures NoneBetween(s, start, minute + 1)
  {
    hide DayMatches, HourOf, MinuteOf;
    forall m | start <= m < minute + 1
      ensures !Matches(s, m)
    {
    }
  }

  lemma {:induction false} MinuteStepPaced(s: Schedule, start: int, minute: int, steps: nat)
    requires IsParsed(s) && IsPaced(s, start, minute, steps)
    requires DayMatches(s, DayOf(minute)) && HourOf(minute) in s.hours && MinuteOf(minute) !in s.minutes
    ensures IsPaced(s, start, minute + 1, steps + 1)
  {
    hide DayMatches, NoneBetween, DayOf, HourOf, MinuteOf, IsParsed;
    NextMinuteIs(minute);
    PartsOfMinute(minute);
    PartsOfMinute(start);
    SkipMinute(s, start, minute);
    if minute < start + 60 - MinuteOf(start) {
      FirstHour(start, minute);
    } else {
      MinuteStillToCome(s, start, minute);
    }
  }

  /** Every later minute has the same place in the 400-year cycle as one of the first cycle. */
  lemma {:induction false} PlaceInCycle(first: int, later: int) returns (cycles: int, same: int)
    ensures later == same + 1440 * (146097 * cycles) && first <= same < first + 1440 * 146097
  {
    cycles := (later - first) / 210379680;
    same := first + (later - first) % 210379680;
  }

  lemma {:induction false} CycleIsSearched(start: int, minute: int)
    requires DayOf(start) + 146098 <= DayOf(minute)
    ensures start <= 1440 * (DayOf(start) + 1) && 1440 * (DayOf(start) + 1) + 1440 * 146097 <= minute
  {
    PartsOfMinute(start);
    PartsOfMinute(minute);
    hide DayOf, HourOf, MinuteOf;
  }

  /** After a whole cycle of days without a match, nothing ever matches again. */
  lemma {:induction false} NeverAgain(s: Schedule, start: int, minute: int, later: int)
    requires NoneBetween(s, start, minute) && start <= later
    requires DayOf(start) + 146098 <= DayOf(minute)
    ensures !Matches(s, later)
  {
    CycleIsSearched(start, minute);
    var cycles, same := PlaceInCycle(1440 * (DayOf(start) + 1), later);
    hide Matches, DayOf;
    MatchesRepeat(s, same, cycles);
  }

  /**
   The first matching minute after `after`. The search gives up after 200,000 steps, and
   does so only where no minute ever matches.
   */
  method NextCronMinute(s: Schedule, after: int) returns (found: Option<int>)
    requires IsParsed(s)
    ensures found.Some? ==> after < found.value && Matches(s, found.value) && NoneBetween(s, after + 1, found.value)
    ensures found.None? ==> forall minute {:trigger Matches(s, minute)} :: after < minute ==> !Matches(s, minute)
  {
    hide DayMatches, NoneBetween, DayOf, HourOf, MinuteOf, IsParsed;
    var start := after + 1;
    var candidate := start;
    assert IsPaced(s, start, start, 0) by { StartIsPaced(s, start); }
    for step := 0 to MAX_SEARCH_STEPS
      invariant IsPaced(s, start, candidate, step)
    {
      if !DayMatches(s, DayOf(candidate)) {
        DayStepPaced(s, start, candidate, step);
        PartsOfMinute(candidate);
        var minutesIntoDay := HourOf(candidate) * 60 + MinuteOf(candidate);
        candidate := candidate + (24 * 60 - minutesIntoDay);
      } else if HourOf(candidate) !in s.hours {
        HourStepPaced(s, start, candidate, step);
        candidate := candidate + (60 - MinuteOf(candidate));
      } else if MinuteOf(candidate) !in s.minutes {
        MinuteStepPaced(s, start, candidate, step);
        candidate := candidate + 1;
      } else {
        return Some(candidate);
      }
    }
    SearchedEnough(s, start, candidate);
    forall minute | after < minute
      ensures !Matches(s, minute)
    {
      NeverAgain(s, start, candidate, minute);
    }
    return None;
  }

  lemma {:induction false} StartIsPaced(s: Schedule, start: int)
    ensures IsPaced(s, start, start, 0)
  {
    PartsOfMinute(start);
  }

  lemma {:induction false} SearchedEnough(s: Schedule, start: int, minute: int)
    requires IsPaced(s, start, minute, MAX_SEARCH_STEPS)
    ensures DayOf(start) + 146098 <= DayOf(minute) && NoneBetween(s, start, minute)
  {
    PartsOfMinute(minute);
    PartsOfMinute(start);
    hide NoneBetween, DayOf, HourOf, MinuteOf, DayMatches;
  }

  // ---- instants ----------------------------------------------------------------------------

  /** Whether an instant, in milliseconds, is a whole minute that matches in a zone `offset` minutes ahead. */
  predicate IsMatch(s: Schedule, offset: int, instant: int) {
    instant % 60000 == 0 && Matches(s, instant / 60000 + offset)
  }

  ghost predicate NoMatchBetween(s: Schedule, offset: int, start: int, stop: int) {
    forall t {:trigger IsMatch(s, offset, t)} :: start < t < stop ==> !IsMatch(s, offset, t)
  }

  /** `next` is the first match after `after`, or there is none. */
  ghost predicate IsNextMatch(s: Schedule, offset: int, after: int, next: Option<int>) {
    match next
    case Some(t) => after < t && IsMatch(s, offset, t) && NoMatchBetween(s, offset, after, t)
    case None => forall t {:trigger IsMatch(s, offset, t)} :: after < t ==> !IsMatch(s, offset, t)
  }

  lemma WholeMinute(instant: int)
    requires instant % 60000 == 0
    ensures instant == 60000 * (instant / 60000)
  {
  }

  lemma {:induction false} MatchRecurs(s: Schedule, offset: int, instant: int, cycles: int)
    requires IsMatch(s, offset, instant)
    ensures IsMatch(s, offset, instant + 60000 * (1440 * (146097 * cycles)))
  {
    WholeMinute(instant);
    var minute, more := instant / 60000, 1440 * (146097 * cycles);
    assert (60000 * (minute + more)) / 60000 == minute + more && (60000 * (minute + more)) % 60000 == 0;
    hide Matches;
    MatchesRepeat(s, minute + offset, cycles);
    assert minute + offset + more == minute + more + offset;
  }

  /** A schedule that matches once matches again, later than any given time. */
  lemma {:induction false} MatchesAgain(s: Schedule, offset: int, instant: int, after: int) returns (later: int)
    requires IsMatch(s, offset, instant)
    ensures after < later && IsMatch(s, offset, later)
  {
    var cycles := if after > instant then after - instant + 1 else 1;
    later := instant + 60000 * (1440 * (146097 * cycles));
    MatchRecurs(s, offset, instant, cycles);
  }

  /** The first matching instant strictly after `after`, if any instant after it ever matches. */
  method NextCronTime(s: Schedule, offset: int, after: int) returns (next: Option<int>)
    requires IsParsed(s)
    ensures next.Some? ==> after < next.value && IsMatch(s, offset, next.value) && NoMatchBetween(s, offset, after, next.value)
    ensures next.None? ==> forall t {:trigger IsMatch(s, offset, t)} :: after < t ==> !IsMatch(s, offset, t)
    ensures IsNextMatch(s, offset, after, next)
  {
    var now := after / 60000 + offset;
    var found := NextCronMinute(s, now);
    forall t | after < t && t % 60000 == 0
      ensures now < t / 60000 + offset
    {
      WholeMinute(t);
    }
    hide Matches;
    if found.None? {
      return None;
    }
    next := Some(60000 * (found.value - offset));
    assert next.value / 60000 == found.value - offset && next.value % 60000 == 0;
    forall t | after < t < next.value
      ensures !IsMatch(s, offset, t)
    {
      if t % 60000 == 0 {
        WholeMinute(t);
        assert !Matches(s, t / 60000 + offset);
      }
    }
  }

  /**
   Every matching instant from `start` up to `stop`, in order, at most `limit` of them;
   nothing when the schedule never matches again.
   */
  method CronTimesBetween(s: Schedule, offset: int, start: int, stop: int, limit: nat)
    returns (times: seq<int>, neverMatches: bool)
    requires IsParsed(s)
    ensures |times| <= limit
    ensures forall i :: 0 <= i < |times| ==> start <= times[i] < stop && IsMatch(s, offset, times[i])
    ensures forall i, j :: 0 <= i < j < |times| ==> times[i] < times[j]
    ensures forall t :: start <= t < stop && IsMatch(s, offset, t) ==>
      t in times || (|times| == limit && (times == [] || times[|times| - 1] < t))
    ensures neverMatches ==> forall t :: (if times == [] then start - 1 else times[|times| - 1]) < t ==> !IsMatch(s, offset, t)
  {
    hide IsMatch, IsParsed;
    times, neverMatches := [], false;
    var cursor := start - 1;
    while |times| < limit
      invariant |times| <= limit && cursor == if times == [] then start - 1 else times[|times| - 1]
      invariant forall i :: 0 <= i < |times| ==> start <= times[i] < stop && times[i] <= cursor && IsMatch(s, offset, times[i])
      invariant forall i, j :: 0 <= i < j < |times| ==> times[i] < times[j]
      invariant forall t :: start <= t <= cursor && IsMatch(s, offset, t) ==> t in times
      decreases limit - |times|
    {
      var next := NextCronTime(s, offset, cursor);
      if next.None? {
        neverMatches := true;
        return;
      }
      if next.value >= stop {
        return;
      }
      times := times + [next.value];
      cursor := next.value;
    }
  }
}
