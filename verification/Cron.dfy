/** Cron expressions, from their tokens on, and the search for the next occurrence. */
module Cron {
  import opened Wrappers
  import opened Calendar

  // ----- Parsing

  /** What a token is worth as a number. */
  datatype Numeral = Integer(value: int) | NotInteger

  /** The text of a part before the slash: nothing, a star, or one or two tokens around a dash. */
  datatype Span = Blank | Star | Range(start: Numeral, end: Option<Numeral>)

  datatype Part = Part(span: Span, step: Option<Numeral>)

  /** The parts of a field between its commas. */
  type Field = f: seq<Part> | f != [] witness [Part(Star, None)]

  datatype Bounds = Bounds(min: int, max: int)

  const MINUTES := Bounds(0, 59)
  const HOURS := Bounds(0, 23)
  const DAYS := Bounds(1, 31)
  const MONTHS := Bounds(1, 12)
  const WEEKDAYS := Bounds(0, 7)

  datatype Error = WrongFieldCount | EmptyPart | BadStep | OutOfRange | MatchesNothing | NoOccurrence

  datatype CronFields = CronFields(
    minute: set<int>, hour: set<int>, day: set<int>, month: set<int>, weekday: set<int>,
    dayRestricted: bool, weekdayRestricted: bool)

  /** Why a part is refused. */
  function Refusal(part: Part, bounds: Bounds): Option<Error> {
    if part.span.Blank? then Some(EmptyPart)
    else if part.step.Some? && !(part.step.value.Integer? && part.step.value.value >= 1) then Some(BadStep)
    else if part.span.Star? then None
    else
      var end := if part.span.end.Some? then part.span.end.value else part.span.start;
      if part.span.start.Integer? && end.Integer? && bounds.min <= part.span.start.value <= end.value <= bounds.max
      then None else Some(OutOfRange)
  }

  function StepOf(part: Part, bounds: Bounds): (r: int)
    requires Refusal(part, bounds).None?
    ensures r >= 1
  {
    if part.step.Some? then part.step.value.value else 1
  }

  function First(part: Part, bounds: Bounds): int
    requires Refusal(part, bounds).None?
  {
    if part.span.Star? then bounds.min else part.span.start.value
  }

  function Last(part: Part, bounds: Bounds): int
    requires Refusal(part, bounds).None?
  {
    if part.span.Star? then bounds.max
    else if part.span.end.Some? then part.span.end.value.value else part.span.start.value
  }

  predicate OnStep(start: int, step: int, v: int)
    requires step >= 1
  {
    (v - start) % step == 0
  }

  /** A part stands for every step-th value of its span, from the first one on. */
  predicate Selects(part: Part, bounds: Bounds, v: int)
    requires Refusal(part, bounds).None?
  {
    First(part, bounds) <= v <= Last(part, bounds) && OnStep(First(part, bounds), StepOf(part, bounds), v)
  }

  predicate Selected(parts: seq<Part>, bounds: Bounds, v: int)
    requires forall part <- parts :: Refusal(part, bounds).None?
  {
    exists part <- parts :: Selects(part, bounds, v)
  }

  lemma MultiplesInOrder(step: int, p: int, q: int)
    requires step >= 0 && p <= q
    ensures step * p <= step * q
  {
  }

  lemma MultipleStepsOn(step: int, p: int)
    requires step >= 1
    ensures OnStep(0, step, step * p)
  {
    var q := step * p / step;
    if q < p {
      MultiplesInOrder(step, q + 1, p);
    } else if p < q {
      MultiplesInOrder(step, p + 1, q);
    }
  }

  /** From one value on the step to the next, there is none between. */
  lemma NextOnStep(start: int, step: int, value: int)
    requires step >= 1 && OnStep(start, step, value)
    ensures OnStep(start, step, value + step)
    ensures forall v :: value < v < value + step ==> !OnStep(start, step, v)
  {
    var p := (value - start) / step;
    MultipleStepsOn(step, p + 1);
    assert step * (p + 1) == value + step - start;
    forall v {:trigger OnStep(start, step, v)} | value < v < value + step
      ensures !OnStep(start, step, v)
    {
      var q := (v - start) / step;
      if OnStep(start, step, v) && q <= p {
        MultiplesInOrder(step, q, p);
      } else if OnStep(start, step, v) {
        MultiplesInOrder(step, p + 1, q);
      }
    }
  }

  method AddRange(values: set<int>, start: int, end: int, step: int) returns (r: set<int>)
    requires step >= 1
    ensures forall v :: v in r <==> v in values || (start <= v <= end && OnStep(start, step, v))
  {
    r := values;
    var value := start;
    MultipleStepsOn(step, 0);
    assert OnStep(start, step, value);
    hide OnStep;
    while value <= end
      invariant value >= start && OnStep(start, step, value)
      invariant forall v :: v in r <==> v in values || (start <= v <= end && v < value && OnStep(start, step, v))
    {
      r := r + {value};
      NextOnStep(start, step, value);
      value := value + step;
    }
  }

  lemma SelectedByOneMore(parts: seq<Part>, part: Part, bounds: Bounds, v: int)
    requires forall p <- parts + [part] :: Refusal(p, bounds).None?
    requires part in parts + [part] && forall p <- parts :: p in parts + [part]
    ensures Selected(parts + [part], bounds, v) <==> Selected(parts, bounds, v) || Selects(part, bounds, v)
  {
    hide Selects;
    if Selected(parts + [part], bounds, v) {
      var p :| p in parts + [part] && Selects(p, bounds, v);
    }
  }

  lemma PartAdds(parts: seq<Part>, part: Part, bounds: Bounds, before: set<int>, values: set<int>)
    requires bounds.min <= bounds.max
    requires forall p <- parts + [part] :: Refusal(p, bounds).None?
    requires part in parts + [part] && forall p <- parts :: p in parts + [part]
    requires forall v :: v in before <==> Selected(parts, bounds, v)
    requires forall v :: v in values <==> v in before || Selects(part, bounds, v)
    ensures values != {} && forall v :: v in values <==> Selected(parts + [part], bounds, v)
  {
    assert Selects(part, bounds, First(part, bounds));
    forall v
      ensures v in values <==> Selected(parts + [part], bounds, v)
    {
      SelectedByOneMore(parts, part, bounds, v);
    }
  }

  /** Every part is good, or the first bad one tells why not; a field without a bad part always selects something. */
  method ParseField(field: Field, bounds: Bounds) returns (r: Result<set<int>, Error>)
    requires bounds.min <= bounds.max
    ensures r.Ok? <==> forall part <- field :: Refusal(part, bounds).None?
    ensures r.Ok? ==> r.value != {} && forall v :: v in r.value <==> Selected(field, bounds, v)
    ensures r.Err? ==> exists i :: 0 <= i < |field| && Refusal(field[i], bounds) == Some(r.error)
                                   && forall part <- field[..i] :: Refusal(part, bounds).None?
  {
    var values := {};
    for i := 0 to |field|
      invariant forall part <- field[..i] :: Refusal(part, bounds).None?
      invariant forall v :: v in values <==> Selected(field[..i], bounds, v)
      invariant i > 0 ==> values != {}
    {
      var part := field[i];
      assert part in field && field[..i + 1] == field[..i] + [part];
      if part.span.Blank? {
        return Err(EmptyPart);
      }
      var step := if part.step.None? then Integer(1) else part.step.value;
      if !step.Integer? || step.value < 1 {
        return Err(BadStep);
      }
      if part.span.Star? {
        ghost var before := values;
        values := AddRange(values, bounds.min, bounds.max, step.value);
        PartAdds(field[..i], part, bounds, before, values);
        continue;
      }
      var start := part.span.start;
      var end := if part.span.end.None? then start else part.span.end.value;
      if !start.Integer? || !end.Integer? || start.value < bounds.min || end.value > bounds.max || start.value > end.value {
        return Err(OutOfRange);
      }
      ghost var before := values;
      values := AddRange(values, start.value, end.value, step.value);
      PartAdds(field[..i], part, bounds, before, values);
    }
    assert field[..|field|] == field;
    if values == {} {
      return Err(MatchesNothing);
    }
    return Ok(values);
  }

  predicate Within(values: set<int>, low: int, high: int) {
    values != {} && forall v <- values :: low <= v <= high
  }

  /** What parsing guarantees of the fields. */
  predicate Parsed(cron: CronFields) {
    && Within(cron.minute, 0, 59) && Within(cron.hour, 0, 23) && Within(cron.day, 1, 31)
    && Within(cron.month, 1, 12) && Within(cron.weekday, 0, 6)
  }

  predicate Restricted(field: Field) {
    field != [Part(Star, None)]
  }

  predicate Good(field: Field, bounds: Bounds) {
    forall part <- field :: Refusal(part, bounds).None?
  }

  /** Seven is Sunday too. */
  method SundaysAsZero(values: set<int>) returns (r: set<int>)
    ensures forall v :: v in r <==> (v in values && v != 7) || (v == 0 && 7 in values)
  {
    r := {};
    var rest := values;
    while rest != {}
      invariant rest <= values
      invariant forall v :: v in r <==> (v in values - rest && v != 7) || (v == 0 && 7 in values - rest)
    {
      ghost var some := AnyMember(rest);
      var value :| value in rest;
      r := r + {if value == 7 then 0 else value};
      rest := rest - {value};
    }
  }

  method ParseCron(fields: seq<Field>) returns (r: Result<CronFields, Error>)
    ensures r.Ok? <==> |fields| == 5 && Good(fields[0], MINUTES) && Good(fields[1], HOURS) && Good(fields[2], DAYS)
                       && Good(fields[3], MONTHS) && Good(fields[4], WEEKDAYS)
    ensures r.Ok? ==>
      && Parsed(r.value)
      && (forall v :: v in r.value.minute <==> Selected(fields[0], MINUTES, v))
      && (forall v :: v in r.value.hour <==> Selected(fields[1], HOURS, v))
      && (forall v :: v in r.value.day <==> Selected(fields[2], DAYS, v))
      && (forall v :: v in r.value.month <==> Selected(fields[3], MONTHS, v))
      && (forall v :: v in r.value.weekday <==>
           0 <= v < 7 && (Selected(fields[4], WEEKDAYS, v) || (v == 0 && Selected(fields[4], WEEKDAYS, 7))))
      && r.value.dayRestricted == Restricted(fields[2]) && r.value.weekdayRestricted == Restricted(fields[4])
  {
    if |fields| != 5 {
      return Err(WrongFieldCount);
    }
    var parsed := ParseField(fields[4], WEEKDAYS);
    if parsed.Err? {
      return Err(parsed.error);
    }
    var weekday := SundaysAsZero(parsed.value);
    var minute := ParseField(fields[0], MINUTES);
    if minute.Err? {
      return Err(minute.error);
    }
    var hour := ParseField(fields[1], HOURS);
    if hour.Err? {
      return Err(hour.error);
    }
    var day := ParseField(fields[2], DAYS);
    if day.Err? {
      return Err(day.error);
    }
    var month := ParseField(fields[3], MONTHS);
    if month.Err? {
      return Err(month.error);
    }
    assert weekday != {} by {
      var v := AnyMember(parsed.value);
      assert (if v == 7 then 0 else v) in weekday;
    }
    return Ok(CronFields(minute.value, hour.value, day.value, month.value, weekday,
                         Restricted(fields[2]), Restricted(fields[4])));
  }

  // ----- Matching

  predicate DayMatches(cron: CronFields, day: int) {
    var byDate, byWeekday := DayOfMonth(day) in cron.day, Weekday(day) in cron.weekday;
    if cron.dayRestricted && cron.weekdayRestricted then byDate || byWeekday
    else if cron.dayRestricted then byDate
    else if cron.weekdayRestricted then byWeekday
    else true
  }

  predicate Matches(cron: CronFields, t: int) {
    && Minute(t) in cron.minute && Hour(t) in cron.hour && Month(Day(t)) in cron.month
    && DayMatches(cron, Day(t))
  }

  predicate WholeMinute(t: int) {
    t % MS_PER_MINUTE == 0
  }

  predicate Occurrence(cron: CronFields, after: int, t: int) {
    after < t && WholeMinute(t) && Matches(cron, t)
  }

  // ----- The search

  const WINDOW := 4 * 365 * 24 * 60 * 60 * 1000

  /** The time with its minutes replaced; minutes past the hour carry over. */
  function SetMinutes(t: int, minutes: int): int {
    Day(t) * MS_PER_DAY + Hour(t) * MS_PER_HOUR + minutes * MS_PER_MINUTE + t % MS_PER_MINUTE
  }

  lemma MinuteStart(t: int)
    ensures var m := t - t % MS_PER_MINUTE; WholeMinute(m) && m <= t < m + MS_PER_MINUTE
  {
  }

  /** A time is the sum of its parts. */
  lemma SumOfParts(t: int)
    ensures t == Day(t) * MS_PER_DAY + Hour(t) * MS_PER_HOUR + Minute(t) * MS_PER_MINUTE + t % MS_PER_MINUTE
  {
    var minutes, hours := t / MS_PER_MINUTE, t / MS_PER_MINUTE / 60;
    Divides(t, MS_PER_HOUR, hours, minutes % 60 * MS_PER_MINUTE + t % MS_PER_MINUTE);
    Divides(t, MS_PER_DAY, hours / 24, hours % 24 * MS_PER_HOUR + t % MS_PER_HOUR);
  }

  /** One minute on is the next whole minute. */
  lemma OneMinuteOn(t: int)
    requires WholeMinute(t)
    ensures SetMinutes(t, Minute(t) + 1) == t + MS_PER_MINUTE && WholeMinute(t + MS_PER_MINUTE)
    ensures forall u :: t < u < t + MS_PER_MINUTE ==> !WholeMinute(u)
  {
    hide Day, Hour, Minute;
    SumOfParts(t);
    Divides(t + MS_PER_MINUTE, MS_PER_MINUTE, t / MS_PER_MINUTE + 1, 0);
    forall u | t < u < t + MS_PER_MINUTE
      ensures !WholeMinute(u)
    {
      Divides(u, MS_PER_MINUTE, t / MS_PER_MINUTE, u - t);
    }
  }

  /** The least whole minute after the start that matches, or an error when the window has none. */
  method NextCronOccurrence(cron: CronFields, fromMs: int) returns (r: Result<int, Error>)
    ensures r.Ok? ==>
      && Occurrence(cron, fromMs, r.value) && r.value <= fromMs + WINDOW
      && forall t :: fromMs < t < r.value ==> !Occurrence(cron, fromMs, t)
    ensures r.Err? <==> forall t :: fromMs < t <= fromMs + WINDOW ==> !Occurrence(cron, fromMs, t)
  {
    hide Matches, WholeMinute, SetMinutes, Minute;
    var cursor := fromMs - fromMs % MS_PER_MINUTE;
    MinuteStart(fromMs);
    OneMinuteOn(cursor);
    cursor := SetMinutes(cursor, Minute(cursor) + 1);
    var deadline := fromMs + WINDOW;
    while cursor <= deadline
      invariant WholeMinute(cursor) && fromMs < cursor
      invariant forall t :: fromMs < t < cursor ==> !Occurrence(cron, fromMs, t)
    {
      if Matches(cron, cursor) {
        return Ok(cursor);
      }
      OneMinuteOn(cursor);
      cursor := SetMinutes(cursor, Minute(cursor) + 1);
    }
    return Err(NoOccurrence);
  }

  // ----- When the search can fail

  /** The window has an occurrence. */
  ghost predicate Occurs(cron: CronFields, fromMs: int) {
    exists t :: t <= fromMs + WINDOW && Occurrence(cron, fromMs, t)
  }

  /** Some day that the expression names comes every year. */
  predicate Recurring(cron: CronFields)
    requires Parsed(cron)
  {
    cron.weekdayRestricted || !cron.dayRestricted
    || exists m <- cron.month, d <- cron.day :: d <= DaysInMonth(false, m)
  }

  lemma MonthsHaveFourWeeks(leap: bool, m: int)
    requires 1 <= m <= 12
    ensures DaysInMonth(leap, m) >= 28
  {
  }

  lemma WeekdayInMonth(first: int, weekday: int) returns (day: int)
    requires DayOfMonth(first) == 1 && 0 <= weekday <= 6
    ensures first <= day <= first + 6 && Weekday(day) == weekday && Month(day) == Month(first)
  {
    hide Month, DayOfMonth, Year, DayFromYear, DaysBefore, Leap;
    day := first + (weekday - Weekday(first)) % 7;
    DayOfDate(first);
    MonthsHaveFourWeeks(Leap(Year(first)), Month(first));
    DateOfDay(Year(first), Month(first), 1 + day - first);
  }

  lemma MatchingDay(cron: CronFields, after: int) returns (day: int)
    requires Parsed(cron) && Recurring(cron)
    ensures after < day <= after + 372 && Month(day) in cron.month && DayMatches(cron, day)
  {
    hide Month, DayOfMonth, Weekday;
    if cron.weekdayRestricted {
      var m := AnyMember(cron.month);
      var weekday := AnyMember(cron.weekday);
      var first := DateRecurs(after, m, 1);
      day := WeekdayInMonth(first, weekday);
    } else if !cron.dayRestricted {
      var m := AnyMember(cron.month);
      day := DateRecurs(after, m, 1);
    } else {
      var m, d :| m in cron.month && d in cron.day && d <= DaysInMonth(false, m);
      day := DateRecurs(after, m, d);
    }
  }

  function TimeAt(day: int, hour: int, minute: int): int {
    day * MS_PER_DAY + hour * MS_PER_HOUR + minute * MS_PER_MINUTE
  }

  lemma PartsOfTime(day: int, hour: int, minute: int)
    requires 0 <= hour < 24 && 0 <= minute < 60
    ensures var t := TimeAt(day, hour, minute);
      Day(t) == day && Hour(t) == hour && Minute(t) == minute && WholeMinute(t)
  {
    var t := TimeAt(day, hour, minute);
    Divides(t, MS_PER_DAY, day, hour * MS_PER_HOUR + minute * MS_PER_MINUTE);
    Divides(t, MS_PER_HOUR, day * 24 + hour, minute * MS_PER_MINUTE);
    Divides(t, MS_PER_MINUTE, (day * 24 + hour) * 60 + minute, 0);
    Divides(day * 24 + hour, 24, day, hour);
    Divides((day * 24 + hour) * 60 + minute, 60, day * 24 + hour, minute);
  }

  /** An expression with a recurring day has an occurrence in any 372 days. */
  lemma OccursWithin372Days(cron: CronFields, fromMs: int) returns (t: int)
    requires Parsed(cron) && Recurring(cron)
    ensures Occurrence(cron, fromMs, t) && t <= fromMs + 372 * MS_PER_DAY
  {
    hide Month, DayMatches, Recurring;
    var hour := AnyMember(cron.hour);
    var minute := AnyMember(cron.minute);
    var today := TimeAt(Day(fromMs), hour, minute);
    var day := MatchingDay(cron, if today > fromMs then Day(fromMs) - 1 else Day(fromMs));
    PartsOfTime(day, hour, minute);
    t := TimeAt(day, hour, minute);
  }

  lemma LeapDay(day: int)
    requires Month(day) == 2 && DayOfMonth(day) == 29
    ensures Leap(Year(day)) && day == DayFromYear(Year(day)) + 59
  {
    hide Year, DayFromYear, Leap;
    DayOfDate(day);
  }

  lemma LeapYearsFrom2024(y: int)
    requires Leap(y)
    ensures y <= 2024 || y >= 2028
  {
  }

  /** 29 February 2024 is day 19782, and the next one is day 21243. */
  lemma NextLeapDay(day: int)
    requires Month(day) == 2 && DayOfMonth(day) == 29
    ensures day <= 19782 || day >= 21243
  {
    hide Month, DayOfMonth, Leap, Year;
    LeapDay(day);
    var y := Year(day);
    LeapYearsFrom2024(y);
    assert DayFromYear(2024) == 19723 && DayFromYear(2028) == 21184;
    hide DayFromYear;
    if y <= 2024 {
      YearsInOrder(y, 2024);
    } else {
      YearsInOrder(2028, y);
    }
  }

  lemma OnlyLeapDays(cron: CronFields, day: int)
    requires Parsed(cron) && !Recurring(cron) && Month(day) in cron.month && DayMatches(cron, day)
    ensures Month(day) == 2 && DayOfMonth(day) == 29
  {
    hide Month, DayOfMonth;
    assert DayOfMonth(day) in cron.day;
    assert DayOfMonth(day) > DaysInMonth(false, Month(day));
  }

  lemma DaysOfWindow(t: int)
    requires WholeMinute(t) && TimeAt(19782, 23, 59) < t <= TimeAt(19782, 23, 59) + WINDOW
    ensures 19782 < Day(t) < 21243
  {
  }

  lemma NoOccurrenceAfterLeapDay(cron: CronFields)
    requires Parsed(cron) && !Recurring(cron)
    ensures !Occurs(cron, TimeAt(19782, 23, 59))
  {
    hide Month, DayOfMonth, DayMatches, Recurring, Parsed, Day, Hour, Minute, WholeMinute, TimeAt;
    var fromMs := TimeAt(19782, 23, 59);
    forall t | fromMs < t <= fromMs + WINDOW
      ensures !Occurrence(cron, fromMs, t)
    {
      if Occurrence(cron, fromMs, t) {
        OnlyLeapDays(cron, Day(t));
        DaysOfWindow(t);
        NextLeapDay(Day(t));
      }
    }
  }

  /** The search succeeds from every start exactly when some named day comes every year; else it fails after a leap day. */
  lemma AlwaysOccursExactly(cron: CronFields)
    requires Parsed(cron)
    ensures (forall fromMs :: Occurs(cron, fromMs)) <==> Recurring(cron)
  {
    hide Recurring, Occurrence;
    if Recurring(cron) {
      forall fromMs
        ensures Occurs(cron, fromMs)
      {
        var t := OccursWithin372Days(cron, fromMs);
      }
    } else {
      NoOccurrenceAfterLeapDay(cron);
    }
  }
}
