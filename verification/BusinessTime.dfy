/**
  Elapsed business time between two instants in epoch milliseconds.

  A calendar numbers the local days and says when each begins; days may be 23, 24 or 25 hours
  long.  It also says when a wall clock shows some minute of a day.
*/
module BusinessTime {

  const MINUTES_PER_DAY := 24 * 60

  datatype Calendar = Calendar(
    midnight: int -> int,          // the first instant of a day
    clock: (int, int) -> int,      // the instant of a day at which so many minutes show
    dayOf: int -> int)             // the day an instant belongs to

  // Days follow each other and a clock time is in its own day.
  predicate DayOk(c: Calendar, d: int) {
    && c.midnight(d) < c.midnight(d + 1)
    && forall m | 0 <= m < MINUTES_PER_DAY :: c.midnight(d) <= c.clock(d, m) <= c.midnight(d + 1)
  }

  predicate InstantOk(c: Calendar, t: int) {
    c.midnight(c.dayOf(t)) <= t < c.midnight(c.dayOf(t) + 1)
  }

  ghost predicate CalendarOk(c: Calendar) {
    (forall d :: DayOk(c, d)) && (forall t :: InstantOk(c, t))
  }

  datatype BusinessHours = BusinessHours(located: bool, startMin: int, endMin: int, workdays: seq<bool>)

  // One flag for each weekday, Sunday first, and minutes of a day as the parser leaves them.
  predicate HoursOk(h: BusinessHours) {
    |h.workdays| == 7 && 0 <= h.startMin <= MINUTES_PER_DAY && 0 <= h.endMin <= MINUTES_PER_DAY
  }

  predicate HasWorkdays(workdays: seq<bool>) {
    exists i | 0 <= i < |workdays| :: workdays[i]
  }

  predicate Unadjusted(h: BusinessHours) {
    !h.located || h.endMin <= h.startMin || !HasWorkdays(h.workdays)
  }

  // Day 0 is a Thursday.
  function Weekday(d: int): nat {
    (d + 4) % 7
  }

  // 24:00 is the next midnight.
  function BusinessTimeOnDay(c: Calendar, d: int, minutes: int): int {
    if minutes == MINUTES_PER_DAY then c.midnight(d + 1) else c.clock(d, minutes)
  }

  // ---------------------------------------------------------------- working milliseconds

  predicate Working(h: BusinessHours, c: Calendar, t: int)
    requires HoursOk(h)
  {
    var d := c.dayOf(t);
    h.workdays[Weekday(d)] && BusinessTimeOnDay(c, d, h.startMin) <= t < BusinessTimeOnDay(c, d, h.endMin)
  }

  // How many milliseconds of [from, to) are working time.
  function WorkingMs(h: BusinessHours, c: Calendar, from: int, to: int): (n: nat)
    requires HoursOk(h)
    ensures from < to ==> n <= to - from
    decreases (to - from)
  {
    if to <= from then 0 else WorkingMs(h, c, from, to - 1) + if Working(h, c, to - 1) then 1 else 0
  }

  // Zero is the absent instant.
  function Duration(h: BusinessHours, c: Calendar, from: int, to: int): int
    requires HoursOk(h)
  {
    if from == 0 || to == 0 || to <= from then 0
    else if Unadjusted(h) then to - from
    else WorkingMs(h, c, from, to)
  }

  lemma {:induction false} WorkingMsSplit(h: BusinessHours, c: Calendar, a: int, b: int, d: int)
    requires HoursOk(h) && a <= b <= d
    ensures WorkingMs(h, c, a, d) == WorkingMs(h, c, a, b) + WorkingMs(h, c, b, d)
    decreases d - b
  {
    if b < d { WorkingMsSplit(h, c, a, b, d - 1); }
  }

  // ---------------------------------------------------------------- one day

  function Max(a: int, b: int): int { if a > b then a else b }

  function Min(a: int, b: int): int { if a < b then a else b }

  // The milliseconds of [from, to) inside the window of day d.
  function ClippedMs(h: BusinessHours, c: Calendar, d: int, from: int, to: int): int
    requires HoursOk(h)
  {
    var start, end := Max(from, BusinessTimeOnDay(c, d, h.startMin)), Min(to, BusinessTimeOnDay(c, d, h.endMin));
    if h.workdays[Weekday(d)] && end > start then end - start else 0
  }

  lemma {:induction false} Midnights(c: Calendar, d: int, e: int)
    requires CalendarOk(c) && d <= e
    ensures c.midnight(d) <= c.midnight(e)
    decreases e - d
  {
    if d < e {
      assert DayOk(c, e - 1);
      Midnights(c, d, e - 1);
    }
  }

  lemma DayIs(c: Calendar, d: int, t: int)
    requires CalendarOk(c) && c.midnight(d) <= t < c.midnight(d + 1)
    ensures c.dayOf(t) == d
  {
    assert InstantOk(c, t);
    if c.dayOf(t) < d {
      Midnights(c, c.dayOf(t) + 1, d);
    } else if d < c.dayOf(t) {
      Midnights(c, d + 1, c.dayOf(t));
    }
  }

  lemma WindowInDay(h: BusinessHours, c: Calendar, d: int)
    requires HoursOk(h) && CalendarOk(c)
    ensures c.midnight(d) <= BusinessTimeOnDay(c, d, h.startMin) <= c.midnight(d + 1)
    ensures c.midnight(d) <= BusinessTimeOnDay(c, d, h.endMin) <= c.midnight(d + 1)
  {
    assert DayOk(c, d);
  }

  // Inside one day the working time is what clipping to the window leaves.
  lemma {:induction false} DayWorkingMs(h: BusinessHours, c: Calendar, d: int, from: int, to: int)
    requires HoursOk(h) && CalendarOk(c)
    requires c.midnight(d) <= from <= to <= c.midnight(d + 1)
    ensures WorkingMs(h, c, from, to) == ClippedMs(h, c, d, from, to)
    decreases (to - from)
  {
    if from < to {
      DayIs(c, d, to - 1);
      DayWorkingMs(h, c, d, from, to - 1);
    }
  }

  // ---------------------------------------------------------------- the loop

  method AnyWorkday(workdays: seq<bool>) returns (found: bool)
    ensures found <==> HasWorkdays(workdays)
  {
    for i := 0 to |workdays|
      invariant forall k | 0 <= k < i :: !workdays[k]
    {
      if workdays[i] { return true; }
    }
    return false;
  }

  method DurationMs(h: BusinessHours, c: Calendar, fromMs: int, toMs: int) returns (total: int)
    requires HoursOk(h) && CalendarOk(c)
    ensures total == Duration(h, c, fromMs, toMs)
  {
    if fromMs == 0 || toMs == 0 || toMs <= fromMs { return 0; }
    var workdays := AnyWorkday(h.workdays);
    if !h.located || h.endMin <= h.startMin || !workdays { return toMs - fromMs; }
    var day, lastDay := c.dayOf(fromMs), c.dayOf(toMs);
    total := 0;
    DaysInOrder(c, fromMs, toMs);
    while day <= lastDay
      invariant c.dayOf(fromMs) <= day <= lastDay + 1
      invariant total == WorkingMs(h, c, fromMs, Done(c, day, fromMs, toMs))
    {
      NextDay(h, c, day, fromMs, toMs);
      if h.workdays[Weekday(day)] {
        var windowStart := BusinessTimeOnDay(c, day, h.startMin);
        var windowEnd := BusinessTimeOnDay(c, day, h.endMin);
        var start, end := Max(fromMs, windowStart), Min(toMs, windowEnd);
        if end > start { total := total + (end - start); }
      }
      day := day + 1;
    }
  }

  // Up to where the days before this one reach into [from, to).
  function Done(c: Calendar, day: int, from: int, to: int): int {
    Max(from, Min(to, c.midnight(day)))
  }

  lemma DaysInOrder(c: Calendar, from: int, to: int)
    requires CalendarOk(c) && from < to
    ensures c.dayOf(from) <= c.dayOf(to)
    ensures c.midnight(c.dayOf(from)) <= from && to < c.midnight(c.dayOf(to) + 1)
  {
    assert InstantOk(c, from) && InstantOk(c, to);
    if c.dayOf(to) < c.dayOf(from) { Midnights(c, c.dayOf(to) + 1, c.dayOf(from)); }
  }

  lemma NextDay(h: BusinessHours, c: Calendar, day: int, from: int, to: int)
    requires HoursOk(h) && CalendarOk(c) && from < to && c.dayOf(from) <= day <= c.dayOf(to)
    ensures WorkingMs(h, c, from, Done(c, day + 1, from, to))
            == WorkingMs(h, c, from, Done(c, day, from, to)) + ClippedMs(h, c, day, from, to)
  {
    assert InstantOk(c, from) && InstantOk(c, to);
    Midnights(c, c.dayOf(from) + 1, day + 1);
    Midnights(c, day, c.dayOf(to));
    WindowInDay(h, c, day);
    var x, y := Done(c, day, from, to), Done(c, day + 1, from, to);
    WorkingMsSplit(h, c, from, x, y);
    DayWorkingMs(h, c, day, x, y);
  }

  // ---------------------------------------------------------------- what it promises

  /** For present instants the duration is additive over a split point, monotone in both bounds
      and between 0 and the elapsed time, whatever the lengths of the days. */
  lemma DurationLaws(h: BusinessHours, c: Calendar, a: int, b: int, d: int, e: int)
    requires HoursOk(h) && a <= b <= d <= e && a != 0 && b != 0 && d != 0 && e != 0
    ensures Duration(h, c, a, d) == Duration(h, c, a, b) + Duration(h, c, b, d)
    ensures 0 <= Duration(h, c, b, d) <= d - b
    ensures Duration(h, c, b, d) <= Duration(h, c, a, e)
  {
    WorkingMsSplit(h, c, a, b, d);
    WorkingMsSplit(h, c, a, d, e);
  }

  /** Without a time zone, with hours that do not open before they close or without a workday, all of
      the elapsed time between present instants counts. */
  lemma ElapsedWithoutHours(h: BusinessHours, c: Calendar, a: int, b: int)
    requires HoursOk(h) && a != 0 && b != 0 && a <= b
    requires !h.located || h.endMin <= h.startMin || forall i | 0 <= i < 7 :: !h.workdays[i]
    ensures Duration(h, c, a, b) == b - a
  {
  }

  /** Splitting at the epoch itself, which means an absent instant, loses all of the time: there
      the sum is right exactly when nothing is to be counted. */
  lemma SplitAtZero(h: BusinessHours, c: Calendar, a: int, d: int)
    requires HoursOk(h) && a < 0 < d
    ensures Duration(h, c, a, d) == Duration(h, c, a, 0) + Duration(h, c, 0, d)
            <==> !Unadjusted(h) && forall t | a <= t < d :: !Working(h, c, t)
  {
    NothingWorking(h, c, a, d);
  }

  lemma {:induction false} NothingWorking(h: BusinessHours, c: Calendar, a: int, b: int)
    requires HoursOk(h)
    ensures WorkingMs(h, c, a, b) == 0 <==> forall t | a <= t < b :: !Working(h, c, t)
    decreases b - a
  {
    if a < b { NothingWorking(h, c, a, b - 1); }
  }

  /** All of the elapsed time counts exactly when every millisecond of it is working time. */
  lemma {:induction false} AllWorking(h: BusinessHours, c: Calendar, a: int, b: int)
    requires HoursOk(h) && a <= b
    ensures WorkingMs(h, c, a, b) == b - a <==> forall t | a <= t < b :: Working(h, c, t)
    decreases b - a
  {
    if a < b { AllWorking(h, c, a, b - 1); }
  }

  // ---------------------------------------------------------------- an example

  const DAY_MS := 24 * 60 * 60 * 1000

  function UtcCalendar(): Calendar {
    Calendar(d => d * DAY_MS, (d, m) => d * DAY_MS + m * 60_000, t => t / DAY_MS)
  }

  /** A calendar of equal days is one of those the results hold for. */
  lemma UtcCalendarIsOk()
    ensures CalendarOk(UtcCalendar())
  {
    var c := UtcCalendar();
    forall d ensures DayOk(c, d) {}
    forall t ensures InstantOk(c, t) {}
  }

  // The flag of a date: 1 January 1970, day 0, was a Thursday and the fourth a Sunday.
  function FlagOf(h: BusinessHours, d: int): bool
    requires HoursOk(h)
  {
    [h.workdays[4], h.workdays[5], h.workdays[6], h.workdays[0], h.workdays[1], h.workdays[2], h.workdays[3]][d % 7]
  }

  /** On that calendar the duration of a part of a day is what it shares with the opening hours, in
      minutes since midnight, and nothing on a day that is no workday; hours until 24:00 last to
      the end of the day.  Here the bounds are the times of the day at which the span begins and
      ends, the latter possibly the next midnight. */
  lemma UtcDay(h: BusinessHours, d: int, first: nat, last: nat)
    requires HoursOk(h) && !Unadjusted(h) && first < last <= DAY_MS
    requires d * DAY_MS + first != 0 && d * DAY_MS + last != 0
    ensures var opens, closes := h.startMin * 60_000, h.endMin * 60_000;
      Duration(h, UtcCalendar(), d * DAY_MS + first, d * DAY_MS + last)
      == if !FlagOf(h, d) || last <= opens || closes <= first then 0
         else (if last < closes then last else closes) - (if first > opens then first else opens)
  {
    var c := UtcCalendar();
    UtcCalendarIsOk();
    DayWorkingMs(h, c, d, d * DAY_MS + first, d * DAY_MS + last);
    WeekdayFlag(h, d);
    assert BusinessTimeOnDay(c, d, h.startMin) == d * DAY_MS + h.startMin * 60_000;
    assert BusinessTimeOnDay(c, d, h.endMin) == d * DAY_MS + h.endMin * 60_000;
  }

  lemma WeekdayFlag(h: BusinessHours, d: int)
    requires HoursOk(h)
    ensures h.workdays[Weekday(d)] == FlagOf(h, d)
  {
    assert d % 7 < 3 ==> Weekday(d) == d % 7 + 4;
    assert d % 7 >= 3 ==> Weekday(d) == d % 7 - 3;
  }

  /** Hours from 0:00 to 24:00 on every day count all of the time on any calendar whose days begin at
      0:00, those with days of 23 and 25 hours included. */
  lemma RoundTheClock(h: BusinessHours, c: Calendar, a: int, b: int)
    requires HoursOk(h) && CalendarOk(c) && (forall d :: c.clock(d, 0) == c.midnight(d))
    requires h.startMin == 0 && h.endMin == 24 * 60 && forall i | 0 <= i < 7 :: h.workdays[i]
    ensures a != 0 && b != 0 && a <= b ==> Duration(h, c, a, b) == b - a
  {
    forall t ensures Working(h, c, t) { assert InstantOk(c, t); }
    if a <= b { AllWorking(h, c, a, b); }
  }
}
