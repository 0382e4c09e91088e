/**
 * Quota cycle windows at a fixed UTC offset (src/cycle.rs). Instants are nanoseconds since
 * 0001-01-01T00:00:00Z and dates are day numbers from there. The calendar is a parameter: the
 * theorems need only that its months tile the days, which the Gregorian ones do.
 */
module CycleWindow {
  import opened Calendar
  import opened Words

  const DAY: int := 86_400_000_000_000
  const MINUTE: int := 60_000_000_000

  // ----- the source's functions

  function NextYearMonth(year: int, month: int): (int, int) {
    if month == 12 then (year + 1, 1) else (year, month + 1)
  }

  function PrevYearMonth(year: int, month: int): (int, int) {
    if month == 1 then (year - 1, 12) else (year, month - 1)
  }

  /** `NaiveDate::from_ymd_opt`. */
  function DateOf(c: Months, year: int, month: int, day: int): Option<int> {
    var m := MonthIndex(year, month);
    if 1 <= month <= 12 && 1 <= day <= c.length(m) then Some(c.start(m) + day - 1) else None
  }

  /** The wanted day of the month, or the month's last day when there is no such day. */
  function CycleAnchorDate(c: Months, year: int, month: int, dayOfMonth: U8): int
    requires Tiles(c) && 1 <= month <= 12
  {
    match DateOf(c, year, month, dayOfMonth)
    case Some(date) => date
    case None =>
      var (y, m) := NextYearMonth(year, month);
      TileAt(c, MonthIndex(y, m));
      DateOf(c, y, m, 1).value - 1
  }

  /** Midnight of a local date, as an instant. */
  function StartOfDay(offset: int, date: int): int {
    date * DAY - offset
  }

  function LocalDate(offset: int, instant: int): int {
    (instant + offset) / DAY
  }

  function YearMonth(c: Months, date: int): (r: (int, int))
    requires Tiles(c)
    ensures 1 <= r.1 <= 12 && MonthIndex(r.0, r.1) == MonthOf(c, date)
  {
    (MonthOf(c, date) / 12, MonthOf(c, date) % 12 + 1)
  }

  datatype Window = Window(start: int, end: int)

  /** The anchor of this month, or of the month before when that is still to come. */
  function CycleStart(c: Months, offset: int, now: int, dayOfMonth: U8): int
    requires Tiles(c)
  {
    var (year, month) := YearMonth(c, LocalDate(offset, now));
    var startThis := StartOfDay(offset, CycleAnchorDate(c, year, month, dayOfMonth));
    if now >= startThis then startThis
    else
      var (prevYear, prevMonth) := PrevYearMonth(year, month);
      StartOfDay(offset, CycleAnchorDate(c, prevYear, prevMonth, dayOfMonth))
  }

  /** The anchor of the month after the start. */
  function CycleEnd(c: Months, offset: int, start: int, dayOfMonth: U8): int
    requires Tiles(c)
  {
    var (startYear, startMonth) := YearMonth(c, LocalDate(offset, start));
    var (nextYear, nextMonth) := NextYearMonth(startYear, startMonth);
    StartOfDay(offset, CycleAnchorDate(c, nextYear, nextMonth, dayOfMonth))
  }

  function CycleWindowAt(c: Months, offset: int, now: int, dayOfMonth: U8): Window
    requires Tiles(c)
  {
    var start := CycleStart(c, offset, now, dayOfMonth);
    Window(start, CycleEnd(c, offset, start, dayOfMonth))
  }

  /** A fixed offset must stay below one day either way. */
  function CurrentCycleWindowAt(c: Months, tzOffsetMinutes: int, dayOfMonth: U8, now: int): Option<Window>
    requires Tiles(c)
  {
    if -86_400 < tzOffsetMinutes * 60 < 86_400
    then Some(CycleWindowAt(c, tzOffsetMinutes * MINUTE, now, dayOfMonth))
    else None
  }

  // ----- anchors

  /** The anchor date of month number `m`. */
  function Anchor(c: Months, m: int, dayOfMonth: U8): int {
    c.start(m) + (if 1 <= dayOfMonth <= c.length(m) then dayOfMonth else c.length(m)) - 1
  }

  lemma AnchorOfYearMonth(c: Months, year: int, month: int, dayOfMonth: U8)
    requires Tiles(c) && 1 <= month <= 12
    ensures CycleAnchorDate(c, year, month, dayOfMonth) == Anchor(c, MonthIndex(year, month), dayOfMonth)
  {
    TileAt(c, MonthIndex(year, month));
  }

  lemma AnchorInMonth(c: Months, m: int, dayOfMonth: U8)
    requires Tiles(c)
    ensures c.start(m) <= Anchor(c, m, dayOfMonth) < c.start(m + 1)
    ensures MonthOf(c, Anchor(c, m, dayOfMonth)) == m
  {
    TileAt(c, m);
    MonthOfIsUnique(c, Anchor(c, m, dayOfMonth), m);
  }

  /** The cycle a local date belongs to, named by the month of its anchor. */
  function CycleOf(c: Months, date: int, dayOfMonth: U8): int
    requires Tiles(c)
  {
    var m := MonthOf(c, date);
    if date >= Anchor(c, m, dayOfMonth) then m else m - 1
  }

  lemma CycleBounds(c: Months, date: int, dayOfMonth: U8)
    requires Tiles(c)
    ensures var k := CycleOf(c, date, dayOfMonth);
            Anchor(c, k, dayOfMonth) <= date < Anchor(c, k + 1, dayOfMonth)
  {
    var m := MonthOf(c, date);
    AnchorInMonth(c, m + 1, dayOfMonth);
    AnchorInMonth(c, m - 1, dayOfMonth);
  }

  lemma CycleIsUnique(c: Months, date: int, dayOfMonth: U8, k: int)
    requires Tiles(c)
    requires Anchor(c, k, dayOfMonth) <= date < Anchor(c, k + 1, dayOfMonth)
    ensures CycleOf(c, date, dayOfMonth) == k
  {
    AnchorInMonth(c, k, dayOfMonth);
    AnchorInMonth(c, k + 1, dayOfMonth);
    MonthOfIsUnique(c, date, if date < c.start(k + 1) then k else k + 1);
  }

  lemma CycleLength(c: Months, k: int, dayOfMonth: U8)
    requires Tiles(c)
    ensures 28 <= Anchor(c, k + 1, dayOfMonth) - Anchor(c, k, dayOfMonth) <= 31
  {
    TileAt(c, k);
    TileAt(c, k + 1);
  }

  // ----- windows

  lemma DateOfMidnight(offset: int, date: int)
    ensures LocalDate(offset, StartOfDay(offset, date)) == date
  {
  }

  lemma AtOrAfterMidnight(offset: int, instant: int, date: int)
    ensures instant >= StartOfDay(offset, date) <==> LocalDate(offset, instant) >= date
  {
  }

  function CycleWindow(c: Months, offset: int, k: int, dayOfMonth: U8): Window {
    Window(StartOfDay(offset, Anchor(c, k, dayOfMonth)), StartOfDay(offset, Anchor(c, k + 1, dayOfMonth)))
  }

  lemma StartIsAnchor(c: Months, offset: int, now: int, dayOfMonth: U8)
    requires Tiles(c)
    ensures CycleStart(c, offset, now, dayOfMonth) ==
            StartOfDay(offset, Anchor(c, CycleOf(c, LocalDate(offset, now), dayOfMonth), dayOfMonth))
  {
    var date := LocalDate(offset, now);
    var m := MonthOf(c, date);
    var (year, month) := YearMonth(c, date);
    AnchorOfYearMonth(c, year, month, dayOfMonth);
    AtOrAfterMidnight(offset, now, Anchor(c, m, dayOfMonth));
    if date < Anchor(c, m, dayOfMonth) {
      PreviousMonth(year, month);
      var (prevYear, prevMonth) := PrevYearMonth(year, month);
      AnchorOfYearMonth(c, prevYear, prevMonth, dayOfMonth);
    }
  }

  lemma EndIsNextAnchor(c: Months, offset: int, k: int, dayOfMonth: U8)
    requires Tiles(c)
    ensures CycleEnd(c, offset, StartOfDay(offset, Anchor(c, k, dayOfMonth)), dayOfMonth) ==
            StartOfDay(offset, Anchor(c, k + 1, dayOfMonth))
  {
    var date := Anchor(c, k, dayOfMonth);
    DateOfMidnight(offset, date);
    AnchorInMonth(c, k, dayOfMonth);
    var (year, month) := YearMonth(c, date);
    NextMonth(year, month);
    var (nextYear, nextMonth) := NextYearMonth(year, month);
    AnchorOfYearMonth(c, nextYear, nextMonth, dayOfMonth);
  }

  lemma PreviousMonth(year: int, month: int)
    requires 1 <= month <= 12
    ensures var (y, m) := PrevYearMonth(year, month); 1 <= m <= 12 && MonthIndex(y, m) == MonthIndex(year, month) - 1
  {
  }

  lemma NextMonth(year: int, month: int)
    requires 1 <= month <= 12
    ensures var (y, m) := NextYearMonth(year, month); 1 <= m <= 12 && MonthIndex(y, m) == MonthIndex(year, month) + 1
  {
  }

  lemma WindowOfDate(c: Months, offset: int, now: int, dayOfMonth: U8)
    requires Tiles(c)
    ensures CycleWindowAt(c, offset, now, dayOfMonth) ==
            CycleWindow(c, offset, CycleOf(c, LocalDate(offset, now), dayOfMonth), dayOfMonth)
  {
    StartIsAnchor(c, offset, now, dayOfMonth);
    EndIsNextAnchor(c, offset, CycleOf(c, LocalDate(offset, now), dayOfMonth), dayOfMonth);
  }

  lemma WindowOfCycle(c: Months, offset: int, t: int, dayOfMonth: U8, k: int)
    requires Tiles(c)
    requires var w := CycleWindow(c, offset, k, dayOfMonth); w.start <= t < w.end
    ensures CycleWindowAt(c, offset, t, dayOfMonth) == CycleWindow(c, offset, k, dayOfMonth)
  {
    AtOrAfterMidnight(offset, t, Anchor(c, k, dayOfMonth));
    AtOrAfterMidnight(offset, t, Anchor(c, k + 1, dayOfMonth));
    CycleIsUnique(c, LocalDate(offset, t), dayOfMonth, k);
    WindowOfDate(c, offset, t, dayOfMonth);
  }

  /** The window of an instant contains it, and is the window of every instant in it. */
  lemma WindowContainsItsInstants(c: Months, offset: int, dayOfMonth: U8, now: int)
    requires Tiles(c)
    ensures var w := CycleWindowAt(c, offset, now, dayOfMonth);
            w.start <= now < w.end &&
            forall t :: w.start <= t < w.end ==> CycleWindowAt(c, offset, t, dayOfMonth) == w
  {
    var k := CycleOf(c, LocalDate(offset, now), dayOfMonth);
    WindowOfDate(c, offset, now, dayOfMonth);
    CycleBounds(c, LocalDate(offset, now), dayOfMonth);
    AtOrAfterMidnight(offset, now, Anchor(c, k, dayOfMonth));
    AtOrAfterMidnight(offset, now, Anchor(c, k + 1, dayOfMonth));
    var w := CycleWindow(c, offset, k, dayOfMonth);
    forall t | w.start <= t < w.end
      ensures CycleWindowAt(c, offset, t, dayOfMonth) == w
    {
      WindowOfCycle(c, offset, t, dayOfMonth, k);
    }
  }

  /** A window starts at local midnight of the anchor day, or of the month's last day when it has no such day. */
  lemma WindowStartsOnAnchorDay(c: Months, offset: int, dayOfMonth: U8, now: int)
    requires Tiles(c)
    ensures var w := CycleWindowAt(c, offset, now, dayOfMonth);
            var date := LocalDate(offset, w.start);
            var m := MonthOf(c, date);
            && w.start == StartOfDay(offset, date)
            && date == c.start(m) + (if 1 <= dayOfMonth <= c.length(m) then dayOfMonth else c.length(m)) - 1
  {
    var k := CycleOf(c, LocalDate(offset, now), dayOfMonth);
    WindowOfDate(c, offset, now, dayOfMonth);
    DateOfMidnight(offset, Anchor(c, k, dayOfMonth));
    AnchorInMonth(c, k, dayOfMonth);
  }

  lemma WindowSpan(c: Months, offset: int, dayOfMonth: U8, k: int)
    requires Tiles(c)
    ensures var w := CycleWindow(c, offset, k, dayOfMonth); 28 * DAY <= w.end - w.start <= 31 * DAY
    ensures CycleWindow(c, offset, k, dayOfMonth).end == CycleWindow(c, offset, k + 1, dayOfMonth).start
  {
    CycleLength(c, k, dayOfMonth);
  }

  lemma WindowAfter(c: Months, offset: int, dayOfMonth: U8, k: int, t: int)
    requires Tiles(c) && t == CycleWindow(c, offset, k, dayOfMonth).end
    ensures CycleWindowAt(c, offset, t, dayOfMonth) == CycleWindow(c, offset, k + 1, dayOfMonth)
  {
    WindowSpan(c, offset, dayOfMonth, k + 1);
    WindowOfCycle(c, offset, t, dayOfMonth, k + 1);
  }

  lemma WindowBefore(c: Months, offset: int, dayOfMonth: U8, k: int, t: int)
    requires Tiles(c) && t == CycleWindow(c, offset, k, dayOfMonth).start - 1
    ensures CycleWindowAt(c, offset, t, dayOfMonth) == CycleWindow(c, offset, k - 1, dayOfMonth)
  {
    WindowSpan(c, offset, dayOfMonth, k - 1);
    WindowOfCycle(c, offset, t, dayOfMonth, k - 1);
  }

  /** Windows abut: the next starts where this one ends, the previous ends where it starts. */
  lemma WindowsAbut(c: Months, offset: int, dayOfMonth: U8, now: int, w: Window)
    requires Tiles(c) && w == CycleWindowAt(c, offset, now, dayOfMonth)
    ensures CycleWindowAt(c, offset, w.end, dayOfMonth).start == w.end
    ensures CycleWindowAt(c, offset, w.start - 1, dayOfMonth).end == w.start
    ensures 28 * DAY <= w.end - w.start <= 31 * DAY
  {
    var k := CycleOf(c, LocalDate(offset, now), dayOfMonth);
    assert w == CycleWindow(c, offset, k, dayOfMonth) by { WindowOfDate(c, offset, now, dayOfMonth); }
    WindowSpan(c, offset, dayOfMonth, k);
    WindowSpan(c, offset, dayOfMonth, k - 1);
    WindowAfter(c, offset, dayOfMonth, k, w.end);
    WindowBefore(c, offset, dayOfMonth, k, w.start - 1);
  }

  /**
   * Cycle windows partition the timeline, for every offset the source accepts and every
   * anchor day, including 0 and days no month has.
   */
  lemma WindowsPartitionTime(c: Months, tzOffsetMinutes: int, dayOfMonth: U8, now: int)
    requires Tiles(c)
    ensures var r := CurrentCycleWindowAt(c, tzOffsetMinutes, dayOfMonth, now);
            && (r.Some? <==> -1440 < tzOffsetMinutes < 1440)
            && (r.Some? ==>
                  && r.value.start <= now < r.value.end
                  && (forall t :: r.value.start <= t < r.value.end ==>
                        CurrentCycleWindowAt(c, tzOffsetMinutes, dayOfMonth, t) == r)
                  && CurrentCycleWindowAt(c, tzOffsetMinutes, dayOfMonth, r.value.end).value.start ==
                     r.value.end)
  {
    WindowContainsItsInstants(c, tzOffsetMinutes * MINUTE, dayOfMonth, now);
    var offset := tzOffsetMinutes * MINUTE;
    WindowsAbut(c, offset, dayOfMonth, now, CycleWindowAt(c, offset, now, dayOfMonth));
  }
}
