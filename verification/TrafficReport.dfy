/** Traffic reports, and why pruning never shows in them (src/node_history.rs). */
module TrafficReport {
  import opened Arith
  import opened TrafficAgreement
  import opened TrafficHistory
  import opened TrafficPrune
  import opened TrafficRuns
  import opened TrafficSample
  import opened TrafficSeries
  import opened Words

  datatype Window = Hours24 | Days31

  datatype Point = Point(at: int, up: Option<U64>, down: Option<U64>, total: Option<U64>, complete: bool, today: bool)

  datatype Summary = Summary(up: U64, down: U64, complete: bool, since: Option<int>)

  datatype Report = Report(current: seq<Point>, reference: seq<Point>, summary: Summary, partial: bool)

  /** Values of incomplete buckets are not shown. */
  function PointAt(m: map<int, Bucket>, at: int, today: bool): Point {
    if at in m && m[at].complete then
      var b := m[at];
      var total := if b.up.Some? && b.down.Some? then Some(SatAdd(b.up.value, b.down.value)) else None;
      Point(at, b.up, b.down, total, true, today)
    else Point(at, None, None, None, false, today)
  }

  function SlotPoint(five: map<int, Bucket>, start: int, i: int): Point {
    PointAt(five, start + i * BUCKET_SECS, false)
  }

  function FivePoints(five: map<int, Bucket>, start: int): seq<Point> {
    seq(288, (i: int) => SlotPoint(five, start, i))
  }

  function DayPoint(daily: map<int, Bucket>, first: int, today: Option<int>, i: int): Point {
    PointAt(daily, first + i, today == Some(first + i))
  }

  function DayPoints(daily: map<int, Bucket>, first: int, today: Option<int>): seq<Point> {
    seq(31, (i: int) => DayPoint(daily, first, today, i))
  }

  function Cleared(p: Point): Point {
    if p.today then Point(p.at, None, None, None, false, true) else p
  }

  function WithoutToday(points: seq<Point>): seq<Point> {
    seq(|points|, i requires 0 <= i < |points| => Cleared(points[i]))
  }

  function CurrentDays(daily: map<int, Bucket>, today: int, stale: bool): seq<Point> {
    var points := DayPoints(daily, today - 30, Some(today));
    if stale then WithoutToday(points) else points
  }

  // ----- the rolling 30-day summary

  function WithDay(s: Summary, daily: map<int, Bucket>, day: int): Summary {
    if day !in daily then s.(complete := false)
    else
      var b := daily[day];
      Summary(if b.up.Some? then SatAdd(s.up, b.up.value) else s.up,
              if b.down.Some? then SatAdd(s.down, b.down.value) else s.down,
              s.complete && b.complete && b.up.Some? && b.down.Some?,
              if s.since.None? then Some(day) else s.since)
  }

  function SummaryOf(daily: map<int, Bucket>, first: int, days: nat): Summary {
    if days == 0 then Summary(0, 0, true, None)
    else WithDay(SummaryOf(daily, first, days - 1), daily, first + days - 1)
  }

  /** `build_summary`, for a record without a monthly cycle. */
  method BuildSummary(daily: seq<Bucket>, first: int) returns (s: Summary)
    requires Increasing(daily)
    ensures s == SummaryOf(ByAt(daily), first, 30)
  {
    s := Summary(0, 0, true, None);
    for index := 0 to 30
      invariant s == SummaryOf(ByAt(daily), first, index)
    {
      var found := Get(daily, first + index);
      match found
      case None =>
        s := s.(complete := false);
      case Some(b) =>
        if b.up.Some? {
          s := s.(up := SatAdd(s.up, b.up.value));
        }
        if b.down.Some? {
          s := s.(down := SatAdd(s.down, b.down.value));
        }
        s := s.(complete := s.complete && b.complete && b.up.Some? && b.down.Some?);
        if s.since.None? {
          s := s.(since := Some(first + index));
        }
    }
  }

  predicate FullDay(daily: map<int, Bucket>, day: int) {
    day in daily && daily[day].complete && daily[day].up.Some? && daily[day].down.Some?
  }

  /** The summary is complete exactly when every day of it is there and complete. */
  lemma {:induction false} SummaryCompleteIff(daily: map<int, Bucket>, first: int, days: nat)
    ensures SummaryOf(daily, first, days).complete <==>
            forall day :: first <= day < first + days ==> FullDay(daily, day)
    decreases days
  {
    if days > 0 {
      SummaryCompleteIff(daily, first, days - 1);
      assert SummaryOf(daily, first, days).complete <==>
             SummaryOf(daily, first, days - 1).complete && FullDay(daily, first + days - 1);
    }
  }

  function DayBytes(daily: map<int, Bucket>, first: int, days: nat, d: Direction): nat {
    if days == 0 then 0
    else
      var day := first + days - 1;
      DayBytes(daily, first, days - 1, d) +
      if day in daily && Value(daily[day], d).Some? then Value(daily[day], d).value else 0
  }

  /** And adds up the values of the days that have them. */
  lemma {:induction false} SummaryAddsUp(daily: map<int, Bucket>, first: int, days: nat)
    ensures SummaryOf(daily, first, days).up == Min(DayBytes(daily, first, days, Up), U64_MAX)
    ensures SummaryOf(daily, first, days).down == Min(DayBytes(daily, first, days, Down), U64_MAX)
    decreases days
  {
    if days > 0 {
      SummaryAddsUp(daily, first, days - 1);
    }
  }

  // ----- the report

  predicate Lacking(points: seq<Point>) {
    exists i :: 0 <= i < |points| && (points[i].up.None? || !points[i].complete)
  }

  /** No sample has been recorded in the current slot. */
  predicate IsStale(lastSample: Option<int>, now: int) {
    lastSample.None? || FloorFive(lastSample.value) < FloorFive(now)
  }

  /** A stale record's summary is incomplete, and a report with anything missing is partial. */
  function Assembled(current: seq<Point>, reference: seq<Point>, summary: Summary, stale: bool): Report {
    var complete := summary.complete && !stale;
    Report(current, reference, summary.(complete := complete), !complete || Lacking(current) || Lacking(reference))
  }

  function CurrentPoints(s: Series, window: Window, latest: int, stale: bool): seq<Point> {
    if window.Hours24? then FivePoints(s.five, latest - 288 * BUCKET_SECS)
    else CurrentDays(s.daily, DayOf(latest), stale)
  }

  function ReferencePoints(s: Series, window: Window, latest: int): seq<Point> {
    if window.Hours24? then FivePoints(s.five, latest - 576 * BUCKET_SECS)
    else DayPoints(s.daily, DayOf(latest) - 61, None)
  }

  /** What a report shows; `lastSample` is when the record was last sampled. */
  function BuildReport(s: Series, lastSample: Option<int>, window: Window, now: int): Report {
    var latest, stale := FloorFive(now), IsStale(lastSample, now);
    Assembled(CurrentPoints(s, window, latest, stale), ReferencePoints(s, window, latest),
              SummaryOf(s.daily, DayOf(latest) - 29, 30), stale)
  }

  // ----- reading the lists

  method ReadPoint(bs: seq<Bucket>, at: int, today: bool) returns (p: Point)
    requires Increasing(bs)
    ensures p == PointAt(ByAt(bs), at, today)
  {
    var found := Get(bs, at);
    if found.Some? && found.value.complete {
      var b := found.value;
      var total := if b.up.Some? && b.down.Some? then Some(SatAdd(b.up.value, b.down.value)) else None;
      p := Point(at, b.up, b.down, total, true, today);
    } else {
      p := Point(at, None, None, None, false, today);
    }
  }

  /** The points of 288 slots in order, each from its own bucket. */
  method ReadSlots(five: seq<Bucket>, start: int) returns (points: seq<Point>)
    requires Increasing(five)
    ensures |points| == 288 && forall i :: 0 <= i < 288 ==> points[i] == SlotPoint(ByAt(five), start, i)
    ensures points == FivePoints(ByAt(five), start)
  {
    points := [];
    for index := 0 to 288
      invariant |points| == index
      invariant forall i :: 0 <= i < index ==> points[i] == SlotPoint(ByAt(five), start, i)
    {
      var p := ReadPoint(five, start + index * BUCKET_SECS, false);
      points := points + [p];
    }
  }

  /** The points of 31 days in order, with today marked when there is one. */
  method ReadDays(daily: seq<Bucket>, first: int, today: Option<int>) returns (points: seq<Point>)
    requires Increasing(daily)
    ensures |points| == 31 && forall i :: 0 <= i < 31 ==> points[i] == DayPoint(ByAt(daily), first, today, i)
    ensures points == DayPoints(ByAt(daily), first, today)
  {
    points := [];
    for index := 0 to 31
      invariant |points| == index
      invariant forall i :: 0 <= i < index ==> points[i] == DayPoint(ByAt(daily), first, today, i)
    {
      var p := ReadPoint(daily, first + index, today == Some(first + index));
      points := points + [p];
    }
  }

  /** Today's point of a stale record loses its values; at most one point is today's. */
  method ClearToday(points: seq<Point>) returns (r: seq<Point>)
    requires forall i, j :: 0 <= i < j < |points| ==> !(points[i].today && points[j].today)
    ensures r == WithoutToday(points)
  {
    r := points;
    for k := 0 to |points|
      invariant r == points && forall i :: 0 <= i < k ==> !points[i].today
    {
      if points[k].today {
        r := r[k := Point(points[k].at, None, None, None, false, true)];
        return;
      }
    }
  }

  method AnyLacking(points: seq<Point>) returns (any: bool)
    ensures any <==> Lacking(points)
  {
    for k := 0 to |points|
      invariant forall i :: 0 <= i < k ==> points[i].up.Some? && points[i].complete
    {
      if points[k].up.None? || !points[k].complete {
        return true;
      }
    }
    any := false;
  }

  /** The two windows of a report: the current one and the one before it. */
  method ReadWindows(r: Rollup, stale: bool, window: Window, latest: int)
    returns (current: seq<Point>, reference: seq<Point>)
    requires Sorted(r)
    ensures current == CurrentPoints(SeriesOf(r), window, latest, stale)
    ensures reference == ReferencePoints(SeriesOf(r), window, latest)
  {
    match window
    case Hours24 =>
      current := ReadSlots(r.five, latest - 288 * BUCKET_SECS);
      reference := ReadSlots(r.five, latest - 576 * BUCKET_SECS);
    case Days31 =>
      var today := DayOf(latest);
      current := ReadDays(r.daily, today - 30, Some(today));
      reference := ReadDays(r.daily, today - 61, None);
      if stale {
        current := ClearToday(current);
      }
  }

  method Assemble(current: seq<Point>, reference: seq<Point>, summary: Summary, stale: bool) returns (report: Report)
    ensures report == Assembled(current, reference, summary, stale)
  {
    var complete := summary.complete;
    if stale {
      complete := false;
    }
    var partial := !complete;
    if !partial {
      partial := AnyLacking(current);
    }
    if !partial {
      partial := AnyLacking(reference);
    }
    report := Report(current, reference, summary.(complete := complete), partial);
  }

  /** `build_traffic_report`, on the sorted lists of a record. */
  method BuildTrafficReport(r: Rollup, lastSample: Option<int>, window: Window, now: int) returns (report: Report)
    requires Sorted(r)
    ensures report == BuildReport(SeriesOf(r), lastSample, window, now)
  {
    var latest, stale := FloorFive(now), IsStale(lastSample, now);
    var current, reference := ReadWindows(r, stale, window, latest);
    var summary := BuildSummary(r.daily, DayOf(latest) - 29);
    report := Assemble(current, reference, summary, stale);
  }

  // ----- pruning never shows

  lemma FivePointsKept(five: map<int, Bucket>, cutoff: int, start: int)
    requires cutoff <= start
    ensures FivePoints(From(five, cutoff), start) == FivePoints(five, start)
  {
    forall i | 0 <= i < 288
      ensures SlotPoint(From(five, cutoff), start, i) == SlotPoint(five, start, i)
    {
    }
  }

  lemma DayPointsKept(daily: map<int, Bucket>, cutoff: int, first: int, today: Option<int>)
    requires cutoff <= first
    ensures DayPoints(From(daily, cutoff), first, today) == DayPoints(daily, first, today)
  {
    forall i | 0 <= i < 31
      ensures DayPoint(From(daily, cutoff), first, today, i) == DayPoint(daily, first, today, i)
    {
    }
  }

  lemma CurrentDaysKept(daily: map<int, Bucket>, cutoff: int, today: int, stale: bool)
    requires cutoff <= today - 30
    ensures CurrentDays(From(daily, cutoff), today, stale) == CurrentDays(daily, today, stale)
  {
    DayPointsKept(daily, cutoff, today - 30, Some(today));
  }

  lemma {:induction false} SummaryKept(daily: map<int, Bucket>, cutoff: int, first: int, days: nat)
    requires cutoff <= first
    ensures SummaryOf(From(daily, cutoff), first, days) == SummaryOf(daily, first, days)
    decreases days
  {
    if days > 0 {
      SummaryKept(daily, cutoff, first, days - 1);
    }
  }

  lemma DaysAreWholeSlots(day: int, rest: int)
    ensures (day * DAY_SECS + rest) % BUCKET_SECS == rest % BUCKET_SECS
  {
    QuotientUnique(day * DAY_SECS + rest, BUCKET_SECS, 288 * day + rest / BUCKET_SECS, rest % BUCKET_SECS);
  }

  lemma SlotStartsSameDay(now: int)
    ensures DayOf(FloorFive(now)) == DayOf(now)
  {
    var day, rest := now / DAY_SECS, now % DAY_SECS;
    DaysAreWholeSlots(day, rest);
    QuotientUnique(FloorFive(now), DAY_SECS, day, rest - rest % BUCKET_SECS);
  }

  /** Every slot and day a report reads lies past the cut-offs of an earlier prune. */
  lemma ReportsReadPastCutoffs(pruned: int, now: int)
    requires pruned <= now
    ensures FiveCutoff(pruned) <= FloorFive(now) - 576 * BUCKET_SECS
    ensures DailyCutoff(pruned) <= DayOf(FloorFive(now)) - 61
  {
    SlotsAndDaysGrow(pruned, now);
    SlotStartsSameDay(now);
  }

  /** A report reads nothing that an earlier prune could have dropped. */
  lemma RestrictionNeverShows(s: Series, pruned: int, lastSample: Option<int>, window: Window, now: int)
    requires pruned <= now
    ensures BuildReport(Restrict(s, pruned), lastSample, window, now) == BuildReport(s, lastSample, window, now)
  {
    ReportsReadPastCutoffs(pruned, now);
    CutNeverShows(s, FiveCutoff(pruned), DailyCutoff(pruned), lastSample, window, now);
  }

  lemma CutNeverShows(s: Series, five: int, daily: int, lastSample: Option<int>, window: Window, now: int)
    requires five <= FloorFive(now) - 576 * BUCKET_SECS && daily <= DayOf(FloorFive(now)) - 61
    ensures BuildReport(Series(From(s.five, five), From(s.daily, daily)), lastSample, window, now) ==
            BuildReport(s, lastSample, window, now)
  {
    var latest, stale := FloorFive(now), IsStale(lastSample, now);
    SummaryKept(s.daily, daily, DayOf(latest) - 29, 30);
    WindowsKept(s, five, daily, window, latest, DayOf(latest), stale);
  }

  lemma WindowsKept(s: Series, five: int, daily: int, window: Window, latest: int, today: int, stale: bool)
    requires today == DayOf(latest) && five <= latest - 576 * BUCKET_SECS && daily <= today - 61
    ensures var s' := Series(From(s.five, five), From(s.daily, daily));
            && CurrentPoints(s', window, latest, stale) == CurrentPoints(s, window, latest, stale)
            && ReferencePoints(s', window, latest) == ReferencePoints(s, window, latest)
  {
    FivePointsKept(s.five, five, latest - 288 * BUCKET_SECS);
    FivePointsKept(s.five, five, latest - 576 * BUCKET_SECS);
    CurrentDaysKept(s.daily, daily, today, stale);
    DayPointsKept(s.daily, daily, today - 61, None);
  }

  /**
   * After every run with a monotone clock, each later report, with its reference window and
   * summary, shows all the buckets and days that the run recorded, dropped or not.
   */
  lemma RetentionNeverShows(calls: seq<Call>, lastSample: Option<int>, window: Window, now: int)
    requires Monotone(calls) && calls != [] && LastTime(calls) <= now
    ensures BuildReport(Run(calls).node, lastSample, window, now) ==
            BuildReport(KeptAfter(calls).node, lastSample, window, now)
  {
    PruningOnlyRestricts(calls);
    RestrictionNeverShows(KeptAfter(calls).node, LastTime(calls), lastSample, window, now);
  }
}
