/**
 * What a report shows of slots and days that are marked incomplete: exactly when the report of
 * a record and the report of the same record with more marks are the same.
 */
module TrafficMarks {
  import opened TrafficReport
  import opened TrafficSample
  import opened TrafficSeries
  import opened Words

  // ----- the points

  function SlotAt(start: int, i: int): int {
    start + i * BUCKET_SECS
  }

  /** None of the 288 slots from `start` on. */
  predicate SlotsAvoid(lost: set<int>, start: int) {
    forall i :: 0 <= i < 288 ==> SlotAt(start, i) !in lost
  }

  predicate DaysAvoid(lost: set<int>, first: int, days: nat) {
    forall day :: first <= day < first + days ==> day !in lost
  }

  /** The two maps show different points exactly at the times in `lost`. */
  ghost predicate DifferIn(m: map<int, Bucket>, m': map<int, Bucket>, lost: set<int>) {
    forall at :: PointAt(m, at, false) == PointAt(m', at, false) <==> at !in lost
  }

  /** The marked times that had values to lose. */
  function Erased(m: map<int, Bucket>, marks: set<int>): set<int> {
    set at | at in m && at in marks && m[at].complete
  }

  lemma MarksDiffer(m: map<int, Bucket>, marks: set<int>)
    ensures DifferIn(m, Marked(m, marks), Erased(m, marks))
  {
  }

  lemma SlotsChangeIff(m: map<int, Bucket>, m': map<int, Bucket>, lost: set<int>, start: int)
    requires DifferIn(m, m', lost)
    ensures FivePoints(m, start) == FivePoints(m', start) <==> SlotsAvoid(lost, start)
  {
    var a, b := FivePoints(m, start), FivePoints(m', start);
    forall i | 0 <= i < 288
      ensures a[i] == b[i] <==> SlotAt(start, i) !in lost
    {
      assert a[i] == PointAt(m, SlotAt(start, i), false) && b[i] == PointAt(m', SlotAt(start, i), false);
    }
    assert |a| == |b| == 288;
  }

  lemma DayChangesIff(m: map<int, Bucket>, m': map<int, Bucket>, lost: set<int>, first: int, today: Option<int>, i: nat)
    requires DifferIn(m, m', lost)
    ensures DayPoint(m, first, today, i) == DayPoint(m', first, today, i) <==> first + i !in lost
  {
    assert PointAt(m, first + i, false) == PointAt(m', first + i, false) <==> first + i !in lost;
  }

  lemma ListsDifferIff(a: seq<Point>, b: seq<Point>, lost: set<int>, first: int)
    requires |a| == |b| && forall i :: 0 <= i < |a| ==> (a[i] == b[i] <==> first + i !in lost)
    ensures a == b <==> DaysAvoid(lost, first, |a|)
  {
    if a == b {
      forall day | first <= day < first + |a|
        ensures day !in lost
      {
        assert a[day - first] == b[day - first];
      }
    }
  }

  lemma DaysChangeIff(m: map<int, Bucket>, m': map<int, Bucket>, lost: set<int>, first: int, today: Option<int>)
    requires DifferIn(m, m', lost)
    ensures DayPoints(m, first, today) == DayPoints(m', first, today) <==> DaysAvoid(lost, first, 31)
  {
    var a, b := DayPoints(m, first, today), DayPoints(m', first, today);
    forall i | 0 <= i < 31
      ensures a[i] == b[i] <==> first + i !in lost
    {
      DayChangesIff(m, m', lost, first, today, i);
    }
    ListsDifferIff(a, b, lost, first);
  }

  predicate TodayLast(points: seq<Point>, first: int) {
    |points| == 31 && forall i :: 0 <= i < 31 ==> points[i].at == first + i && (points[i].today <==> i == 30)
  }

  lemma DaysEndToday(m: map<int, Bucket>, today: int)
    ensures TodayLast(DayPoints(m, today - 30, Some(today)), today - 30)
  {
  }

  /** Today's point of a stale record is cleared anyway. */
  lemma StaleDaysChangeIff(m: map<int, Bucket>, m': map<int, Bucket>, lost: set<int>, today: int)
    requires DifferIn(m, m', lost)
    ensures CurrentDays(m, today, true) == CurrentDays(m', today, true) <==> DaysAvoid(lost, today - 30, 30)
  {
    var first := today - 30;
    var a, b := DayPoints(m, first, Some(today)), DayPoints(m', first, Some(today));
    forall i | 0 <= i < 31
      ensures a[i] == b[i] <==> first + i !in lost
    {
      DayChangesIff(m, m', lost, first, Some(today), i);
    }
    ListsDifferIff(a[..30], b[..30], lost, first);
    DaysEndToday(m, today);
    DaysEndToday(m', today);
    ClearedAlikeIff(a, b, first);
  }

  lemma ClearedAlikeIff(a: seq<Point>, b: seq<Point>, first: int)
    requires TodayLast(a, first) && TodayLast(b, first)
    ensures WithoutToday(a) == WithoutToday(b) <==> a[..30] == b[..30]
  {
    var c, d := WithoutToday(a), WithoutToday(b);
    assert c[30] == d[30];
    forall i | 0 <= i < 30
      ensures c[i] == a[i] && d[i] == b[i] && a[..30][i] == a[i] && b[..30][i] == b[i]
    {
    }
    if a[..30] == b[..30] {
      assert forall i :: 0 <= i < 31 ==> c[i] == d[i];
    } else {
      assert exists i :: 0 <= i < 30 && c[i] != d[i];
    }
  }


  predicate PointsAvoid(slots: set<int>, days: set<int>, window: Window, latest: int, stale: bool) {
    match window
    case Hours24 => SlotsAvoid(slots, latest - 288 * BUCKET_SECS) && SlotsAvoid(slots, latest - 576 * BUCKET_SECS)
    case Days31 =>
      DaysAvoid(days, DayOf(latest) - 30, if stale then 30 else 31) && DaysAvoid(days, DayOf(latest) - 61, 31)
  }

  predicate SamePoints(a: Series, b: Series, window: Window, latest: int, stale: bool) {
    && CurrentPoints(a, window, latest, stale) == CurrentPoints(b, window, latest, stale)
    && ReferencePoints(a, window, latest) == ReferencePoints(b, window, latest)
  }

  lemma PointsOfDays(s: Series, latest: int, today: int, stale: bool)
    requires today == DayOf(latest)
    ensures CurrentPoints(s, Days31, latest, stale) == CurrentDays(s.daily, today, stale)
    ensures ReferencePoints(s, Days31, latest) == DayPoints(s.daily, today - 61, None)
  {
  }

  lemma DaysShowIff(a: Series, b: Series, lost: set<int>, latest: int, today: int, stale: bool)
    requires today == DayOf(latest) && DifferIn(a.daily, b.daily, lost)
    ensures SamePoints(a, b, Days31, latest, stale) <==>
            DaysAvoid(lost, today - 30, if stale then 30 else 31) && DaysAvoid(lost, today - 61, 31)
  {
    if stale {
      StaleDaysChangeIff(a.daily, b.daily, lost, today);
    } else {
      DaysChangeIff(a.daily, b.daily, lost, today - 30, Some(today));
    }
    DaysChangeIff(a.daily, b.daily, lost, today - 61, None);
    PointsOfDays(a, latest, today, stale);
    PointsOfDays(b, latest, today, stale);
  }

  /** A report's points differ exactly when a slot or day they show does, today of a stale record aside. */
  lemma PointsShowIff(a: Series, b: Series, slots: set<int>, days: set<int>, window: Window, latest: int, stale: bool)
    requires DifferIn(a.five, b.five, slots) && DifferIn(a.daily, b.daily, days)
    ensures SamePoints(a, b, window, latest, stale) <==> PointsAvoid(slots, days, window, latest, stale)
  {
    match window
    case Hours24 =>
      SlotsChangeIff(a.five, b.five, slots, latest - 288 * BUCKET_SECS);
      SlotsChangeIff(a.five, b.five, slots, latest - 576 * BUCKET_SECS);
    case Days31 =>
      DaysShowIff(a, b, days, latest, DayOf(latest), stale);
  }

  // ----- the summary

  /** The first day there is anything for. */
  predicate IsSince(daily: map<int, Bucket>, first: int, days: nat, since: Option<int>) {
    match since
    case None => forall day :: first <= day < first + days ==> day !in daily
    case Some(d) => first <= d < first + days && d in daily && forall day :: first <= day < d ==> day !in daily
  }

  lemma {:induction false} SummarySince(daily: map<int, Bucket>, first: int, days: nat)
    ensures IsSince(daily, first, days, SummaryOf(daily, first, days).since)
    decreases days
  {
    if days > 0 {
      SummarySince(daily, first, days - 1);
    }
  }

  /** A marked day that was not there comes after some day that was. */
  predicate StartsAlike(daily: map<int, Bucket>, marks: set<int>, first: int, days: nat) {
    forall d :: d in marks && first <= d < first + days && d !in daily ==> HasBefore(daily, first, d)
  }

  predicate HasBefore(daily: map<int, Bucket>, first: int, d: int) {
    exists e :: e in daily && first <= e < d
  }

  lemma SinceIsSameIff(daily: map<int, Bucket>, marks: set<int>, first: int, days: nat, a: Option<int>, b: Option<int>)
    requires IsSince(daily, first, days, a) && IsSince(Marked(daily, marks), first, days, b)
    ensures a == b <==> StartsAlike(daily, marks, first, days)
  {
    if a == b {
      forall d | d in marks && first <= d < first + days && d !in daily
        ensures HasBefore(daily, first, d)
      {
        assert d in Marked(daily, marks);
        assert b.Some? && b.value <= d;
        assert a.value in daily;
      }
    } else {
      assert a.Some? ==> a.value in Marked(daily, marks);
      assert b.value in marks && b.value !in daily && !HasBefore(daily, first, b.value);
    }
  }

  predicate AllFull(daily: map<int, Bucket>, first: int, days: nat) {
    forall day :: first <= day < first + days ==> FullDay(daily, day)
  }

  lemma FullMarkedIff(daily: map<int, Bucket>, marks: set<int>, first: int, days: nat)
    ensures AllFull(Marked(daily, marks), first, days) <==>
            AllFull(daily, first, days) && DaysAvoid(marks, first, days)
  {
    forall day
      ensures FullDay(Marked(daily, marks), day) <==> FullDay(daily, day) && day !in marks
    {
    }
    if AllFull(Marked(daily, marks), first, days) {
      forall day | first <= day < first + days
        ensures FullDay(daily, day) && day !in marks
      {
        assert FullDay(Marked(daily, marks), day);
      }
    }
  }

  function Within(daily: map<int, Bucket>, days: set<int>): map<int, Bucket> {
    map day | day in daily && day in days :: daily[day]
  }

  /** What the marks take from the sums is what the marked days held. */
  lemma {:induction false} MarkedBytes(daily: map<int, Bucket>, marks: set<int>, first: int, days: nat, d: Direction)
    ensures DayBytes(daily, first, days, d) ==
            DayBytes(Marked(daily, marks), first, days, d) + DayBytes(Within(daily, marks), first, days, d)
    decreases days
  {
    if days > 0 {
      MarkedBytes(daily, marks, first, days - 1, d);
    }
  }

  /** The marked days held no bytes, or the others saturate the sum without them. */
  predicate BytesHidden(daily: map<int, Bucket>, marks: set<int>, first: int, days: nat, d: Direction) {
    || DayBytes(Within(daily, marks), first, days, d) == 0
    || DayBytes(Marked(daily, marks), first, days, d) >= U64_MAX
  }

  lemma BytesHiddenIff(daily: map<int, Bucket>, marks: set<int>, first: int, days: nat, d: Direction)
    ensures Min(DayBytes(daily, first, days, d), U64_MAX) ==
            Min(DayBytes(Marked(daily, marks), first, days, d), U64_MAX) <==>
            BytesHidden(daily, marks, first, days, d)
  {
    MarkedBytes(daily, marks, first, days, d);
  }

  /**
   * Marking days leaves the summary as it was: it is incomplete anyway or no day of it is
   * marked, it starts on the same day, and no bytes are missed.
   */
  predicate SummaryHides(daily: map<int, Bucket>, marks: set<int>, first: int, days: nat, stale: bool) {
    && (stale || DaysAvoid(marks, first, days) || !AllFull(daily, first, days))
    && StartsAlike(daily, marks, first, days)
    && BytesHidden(daily, marks, first, days, Up) && BytesHidden(daily, marks, first, days, Down)
  }

  function Shown(s: Summary, stale: bool): Summary {
    s.(complete := s.complete && !stale)
  }

  lemma SummaryHidesIff(daily: map<int, Bucket>, marks: set<int>, first: int, days: nat, stale: bool)
    ensures Shown(SummaryOf(daily, first, days), stale) ==
            Shown(SummaryOf(Marked(daily, marks), first, days), stale) <==>
            SummaryHides(daily, marks, first, days, stale)
  {
    var a, b := SummaryOf(daily, first, days), SummaryOf(Marked(daily, marks), first, days);
    SummaryCompleteIff(daily, first, days);
    SummaryCompleteIff(Marked(daily, marks), first, days);
    assert a.complete == AllFull(daily, first, days) && b.complete == AllFull(Marked(daily, marks), first, days);
    FullMarkedIff(daily, marks, first, days);
    SummarySince(daily, first, days);
    SummarySince(Marked(daily, marks), first, days);
    SinceIsSameIff(daily, marks, first, days, a.since, b.since);
    SummaryAddsUp(daily, first, days);
    SummaryAddsUp(Marked(daily, marks), first, days);
    BytesHiddenIff(daily, marks, first, days, Up);
    BytesHiddenIff(daily, marks, first, days, Down);
  }

  /** Marks on days that are not there can only move the day the summary starts on. */
  lemma AbsentDaysMoveStart(daily: map<int, Bucket>, marks: set<int>, first: int, days: nat)
    requires forall d :: d in marks && first <= d < first + days ==> d !in daily
    ensures var a, b := SummaryOf(daily, first, days), SummaryOf(Marked(daily, marks), first, days);
            && a.up == b.up && a.down == b.down && a.complete == b.complete
            && (a.since == b.since <==> StartsAlike(daily, marks, first, days))
  {
    SummarySince(daily, first, days);
    SummarySince(Marked(daily, marks), first, days);
    SinceIsSameIff(daily, marks, first, days, SummaryOf(daily, first, days).since,
                   SummaryOf(Marked(daily, marks), first, days).since);
    AbsentHoldNothing(daily, marks, first, days, Up);
    AbsentHoldNothing(daily, marks, first, days, Down);
    SummaryAddsUp(daily, first, days);
    SummaryAddsUp(Marked(daily, marks), first, days);
    SummaryCompleteIff(daily, first, days);
    SummaryCompleteIff(Marked(daily, marks), first, days);
    FullMarkedIff(daily, marks, first, days);
    if !DaysAvoid(marks, first, days) {
      var d :| first <= d < first + days && d in marks;
      assert !FullDay(daily, d);
    }
  }

  lemma {:induction false} AbsentHoldNothing(daily: map<int, Bucket>, marks: set<int>, first: int, days: nat,
                                             d: Direction)
    requires forall day :: day in marks && first <= day < first + days ==> day !in daily
    ensures DayBytes(daily, first, days, d) == DayBytes(Marked(daily, marks), first, days, d)
    decreases days
  {
    if days > 0 {
      AbsentHoldNothing(daily, marks, first, days - 1, d);
    }
  }

  // ----- whole reports

  function WithMarks(s: Series, slots: set<int>, days: set<int>): Series {
    Series(Marked(s.five, slots), Marked(s.daily, days))
  }

  /** Nothing of the marks is visible in a report. */
  predicate ReportHides(s: Series, slots: set<int>, days: set<int>, window: Window, latest: int, stale: bool) {
    && PointsAvoid(Erased(s.five, slots), Erased(s.daily, days), window, latest, stale)
    && SummaryHides(s.daily, days, DayOf(latest) - 29, 30, stale)
  }

  lemma ReportsAlikeIff(a: Series, b: Series, lastSample: Option<int>, window: Window, now: int, days: nat)
    requires days == 30
    ensures var latest, stale := FloorFive(now), IsStale(lastSample, now);
            BuildReport(a, lastSample, window, now) == BuildReport(b, lastSample, window, now) <==>
            && SamePoints(a, b, window, latest, stale)
            && Shown(SummaryOf(a.daily, DayOf(latest) - 29, days), stale) ==
               Shown(SummaryOf(b.daily, DayOf(latest) - 29, days), stale)
  {
  }

  /** The report of a record and that of the record with more marks are the same exactly when nothing shows. */
  lemma MarksShowIff(s: Series, slots: set<int>, days: set<int>, lastSample: Option<int>, window: Window, now: int)
    ensures BuildReport(s, lastSample, window, now) ==
            BuildReport(WithMarks(s, slots, days), lastSample, window, now) <==>
            ReportHides(s, slots, days, window, FloorFive(now), IsStale(lastSample, now))
  {
    var latest, stale, thirty := FloorFive(now), IsStale(lastSample, now), 30;
    ReportsAlikeIff(s, WithMarks(s, slots, days), lastSample, window, now, thirty);
    MarksDiffer(s.five, slots);
    MarksDiffer(s.daily, days);
    PointsShowIff(s, WithMarks(s, slots, days), Erased(s.five, slots), Erased(s.daily, days), window, latest, stale);
    SummaryHidesIff(s.daily, days, DayOf(latest) - 29, thirty, stale);
  }

  predicate SameReportPoints(a: Report, b: Report) {
    a.current == b.current && a.reference == b.reference
  }

  lemma ReportsHavePoints(a: Series, b: Series, lastSample: Option<int>, window: Window, now: int)
    ensures SameReportPoints(BuildReport(a, lastSample, window, now), BuildReport(b, lastSample, window, now)) <==>
            SamePoints(a, b, window, FloorFive(now), IsStale(lastSample, now))
  {
  }

  /** And their points are, exactly when no slot or day they show had values to lose. */
  lemma MarksShowInPointsIff(s: Series, slots: set<int>, days: set<int>, lastSample: Option<int>, window: Window,
                             now: int)
    ensures SameReportPoints(BuildReport(s, lastSample, window, now),
                             BuildReport(WithMarks(s, slots, days), lastSample, window, now)) <==>
            PointsAvoid(Erased(s.five, slots), Erased(s.daily, days), window, FloorFive(now),
                        IsStale(lastSample, now))
  {
    ReportsHavePoints(s, WithMarks(s, slots, days), lastSample, window, now);
    MarksDiffer(s.five, slots);
    MarksDiffer(s.daily, days);
    PointsShowIff(s, WithMarks(s, slots, days), Erased(s.five, slots), Erased(s.daily, days), window, FloorFive(now),
                  IsStale(lastSample, now));
  }
}
