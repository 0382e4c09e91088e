/** What holds of a node's traffic record over whole runs of samples and prunes (src/node_history.rs). */
module TrafficRuns {
  import opened TrafficHistory
  import opened TrafficPrune
  import opened TrafficSample
  import opened TrafficSeries
  import opened Words

  function Run(calls: seq<Call>): History {
    if calls == [] then NOTHING else Step(Run(calls[..|calls| - 1]), calls[|calls| - 1])
  }

  /** The clock never runs backwards. */
  predicate Monotone(calls: seq<Call>) {
    forall i, j :: 0 <= i < j < |calls| ==> calls[i].now <= calls[j].now
  }

  /** No two samples fill the same slot. */
  predicate FreshSlots(calls: seq<Call>) {
    forall i, j :: 0 <= i < j < |calls| && calls[i].sample.Some? && calls[j].sample.Some? ==>
      BucketStart(calls[i].now) < BucketStart(calls[j].now)
  }

  // ----- all that a run puts into buckets and days

  /** What a sample measures for the node. */
  function NodeMeasure(baselines: map<Key, Baseline>, now: int, s: Sample, deleted: set<User>): Measured {
    Measure(Charges(baselines, s.totals, now, deleted), Idle(s), s.complete)
  }

  /** Every bucket and daily entry that a run recorded for the node, whether it still has them or not. */
  datatype Kept = Kept(node: Series, legacy: map<int, Legacy>)

  function KeptStep(k: Kept, now: int, m: Measured): Kept {
    Kept(Noted(k.node, BucketStart(now), ReadingOf(m), m.gapDates),
         LegacyAfter(k.legacy, DayOf(BucketStart(now)), m))
  }

  function KeptAfter(calls: seq<Call>): Kept {
    if calls == [] then Kept(NO_SERIES, map[])
    else
      var rest, c := calls[..|calls| - 1], calls[|calls| - 1];
      if c.sample.None? then KeptAfter(rest)
      else KeptStep(KeptAfter(rest), c.now, NodeMeasure(Run(rest).baselines, c.now, c.sample.value, c.deleted))
  }

  function Restrict(s: Series, now: int): Series {
    Series(From(s.five, FiveCutoff(now)), From(s.daily, DailyCutoff(now)))
  }

  // ----- pruning only restricts

  predicate NotAhead(baselines: map<Key, Baseline>, now: int) {
    forall k :: k in baselines ==> baselines[k].at <= now
  }

  lemma {:induction false} BaselinesNotAhead(baselines: map<Key, Baseline>, totals: seq<Totals>, now: int)
    requires NotAhead(baselines, now)
    ensures NotAhead(BaselinesAfter(baselines, totals, now), now)
    decreases |totals|
  {
    if totals != [] {
      BaselinesNotAhead(baselines, totals[..|totals| - 1], now);
    }
  }

  predicate GapsBy(cs: seq<Charge>, day: int) {
    forall i :: 0 <= i < |cs| && cs[i].change.Gap? ==> cs[i].change.date <= day
  }

  lemma {:induction false} GapsNotAhead(baselines: map<Key, Baseline>, totals: seq<Totals>, now: int,
                                        deleted: set<User>)
    requires NotAhead(baselines, now)
    ensures GapsBy(Charges(baselines, totals, now, deleted), DayOf(now))
    decreases |totals|
  {
    if totals != [] {
      var rest := totals[..|totals| - 1];
      GapsNotAhead(baselines, rest, now, deleted);
      BaselinesNotAhead(baselines, rest, now);
    }
  }

  lemma {:induction false} GapsOfOwner(cs: seq<Charge>, owner: Option<User>, day: int)
    requires GapsBy(cs, day)
    ensures GapsBy(Of(cs, owner), day)
    decreases |cs|
  {
    if cs != [] {
      GapsOfOwner(cs[..|cs| - 1], owner, day);
    }
  }

  lemma {:induction false} MeasuredGaps(cs: seq<Charge>, known: bool, complete: bool, day: int)
    requires GapsBy(cs, day)
    ensures forall d :: d in Measure(cs, known, complete).gapDates ==> d <= day
    decreases |cs|
  {
    if cs != [] {
      MeasuredGaps(cs[..|cs| - 1], known, complete, day);
    }
  }

  lemma SlotsAndDaysGrow(past: int, now: int)
    requires past <= now
    ensures FloorFive(past) <= FloorFive(now) && DayOf(past) <= DayOf(now)
    ensures FiveCutoff(past) <= FiveCutoff(now) && DailyCutoff(past) <= DailyCutoff(now)
  {
  }

  lemma StartFits(now: int)
    ensures BucketStart(now) % BUCKET_SECS == 0 && BucketStart(now) + BUCKET_SECS == FloorFive(now)
    ensures DayOf(now) - 1 <= DayOf(BucketStart(now)) <= DayOf(now)
  {
  }

  lemma FitsLater(s: Series, past: int, now: int)
    requires Fits(s, past) && past <= now
    ensures Fits(s, now)
  {
    SlotsAndDaysGrow(past, now);
  }

  lemma NotedFits(s: Series, past: int, now: int, r: Reading, gaps: set<int>)
    requires Fits(s, past) && past <= now && forall d :: d in gaps ==> d <= DayOf(now)
    ensures Fits(Noted(s, BucketStart(now), r, gaps), now)
  {
    FitsLater(s, past, now);
    StartFits(now);
    NotedStillFits(s, BucketStart(now), r, gaps, now);
  }

  lemma NotedStillFits(s: Series, start: int, r: Reading, gaps: set<int>, now: int)
    requires Fits(s, now) && forall d :: d in gaps ==> d <= DayOf(now)
    requires start % BUCKET_SECS == 0 && start + BUCKET_SECS <= FloorFive(now) && DayOf(start) <= DayOf(now)
    ensures Fits(Noted(s, start, r, gaps), now)
  {
    var b := BucketOf(start, r);
    var daily := DailyAfter(s.daily, DayOf(start), b.up, b.down, b.complete);
    assert forall d :: d in Marked(daily, gaps) ==> d in s.daily || d == DayOf(start) || d in gaps;
  }

  lemma RestrictTwice(m: map<int, Bucket>, c: int, c': int)
    requires c <= c'
    ensures From(From(m, c), c') == From(m, c')
  {
  }

  lemma DailyThenRestricted(daily: map<int, Bucket>, cut: int, cut': int, day: int, b: Bucket, gaps: set<int>)
    requires cut <= cut' && cut <= day
    ensures From(Marked(DailyAfter(From(daily, cut), day, b.up, b.down, b.complete), gaps), cut') ==
            From(Marked(DailyAfter(daily, day, b.up, b.down, b.complete), gaps), cut')
  {
  }

  lemma FiveThenRestricted(five: map<int, Bucket>, cut: int, cut': int, start: int, b: Bucket)
    requires cut <= cut'
    ensures From(From(five, cut)[start := b], cut') == From(five[start := b], cut')
  {
  }

  /** Recording into a restricted record and restricting again loses nothing more. */
  lemma NotedThenRestricted(s: Series, past: int, now: int, r: Reading, gaps: set<int>)
    requires past <= now
    ensures Restrict(Noted(Restrict(s, past), BucketStart(now), r, gaps), now) ==
            Restrict(Noted(s, BucketStart(now), r, gaps), now)
  {
    var start := BucketStart(now);
    SlotsAndDaysGrow(past, now);
    StartFits(now);
    FiveThenRestricted(s.five, FiveCutoff(past), FiveCutoff(now), start, BucketOf(start, r));
    DailyThenRestricted(s.daily, DailyCutoff(past), DailyCutoff(now), DayOf(start), BucketOf(start, r), gaps);
  }

  lemma LegacyThenRestricted(legacy: map<int, Legacy>, past: int, now: int, m: Measured)
    requires past <= now
    ensures RecentLegacy(LegacyAfter(RecentLegacy(legacy, past), DayOf(BucketStart(now)), m), now) ==
            RecentLegacy(LegacyAfter(legacy, DayOf(BucketStart(now)), m), now)
  {
    assert DayOf(past) <= DayOf(now) && DayOf(past) - 90 <= DayOf(BucketStart(now));
  }

  lemma PrefixIsMonotone(calls: seq<Call>)
    requires Monotone(calls) && calls != []
    ensures Monotone(calls[..|calls| - 1])
  {
  }

  function LastTime(calls: seq<Call>): int
    requires calls != []
  {
    calls[|calls| - 1].now
  }

  /** The record of a run: nothing from the future, and exactly the recent part of all that was recorded. */
  ghost predicate IsRestriction(h: History, k: Kept, now: int) {
    && NotAhead(h.baselines, now) && Fits(k.node, now)
    && h.node == Restrict(k.node, now) && h.legacy == RecentLegacy(k.legacy, now)
  }

  lemma StepRestricts(h: History, k: Kept, past: int, c: Call)
    requires IsRestriction(h, k, past) && past <= c.now
    ensures IsRestriction(Step(h, c),
                          if c.sample.None? then k
                          else KeptStep(k, c.now, NodeMeasure(h.baselines, c.now, c.sample.value, c.deleted)),
                          c.now)
  {
    FitsLater(k.node, past, c.now);
    if c.sample.None? {
      RestrictedAgain(k, past, c.now);
      CapsKeepEverything(h.node, c.now);
    } else {
      SampleRestricts(h, k, past, c.now, c.sample.value, c.deleted);
    }
  }

  lemma RestrictedAgain(k: Kept, past: int, now: int)
    requires past <= now && Fits(k.node, now)
    ensures Restrict(Restrict(k.node, past), now) == Restrict(k.node, now)
    ensures RecentLegacy(RecentLegacy(k.legacy, past), now) == RecentLegacy(k.legacy, now)
    ensures Fits(Restrict(k.node, past), now)
  {
    RestrictTwice(k.node.five, FiveCutoff(past), FiveCutoff(now));
    RestrictTwice(k.node.daily, DailyCutoff(past), DailyCutoff(now));
    assert DayOf(past) <= DayOf(now);
  }

  lemma SampleRestricts(h: History, k: Kept, past: int, now: int, s: Sample, deleted: set<User>)
    requires IsRestriction(h, k, past) && past <= now
    ensures IsRestriction(Pruned(Recorded(h, now, s, deleted), now),
                          KeptStep(k, now, NodeMeasure(h.baselines, now, s, deleted)), now)
  {
    var m := NodeMeasure(h.baselines, now, s, deleted);
    var r := Recorded(h, now, s, deleted);
    BaselinesNotAhead(h.baselines, s.totals, now);
    GapsNotAhead(h.baselines, s.totals, now, deleted);
    MeasuredGaps(Charges(h.baselines, s.totals, now, deleted), Idle(s), s.complete, DayOf(now));
    NotedFits(k.node, past, now, ReadingOf(m), m.gapDates);
    FitsLater(k.node, past, now);
    RestrictedAgain(k, past, now);
    NotedFits(h.node, now, now, ReadingOf(m), m.gapDates);
    CapsKeepEverything(r.node, now);
    NotedThenRestricted(k.node, past, now, ReadingOf(m), m.gapDates);
    LegacyThenRestricted(k.legacy, past, now, m);
  }

  /** Over every run with a monotone clock, pruning buckets and days does no more than restrict to the windows. */
  lemma {:induction false} PruningOnlyRestricts(calls: seq<Call>)
    requires Monotone(calls) && calls != []
    ensures IsRestriction(Run(calls), KeptAfter(calls), LastTime(calls))
    decreases |calls|
  {
    var rest, c := calls[..|calls| - 1], calls[|calls| - 1];
    if rest == [] {
      assert IsRestriction(NOTHING, Kept(NO_SERIES, map[]), c.now);
      StepRestricts(NOTHING, Kept(NO_SERIES, map[]), c.now, c);
    } else {
      PrefixIsMonotone(calls);
      PruningOnlyRestricts(rest);
      StepRestricts(Run(rest), KeptAfter(rest), LastTime(rest), c);
    }
  }
}
