/**
 * Reports of a run against those of the same run with nothing ever pruned, buckets and baselines
 * alike (src/node_history.rs).
 */
module TrafficUnprunedReports {
  import opened TrafficHistory
  import opened TrafficMarks
  import opened TrafficPrune
  import opened TrafficReport
  import opened TrafficRuns
  import opened TrafficSample
  import opened TrafficSeries
  import opened TrafficUnpruned
  import opened TrafficUsers
  import opened Words

  lemma RestrictedMarks(s: Series, lost: set<int>, past: int)
    ensures Restrict(MarkedDays(Restrict(s, past), lost), past) == Restrict(MarkedDays(s, lost), past)
  {
    assert From(From(s.five, FiveCutoff(past)), FiveCutoff(past)) == From(s.five, FiveCutoff(past));
    assert From(Marked(From(s.daily, DailyCutoff(past)), lost), DailyCutoff(past)) ==
           From(Marked(s.daily, lost), DailyCutoff(past));
  }

  /** A later report of the marked record needs no more of it than the prune has left. */
  lemma MarksOfRestriction(s: Series, lost: set<int>, past: int, lastSample: Option<int>, window: Window, now: int)
    requires past <= now
    ensures BuildReport(MarkedDays(s, lost), lastSample, window, now) ==
            BuildReport(WithMarks(Restrict(s, past), {}, lost), lastSample, window, now)
  {
    MarkNone(Restrict(s, past).five);
    RestrictedMarks(s, lost, past);
    RestrictionNeverShows(MarkedDays(s, lost), past, lastSample, window, now);
    RestrictionNeverShows(MarkedDays(Restrict(s, past), lost), past, lastSample, window, now);
  }

  /**
   * After every run with a monotone clock, a later report of the node is the one that a record
   * with nothing ever pruned gives if and only if the lost days do not show in it.
   */
  lemma PruningShowsIff(calls: seq<Call>, lastSample: Option<int>, window: Window, now: int)
    requires Monotone(calls) && calls != [] && LastTime(calls) <= now
    ensures BuildReport(Run(calls).node, lastSample, window, now) ==
            BuildReport(Unpruned(calls).node, lastSample, window, now) <==>
            ReportHides(Run(calls).node, {}, LostDays(calls, None), window, FloorFive(now), IsStale(lastSample, now))
  {
    PruningOnlyRestricts(calls);
    UnprunedIsMarked(calls);
    MarksOfRestriction(KeptAfter(calls).node, LostDays(calls, None), LastTime(calls), lastSample, window, now);
    MarksShowIff(Run(calls).node, {}, LostDays(calls, None), lastSample, window, now);
  }

  /** And a later report of a user if and only if the user's lost days do not. */
  lemma UserPruningShowsIff(calls: seq<Call>, u: User, lastSample: Option<int>, window: Window, now: int)
    requires Monotone(calls) && calls != [] && LastTime(calls) <= now
    ensures var s := SeriesFor(Run(calls).users, u);
            BuildReport(s, lastSample, window, now) ==
            BuildReport(SeriesFor(Unpruned(calls).users, u), lastSample, window, now) <==>
            ReportHides(s, {}, LostDays(calls, Some(u)), window, FloorFive(now), IsStale(lastSample, now))
  {
    UserPruningOnlyRestricts(calls, u);
    UnprunedUserIsMarked(calls, u);
    MarksOfRestriction(UserKept(calls, u), LostDays(calls, Some(u)), LastTime(calls), lastSample, window, now);
    MarksShowIff(SeriesFor(Run(calls).users, u), {}, LostDays(calls, Some(u)), lastSample, window, now);
  }

  /**
   * The points of a report differ exactly when one of the days they show is lost and complete in
   * the record; those of a 24h report never do.
   */
  lemma PruningShowsInPointsIff(calls: seq<Call>, lastSample: Option<int>, window: Window, now: int)
    requires Monotone(calls) && calls != [] && LastTime(calls) <= now
    ensures SameReportPoints(BuildReport(Run(calls).node, lastSample, window, now),
                             BuildReport(Unpruned(calls).node, lastSample, window, now)) <==>
            PointsAvoid({}, Erased(Run(calls).node.daily, LostDays(calls, None)), window, FloorFive(now),
                        IsStale(lastSample, now))
    ensures window.Hours24? ==>
              SameReportPoints(BuildReport(Run(calls).node, lastSample, window, now),
                               BuildReport(Unpruned(calls).node, lastSample, window, now))
  {
    PruningOnlyRestricts(calls);
    UnprunedIsMarked(calls);
    MarksOfRestriction(KeptAfter(calls).node, LostDays(calls, None), LastTime(calls), lastSample, window, now);
    MarksShowInPointsIff(Run(calls).node, {}, LostDays(calls, None), lastSample, window, now);
    assert Erased(Run(calls).node.five, {}) == {};
  }

  lemma UserPruningShowsInPointsIff(calls: seq<Call>, u: User, lastSample: Option<int>, window: Window, now: int)
    requires Monotone(calls) && calls != [] && LastTime(calls) <= now
    ensures var s := SeriesFor(Run(calls).users, u);
            SameReportPoints(BuildReport(s, lastSample, window, now),
                             BuildReport(SeriesFor(Unpruned(calls).users, u), lastSample, window, now)) <==>
            PointsAvoid({}, Erased(s.daily, LostDays(calls, Some(u))), window, FloorFive(now),
                        IsStale(lastSample, now))
  {
    UserPruningOnlyRestricts(calls, u);
    UnprunedUserIsMarked(calls, u);
    MarksOfRestriction(UserKept(calls, u), LostDays(calls, Some(u)), LastTime(calls), lastSample, window, now);
    MarksShowInPointsIff(SeriesFor(Run(calls).users, u), {}, LostDays(calls, Some(u)), lastSample, window, now);
    assert Erased(SeriesFor(Run(calls).users, u).five, {}) == {};
  }

  // ----- a dropped user record

  lemma UserDaysStay(k: Series, h: History, now: int, s: Sample, deleted: set<User>, u: User)
    ensures k.daily.Keys <= UserStep(k, h, now, s, deleted, u).daily.Keys
  {
  }

  predicate ReachedBy(days: set<int>, d: int) {
    exists day :: day in days && d <= day
  }

  lemma {:induction false} ForgottenAreOld(baselines: map<Key, Baseline>, totals: seq<Totals>, now: int, past: int,
                                           deleted: set<User>, whose: Option<User>)
    requires past <= now
    ensures forall d :: d in Forgotten(baselines, totals, now, past, deleted, whose) ==> d <= DayOf(BucketStart(now))
    decreases |totals|
  {
    if totals != [] {
      var rest, t := totals[..|totals| - 1], totals[|totals| - 1];
      ForgottenAreOld(baselines, rest, now, past, deleted, whose);
      DroppedIsOld(BaselinesAfter(baselines, rest, now), t, past, now);
    }
  }

  lemma DroppedIsOld(baselines: map<Key, Baseline>, t: Totals, past: int, now: int)
    requires past <= now
    ensures forall d :: d in DroppedDay(baselines, t, past) ==> d <= DayOf(BucketStart(now))
  {
  }

  /** No lost day of a user is later than all the days recorded for it. */
  lemma {:induction false} LostAreReached(calls: seq<Call>, u: User)
    requires Monotone(calls)
    ensures forall d :: d in LostDays(calls, Some(u)) ==> ReachedBy(UserKept(calls, u).daily.Keys, d)
    decreases |calls|
  {
    if calls != [] {
      var rest, c := calls[..|calls| - 1], calls[|calls| - 1];
      PrefixIsMonotone(calls);
      LostAreReached(rest, u);
      if c.sample.Some? {
        LostStepIsReached(UserKept(rest, u), Run(rest), Unpruned(rest).baselines, c.now, PrunedBefore(calls),
                          c.sample.value, c.deleted, u, LostDays(rest, Some(u)));
      }
    }
  }

  lemma LostStepIsReached(k: Series, h: History, baselines: map<Key, Baseline>, now: int, past: int, s: Sample,
                          deleted: set<User>, u: User, lost: set<int>)
    requires past <= now && forall d :: d in lost ==> ReachedBy(k.daily.Keys, d)
    ensures forall d :: d in lost + Forgotten(baselines, s.totals, now, past, deleted, Some(u)) ==>
              ReachedBy(UserStep(k, h, now, s, deleted, u).daily.Keys, d)
  {
    var after := UserStep(k, h, now, s, deleted, u).daily.Keys;
    UserDaysStay(k, h, now, s, deleted, u);
    TouchedIff(h.baselines, now, s, deleted, u);
    ForgottenAreOld(baselines, s.totals, now, past, deleted, Some(u));
    if !Owns(s.totals, deleted, u) {
      OthersForgetNothing(baselines, s.totals, now, past, deleted, u);
    } else {
      assert DayOf(BucketStart(now)) in after;
    }
    forall d | d in lost + Forgotten(baselines, s.totals, now, past, deleted, Some(u))
      ensures ReachedBy(after, d)
    {
      if d in lost {
        var day :| day in k.daily.Keys && d <= day;
        assert day in after;
      }
    }
  }

  /** A user record dropped because it is empty would show nothing even if nothing were ever pruned. */
  lemma DroppedUserShowsNothing(calls: seq<Call>, u: User, lastSample: Option<int>, window: Window, now: int)
    requires Monotone(calls) && calls != [] && LastTime(calls) <= now && u !in Run(calls).users
    ensures BuildReport(SeriesFor(Unpruned(calls).users, u), lastSample, window, now) ==
            BuildReport(NO_SERIES, lastSample, window, now)
  {
    var past, k, lost := LastTime(calls), UserKept(calls, u), LostDays(calls, Some(u));
    UserPruningOnlyRestricts(calls, u);
    UnprunedUserIsMarked(calls, u);
    LostAreReached(calls, u);
    NothingLeft(k, lost, past);
    RestrictionNeverShows(MarkedDays(k, lost), past, lastSample, window, now);
  }

  lemma NothingLeft(k: Series, lost: set<int>, past: int)
    requires Restrict(k, past) == NO_SERIES && forall d :: d in lost ==> ReachedBy(k.daily.Keys, d)
    ensures Restrict(MarkedDays(k, lost), past) == NO_SERIES
  {
    forall day | day in k.daily
      ensures day < DailyCutoff(past)
    {
      assert day !in From(k.daily, DailyCutoff(past));
    }
  }

  // ----- a run in which it shows

  /** One counter of the node. */
  function Reads(up: U64): Sample {
    Sample([Totals(0, None, false, up, 0)], {}, true, {})
  }

  /**
   * The counter is sampled at midnight and one slot later. The next call comes 49 hours later
   * without a sample, and one slot after that the counter is back.
   */
  predicate ComesBack(calls: seq<Call>, day: int) {
    var at := day * DAY_SECS;
    && |calls| == 4
    && calls[0] == Call(at, Some(Reads(0)), {}) && calls[1] == Call(at + BUCKET_SECS, Some(Reads(7)), {})
    && calls[2] == Call(at + BUCKET_SECS + WINDOW_SECS, None, {})
    && calls[3] == Call(at + 2 * BUCKET_SECS + WINDOW_SECS, Some(Reads(9)), {})
  }

  lemma OneCounter(baselines: map<Key, Baseline>, s: Sample, t: Totals, now: int, past: int)
    requires s == Reads(t.up) && s.totals == [t]
    ensures NodeMeasure(baselines, now, s, {}) ==
            Absorbed(Measured(0, 0, false, true, {}), Classify(baselines, t, BucketStart(now)))
    ensures BaselinesAfter(baselines, s.totals, now) == baselines[0 := Baseline(t.up, 0, now)]
    ensures Forgotten(baselines, s.totals, now, past, {}, None) == DroppedDay(baselines, t, past)
  {
    var totals := s.totals;
    assert totals[..0] == [] && [] + [t] == totals;
    ChargesAppend(baselines, [], t, now, {});
    MeasureAppend([], Charge(None, Classify(baselines, t, BucketStart(now))), false, true);
  }

  lemma Times(day: int, at: int)
    requires at == day * DAY_SECS
    ensures DayOf(BucketStart(at)) == day - 1
    ensures FloorFive(at) == at == BucketStart(at + BUCKET_SECS)
    ensures DayOf(at) == DayOf(at + BUCKET_SECS) == day
    ensures var back := at + 2 * BUCKET_SECS + WINDOW_SECS;
            DayOf(BucketStart(back)) == DayOf(FloorFive(back)) == day + 2
  {
  }

  lemma SampleStep(calls: seq<Call>, rest: seq<Call>, c: Call, baselines: map<Key, Baseline>, m: Measured)
    requires calls != [] && rest == calls[..|calls| - 1] && c == calls[|calls| - 1]
    requires c.sample.Some? && c.deleted == {}
    requires Run(rest).baselines == baselines && NodeMeasure(baselines, c.now, c.sample.value, {}) == m
    ensures KeptAfter(calls) == KeptStep(KeptAfter(rest), c.now, m)
    ensures Unpruned(calls).baselines == BaselinesAfter(Unpruned(rest).baselines, c.sample.value.totals, c.now)
  {
  }

  lemma {:induction false} OneBaseline(calls: seq<Call>, b: Baseline)
    requires Monotone(calls) && calls != [] && Unpruned(calls).baselines == map[0 := b]
    ensures Run(calls).baselines == if b.at > LastTime(calls) - WINDOW_SECS then map[0 := b] else map[]
  {
    UnprunedIsMarked(calls);
  }

  predicate ThenReads(rest: seq<Call>, calls: seq<Call>, now: int, up: U64) {
    && calls != [] && rest == calls[..|calls| - 1]
    && calls[|calls| - 1] == Call(now, Some(Reads(up)), {})
  }

  /** Nothing is known of the first slot, which belongs to the day before. */
  lemma FirstRead(one: seq<Call>, day: int, at: int)
    requires ThenReads([], one, at, 0) && at == day * DAY_SECS
    ensures Unpruned(one).baselines == map[0 := Baseline(0, 0, at)]
    ensures day !in KeptAfter(one).node.daily
  {
    var t := Totals(0, None, false, 0, 0);
    Times(day, at);
    OneCounter(map[], Reads(0), t, at, 0);
    SampleStep(one, [], one[|one| - 1], map[], Measured(0, 0, false, false, {}));
  }

  lemma SevenMore(seen: map<Key, Baseline>, now: int)
    requires 0 in seen && seen[0].up == seen[0].down == 0 && FloorFive(seen[0].at) == BucketStart(now)
    ensures NodeMeasure(seen, now, Reads(7), {}) == Measured(7, 0, true, true, {})
  {
    OneCounter(seen, Reads(7), Totals(0, None, false, 7, 0), now, 0);
  }

  lemma ReadsSeven(k: Kept, now: int, day: int, m: Measured)
    requires DayOf(BucketStart(now)) == day && day !in k.node.daily && m == Measured(7, 0, true, true, {})
    ensures var daily := KeptStep(k, now, m).node.daily;
            day in daily && daily[day] == Bucket(day, Some(7), Some(0), true)
  {
  }

  lemma {:induction false} ThenSeven(rest: seq<Call>, calls: seq<Call>, now: int, seen: map<Key, Baseline>, day: int)
    requires ThenReads(rest, calls, now, 7) && Run(rest).baselines == seen
    requires 0 in seen && seen[0].up == seen[0].down == 0 && FloorFive(seen[0].at) == BucketStart(now)
    requires DayOf(BucketStart(now)) == day && day !in KeptAfter(rest).node.daily
    ensures Unpruned(calls).baselines == Unpruned(rest).baselines[0 := Baseline(7, 0, now)]
    ensures var daily := KeptAfter(calls).node.daily;
            day in daily && daily[day] == Bucket(day, Some(7), Some(0), true)
  {
    var m := Measured(7, 0, true, true, {});
    SevenMore(seen, now);
    SampleStep(calls, rest, calls[|calls| - 1], seen, m);
    ReadsSeven(KeptAfter(rest), now, day, m);
    OneCounter(Unpruned(rest).baselines, Reads(7), Totals(0, None, false, 7, 0), now, 0);
  }

  /** The second slot is complete, with seven bytes. */
  lemma {:induction false} SecondRead(one: seq<Call>, two: seq<Call>, day: int, b: Baseline, now: int)
    requires one != [] && Monotone(one) && LastTime(one) == b.at && ThenReads(one, two, now, 7)
    requires Unpruned(one).baselines == map[0 := b] && b.up == b.down == 0 && day !in KeptAfter(one).node.daily
    requires FloorFive(b.at) == BucketStart(now) && DayOf(BucketStart(now)) == day
    ensures Unpruned(two).baselines == map[0 := Baseline(7, 0, now)]
    ensures var daily := KeptAfter(two).node.daily;
            day in daily && daily[day] == Bucket(day, Some(7), Some(0), true)
  {
    OneBaseline(one, b);
    ThenSeven(one, two, now, map[0 := b], day);
    Overwritten(Unpruned(one).baselines, b, Baseline(7, 0, now));
  }

  lemma Overwritten(baselines: map<Key, Baseline>, b: Baseline, b': Baseline)
    requires baselines == map[0 := b]
    ensures baselines[0 := b'] == map[0 := b']
  {
  }

  lemma StartsAfresh(k: Kept, now: int, day: int, m: Measured)
    requires DayOf(BucketStart(now)) != day && day in k.node.daily && m == Measured(0, 0, false, false, {})
    ensures var daily := KeptStep(k, now, m).node.daily;
            day in daily && daily[day] == k.node.daily[day]
  {
  }

  lemma {:induction false} ThenNine(rest: seq<Call>, calls: seq<Call>, now: int, seen: Baseline, day: int)
    requires rest != [] && ThenReads(rest, calls, now, 9) && Run(rest).baselines == map[]
    requires Unpruned(rest).baselines == map[0 := seen] && seen.at <= LastTime(rest) - WINDOW_SECS
    requires DayOf(seen.at) == day != DayOf(BucketStart(now)) && day in KeptAfter(rest).node.daily
    ensures day in LostDays(calls, None)
    ensures var daily := KeptAfter(calls).node.daily;
            day in daily && daily[day] == KeptAfter(rest).node.daily[day]
  {
    var m, t, c := Measured(0, 0, false, false, {}), Totals(0, None, false, 9, 0), calls[|calls| - 1];
    OneCounter(map[], Reads(9), t, now, LastTime(rest));
    OneCounter(map[0 := seen], Reads(9), t, now, LastTime(rest));
    SampleStep(calls, rest, c, map[], m);
    StartsAfresh(KeptAfter(rest), now, day, m);
    LostMore(calls, rest, c);
  }

  lemma NoSample(rest: seq<Call>, calls: seq<Call>, now: int)
    requires calls != [] && rest == calls[..|calls| - 1] && calls[|calls| - 1] == Call(now, None, {})
    ensures Unpruned(calls) == Unpruned(rest) && KeptAfter(calls) == KeptAfter(rest)
  {
  }

  /** With its baseline gone the counter starts afresh, and its day stays as it was. */
  lemma {:induction false} LastRead(two: seq<Call>, three: seq<Call>, calls: seq<Call>, day: int, last: int)
    requires Unpruned(two).baselines == map[0 := Baseline(7, 0, last)] && day in KeptAfter(two).node.daily
    requires |three| == |two| + 1 && two == three[..|two|] && three[|two|] == Call(last + WINDOW_SECS, None, {})
    requires ThenReads(three, calls, last + BUCKET_SECS + WINDOW_SECS, 9) && Monotone(three)
    requires DayOf(last) == day != DayOf(BucketStart(last + BUCKET_SECS + WINDOW_SECS))
    ensures day in LostDays(calls, None)
    ensures var daily := KeptAfter(calls).node.daily;
            day in daily && daily[day] == KeptAfter(two).node.daily[day]
  {
    NoSample(two, three, last + WINDOW_SECS);
    OneBaseline(three, Baseline(7, 0, last));
    ThenNine(three, calls, last + BUCKET_SECS + WINDOW_SECS, Baseline(7, 0, last), day);
  }

  lemma Prefixes(calls: seq<Call>, day: int, at: int, one: seq<Call>, two: seq<Call>, three: seq<Call>)
    requires ComesBack(calls, day) && at == day * DAY_SECS
    requires one == calls[..1] && two == calls[..2] && three == calls[..3]
    ensures ThenReads([], one, at, 0) && ThenReads(one, two, at + BUCKET_SECS, 7)
    ensures |three| == |two| + 1 && two == three[..|two|]
    ensures three[|two|] == Call(at + BUCKET_SECS + WINDOW_SECS, None, {})
    ensures ThenReads(three, calls, at + 2 * BUCKET_SECS + WINDOW_SECS, 9) && Monotone(one) && Monotone(three)
  {
    assert one[..0] == [] && two[..1] == one && three[..2] == two;
  }

  lemma AllReads(calls: seq<Call>, day: int, at: int)
    requires ComesBack(calls, day) && at == day * DAY_SECS
    ensures day in LostDays(calls, None)
    ensures var daily := KeptAfter(calls).node.daily;
            day in daily && daily[day] == Bucket(day, Some(7), Some(0), true)
  {
    var one, two, three := calls[..1], calls[..2], calls[..3];
    Prefixes(calls, day, at, one, two, three);
    Times(day, at);
    FirstRead(one, day, at);
    SecondRead(one, two, day, Baseline(0, 0, at), at + BUCKET_SECS);
    LastRead(two, three, calls, day, at + BUCKET_SECS);
  }

  lemma LostMore(calls: seq<Call>, rest: seq<Call>, c: Call)
    requires |calls| > 1 && rest == calls[..|calls| - 1] && c == calls[|calls| - 1] && c.sample.Some?
    ensures Forgotten(Unpruned(rest).baselines, c.sample.value.totals, c.now, LastTime(rest), c.deleted, None) <=
            LostDays(calls, None)
  {
  }

  /** So the 31d report shows seven bytes for a day that a never-pruned record would not vouch for. */
  lemma PruningMayShow(calls: seq<Call>, day: int, lastSample: Option<int>)
    requires ComesBack(calls, day)
    ensures Monotone(calls) && FreshSlots(calls)
    ensures var daily := Run(calls).node.daily;
            day in daily && daily[day] == Bucket(day, Some(7), Some(0), true)
    ensures day in Unpruned(calls).node.daily && Unpruned(calls).node.daily[day] == Incomplete(day)
    ensures BuildReport(Run(calls).node, lastSample, Days31, LastTime(calls)) !=
            BuildReport(Unpruned(calls).node, lastSample, Days31, LastTime(calls))
  {
    var at := day * DAY_SECS;
    SlotsAreFresh(calls, day);
    AllReads(calls, day, at);
    Times(day, at);
    MarkedHere(calls, day);
    PruningShowsInPointsIff(calls, lastSample, Days31, LastTime(calls));
    LostDayShows(Erased(Run(calls).node.daily, LostDays(calls, None)), day, FloorFive(LastTime(calls)),
                 IsStale(lastSample, LastTime(calls)));
  }

  lemma SlotsAreFresh(calls: seq<Call>, day: int)
    requires ComesBack(calls, day)
    ensures Monotone(calls) && FreshSlots(calls)
  {
  }

  lemma {:induction false} MarkedHere(calls: seq<Call>, day: int)
    requires Monotone(calls) && calls != [] && day in LostDays(calls, None) && day in KeptAfter(calls).node.daily
    requires day >= DailyCutoff(LastTime(calls))
    ensures day in Run(calls).node.daily && Run(calls).node.daily[day] == KeptAfter(calls).node.daily[day]
    ensures day in Unpruned(calls).node.daily && Unpruned(calls).node.daily[day] == Incomplete(day)
  {
    UnprunedIsMarked(calls);
    PruningOnlyRestricts(calls);
  }

  lemma LostDayShows(lost: set<int>, day: int, latest: int, stale: bool)
    requires day in lost && DayOf(latest) == day + 2
    ensures !PointsAvoid({}, lost, Days31, latest, stale)
  {
  }
}
