/** The rollups of single users over whole runs (src/node_history.rs). */
module TrafficUsers {
  import opened TrafficAgreement
  import opened TrafficHistory
  import opened TrafficPrune
  import opened TrafficRuns
  import opened TrafficSample
  import opened TrafficSeries
  import opened Words

  /** What a sample adds to a user's series: a reading, a last incomplete bucket, or nothing. */
  function UserStep(k: Series, h: History, now: int, s: Sample, deleted: set<User>, u: User): Series {
    var cs := Charges(h.baselines, s.totals, now, deleted);
    if u in Touched(cs, s.unavailable, deleted) then
      var m := UserMeasure(cs, s.unavailable, u);
      Noted(k, BucketStart(now), ReadingOf(m), m.gapDates)
    else if u in s.cycles && u !in deleted && u in h.users && h.users[u].active then
      Noted(k, BucketStart(now), Missing, {})
    else k
  }

  /** Every bucket and day that a run recorded for a user, whether it still has them or not. */
  function UserKept(calls: seq<Call>, u: User): Series {
    if calls == [] then NO_SERIES
    else
      var rest, c := calls[..|calls| - 1], calls[|calls| - 1];
      if c.sample.None? then UserKept(rest, u)
      else UserStep(UserKept(rest, u), Run(rest), c.now, c.sample.value, c.deleted, u)
  }

  /** The user's record is the recent part of all that was recorded for it; no record means nothing recent. */
  ghost predicate UserIsRestriction(h: History, k: Series, u: User, now: int) {
    && NotAhead(h.baselines, now) && Fits(k, now)
    && SeriesFor(h.users, u) == Restrict(k, now)
  }

  lemma PrunedUserSeries(h: History, u: User, now: int)
    requires Fits(SeriesFor(h.users, u), now)
    ensures SeriesFor(Pruned(h, now).users, u) == Restrict(SeriesFor(h.users, u), now)
  {
    CapsKeepEverything(SeriesFor(h.users, u), now);
    assert Restrict(NO_SERIES, now) == NO_SERIES;
  }

  /** What the sample does to a user's current series is what it does to all of it. */
  lemma RecordedUserSeries(h: History, now: int, s: Sample, deleted: set<User>, u: User)
    ensures SeriesFor(Recorded(h, now, s, deleted).users, u) ==
            UserStep(SeriesFor(h.users, u), h, now, s, deleted, u)
  {
  }

  lemma UserGapsNotAhead(h: History, now: int, s: Sample, deleted: set<User>, u: User)
    requires NotAhead(h.baselines, now)
    ensures forall d ::
              d in UserMeasure(Charges(h.baselines, s.totals, now, deleted), s.unavailable, u).gapDates ==>
                d <= DayOf(now)
  {
    var cs := Charges(h.baselines, s.totals, now, deleted);
    GapsNotAhead(h.baselines, s.totals, now, deleted);
    GapsOfOwner(cs, Some(u), DayOf(now));
    MeasuredGaps(Of(cs, Some(u)), false, u !in s.unavailable, DayOf(now));
  }

  lemma UserStepFits(k: Series, h: History, past: int, now: int, s: Sample, deleted: set<User>, u: User)
    requires NotAhead(h.baselines, now) && Fits(k, past) && past <= now
    ensures Fits(UserStep(k, h, now, s, deleted, u), now)
  {
    var m := UserMeasure(Charges(h.baselines, s.totals, now, deleted), s.unavailable, u);
    UserGapsNotAhead(h, now, s, deleted, u);
    NotedFits(k, past, now, ReadingOf(m), m.gapDates);
    NotedFits(k, past, now, Missing, {});
    FitsLater(k, past, now);
  }

  lemma UserStepThenRestricted(k: Series, h: History, past: int, now: int, s: Sample, deleted: set<User>, u: User)
    requires past <= now && Fits(k, now)
    ensures Restrict(UserStep(Restrict(k, past), h, now, s, deleted, u), now) ==
            Restrict(UserStep(k, h, now, s, deleted, u), now)
  {
    var m := UserMeasure(Charges(h.baselines, s.totals, now, deleted), s.unavailable, u);
    NotedThenRestricted(k, past, now, ReadingOf(m), m.gapDates);
    NotedThenRestricted(k, past, now, Missing, {});
    RestrictedAgain(Kept(k, map[]), past, now);
  }

  lemma UserSampleRestricts(h: History, k: Series, u: User, past: int, now: int, s: Sample, deleted: set<User>)
    requires UserIsRestriction(h, k, u, past) && past <= now
    ensures UserIsRestriction(Pruned(Recorded(h, now, s, deleted), now), UserStep(k, h, now, s, deleted, u), u, now)
  {
    var r := Recorded(h, now, s, deleted);
    BaselinesNotAhead(h.baselines, s.totals, now);
    FitsLater(k, past, now);
    RestrictedAgain(Kept(k, map[]), past, now);
    RecordedUserSeries(h, now, s, deleted, u);
    UserStepFits(k, h, past, now, s, deleted, u);
    UserStepFits(Restrict(k, past), h, now, now, s, deleted, u);
    PrunedUserSeries(r, u, now);
    UserStepThenRestricted(k, h, past, now, s, deleted, u);
  }

  lemma UserCallRestricts(h: History, k: Series, u: User, past: int, c: Call)
    requires UserIsRestriction(h, k, u, past) && past <= c.now
    ensures UserIsRestriction(Step(h, c),
                              if c.sample.None? then k
                              else UserStep(k, h, c.now, c.sample.value, c.deleted, u),
                              u, c.now)
  {
    if c.sample.None? {
      FitsLater(k, past, c.now);
      RestrictedAgain(Kept(k, map[]), past, c.now);
      PrunedUserSeries(h, u, c.now);
    } else {
      UserSampleRestricts(h, k, u, past, c.now, c.sample.value, c.deleted);
    }
  }

  /** Pruning a user's lists, and dropping its record when they are empty, loses nothing recent. */
  lemma {:induction false} UserPruningOnlyRestricts(calls: seq<Call>, u: User)
    requires Monotone(calls) && calls != []
    ensures UserIsRestriction(Run(calls), UserKept(calls, u), u, LastTime(calls))
    decreases |calls|
  {
    var rest, c := calls[..|calls| - 1], calls[|calls| - 1];
    if rest == [] {
      assert Restrict(NO_SERIES, c.now) == NO_SERIES;
      UserCallRestricts(NOTHING, NO_SERIES, u, c.now, c);
    } else {
      PrefixIsMonotone(calls);
      UserPruningOnlyRestricts(rest, u);
      UserCallRestricts(Run(rest), UserKept(rest, u), u, LastTime(rest), c);
    }
  }

  // ----- a user's days agree with its buckets

  lemma {:induction false} UserKeptBefore(calls: seq<Call>, u: User, bound: int)
    requires SlotsBefore(calls, bound)
    ensures forall t :: t in UserKept(calls, u).five ==> t < bound
    decreases |calls|
  {
    if calls != [] {
      UserKeptBefore(calls[..|calls| - 1], u, bound);
    }
  }

  lemma UserStepAgrees(k: Series, h: History, now: int, s: Sample, deleted: set<User>, u: User)
    requires Agreed(k) && BucketStart(now) !in k.five
    ensures Agreed(UserStep(k, h, now, s, deleted, u))
  {
    var m := UserMeasure(Charges(h.baselines, s.totals, now, deleted), s.unavailable, u);
    NotedAgrees(k, BucketStart(now), ReadingOf(m), m.gapDates);
    NotedAgrees(k, BucketStart(now), Missing, {});
  }

  lemma {:induction false} UserKeptAgrees(calls: seq<Call>, u: User)
    requires FreshSlots(calls)
    ensures Agreed(UserKept(calls, u))
    decreases |calls|
  {
    if calls != [] {
      var rest, c := calls[..|calls| - 1], calls[|calls| - 1];
      assert forall i :: 0 <= i < |rest| ==> rest[i] == calls[i];
      UserKeptAgrees(rest, u);
      if c.sample.Some? {
        UserKeptBefore(rest, u, BucketStart(c.now));
        UserStepAgrees(UserKept(rest, u), Run(rest), c.now, c.sample.value, c.deleted, u);
      }
    }
  }

  /** After every run from an empty record, each user's complete days hold the sum of its five-minute values. */
  lemma UserRollupAgrees(calls: seq<Call>, u: User, day: int)
    requires Monotone(calls) && FreshSlots(calls) && calls != []
    requires u in Run(calls).users && day in Run(calls).users[u].series.daily
    ensures var b, five := Run(calls).users[u].series.daily[day], UserKept(calls, u).five;
            && Whole(b)
            && (b.complete ==>
                  && DayComplete(five, day)
                  && b.up == Some(Min(DaySum(five, day, Up), U64_MAX))
                  && b.down == Some(Min(DaySum(five, day, Down), U64_MAX)))
  {
    UserPruningOnlyRestricts(calls, u);
    UserKeptAgrees(calls, u);
    assert DayAgrees(UserKept(calls, u), day);
  }
}
