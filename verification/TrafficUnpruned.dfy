/**
 * Runs that never prune: neither buckets and days nor the baselines that samples are measured
 * against (src/node_history.rs).
 */
module TrafficUnpruned {
  import opened TrafficHistory
  import opened TrafficPrune
  import opened TrafficRuns
  import opened TrafficSample
  import opened TrafficSeries
  import opened TrafficUsers
  import opened Words

  function Unpruned(calls: seq<Call>): History {
    if calls == [] then NOTHING
    else
      var rest, c := Unpruned(calls[..|calls| - 1]), calls[|calls| - 1];
      if c.sample.None? then rest else Recorded(rest, c.now, c.sample.value, c.deleted)
  }

  // ----- the days that pruning forgets to mark

  /** The day of a baseline that a prune at `past` has dropped. */
  function DroppedDay(baselines: map<Key, Baseline>, t: Totals, past: int): set<int> {
    if t.key in baselines && baselines[t.key].at <= past - WINDOW_SECS then {DayOf(baselines[t.key].at)} else {}
  }

  /** The counters of one user, or of the whole node. */
  predicate Concerns(t: Totals, deleted: set<User>, whose: Option<User>) {
    whose.None? || Owner(t, deleted) == whose
  }

  /** The days of the dropped baselines of counters that come back in a sample. */
  function Forgotten(baselines: map<Key, Baseline>, totals: seq<Totals>, now: int, past: int, deleted: set<User>,
                     whose: Option<User>): set<int>
  {
    if totals == [] then {}
    else
      var rest, t := totals[..|totals| - 1], totals[|totals| - 1];
      Forgotten(baselines, rest, now, past, deleted, whose)
      + if Concerns(t, deleted, whose) then DroppedDay(BaselinesAfter(baselines, rest, now), t, past) else {}
  }

  /** When the record was pruned last before the last call. */
  function PrunedBefore(calls: seq<Call>): int
    requires calls != []
  {
    if |calls| == 1 then calls[0].now else calls[|calls| - 2].now
  }

  /**
   * The days of a run on which a counter was last sampled before it came back, after its
   * baseline had been dropped.
   */
  function LostDays(calls: seq<Call>, whose: Option<User>): set<int> {
    if calls == [] then {}
    else
      var rest, c := calls[..|calls| - 1], calls[|calls| - 1];
      if c.sample.None? then LostDays(rest, whose)
      else LostDays(rest, whose)
           + Forgotten(Unpruned(rest).baselines, c.sample.value.totals, c.now, PrunedBefore(calls), c.deleted, whose)
  }

  // ----- measuring with and without the dropped baselines

  lemma FreshWith(baselines: map<Key, Baseline>, k: Key, b: Baseline, past: int)
    requires b.at > past - WINDOW_SECS
    ensures FreshBaselines(baselines[k := b], past) == FreshBaselines(baselines, past)[k := b]
  {
  }

  lemma FreshTwice(baselines: map<Key, Baseline>, past: int, now: int)
    requires past <= now
    ensures FreshBaselines(FreshBaselines(baselines, past), now) == FreshBaselines(baselines, now)
  {
  }

  lemma {:induction false} FreshAfter(baselines: map<Key, Baseline>, totals: seq<Totals>, past: int, now: int)
    requires past <= now
    ensures BaselinesAfter(FreshBaselines(baselines, past), totals, now) ==
            FreshBaselines(BaselinesAfter(baselines, totals, now), past)
    decreases |totals|
  {
    if totals != [] {
      var rest, t := totals[..|totals| - 1], totals[|totals| - 1];
      FreshAfter(baselines, rest, past, now);
      FreshWith(BaselinesAfter(baselines, rest, now), t.key, Baseline(t.up, t.down, now), past);
    }
  }

  /** A returning counter leaves a gap, unless its baseline has been dropped: then it starts afresh. */
  lemma ClassifyForgets(seen: map<Key, Baseline>, t: Totals, past: int, now: int)
    requires past <= now
    ensures var recent := Classify(FreshBaselines(seen, past), t, BucketStart(now));
            var whole := Classify(seen, t, BucketStart(now));
            if DroppedDay(seen, t, past) == {} then recent == whole
            else recent == Started && whole.Gap? && DroppedDay(seen, t, past) == {whole.date}
  {
    if t.key in seen && seen[t.key].at <= past - WINDOW_SECS {
      assert FloorFive(seen[t.key].at) < BucketStart(now);
    }
  }

  function Widened(m: Measured, days: set<int>): Measured {
    m.(gapDates := m.gapDates + days)
  }

  lemma AbsorbedForgets(m: Measured, days: set<int>, recent: Change, whole: Change, dropped: set<int>)
    requires if dropped == {} then recent == whole else recent == Started && whole.Gap? && dropped == {whole.date}
    ensures Absorbed(Widened(m, days), whole) == Widened(Absorbed(m, recent), days + dropped)
  {
    assert days + {} == days;
    if dropped != {} {
      assert m.gapDates + days + dropped == m.gapDates + (days + dropped);
    } else if whole.Gap? {
      assert m.gapDates + days + {whole.date} == m.gapDates + {whole.date} + days;
    }
  }

  /** Dropped baselines change nothing in what the node measures but the days of the gaps. */
  lemma {:induction false} NodeForgets(all: map<Key, Baseline>, totals: seq<Totals>, past: int, now: int,
                                       deleted: set<User>, known: bool, complete: bool)
    requires past <= now
    ensures Measure(Charges(all, totals, now, deleted), known, complete) ==
            Widened(Measure(Charges(FreshBaselines(all, past), totals, now, deleted), known, complete),
                    Forgotten(all, totals, now, past, deleted, None))
    decreases |totals|
  {
    if totals != [] {
      var rest, t := totals[..|totals| - 1], totals[|totals| - 1];
      NodeForgets(all, rest, past, now, deleted, known, complete);
      var recent, whole := Charges(FreshBaselines(all, past), rest, now, deleted), Charges(all, rest, now, deleted);
      var seen := BaselinesAfter(all, rest, now);
      FreshAfter(all, rest, past, now);
      ClassifyForgets(seen, t, past, now);
      var c := Charge(Owner(t, deleted), Classify(FreshBaselines(seen, past), t, BucketStart(now)));
      var c' := Charge(Owner(t, deleted), Classify(seen, t, BucketStart(now)));
      MeasureAppend(recent, c, known, complete);
      MeasureAppend(whole, c', known, complete);
      AbsorbedForgets(Measure(recent, known, complete), Forgotten(all, rest, now, past, deleted, None),
                      c.change, c'.change, DroppedDay(seen, t, past));
    }
  }

  lemma OwnedForgets(recent: seq<Charge>, whole: seq<Charge>, c: Charge, c': Charge, u: User, complete: bool,
                     days: set<int>, dropped: set<int>)
    requires Measure(Of(whole, Some(u)), false, complete) ==
             Widened(Measure(Of(recent, Some(u)), false, complete), days)
    requires c.owner == c'.owner
    requires if dropped == {} then c.change == c'.change
             else c.change == Started && c'.change.Gap? && dropped == {c'.change.date}
    ensures Measure(Of(whole + [c'], Some(u)), false, complete) ==
            Widened(Measure(Of(recent + [c], Some(u)), false, complete),
                    days + if c.owner == Some(u) then dropped else {})
  {
    OfAppend(recent, c, Some(u));
    OfAppend(whole, c', Some(u));
    if c.owner == Some(u) {
      MeasureAppend(Of(recent, Some(u)), c, false, complete);
      MeasureAppend(Of(whole, Some(u)), c', false, complete);
      AbsorbedForgets(Measure(Of(recent, Some(u)), false, complete), days, c.change, c'.change, dropped);
    } else {
      assert days + {} == days;
    }
  }

  /** Nor in what a user measures. */
  lemma {:induction false} UserForgets(all: map<Key, Baseline>, totals: seq<Totals>, past: int, now: int,
                                       deleted: set<User>, u: User, complete: bool)
    requires past <= now
    ensures Measure(Of(Charges(all, totals, now, deleted), Some(u)), false, complete) ==
            Widened(Measure(Of(Charges(FreshBaselines(all, past), totals, now, deleted), Some(u)), false, complete),
                    Forgotten(all, totals, now, past, deleted, Some(u)))
    decreases |totals|
  {
    if totals != [] {
      var rest, t := totals[..|totals| - 1], totals[|totals| - 1];
      UserForgets(all, rest, past, now, deleted, u, complete);
      var recent, whole := Charges(FreshBaselines(all, past), rest, now, deleted), Charges(all, rest, now, deleted);
      var seen := BaselinesAfter(all, rest, now);
      FreshAfter(all, rest, past, now);
      ClassifyForgets(seen, t, past, now);
      var c := Charge(Owner(t, deleted), Classify(FreshBaselines(seen, past), t, BucketStart(now)));
      var c' := Charge(Owner(t, deleted), Classify(seen, t, BucketStart(now)));
      OwnedForgets(recent, whole, c, c', u, complete, Forgotten(all, rest, now, past, deleted, Some(u)),
                   DroppedDay(seen, t, past));
    }
  }

  // ----- marking more days

  function MarkedDays(s: Series, days: set<int>): Series {
    Series(s.five, Marked(s.daily, days))
  }

  lemma DailyMarks(daily: map<int, Bucket>, days: set<int>, day: int, b: Bucket)
    ensures DailyAfter(Marked(daily, days), day, b.up, b.down, b.complete) ==
            Marked(DailyAfter(daily, day, b.up, b.down, b.complete), days)
  {
  }

  lemma MarkTwice(daily: map<int, Bucket>, days: set<int>, gaps: set<int>, more: set<int>)
    ensures Marked(Marked(daily, days), gaps + more) == Marked(Marked(daily, gaps), days + more)
  {
  }

  /** A day once marked stays marked, whatever is recorded later. */
  lemma NotedMarks(s: Series, days: set<int>, start: int, r: Reading, gaps: set<int>, more: set<int>)
    ensures Noted(MarkedDays(s, days), start, r, gaps + more) == MarkedDays(Noted(s, start, r, gaps), days + more)
  {
    var b := BucketOf(start, r);
    var daily := DailyAfter(s.daily, DayOf(start), b.up, b.down, b.complete);
    DailyMarks(s.daily, days, DayOf(start), b);
    MarkTwice(daily, days, gaps, more);
  }

  // ----- the node's record over whole runs

  /** The run's baselines are the recent ones, and the never-pruned record differs in the lost days only. */
  ghost predicate Differs(h: History, w: History, k: Kept, lost: set<int>, past: int) {
    && h.baselines == FreshBaselines(w.baselines, past)
    && w.node == MarkedDays(k.node, lost) && w.legacy == k.legacy
  }

  lemma SampleDiffers(h: History, w: History, k: Kept, lost: set<int>, past: int, now: int, s: Sample,
                      deleted: set<User>)
    requires Differs(h, w, k, lost, past) && past <= now
    ensures Differs(Pruned(Recorded(h, now, s, deleted), now), Recorded(w, now, s, deleted),
                    KeptStep(k, now, NodeMeasure(h.baselines, now, s, deleted)),
                    lost + Forgotten(w.baselines, s.totals, now, past, deleted, None), now)
  {
    var m := NodeMeasure(h.baselines, now, s, deleted);
    var more := Forgotten(w.baselines, s.totals, now, past, deleted, None);
    FreshAfter(w.baselines, s.totals, past, now);
    FreshTwice(BaselinesAfter(w.baselines, s.totals, now), past, now);
    NodeForgets(w.baselines, s.totals, past, now, deleted, Idle(s), s.complete);
    NotedMarks(k.node, lost, BucketStart(now), ReadingOf(m), m.gapDates, more);
    WidenedAlike(m, more, k.legacy, DayOf(BucketStart(now)));
  }

  lemma WidenedAlike(m: Measured, more: set<int>, legacy: map<int, Legacy>, day: int)
    ensures ReadingOf(Widened(m, more)) == ReadingOf(m)
    ensures LegacyAfter(legacy, day, Widened(m, more)) == LegacyAfter(legacy, day, m)
  {
  }

  lemma CallDiffers(h: History, w: History, k: Kept, lost: set<int>, past: int, c: Call)
    requires Differs(h, w, k, lost, past) && past <= c.now
    ensures var s := c.sample;
            if s.None? then Differs(Step(h, c), w, k, lost, c.now)
            else Differs(Step(h, c), Recorded(w, c.now, s.value, c.deleted),
                         KeptStep(k, c.now, NodeMeasure(h.baselines, c.now, s.value, c.deleted)),
                         lost + Forgotten(w.baselines, s.value.totals, c.now, past, c.deleted, None), c.now)
  {
    if c.sample.None? {
      FreshTwice(w.baselines, past, c.now);
    } else {
      SampleDiffers(h, w, k, lost, past, c.now, c.sample.value, c.deleted);
    }
  }

  /**
   * Over every run with a monotone clock, a record with nothing ever pruned has the same
   * five-minute buckets and older daily entries, and the same days except that the lost ones
   * are marked incomplete.
   */
  lemma {:induction false} UnprunedIsMarked(calls: seq<Call>)
    requires Monotone(calls) && calls != []
    ensures Differs(Run(calls), Unpruned(calls), KeptAfter(calls), LostDays(calls, None), LastTime(calls))
    decreases |calls|
  {
    var rest, c := calls[..|calls| - 1], calls[|calls| - 1];
    if rest == [] {
      MarkNone(map[]);
      assert Differs(NOTHING, NOTHING, Kept(NO_SERIES, map[]), {}, c.now);
      CallDiffers(NOTHING, NOTHING, Kept(NO_SERIES, map[]), {}, c.now, c);
    } else {
      PrefixIsMonotone(calls);
      UnprunedIsMarked(rest);
      CallDiffers(Run(rest), Unpruned(rest), KeptAfter(rest), LostDays(rest, None), LastTime(rest), c);
    }
  }

  // ----- a user's record over whole runs

  predicate Active(users: map<User, UserSeries>, u: User) {
    u in users && users[u].active
  }

  predicate Owns(totals: seq<Totals>, deleted: set<User>, u: User) {
    exists i :: 0 <= i < |totals| && Owner(totals[i], deleted) == Some(u)
  }

  lemma UsersAppend(cs: seq<Charge>, c: Charge, u: User)
    ensures u in UsersOf(cs + [c]) <==> u in UsersOf(cs) || c.owner == Some(u)
  {
    assert c in cs + [c];
    if u in UsersOf(cs) {
      var x :| x in cs && x.owner.Some? && x.owner.value == u;
      assert x in cs + [c];
    }
  }

  /** Who is charged does not depend on the baselines. */
  lemma {:induction false} UsersAreOwners(baselines: map<Key, Baseline>, totals: seq<Totals>, now: int,
                                          deleted: set<User>, u: User)
    ensures u in UsersOf(Charges(baselines, totals, now, deleted)) <==> Owns(totals, deleted, u)
    decreases |totals|
  {
    if totals != [] {
      var rest, t := totals[..|totals| - 1], totals[|totals| - 1];
      UsersAreOwners(baselines, rest, now, deleted, u);
      var cs := Charges(baselines, rest, now, deleted);
      var c := Charge(Owner(t, deleted), Classify(BaselinesAfter(baselines, rest, now), t, BucketStart(now)));
      UsersAppend(cs, c, u);
      OwnsAppend(rest, t, totals, deleted, u);
    }
  }

  lemma OwnsAppend(rest: seq<Totals>, t: Totals, totals: seq<Totals>, deleted: set<User>, u: User)
    requires totals != [] && rest == totals[..|totals| - 1] && t == totals[|totals| - 1]
    ensures Owns(totals, deleted, u) <==> Owns(rest, deleted, u) || Owner(t, deleted) == Some(u)
  {
    if Owns(rest, deleted, u) {
      var i :| 0 <= i < |rest| && Owner(rest[i], deleted) == Some(u);
      assert totals[i] == rest[i];
    }
  }

  lemma {:induction false} OthersForgetNothing(baselines: map<Key, Baseline>, totals: seq<Totals>, now: int,
                                               past: int, deleted: set<User>, u: User)
    requires !Owns(totals, deleted, u)
    ensures Forgotten(baselines, totals, now, past, deleted, Some(u)) == {}
    decreases |totals|
  {
    if totals != [] {
      OwnsAppend(totals[..|totals| - 1], totals[|totals| - 1], totals, deleted, u);
      OthersForgetNothing(baselines, totals[..|totals| - 1], now, past, deleted, u);
    }
  }

  predicate IsTouched(s: Sample, deleted: set<User>, u: User) {
    (u in s.unavailable && u !in deleted) || Owns(s.totals, deleted, u)
  }

  lemma TouchedIff(baselines: map<Key, Baseline>, now: int, s: Sample, deleted: set<User>, u: User)
    ensures u in Touched(Charges(baselines, s.totals, now, deleted), s.unavailable, deleted) <==>
            IsTouched(s, deleted, u)
  {
    UsersAreOwners(baselines, s.totals, now, deleted, u);
  }

  lemma ActiveAfterSample(h: History, now: int, s: Sample, deleted: set<User>, u: User)
    ensures Active(Recorded(h, now, s, deleted).users, u) <==>
            IsTouched(s, deleted, u) || (Active(h.users, u) && (u !in s.cycles || u in deleted))
  {
    TouchedIff(h.baselines, now, s, deleted, u);
  }

  lemma ActiveAfterPrune(h: History, now: int, u: User)
    ensures Active(Pruned(h, now).users, u) <==> Active(h.users, u)
  {
  }

  ghost predicate UserDiffers(h: History, w: History, k: Series, u: User, lost: set<int>) {
    (Active(h.users, u) <==> Active(w.users, u)) && SeriesFor(w.users, u) == MarkedDays(k, lost)
  }

  /** What a sample adds to a user's series with all baselines, against what it adds with the recent ones. */
  lemma UserStepDiffers(h: History, w: History, k: Series, u: User, lost: set<int>, past: int, now: int, s: Sample,
                        deleted: set<User>)
    requires h.baselines == FreshBaselines(w.baselines, past) && past <= now && UserDiffers(h, w, k, u, lost)
    ensures UserStep(MarkedDays(k, lost), w, now, s, deleted, u) ==
            MarkedDays(UserStep(k, h, now, s, deleted, u),
                       lost + Forgotten(w.baselines, s.totals, now, past, deleted, Some(u)))
  {
    var more := Forgotten(w.baselines, s.totals, now, past, deleted, Some(u));
    TouchedIff(h.baselines, now, s, deleted, u);
    TouchedIff(w.baselines, now, s, deleted, u);
    if IsTouched(s, deleted, u) {
      var m := UserMeasure(Charges(h.baselines, s.totals, now, deleted), s.unavailable, u);
      UserForgets(w.baselines, s.totals, past, now, deleted, u, u !in s.unavailable);
      NotedMarks(k, lost, BucketStart(now), ReadingOf(m), m.gapDates, more);
    } else {
      OthersForgetNothing(w.baselines, s.totals, now, past, deleted, u);
      NotedMarks(k, lost, BucketStart(now), Missing, {}, more);
      assert lost + more == lost && {} + more == more;
    }
  }

  lemma UserCallDiffers(h: History, w: History, k: Series, u: User, lost: set<int>, past: int, c: Call)
    requires h.baselines == FreshBaselines(w.baselines, past) && past <= c.now && UserDiffers(h, w, k, u, lost)
    ensures var s := c.sample;
            if s.None? then UserDiffers(Step(h, c), w, k, u, lost)
            else UserDiffers(Step(h, c), Recorded(w, c.now, s.value, c.deleted),
                             UserStep(k, h, c.now, s.value, c.deleted, u), u,
                             lost + Forgotten(w.baselines, s.value.totals, c.now, past, c.deleted, Some(u)))
  {
    if c.sample.None? {
      ActiveAfterPrune(h, c.now, u);
    } else {
      var s := c.sample.value;
      UserStepDiffers(h, w, k, u, lost, past, c.now, s, c.deleted);
      RecordedUserSeries(w, c.now, s, c.deleted, u);
      ActiveAfterSample(h, c.now, s, c.deleted, u);
      ActiveAfterSample(w, c.now, s, c.deleted, u);
      ActiveAfterPrune(Recorded(h, c.now, s, c.deleted), c.now, u);
    }
  }

  /** The same for every user, which is active in both records or in neither. */
  lemma {:induction false} UnprunedUserIsMarked(calls: seq<Call>, u: User)
    requires Monotone(calls) && calls != []
    ensures UserDiffers(Run(calls), Unpruned(calls), UserKept(calls, u), u, LostDays(calls, Some(u)))
    decreases |calls|
  {
    var rest, c := calls[..|calls| - 1], calls[|calls| - 1];
    if rest == [] {
      MarkNone(map[]);
      UserCallDiffers(NOTHING, NOTHING, NO_SERIES, u, {}, c.now, c);
    } else {
      PrefixIsMonotone(calls);
      UnprunedIsMarked(rest);
      UnprunedUserIsMarked(rest, u);
      UserCallDiffers(Run(rest), Unpruned(rest), UserKept(rest, u), u, LostDays(rest, Some(u)), LastTime(rest), c);
    }
  }
}
