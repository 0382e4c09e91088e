/** A node's traffic record: sampling, daily totals, per-user rollups and pruning (src/node_history.rs). */
module TrafficHistory {
  import opened Collections
  import opened TrafficPrune
  import opened TrafficSample
  import opened TrafficSeries
  import opened Words

  /** An entry of the older `daily_traffic` map. */
  datatype Legacy = Legacy(up: U64, down: U64)

  datatype UserRollup = UserRollup(rollup: Rollup, active: bool)

  datatype UserSeries = UserSeries(series: Series, active: bool)

  /** A whole record, with every bucket list looked up by time. */
  datatype History = History(baselines: map<Key, Baseline>, node: Series, legacy: map<int, Legacy>,
                             users: map<User, UserSeries>)

  const NOTHING := History(map[], NO_SERIES, map[], map[])

  // ----- one sample

  function LegacyAfter(legacy: map<int, Legacy>, day: int, m: Measured): map<int, Legacy> {
    if !m.known && day !in legacy then legacy
    else
      var entry := if day in legacy then legacy[day] else Legacy(0, 0);
      legacy[day := if m.known then Legacy(SatAdd(entry.up, m.up), SatAdd(entry.down, m.down)) else entry]
  }

  function SeriesFor(users: map<User, UserSeries>, u: User): Series {
    if u in users then users[u].series else NO_SERIES
  }

  function NotedUser(users: map<User, UserSeries>, start: int, u: User, m: Measured): UserSeries {
    UserSeries(Noted(SeriesFor(users, u), start, ReadingOf(m), m.gapDates), true)
  }

  /** A user still marked active leaves one incomplete bucket behind when its memberships are gone. */
  function RemovedUser(s: UserSeries, start: int): UserSeries {
    if s.active then UserSeries(Noted(s.series, start, Missing, {}), false) else s
  }

  function NotedUsers(users: map<User, UserSeries>, start: int, measured: map<User, Measured>): map<User, UserSeries> {
    map u | u in users.Keys + measured.Keys ::
      if u in measured then NotedUser(users, start, u, measured[u]) else users[u]
  }

  function RemovedUsers(users: map<User, UserSeries>, start: int, gone: set<User>): map<User, UserSeries> {
    map u | u in users :: if u in gone then RemovedUser(users[u], start) else users[u]
  }

  /** Measured users get a reading; the others that still come with a cycle are retired. */
  function UsersAfter(users: map<User, UserSeries>, start: int, measured: map<User, Measured>, gone: set<User>)
    : map<User, UserSeries> {
    RemovedUsers(NotedUsers(users, start, measured), start, gone - measured.Keys)
  }

  function MeasuredUsers(cs: seq<Charge>, unavailable: set<User>, deleted: set<User>): map<User, Measured> {
    map u | u in Touched(cs, unavailable, deleted) :: UserMeasure(cs, unavailable, u)
  }

  function Recorded(h: History, now: int, s: Sample, deleted: set<User>): History {
    var cs := Charges(h.baselines, s.totals, now, deleted);
    var m := Measure(cs, Idle(s), s.complete);
    var start := BucketStart(now);
    History(BaselinesAfter(h.baselines, s.totals, now),
            Noted(h.node, start, ReadingOf(m), m.gapDates),
            LegacyAfter(h.legacy, DayOf(start), m),
            UsersAfter(h.users, start, MeasuredUsers(cs, s.unavailable, deleted), s.cycles - deleted))
  }

  // ----- pruning

  function FreshBaselines(baselines: map<Key, Baseline>, now: int): map<Key, Baseline> {
    map k | k in baselines && baselines[k].at > now - WINDOW_SECS :: baselines[k]
  }

  function RecentLegacy(legacy: map<int, Legacy>, now: int): map<int, Legacy> {
    map d | d in legacy && d >= DayOf(now) - 90 :: legacy[d]
  }

  function PrunedUser(u: UserSeries, now: int): UserSeries {
    UserSeries(PrunedSeries(u.series, now), u.active)
  }

  predicate Lingers(u: UserSeries) {
    u.active || u.series.five != map[] || u.series.daily != map[]
  }

  function PrunedUsers(users: map<User, UserSeries>, now: int): map<User, UserSeries> {
    map u | u in users && Lingers(PrunedUser(users[u], now)) :: PrunedUser(users[u], now)
  }

  function Pruned(h: History, now: int): History {
    History(FreshBaselines(h.baselines, now), PrunedSeries(h.node, now), RecentLegacy(h.legacy, now),
            PrunedUsers(h.users, now))
  }

  // ----- the loops over users

  ghost predicate Matches(r: UserRollup, s: UserSeries) {
    Sorted(r.rollup) && SeriesOf(r.rollup) == s.series && r.active == s.active
  }

  ghost predicate AllMatch(users: map<User, UserRollup>, view: map<User, UserSeries>) {
    users.Keys == view.Keys && forall u :: u in users ==> Matches(users[u], view[u])
  }

  lemma MatchOneMore(users: map<User, UserRollup>, view: map<User, UserSeries>, u: User, r: UserRollup, s: UserSeries)
    requires AllMatch(users, view) && Matches(r, s)
    ensures AllMatch(users[u := r], view[u := s])
  {
  }

  lemma SortedNothing()
    ensures Sorted(Rollup([], [])) && SeriesOf(Rollup([], [])) == NO_SERIES
  {
  }

  method NoteUser(users: map<User, UserRollup>, start: int, measured: map<User, Measured>, u: User,
                  ghost view: map<User, UserSeries>)
    returns (r: UserRollup)
    requires AllMatch(users, view) && u in measured
    ensures Matches(r, NotedUsers(view, start, measured)[u])
  {
    SortedNothing();
    var rollup, m := if u in users then users[u].rollup else Rollup([], []), measured[u];
    assert Sorted(rollup) && SeriesOf(rollup) == SeriesFor(view, u) by {
      if u in users {
        assert Matches(users[u], view[u]);
      }
    }
    rollup := Note(rollup, start, ReadingOf(m), m.gapDates);
    r := UserRollup(rollup, true);
  }

  /** `goal` for the users done, `view` for the others. */
  function Partly(view: map<User, UserSeries>, goal: map<User, UserSeries>, done: set<User>): map<User, UserSeries>
    requires done <= goal.Keys
  {
    map u | u in view.Keys + done :: if u in done then goal[u] else view[u]
  }

  lemma PartlyMore(view: map<User, UserSeries>, goal: map<User, UserSeries>, done: set<User>, u: User)
    requires done <= goal.Keys && u in goal
    ensures Partly(view, goal, done)[u := goal[u]] == Partly(view, goal, done + {u})
  {
  }

  lemma MatchPartly(users: map<User, UserRollup>, view: map<User, UserSeries>, goal: map<User, UserSeries>,
                    done: set<User>, u: User, r: UserRollup)
    requires done <= goal.Keys && u in goal && AllMatch(users, Partly(view, goal, done)) && Matches(r, goal[u])
    ensures AllMatch(users[u := r], Partly(view, goal, done + {u}))
  {
    PartlyMore(view, goal, done, u);
    MatchOneMore(users, Partly(view, goal, done), u, r, goal[u]);
  }

  lemma PartlyEnds(view: map<User, UserSeries>, goal: map<User, UserSeries>, done: set<User>)
    requires done <= goal.Keys
    ensures Partly(view, goal, {}) == view
    ensures goal.Keys == view.Keys + done && (forall u :: u in goal && u !in done ==> goal[u] == view[u]) ==>
              Partly(view, goal, done) == goal
  {
  }

  method NoteUsers(users: map<User, UserRollup>, start: int, measured: map<User, Measured>,
                   ghost view: map<User, UserSeries>)
    returns (r: map<User, UserRollup>)
    requires AllMatch(users, view)
    ensures AllMatch(r, NotedUsers(view, start, measured))
  {
    r := users;
    ghost var goal := NotedUsers(view, start, measured);
    var todo, done := measured.Keys, {};
    assert goal.Keys == view.Keys + measured.Keys;
    PartlyEnds(view, goal, measured.Keys);
    while todo != {}
      invariant measured.Keys == done + todo && AllMatch(r, Partly(view, goal, done))
      decreases todo
    {
      var u :| u in todo;
      var noted := NoteUser(users, start, measured, u, view);
      MatchPartly(r, view, goal, done, u, noted);
      MoveOne(measured.Keys, done, todo, u);
      r := r[u := noted];
      todo, done := todo - {u}, done + {u};
    }
    AllMoved(measured.Keys, done, todo);
  }

  method RemoveUser(u: UserRollup, start: int, ghost s: UserSeries) returns (r: UserRollup)
    requires Matches(u, s)
    ensures Matches(r, RemovedUser(s, start))
  {
    r := u;
    if u.active {
      var rollup := Note(u.rollup, start, Missing, {});
      r := UserRollup(rollup, false);
    }
  }

  method RemoveUsers(users: map<User, UserRollup>, start: int, gone: set<User>, ghost view: map<User, UserSeries>)
    returns (r: map<User, UserRollup>)
    requires AllMatch(users, view)
    ensures AllMatch(r, RemovedUsers(view, start, gone))
  {
    r := users;
    ghost var goal := RemovedUsers(view, start, gone);
    var todo, done := gone * users.Keys, {};
    PartlyEnds(view, goal, todo);
    while todo != {}
      invariant gone * users.Keys == done + todo && AllMatch(r, Partly(view, goal, done))
      decreases todo
    {
      var u :| u in todo;
      var removed := RemoveUser(users[u], start, view[u]);
      MatchPartly(r, view, goal, done, u, removed);
      MoveOne(gone * users.Keys, done, todo, u);
      r := r[u := removed];
      todo, done := todo - {u}, done + {u};
    }
    AllMoved(gone * users.Keys, done, todo);
  }

  /** What is left of the users in `done`. */
  function PrunedOf(view: map<User, UserSeries>, now: int, done: set<User>): map<User, UserSeries> {
    map u | u in view && u in done && Lingers(PrunedUser(view[u], now)) :: PrunedUser(view[u], now)
  }

  lemma PrunedOneMore(view: map<User, UserSeries>, now: int, done: set<User>, u: User)
    requires u in view
    ensures PrunedOf(view, now, done + {u}) ==
            if Lingers(PrunedUser(view[u], now)) then PrunedOf(view, now, done)[u := PrunedUser(view[u], now)]
            else PrunedOf(view, now, done) - {u}
  {
  }

  lemma PrunedAll(view: map<User, UserSeries>, now: int, done: set<User>)
    requires done == view.Keys
    ensures PrunedOf(view, now, {}) == map[] && PrunedOf(view, now, done) == PrunedUsers(view, now)
  {
  }

  method PruneUser(u: UserRollup, now: int, ghost s: UserSeries) returns (r: UserRollup, lingers: bool)
    requires Matches(u, s)
    ensures Matches(r, PrunedUser(s, now)) && (lingers <==> Lingers(PrunedUser(s, now)))
  {
    var rollup := PruneRollup(u.rollup, now);
    EmptyIff(rollup.five);
    EmptyIff(rollup.daily);
    r := UserRollup(rollup, u.active);
    lingers := u.active || rollup.five != [] || rollup.daily != [];
  }

  method PruneUsers(users: map<User, UserRollup>, now: int, ghost view: map<User, UserSeries>)
    returns (r: map<User, UserRollup>)
    requires AllMatch(users, view)
    ensures AllMatch(r, PrunedUsers(view, now))
  {
    r := map[];
    var todo, done := users.Keys, {};
    PrunedAll(view, now, todo);
    while todo != {}
      invariant users.Keys == done + todo && done !! todo && AllMatch(r, PrunedOf(view, now, done))
      decreases todo
    {
      var u :| u in todo;
      var pruned, lingers := PruneUser(users[u], now, view[u]);
      PrunedOneMore(view, now, done, u);
      if lingers {
        MatchOneMore(r, PrunedOf(view, now, done), u, pruned, PrunedUser(view[u], now));
        r := r[u := pruned];
      } else {
        assert PrunedOf(view, now, done) - {u} == PrunedOf(view, now, done);
      }
      MoveOne(users.Keys, done, todo, u);
      todo, done := todo - {u}, done + {u};
    }
    AllMoved(users.Keys, done, todo);
  }

  lemma EmptyIff(bs: seq<Bucket>)
    requires Increasing(bs)
    ensures bs == [] <==> ByAt(bs) == map[]
  {
    if bs != [] {
      assert bs[0].at in ByAt(bs);
    }
  }

  // ----- the record

  /** `update_legacy_daily_traffic`. */
  method UpdateLegacy(legacy: map<int, Legacy>, day: int, m: Measured) returns (r: map<int, Legacy>)
    ensures r == LegacyAfter(legacy, day, m)
  {
    r := legacy;
    if !m.known && day !in legacy {
      return;
    }
    if day !in legacy {
      r := r[day := Legacy(0, 0)];
    }
    if m.known {
      var entry := r[day];
      r := r[day := Legacy(SatAdd(entry.up, m.up), SatAdd(entry.down, m.down))];
    }
  }

  method UpdateUsers(users: map<User, UserRollup>, start: int, measured: map<User, Measured>, gone: set<User>,
                     ghost view: map<User, UserSeries>)
    returns (r: map<User, UserRollup>)
    requires AllMatch(users, view)
    ensures AllMatch(r, UsersAfter(view, start, measured, gone))
  {
    r := NoteUsers(users, start, measured, view);
    r := RemoveUsers(r, start, gone - measured.Keys, NotedUsers(view, start, measured));
  }

  /** The stored lists and maps hold `h`. */
  ghost predicate Shows(baselines: map<Key, Baseline>, node: Rollup, legacy: map<int, Legacy>,
                        users: map<User, UserRollup>, h: History) {
    && h.baselines == baselines && h.legacy == legacy
    && Sorted(node) && h.node == SeriesOf(node) && AllMatch(users, h.users)
  }

  lemma ShowsRecorded(h: History, now: int, s: Sample, deleted: set<User>, baselines: map<Key, Baseline>, m: Measured,
                      measured: map<User, Measured>, node: Rollup, legacy: map<int, Legacy>,
                      users: map<User, UserRollup>)
    requires Sampled(h.baselines, now, s, deleted, s.totals, baselines, m, measured)
    requires Sorted(node) && SeriesOf(node) == Noted(h.node, BucketStart(now), ReadingOf(m), m.gapDates)
    requires legacy == LegacyAfter(h.legacy, DayOf(BucketStart(now)), m)
    requires AllMatch(users, UsersAfter(h.users, BucketStart(now), measured, s.cycles - deleted))
    ensures Shows(baselines, node, legacy, users, Recorded(h, now, s, deleted))
  {
    assert measured == MeasuredUsers(Charges(h.baselines, s.totals, now, deleted), s.unavailable, deleted);
  }

  /** `record_traffic_sample`, on the stored lists and maps. */
  method Record(baselines: map<Key, Baseline>, node: Rollup, legacy: map<int, Legacy>, users: map<User, UserRollup>,
                now: int, s: Sample, deleted: set<User>, ghost h: History)
    returns (baselines': map<Key, Baseline>, node': Rollup, legacy': map<int, Legacy>, users': map<User, UserRollup>)
    requires Shows(baselines, node, legacy, users, h)
    ensures Shows(baselines', node', legacy', users', Recorded(h, now, s, deleted))
  {
    var m, measured;
    baselines', m, measured := MeasureSample(baselines, now, s, deleted);
    node' := Note(node, BucketStart(now), ReadingOf(m), m.gapDates);
    legacy' := UpdateLegacy(legacy, DayOf(BucketStart(now)), m);
    users' := UpdateUsers(users, BucketStart(now), measured, s.cycles - deleted, h.users);
    ShowsRecorded(h, now, s, deleted, baselines', m, measured, node', legacy', users');
  }

  class TrafficRecord {
    var baselines: map<Key, Baseline>
    var node: Rollup
    var legacy: map<int, Legacy>
    var users: map<User, UserRollup>
    ghost var view: History

    ghost predicate Valid()
      reads this
    {
      Shows(baselines, node, legacy, users, view)
    }

    constructor ()
      ensures Valid() && view == NOTHING
    {
      baselines, node, legacy, users := map[], Rollup([], []), map[], map[];
      view := NOTHING;
      new;
      SortedNothing();
    }

    /** `record_traffic_sample`. */
    method RecordSample(now: int, s: Sample, deleted: set<User>)
      requires Valid()
      modifies this
      ensures Valid() && view == Recorded(old(view), now, s, deleted)
    {
      baselines, node, legacy, users := Record(baselines, node, legacy, users, now, s, deleted, view);
      view := Recorded(view, now, s, deleted);
    }

    /** `prune`. */
    method Prune(now: int)
      requires Valid()
      modifies this
      ensures Valid() && view == Pruned(old(view), now)
    {
      legacy := RecentLegacy(legacy, now);
      node := PruneRollup(node, now);
      users := PruneUsers(users, now, view.users);
      baselines := FreshBaselines(baselines, now);
      view := Pruned(view, now);
    }

    /** `record_local_sample_with_status`: every call prunes, with or without a sample. */
    method RecordLocalSample(now: int, sample: Option<Sample>, deleted: set<User>)
      requires Valid()
      modifies this
      ensures Valid() && view == Step(old(view), Call(now, sample, deleted))
    {
      if sample.Some? {
        RecordSample(now, sample.value, deleted);
      }
      Prune(now);
    }
  }

  // ----- whole runs

  datatype Call = Call(now: int, sample: Option<Sample>, deleted: set<User>)

  function Step(h: History, c: Call): History {
    Pruned(if c.sample.Some? then Recorded(h, c.now, c.sample.value, c.deleted) else h, c.now)
  }
}
