/** Reports of one user, over one node's record or over several (src/node_history.rs). */
module TrafficUserReports {
  import opened Collections
  import opened TrafficAggregate
  import opened TrafficAgreement
  import opened TrafficHistory
  import opened TrafficReport
  import opened TrafficRuns
  import opened TrafficSample
  import opened TrafficSeries
  import opened TrafficUsers
  import opened Words

  // ----- one node

  /** A single record is its own aggregate: what it holds is never a gap of its own. */
  lemma SingleSourceIsItself(r: Source, m: map<int, Bucket>)
    requires WellFormed(r) && Aggregates([r], m)
    ensures m == ByAt(r.buckets)
  {
    forall at
      ensures at in m <==> at in ByAt(r.buckets)
      ensures at in m ==> m[at] == ByAt(r.buckets)[at]
    {
      SingleColumn(r, at);
      CellIsSound(r, at);
      if Has(r, at).Some? {
        SingleCell(CellOf(r, at), at);
      }
    }
  }

  lemma SingleColumn(r: Source, at: int)
    requires WellFormed(r)
    ensures AllWellFormed([r]) && Column([r], at) == [CellOf(r, at)]
  {
    ColumnAppend([], r, at);
    assert [] + [r] == [r];
  }

  lemma SingleCell(c: Cell, at: int)
    requires c.has.Some? && !c.lacks && c.has.value.at == at && Whole(c.has.value)
    ensures SomeHas([c]) && forall b :: Exact([c], at, b) ==> b == c.has.value
  {
    var one := [c];
    assert one[0].has.Some?;
    forall d: Direction
      ensures Combined(one, d) == Share(c, d)
    {
      assert Combined(one, d) == Combined(one[..0], d) + Share(one[0], d);
    }
  }

  /**
   * After every run, a later report of a user on this node shows all the buckets and days that
   * were ever recorded for it: the dropped ones would not show, and neither would a dropped record.
   */
  lemma UserRetentionNeverShows(calls: seq<Call>, u: User, lastSample: Option<int>, window: Window, now: int)
    requires Monotone(calls) && calls != [] && LastTime(calls) <= now
    ensures BuildReport(SeriesFor(Run(calls).users, u), lastSample, window, now) ==
            BuildReport(UserKept(calls, u), lastSample, window, now)
    ensures u in Run(calls).users ==> SeriesFor(Run(calls).users, u) == Run(calls).users[u].series
    ensures u !in Run(calls).users ==>
              BuildReport(UserKept(calls, u), lastSample, window, now) ==
              BuildReport(NO_SERIES, lastSample, window, now)
  {
    UserPruningOnlyRestricts(calls, u);
    RestrictionNeverShows(UserKept(calls, u), LastTime(calls), lastSample, window, now);
  }

  // ----- the report over the selected records

  datatype UserRecord = UserRecord(rollup: Rollup, active: bool, lastSample: Option<int>)

  predicate Readable(us: seq<UserRecord>) {
    forall i :: 0 <= i < |us| ==>
      WellFormed(Source(us[i].rollup.five, true)) && WellFormed(Source(us[i].rollup.daily, true))
  }

  function Fives(us: seq<UserRecord>): seq<Source> {
    seq(|us|, i requires 0 <= i < |us| => Source(us[i].rollup.five, us[i].active))
  }

  function Dailies(us: seq<UserRecord>): seq<Source> {
    seq(|us|, i requires 0 <= i < |us| => Source(us[i].rollup.daily, us[i].active))
  }

  /** `last` is the latest of the times the records were sampled at, none when none was. */
  predicate IsLatest(us: seq<UserRecord>, last: Option<int>) {
    && (last.Some? ==> exists i :: 0 <= i < |us| && us[i].lastSample == last)
    && forall i :: 0 <= i < |us| && us[i].lastSample.Some? ==> last.Some? && us[i].lastSample.value <= last.value
  }

  method LatestSample(us: seq<UserRecord>) returns (last: Option<int>)
    ensures IsLatest(us, last)
  {
    last := None;
    for k := 0 to |us|
      invariant last.Some? ==> exists i :: 0 <= i < k && us[i].lastSample == last
      invariant forall i :: 0 <= i < k && us[i].lastSample.Some? ==> last.Some? && us[i].lastSample.value <= last.value
    {
      var sampled := us[k].lastSample;
      if sampled.Some? && (last.None? || sampled.value > last.value) {
        last := sampled;
      }
    }
  }

  /** The buckets of an aggregate as a sorted list. */
  method Listed(m: map<int, Bucket>) returns (bs: seq<Bucket>)
    requires forall at :: at in m ==> m[at].at == at
    ensures Increasing(bs) && ByAt(bs) == m
  {
    bs := [];
    var todo, done := m.Keys, {};
    NothingListed(m);
    while todo != {}
      invariant m.Keys == done + todo && Increasing(bs) && ByAt(bs) == Only(m, done)
      decreases todo
    {
      var at := AnyOf(todo);
      OnlyOneMore(m, done, at);
      bs := Put(bs, m[at]);
      MoveOne(m.Keys, done, todo, at);
      todo, done := todo - {at}, done + {at};
    }
    AllMoved(m.Keys, done, todo);
    assert Only(m, done) == m;
  }

  function Only(m: map<int, Bucket>, keys: set<int>): map<int, Bucket> {
    map at | at in m && at in keys :: m[at]
  }

  lemma NothingListed(m: map<int, Bucket>)
    ensures Increasing([]) && ByAt([]) == Only(m, {})
  {
  }

  lemma OnlyOneMore(m: map<int, Bucket>, keys: set<int>, at: int)
    requires at in m
    ensures Only(m, keys)[at := m[at]] == Only(m, keys + {at})
  {
  }

  /** The aggregate of some records' lists, sorted. */
  method AggregateList(rs: seq<Source>) returns (bs: seq<Bucket>)
    requires AllWellFormed(rs)
    ensures Increasing(bs) && Aggregates(rs, ByAt(bs))
  {
    var m := Aggregate(rs);
    forall at | at in m
      ensures m[at].at == at
    {
      assert Exact(Column(rs, at), at, m[at]);
    }
    bs := Listed(m);
  }

  /** `merged` and `last` are the aggregate of the records. */
  ghost predicate Merges(us: seq<UserRecord>, merged: Rollup, last: Option<int>) {
    && AllWellFormed(Fives(us)) && AllWellFormed(Dailies(us)) && Sorted(merged) && IsLatest(us, last)
    && Aggregates(Fives(us), ByAt(merged.five)) && Aggregates(Dailies(us), ByAt(merged.daily))
  }

  method AggregateUserRecords(us: seq<UserRecord>) returns (merged: Rollup, last: Option<int>)
    requires Readable(us)
    ensures Merges(us, merged, last)
  {
    assert forall i :: 0 <= i < |us| ==>
        WellFormed(Source(us[i].rollup.five, true)) && WellFormed(Source(us[i].rollup.daily, true));
    var five := AggregateList(Fives(us));
    var daily := AggregateList(Dailies(us));
    merged := Rollup(five, daily);
    last := LatestSample(us);
  }

  /** One record's aggregate is the record, so its report is the record's own. */
  lemma MergingOneIsItself(u: UserRecord, us: seq<UserRecord>, merged: Rollup, last: Option<int>)
    requires |us| == 1 && us[0] == u && Readable(us) && Merges(us, merged, last)
    ensures SeriesOf(merged) == SeriesOf(u.rollup) && last == u.lastSample
  {
    assert WellFormed(Source(us[0].rollup.five, true)) && WellFormed(Source(us[0].rollup.daily, true));
    assert Fives(us) == [Source(u.rollup.five, u.active)];
    assert Dailies(us) == [Source(u.rollup.daily, u.active)];
    SingleSourceIsItself(Source(u.rollup.five, u.active), ByAt(merged.five));
    SingleSourceIsItself(Source(u.rollup.daily, u.active), ByAt(merged.daily));
  }

  // ----- choosing the records

  /** A node, and its record of the user when it has one. */
  datatype Held = Held(node: nat, user: Option<UserRecord>)

  predicate Chosen(h: Held, node: Option<nat>) {
    h.user.Some? && (node.None? || node.value == h.node)
  }

  function Selected(held: seq<Held>, node: Option<nat>): seq<UserRecord> {
    if held == [] then []
    else
      var rest, h := Selected(held[..|held| - 1], node), held[|held| - 1];
      if Chosen(h, node) then rest + [h.user.value] else rest
  }

  method Select(held: seq<Held>, node: Option<nat>) returns (us: seq<UserRecord>)
    ensures us == Selected(held, node)
  {
    us := [];
    for k := 0 to |held|
      invariant us == Selected(held[..k], node)
    {
      TakeOneMore(held, k);
      assert held[..k + 1][..k] == held[..k];
      if node.Some? && node.value != held[k].node {
        continue;
      }
      if held[k].user.Some? {
        us := us + [held[k].user.value];
      }
    }
    TakeAll(held);
  }

  /** A node is listed once, so asking for it selects its record alone, or nothing. */
  lemma {:induction false} OneNodeSelectsOne(held: seq<Held>, i: nat)
    requires i < |held| && forall j, k :: 0 <= j < k < |held| ==> held[j].node != held[k].node
    ensures Selected(held, Some(held[i].node)) == if held[i].user.Some? then [held[i].user.value] else []
    decreases |held|
  {
    var rest := held[..|held| - 1];
    if i < |held| - 1 {
      OneNodeSelectsOne(rest, i);
    } else {
      OtherNodesSelectNothing(rest, held[i].node);
    }
  }

  lemma {:induction false} OtherNodesSelectNothing(held: seq<Held>, node: nat)
    requires forall j :: 0 <= j < |held| ==> held[j].node != node
    ensures Selected(held, Some(node)) == []
    decreases |held|
  {
    if held != [] {
      OtherNodesSelectNothing(held[..|held| - 1], node);
    }
  }

  /** `user_traffic_report`: nothing without a record, otherwise the report of their aggregate. */
  method UserTrafficReport(held: seq<Held>, node: Option<nat>, window: Window, now: int)
    returns (report: Option<Report>, merged: Rollup, last: Option<int>)
    requires Readable(Selected(held, node))
    ensures var us := Selected(held, node);
            && (report.None? <==> us == []) && Merges(us, merged, last)
            && (report.Some? ==> report.value == BuildReport(SeriesOf(merged), last, window, now))
  {
    var us := Select(held, node);
    merged, last := AggregateUserRecords(us);
    report := None;
    if us != [] {
      var r := BuildTrafficReport(merged, last, window, now);
      report := Some(r);
    }
  }
}
