/** Turning one sample of cumulative counters into per-node and per-user deltas (src/node_history.rs). */
module TrafficSample {
  import opened Collections
  import opened MapSum
  import opened Words

  const BUCKET_SECS := 300
  const DAY_SECS := 86400

  // Membership keys and user names are only compared, so numbers stand for them.
  type Key = nat
  type User = nat

  /** `floor_five_minute`, on seconds since the epoch. */
  function FloorFive(at: int): int {
    at - at % BUCKET_SECS
  }

  /** A sample fills the five-minute bucket that has just ended. */
  function BucketStart(now: int): int {
    FloorFive(now) - BUCKET_SECS
  }

  function DayOf(at: int): int {
    at / DAY_SECS
  }

  /** The counters of one membership. */
  datatype Totals = Totals(key: Key, user: Option<User>, probe: bool, up: U64, down: U64)

  /** The last counters seen, and when. */
  datatype Baseline = Baseline(up: U64, down: U64, at: int)

  /** `cycles` holds the users that come with a quota cycle. */
  datatype Sample = Sample(totals: seq<Totals>, unavailable: set<User>, complete: bool, cycles: set<User>)

  // ----- what happened to one counter

  datatype Change = Started | Gap(date: int) | Decreased | Grew(up: U64, down: U64)

  function Classify(baselines: map<Key, Baseline>, t: Totals, bucketStart: int): Change {
    if t.key !in baselines then Started
    else
      var previous := baselines[t.key];
      if FloorFive(previous.at) != bucketStart then Gap(DayOf(previous.at))
      else if t.up >= previous.up && t.down >= previous.down then Grew(t.up - previous.up, t.down - previous.down)
      else Decreased
  }

  /** Probes, memberships without a user and deleted users are counted for the node only. */
  function Owner(t: Totals, deleted: set<User>): Option<User> {
    if t.user.Some? && !t.probe && t.user.value !in deleted then t.user else None
  }

  /** A change and the user it is charged to. */
  datatype Charge = Charge(owner: Option<User>, change: Change)

  function BaselinesAfter(baselines: map<Key, Baseline>, totals: seq<Totals>, now: int): map<Key, Baseline> {
    if totals == [] then baselines
    else
      var t := totals[|totals| - 1];
      BaselinesAfter(baselines, totals[..|totals| - 1], now)[t.key := Baseline(t.up, t.down, now)]
  }

  /** What happened to each counter of a sample, given those listed before it. */
  function Charges(baselines: map<Key, Baseline>, totals: seq<Totals>, now: int, deleted: set<User>)
    : (cs: seq<Charge>)
    ensures |cs| == |totals|
  {
    if totals == [] then []
    else
      var rest, t := totals[..|totals| - 1], totals[|totals| - 1];
      var change := Classify(BaselinesAfter(baselines, rest, now), t, BucketStart(now));
      Charges(baselines, rest, now, deleted) + [Charge(Owner(t, deleted), change)]
  }

  lemma ChargesAppend(baselines: map<Key, Baseline>, totals: seq<Totals>, t: Totals, now: int, deleted: set<User>)
    ensures BaselinesAfter(baselines, totals + [t], now) ==
            BaselinesAfter(baselines, totals, now)[t.key := Baseline(t.up, t.down, now)]
    ensures Charges(baselines, totals + [t], now, deleted) ==
            Charges(baselines, totals, now, deleted)
            + [Charge(Owner(t, deleted), Classify(BaselinesAfter(baselines, totals, now), t, BucketStart(now)))]
  {
    assert (totals + [t])[..|totals|] == totals;
  }

  // ----- what a list of changes amounts to

  datatype Direction = Up | Down

  function Grown(c: Change, d: Direction): nat {
    if !c.Grew? then 0 else if d.Up? then c.up else c.down
  }

  /** The exact growth, before any saturation. */
  function Growth(cs: seq<Charge>, d: Direction): nat {
    if cs == [] then 0 else Growth(cs[..|cs| - 1], d) + Grown(cs[|cs| - 1].change, d)
  }

  lemma GrowthAppend(cs: seq<Charge>, c: Charge, d: Direction)
    ensures Growth(cs + [c], d) == Growth(cs, d) + Grown(c.change, d)
  {
    assert (cs + [c])[..|cs|] == cs;
  }

  function GapDates(c: Change): set<int> {
    if c.Gap? then {c.date} else {}
  }

  datatype Measured = Measured(up: U64, down: U64, known: bool, complete: bool, gapDates: set<int>)

  /** One more change, as the sampling loop folds it in. */
  function Absorbed(m: Measured, c: Change): Measured {
    match c
    case Grew(up, down) => m.(up := SatAdd(m.up, up), down := SatAdd(m.down, down), known := true)
    case Gap(date) => m.(complete := false, gapDates := m.gapDates + GapDates(c))
    case _ => m.(complete := false)
  }

  function Measure(cs: seq<Charge>, known: bool, complete: bool): Measured {
    if cs == [] then Measured(0, 0, known, complete, {})
    else Absorbed(Measure(cs[..|cs| - 1], known, complete), cs[|cs| - 1].change)
  }

  lemma MeasureAppend(cs: seq<Charge>, c: Charge, known: bool, complete: bool)
    ensures Measure(cs + [c], known, complete) == Absorbed(Measure(cs, known, complete), c.change)
  {
    assert (cs + [c])[..|cs|] == cs;
  }

  predicate AllGrew(cs: seq<Charge>) {
    forall i :: 0 <= i < |cs| ==> cs[i].change.Grew?
  }

  predicate SomeGrew(cs: seq<Charge>) {
    exists i :: 0 <= i < |cs| && cs[i].change.Grew?
  }

  /** Growth, up to saturation. */
  lemma {:induction false} MeasuresGrowth(cs: seq<Charge>, known: bool, complete: bool)
    ensures Measure(cs, known, complete).up == Min(Growth(cs, Up), U64_MAX)
    ensures Measure(cs, known, complete).down == Min(Growth(cs, Down), U64_MAX)
    decreases |cs|
  {
    if cs != [] {
      MeasuresGrowth(cs[..|cs| - 1], known, complete);
    }
  }

  /** Known once something grew, complete while everything grew. */
  lemma {:induction false} MeasuresCompleteness(cs: seq<Charge>, known: bool, complete: bool)
    ensures Measure(cs, known, complete).known <==> known || SomeGrew(cs)
    ensures Measure(cs, known, complete).complete <==> complete && AllGrew(cs)
    decreases |cs|
  {
    if cs != [] {
      var rest, last := cs[..|cs| - 1], cs[|cs| - 1];
      MeasuresCompleteness(rest, known, complete);
      assert forall i :: 0 <= i < |rest| ==> cs[i] == rest[i];
      if last.change.Grew? && AllGrew(rest) {
        assert AllGrew(cs);
      }
      if SomeGrew(rest) {
        var i :| 0 <= i < |rest| && rest[i].change.Grew?;
        assert cs[i].change.Grew?;
      }
    }
  }

  // ----- who the changes are charged to

  function Of(cs: seq<Charge>, owner: Option<User>): seq<Charge> {
    if cs == [] then []
    else
      var rest := Of(cs[..|cs| - 1], owner);
      if cs[|cs| - 1].owner == owner then rest + [cs[|cs| - 1]] else rest
  }

  lemma OfAppend(cs: seq<Charge>, c: Charge, owner: Option<User>)
    ensures Of(cs + [c], owner) == if c.owner == owner then Of(cs, owner) + [c] else Of(cs, owner)
  {
    assert (cs + [c])[..|cs|] == cs;
  }

  function UsersOf(cs: seq<Charge>): set<User> {
    set c | c in cs && c.owner.Some? :: c.owner.value
  }

  ghost function ByUser(cs: seq<Charge>, users: set<User>, d: Direction): map<User, nat> {
    map u | u in users :: Growth(Of(cs, Some(u)), d)
  }

  lemma OneUserAppend(cs: seq<Charge>, c: Charge, u: User, d: Direction)
    ensures Growth(Of(cs + [c], Some(u)), d) ==
            Growth(Of(cs, Some(u)), d) + if c.owner == Some(u) then Grown(c.change, d) else 0
  {
    OfAppend(cs, c, Some(u));
    GrowthAppend(Of(cs, Some(u)), c, d);
  }

  lemma OwnerBump(m: map<User, nat>, m': map<User, nat>, owner: Option<User>, g: nat)
    requires m.Keys == m'.Keys && (owner.Some? ==> owner.value in m)
    requires forall u :: u in m ==> m'[u] == m[u] + if owner == Some(u) then g else 0
    ensures SumOf(m') == SumOf(m) + if owner.Some? then g else 0
  {
    if owner.Some? {
      SumBump(m, m', owner.value, g);
    } else {
      assert m' == m;
    }
  }

  lemma ByUserAppend(cs: seq<Charge>, c: Charge, users: set<User>, d: Direction)
    requires c.owner.Some? ==> c.owner.value in users
    ensures SumOf(ByUser(cs + [c], users, d)) ==
            SumOf(ByUser(cs, users, d)) + if c.owner.Some? then Grown(c.change, d) else 0
  {
    var m, m' := ByUser(cs, users, d), ByUser(cs + [c], users, d);
    forall u | u in users
      ensures m'[u] == m[u] + if c.owner == Some(u) then Grown(c.change, d) else 0
    {
      OneUserAppend(cs, c, u, d);
    }
    OwnerBump(m, m', c.owner, Grown(c.change, d));
  }

  lemma {:induction false} NothingGrew(m: map<User, nat>)
    requires forall u :: u in m ==> m[u] == 0
    ensures SumOf(m) == 0
    decreases |m|
  {
    if m != map[] {
      NothingGrew(m - {Choose(m.Keys)});
    }
  }

  /**
   * What a node grew is what its users grew, plus the growth of probes, of memberships
   * without a user and of deleted users.
   */
  lemma {:induction false} GrowthIsShared(cs: seq<Charge>, users: set<User>, d: Direction)
    requires UsersOf(cs) <= users
    ensures Growth(cs, d) == SumOf(ByUser(cs, users, d)) + Growth(Of(cs, None), d)
    decreases |cs|
  {
    if cs == [] {
      NothingGrew(ByUser(cs, users, d));
    } else {
      var rest, c := cs[..|cs| - 1], cs[|cs| - 1];
      assert cs == rest + [c] && c in cs;
      assert forall x :: x in rest ==> x in cs;
      assert c.owner.Some? ==> c.owner.value in UsersOf(cs);
      GrowthIsShared(rest, users, d);
      GrowthAppend(rest, c, d);
      ByUserAppend(rest, c, users, d);
      OfAppend(rest, c, None);
      GrowthAppend(Of(rest, None), c, d);
    }
  }

  // ----- the sampling loop

  const FRESH := Measured(0, 0, false, true, {})

  predicate Idle(s: Sample) {
    s.totals == [] && s.unavailable == {} && s.complete
  }

  /** The users that get a bucket from this sample. */
  function Touched(cs: seq<Charge>, unavailable: set<User>, deleted: set<User>): set<User> {
    (unavailable - deleted) + UsersOf(cs)
  }

  method MarkUnavailable(unavailable: set<User>, deleted: set<User>) returns (users: map<User, Measured>)
    ensures users.Keys == unavailable - deleted
    ensures forall u :: u in users ==> users[u] == FRESH.(complete := false)
  {
    users := map[];
    var todo := unavailable;
    while todo != {}
      invariant todo <= unavailable && users.Keys == unavailable - todo - deleted
      invariant forall u :: u in users ==> users[u] == FRESH.(complete := false)
      decreases todo
    {
      var u :| u in todo;
      if u !in deleted {
        users := users[u := FRESH.(complete := false)];
      }
      todo := todo - {u};
    }
  }

  function UserMeasure(cs: seq<Charge>, unavailable: set<User>, u: User): Measured {
    Measure(Of(cs, Some(u)), false, u !in unavailable)
  }

  ghost predicate UsersMeasured(users: map<User, Measured>, cs: seq<Charge>, unavailable: set<User>,
                                deleted: set<User>)
  {
    && users.Keys == Touched(cs, unavailable, deleted)
    && forall u :: u in users ==> users[u] == UserMeasure(cs, unavailable, u)
  }

  function Charged(users: map<User, Measured>, c: Charge): map<User, Measured> {
    match c.owner
    case None => users
    case Some(u) => users[u := Absorbed(if u in users then users[u] else FRESH, c.change)]
  }

  lemma {:induction false} UntouchedHasNoCharges(cs: seq<Charge>, u: User)
    requires u !in UsersOf(cs)
    ensures Of(cs, Some(u)) == []
    decreases |cs|
  {
    if cs != [] {
      var rest, c := cs[..|cs| - 1], cs[|cs| - 1];
      assert c in cs && forall x :: x in rest ==> x in cs;
      assert c.owner.Some? ==> c.owner.value in UsersOf(cs);
      UntouchedHasNoCharges(rest, u);
    }
  }

  lemma ChargeOneUser(users: map<User, Measured>, cs: seq<Charge>, unavailable: set<User>, deleted: set<User>,
                      c: Charge, u: User)
    requires UsersMeasured(users, cs, unavailable, deleted) && u in Charged(users, c)
    requires c.owner.Some? ==> c.owner.value !in deleted
    ensures Charged(users, c)[u] == UserMeasure(cs + [c], unavailable, u)
  {
    OfAppend(cs, c, Some(u));
    MeasureAppend(Of(cs, Some(u)), c, false, u !in unavailable);
    if u !in users {
      UntouchedHasNoCharges(cs, u);
    }
  }

  lemma ChargeOne(users: map<User, Measured>, cs: seq<Charge>, unavailable: set<User>, deleted: set<User>, c: Charge)
    requires UsersMeasured(users, cs, unavailable, deleted)
    requires c.owner.Some? ==> c.owner.value !in deleted
    ensures UsersMeasured(Charged(users, c), cs + [c], unavailable, deleted)
  {
    assert UsersOf(cs + [c]) == UsersOf(cs) + if c.owner.Some? then {c.owner.value} else {};
    forall u | u in Charged(users, c)
      ensures Charged(users, c)[u] == UserMeasure(cs + [c], unavailable, u)
    {
      ChargeOneUser(users, cs, unavailable, deleted, c, u);
    }
  }

  /** Where the sampling loop stands after the counters `done`. */
  ghost predicate Sampled(baselines: map<Key, Baseline>, now: int, s: Sample, deleted: set<User>, done: seq<Totals>,
                          baselines': map<Key, Baseline>, node: Measured, users: map<User, Measured>) {
    && baselines' == BaselinesAfter(baselines, done, now)
    && node == Measure(Charges(baselines, done, now, deleted), Idle(s), s.complete)
    && UsersMeasured(users, Charges(baselines, done, now, deleted), s.unavailable, deleted)
  }

  lemma SampledOneMore(baselines: map<Key, Baseline>, now: int, s: Sample, deleted: set<User>, done: seq<Totals>,
                       baselines': map<Key, Baseline>, node: Measured, users: map<User, Measured>, t: Totals, c: Charge)
    requires Sampled(baselines, now, s, deleted, done, baselines', node, users)
    requires c == Charge(Owner(t, deleted), Classify(baselines', t, BucketStart(now)))
    ensures Sampled(baselines, now, s, deleted, done + [t], baselines'[t.key := Baseline(t.up, t.down, now)],
                    Absorbed(node, c.change), Charged(users, c))
  {
    var cs := Charges(baselines, done, now, deleted);
    ChargesAppend(baselines, done, t, now, deleted);
    ChargeOne(users, cs, s.unavailable, deleted, c);
    MeasureAppend(cs, c, Idle(s), s.complete);
  }

  /** One round of the loop over the counters. */
  method SampleOne(ghost baselines: map<Key, Baseline>, now: int, s: Sample, deleted: set<User>,
                   ghost done: seq<Totals>, current: map<Key, Baseline>, node: Measured,
                   users: map<User, Measured>, t: Totals)
    returns (current': map<Key, Baseline>, node': Measured, users': map<User, Measured>)
    requires Sampled(baselines, now, s, deleted, done, current, node, users)
    ensures Sampled(baselines, now, s, deleted, done + [t], current', node', users')
  {
    var c := Charge(Owner(t, deleted), Classify(current, t, BucketStart(now)));
    SampledOneMore(baselines, now, s, deleted, done, current, node, users, t, c);
    users' := Charged(users, c);
    node' := Absorbed(node, c.change);
    current' := current[t.key := Baseline(t.up, t.down, now)];
  }

  /** The loops over unavailable users and counters, updating totals and baselines as they go. */
  method MeasureSample(baselines: map<Key, Baseline>, now: int, s: Sample, deleted: set<User>)
    returns (baselines': map<Key, Baseline>, node: Measured, users: map<User, Measured>)
    ensures Sampled(baselines, now, s, deleted, s.totals, baselines', node, users)
  {
    baselines' := baselines;
    node := Measured(0, 0, Idle(s), s.complete, {});
    users := MarkUnavailable(s.unavailable, deleted);
    for i := 0 to |s.totals|
      invariant Sampled(baselines, now, s, deleted, s.totals[..i], baselines', node, users)
    {
      baselines', node, users :=
        SampleOne(baselines, now, s, deleted, s.totals[..i], baselines', node, users, s.totals[i]);
      TakeOneMore(s.totals, i);
    }
    TakeAll(s.totals);
  }
}
