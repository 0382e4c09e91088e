/** Bytes are conserved: from counters to node buckets, and from a node bucket to its users (src/node_history.rs). */
module TrafficConservation {
  import opened Collections
  import opened MapSum
  import opened TrafficAgreement
  import opened TrafficHistory
  import opened TrafficRuns
  import opened TrafficSample
  import opened TrafficSeries
  import opened Words

  // ----- a node bucket and its users

  function MeasuredPart(m: Measured, d: Direction): nat {
    if d.Up? then m.up else m.down
  }

  ghost function UserParts(cs: seq<Charge>, unavailable: set<User>, users: set<User>, d: Direction): map<User, nat> {
    map u | u in users :: MeasuredPart(UserMeasure(cs, unavailable, u), d)
  }

  lemma {:induction false} PartAtMostSum(m: map<User, nat>, u: User)
    requires u in m
    ensures m[u] <= SumOf(m)
  {
    SumWithout(m, u);
  }

  /**
   * Unless the node's growth overflows, what a sample measures for the node is what it measures
   * for its users, plus the growth of probes, userless memberships and deleted users.
   */
  lemma NodeIsUsersAndOthers(cs: seq<Charge>, s: Sample, users: set<User>, d: Direction)
    requires UsersOf(cs) <= users && Growth(cs, d) <= U64_MAX
    ensures MeasuredPart(Measure(cs, Idle(s), s.complete), d) ==
            SumOf(UserParts(cs, s.unavailable, users, d)) + Growth(Of(cs, None), d)
  {
    MeasuresGrowth(cs, Idle(s), s.complete);
    GrowthIsShared(cs, users, d);
    var exact, parts := ByUser(cs, users, d), UserParts(cs, s.unavailable, users, d);
    forall u | u in users
      ensures parts[u] == exact[u]
    {
      MeasuresGrowth(Of(cs, Some(u)), false, u !in s.unavailable);
      PartAtMostSum(exact, u);
    }
    assert parts == exact;
  }

  /** What the buckets at `start` hold, user by user. */
  ghost function HeldByUser(h: History, start: int, users: set<User>, d: Direction): map<User, nat> {
    map u | u in users && u in h.users && start in h.users[u].series.five :: Held(h.users[u].series.five[start], d)
  }

  lemma {:induction false} OwnersGrew(cs: seq<Charge>, u: User)
    requires AllGrew(cs)
    ensures AllGrew(Of(cs, Some(u))) && (u in UsersOf(cs) ==> Of(cs, Some(u)) != [])
    decreases |cs|
  {
    if cs != [] {
      var rest, c := cs[..|cs| - 1], cs[|cs| - 1];
      assert cs == rest + [c];
      OwnersGrew(rest, u);
    }
  }

  lemma UserHoldsMeasure(h: History, now: int, s: Sample, deleted: set<User>, u: User, d: Direction)
    requires u !in s.unavailable && AllGrew(Charges(h.baselines, s.totals, now, deleted))
    requires u in UsersOf(Charges(h.baselines, s.totals, now, deleted))
    ensures var h', start := Recorded(h, now, s, deleted), BucketStart(now);
            && u in h'.users && start in h'.users[u].series.five
            && Held(h'.users[u].series.five[start], d) ==
               MeasuredPart(UserMeasure(Charges(h.baselines, s.totals, now, deleted), s.unavailable, u), d)
  {
    var cs := Charges(h.baselines, s.totals, now, deleted);
    OwnersGrew(cs, u);
    MeasuresCompleteness(Of(cs, Some(u)), false, true);
    assert Of(cs, Some(u))[0].change.Grew?;
  }

  /**
   * After a sample that makes the node's bucket complete, that bucket holds what its users'
   * buckets hold, plus the growth of probes, userless memberships and deleted users.
   */
  lemma NodeBucketIsUserBuckets(h: History, now: int, s: Sample, deleted: set<User>, d: Direction)
    requires s.unavailable !! UsersOf(Charges(h.baselines, s.totals, now, deleted))
    requires Growth(Charges(h.baselines, s.totals, now, deleted), d) <= U64_MAX
    ensures var h', start := Recorded(h, now, s, deleted), BucketStart(now);
            var cs := Charges(h.baselines, s.totals, now, deleted);
            h'.node.five[start].complete ==>
              Held(h'.node.five[start], d) ==
              SumOf(HeldByUser(h', start, UsersOf(cs), d)) + Growth(Of(cs, None), d)
  {
    var h', start := Recorded(h, now, s, deleted), BucketStart(now);
    var cs := Charges(h.baselines, s.totals, now, deleted);
    NodeHoldsMeasure(h, now, s, deleted, d);
    if h'.node.five[start].complete {
      NodeIsUsersAndOthers(cs, s, UsersOf(cs), d);
      forall u | u in UsersOf(cs)
        ensures u in h'.users && start in h'.users[u].series.five
        ensures Held(h'.users[u].series.five[start], d) == MeasuredPart(UserMeasure(cs, s.unavailable, u), d)
      {
        UserHoldsMeasure(h, now, s, deleted, u, d);
      }
      HeldAreParts(h', start, UsersOf(cs), cs, s.unavailable, d);
    }
  }

  lemma NodeHoldsMeasure(h: History, now: int, s: Sample, deleted: set<User>, d: Direction)
    ensures var cs := Charges(h.baselines, s.totals, now, deleted);
            var b := Recorded(h, now, s, deleted).node.five[BucketStart(now)];
            b.complete ==> AllGrew(cs) && Held(b, d) == MeasuredPart(Measure(cs, Idle(s), s.complete), d)
  {
    MeasuresCompleteness(Charges(h.baselines, s.totals, now, deleted), Idle(s), s.complete);
  }

  lemma HeldAreParts(h: History, start: int, users: set<User>, cs: seq<Charge>, unavailable: set<User>, d: Direction)
    requires forall u :: u in users ==>
               && u in h.users && start in h.users[u].series.five
               && Held(h.users[u].series.five[start], d) == MeasuredPart(UserMeasure(cs, unavailable, u), d)
    ensures HeldByUser(h, start, users, d) == UserParts(cs, unavailable, users, d)
  {
  }

  // ----- counters and what they grew by

  function Counter(t: Totals, d: Direction): nat {
    if d.Up? then t.up else t.down
  }

  function Level(b: Baseline, d: Direction): nat {
    if d.Up? then b.up else b.down
  }

  function Counters(totals: seq<Totals>, d: Direction): map<Key, nat> {
    if totals == [] then map[]
    else
      var t := totals[|totals| - 1];
      Counters(totals[..|totals| - 1], d)[t.key := Counter(t, d)]
  }

  function KeysOf(totals: seq<Totals>): set<Key> {
    Counters(totals, Up).Keys
  }

  predicate Distinct(totals: seq<Totals>) {
    forall i, j :: 0 <= i < j < |totals| ==> totals[i].key != totals[j].key
  }

  lemma {:induction false} CounterKeys(totals: seq<Totals>, d: Direction)
    ensures Counters(totals, d).Keys == KeysOf(totals)
    ensures forall k :: k in KeysOf(totals) <==> exists i :: 0 <= i < |totals| && totals[i].key == k
    decreases |totals|
  {
    if totals != [] {
      var rest, t := totals[..|totals| - 1], totals[|totals| - 1];
      CounterKeys(rest, d);
      forall k | k in KeysOf(totals)
        ensures exists i :: 0 <= i < |totals| && totals[i].key == k
      {
        if k == t.key {
          assert totals[|totals| - 1].key == k;
        } else {
          var i :| 0 <= i < |rest| && rest[i].key == k;
          assert totals[i].key == k;
        }
      }
      forall i | 0 <= i < |totals|
        ensures totals[i].key in KeysOf(totals)
      {
        if i < |rest| {
          assert rest[i] == totals[i];
        }
      }
    }
  }

  /** The baselines after a sample are its counters; the others are untouched. */
  lemma {:induction false} BaselinesHoldCounters(b: map<Key, Baseline>, totals: seq<Totals>, now: int)
    ensures var after := BaselinesAfter(b, totals, now);
            && KeysOf(totals) <= after.Keys && Counters(totals, Down).Keys == KeysOf(totals)
            && (forall k :: k in KeysOf(totals) ==>
                  && after[k].up == Counters(totals, Up)[k] && after[k].down == Counters(totals, Down)[k]
                  && after[k].at == now)
            && (forall k :: k !in KeysOf(totals) ==> (k in after <==> k in b) && (k in b ==> after[k] == b[k]))
    decreases |totals|
  {
    if totals != [] {
      BaselinesHoldCounters(b, totals[..|totals| - 1], now);
    }
  }

  /** Every counter has a baseline from the slot before and has not gone down. */
  predicate Continues(b: map<Key, Baseline>, totals: seq<Totals>, now: int) {
    forall i :: 0 <= i < |totals| ==>
      && totals[i].key in b && FloorFive(b[totals[i].key].at) == BucketStart(now)
      && b[totals[i].key].up <= totals[i].up && b[totals[i].key].down <= totals[i].down
  }

  function Levels(b: map<Key, Baseline>, keys: set<Key>, d: Direction): map<Key, nat>
    requires keys <= b.Keys
  {
    map k | k in keys :: Level(b[k], d)
  }

  lemma {:induction false} GrowthIsDifference(b: map<Key, Baseline>, totals: seq<Totals>, now: int, deleted: set<User>,
                                              d: Direction)
    requires Distinct(totals) && Continues(b, totals, now)
    ensures AllGrew(Charges(b, totals, now, deleted)) && KeysOf(totals) <= b.Keys
    ensures Growth(Charges(b, totals, now, deleted), d) + SumOf(Levels(b, KeysOf(totals), d)) ==
            SumOf(Counters(totals, d))
    decreases |totals|
  {
    if totals == [] {
      assert Levels(b, {}, d) == map[];
    } else {
      var rest, t := totals[..|totals| - 1], totals[|totals| - 1];
      assert forall i :: 0 <= i < |rest| ==> rest[i] == totals[i];
      assert t.key in b;
      GrowthIsDifference(b, rest, now, deleted, d);
      CounterKeys(rest, d);
      BaselinesHoldCounters(b, rest, now);
      LastOneGrew(b, rest, t, now, deleted, d);
      TakeOneMore(totals, |totals| - 1);
      TakeAll(totals);
    }
  }

  lemma LevelsGrow(b: map<Key, Baseline>, keys: set<Key>, k: Key, d: Direction)
    requires keys <= b.Keys && k in b && k !in keys
    ensures SumOf(Levels(b, keys + {k}, d)) == SumOf(Levels(b, keys, d)) + Level(b[k], d)
  {
    var levels := Levels(b, keys, d);
    assert Levels(b, keys + {k}, d) == levels[k := Level(b[k], d)];
    SumWith(levels, k, Level(b[k], d));
  }

  lemma CountersGrow(rest: seq<Totals>, t: Totals, d: Direction)
    requires Counters(rest, d).Keys == KeysOf(rest) && t.key !in KeysOf(rest)
    ensures KeysOf(rest + [t]) == KeysOf(rest) + {t.key}
    ensures SumOf(Counters(rest + [t], d)) == SumOf(Counters(rest, d)) + Counter(t, d)
  {
    assert (rest + [t])[..|rest|] == rest;
    SumWith(Counters(rest, d), t.key, Counter(t, d));
  }

  lemma LastOneGrew(b: map<Key, Baseline>, rest: seq<Totals>, t: Totals, now: int, deleted: set<User>, d: Direction)
    requires AllGrew(Charges(b, rest, now, deleted)) && KeysOf(rest) <= b.Keys
    requires Counters(rest, d).Keys == KeysOf(rest) && t.key !in KeysOf(rest)
    requires t.key in b && FloorFive(b[t.key].at) == BucketStart(now) && b[t.key].up <= t.up && b[t.key].down <= t.down
    requires t.key in BaselinesAfter(b, rest, now) && BaselinesAfter(b, rest, now)[t.key] == b[t.key]
    requires Growth(Charges(b, rest, now, deleted), d) + SumOf(Levels(b, KeysOf(rest), d)) == SumOf(Counters(rest, d))
    ensures AllGrew(Charges(b, rest + [t], now, deleted)) && KeysOf(rest + [t]) == KeysOf(rest) + {t.key}
    ensures Growth(Charges(b, rest + [t], now, deleted), d) + SumOf(Levels(b, KeysOf(rest) + {t.key}, d)) ==
            SumOf(Counters(rest + [t], d))
  {
    var cs, change := Charges(b, rest, now, deleted), Classify(BaselinesAfter(b, rest, now), t, BucketStart(now));
    assert Grown(change, d) + Level(b[t.key], d) == Counter(t, d);
    ChargesAppend(b, rest, t, now, deleted);
    GrowthAppend(cs, Charge(Owner(t, deleted), change), d);
    LevelsGrow(b, KeysOf(rest), t.key, d);
    CountersGrow(rest, t, d);
  }

  // ----- runs of samples in consecutive slots

  /** `next` follows `c` in the next slot, with the same memberships and no counter lower. */
  predicate Follows(c: Call, next: Call) {
    && c.sample.Some? && next.sample.Some? && BucketStart(next.now) == BucketStart(c.now) + BUCKET_SECS
    && KeysOf(next.sample.value.totals) == KeysOf(c.sample.value.totals)
    && NoneLower(c.sample.value.totals, next.sample.value.totals)
  }

  predicate NoneLower(a: seq<Totals>, b: seq<Totals>) {
    forall i, j :: 0 <= i < |a| && 0 <= j < |b| && a[i].key == b[j].key ==> a[i].up <= b[j].up && a[i].down <= b[j].down
  }

  predicate Steady(calls: seq<Call>) {
    && (forall i :: 0 <= i < |calls| ==>
          calls[i].sample.Some? && calls[i].sample.value.complete && Distinct(calls[i].sample.value.totals))
    && (forall i :: 0 < i < |calls| ==> Follows(calls[i - 1], calls[i]))
  }

  ghost function Total(c: Call, d: Direction): nat
    requires c.sample.Some?
  {
    SumOf(Counters(c.sample.value.totals, d))
  }

  /** What a bucket holds, nothing when it has no value. */
  function Held(b: Bucket, d: Direction): nat {
    var v := if d.Up? then b.up else b.down;
    if v.Some? then v.value else 0
  }

  function HeldAfter(five: map<int, Bucket>, start: int, d: Direction): map<int, nat> {
    map t | t in five && t > start :: Held(five[t], d)
  }

  /** The baselines hold the counters of `totals`, as of `now`. */
  predicate Holds(b: map<Key, Baseline>, totals: seq<Totals>, now: int) {
    && KeysOf(totals) <= b.Keys && Counters(totals, Down).Keys == KeysOf(totals)
    && forall k :: k in KeysOf(totals) ==>
         b[k].up == Counters(totals, Up)[k] && b[k].down == Counters(totals, Down)[k] && b[k].at == now
  }

  /** After a sample, its counters are the baselines the next sample is compared with. */
  lemma SampleIsBaseline(h: History, c: Call)
    requires c.sample.Some?
    ensures Holds(Step(h, c).baselines, c.sample.value.totals, c.now)
  {
    BaselinesHoldCounters(h.baselines, c.sample.value.totals, c.now);
  }

  lemma LevelsAreCounters(b: map<Key, Baseline>, totals: seq<Totals>, now: int, d: Direction)
    requires Holds(b, totals, now)
    ensures Levels(b, KeysOf(totals), d) == Counters(totals, d)
  {
  }

  lemma {:induction false} CounterIs(totals: seq<Totals>, k: Key)
    requires k in KeysOf(totals)
    ensures k in Counters(totals, Down)
    ensures exists i :: 0 <= i < |totals| && totals[i].key == k
                        && totals[i].up == Counters(totals, Up)[k] && totals[i].down == Counters(totals, Down)[k]
    decreases |totals|
  {
    var rest, t := totals[..|totals| - 1], totals[|totals| - 1];
    if k != t.key {
      CounterIs(rest, k);
      var i :| 0 <= i < |rest| && rest[i].key == k
                && rest[i].up == Counters(rest, Up)[k] && rest[i].down == Counters(rest, Down)[k];
      assert totals[i] == rest[i];
    }
  }

  lemma FollowerContinues(h: History, c: Call, next: Call)
    requires Follows(c, next)
    ensures Continues(Step(h, c).baselines, next.sample.value.totals, next.now)
  {
    var b, before, after := Step(h, c).baselines, c.sample.value.totals, next.sample.value.totals;
    SampleIsBaseline(h, c);
    CounterKeys(after, Up);
    forall j | 0 <= j < |after|
      ensures && after[j].key in b && FloorFive(b[after[j].key].at) == BucketStart(next.now)
              && b[after[j].key].up <= after[j].up && b[after[j].key].down <= after[j].down
    {
      CounterIs(before, after[j].key);
    }
  }

  /** The bucket a follower fills holds exactly the growth since the sample before. */
  lemma FollowerHoldsGrowth(h: History, c: Call, next: Call, d: Direction)
    requires Follows(c, next) && next.sample.value.complete && Distinct(next.sample.value.totals)
    requires Total(next, d) - Total(c, d) <= U64_MAX
    ensures var m := NodeMeasure(Step(h, c).baselines, next.now, next.sample.value, next.deleted);
            Held(BucketOf(BucketStart(next.now), ReadingOf(m)), d) + Total(c, d) == Total(next, d)
  {
    var b, s := Step(h, c).baselines, next.sample.value;
    var cs := Charges(b, s.totals, next.now, next.deleted);
    FollowerContinues(h, c, next);
    GrowthIsDifference(b, s.totals, next.now, next.deleted, d);
    SampleIsBaseline(h, c);
    LevelsAreCounters(b, c.sample.value.totals, c.now, d);
    MeasuresGrowth(cs, Idle(s), s.complete);
    MeasuresCompleteness(cs, Idle(s), s.complete);
    if s.totals != [] {
      assert cs[0].change.Grew?;
    }
  }

  lemma HeldOneMore(five: map<int, Bucket>, start: int, t: int, b: Bucket, d: Direction)
    requires t !in five && t > start
    ensures SumOf(HeldAfter(five[t := b], start, d)) == SumOf(HeldAfter(five, start, d)) + Held(b, d)
  {
    var held := HeldAfter(five, start, d);
    assert HeldAfter(five[t := b], start, d) == held[t := Held(b, d)];
    SumWith(held, t, Held(b, d));
  }

  predicate AllBefore(five: map<int, Bucket>, bound: int) {
    forall t :: t in five ==> t < bound
  }

  lemma OneMoreCall(calls: seq<Call>, c: Call)
    ensures Run(calls + [c]) == Step(Run(calls), c)
    ensures c.sample.Some? ==>
              KeptAfter(calls + [c]) ==
              KeptStep(KeptAfter(calls), c.now, NodeMeasure(Run(calls).baselines, c.now, c.sample.value, c.deleted))
  {
    assert (calls + [c])[..|calls|] == calls;
  }

  /** The buckets filled after the slot of `first` add up to the growth from `first` to `last`. */
  ghost predicate Conserved(k: Kept, first: Call, last: Call, d: Direction)
    requires first.sample.Some? && last.sample.Some?
  {
    && AllBefore(k.node.five, BucketStart(last.now) + 1)
    && SumOf(HeldAfter(k.node.five, BucketStart(first.now), d)) + Total(first, d) == Total(last, d)
  }

  lemma StepConserves(k: Kept, m: Measured, prev: Call, c: Call, first: Call, d: Direction)
    requires first.sample.Some? && prev.sample.Some? && c.sample.Some?
    requires BucketStart(first.now) < BucketStart(c.now) && BucketStart(prev.now) < BucketStart(c.now)
    requires Conserved(k, first, prev, d)
    requires Held(BucketOf(BucketStart(c.now), ReadingOf(m)), d) + Total(prev, d) == Total(c, d)
    ensures Conserved(KeptStep(k, c.now, m), first, c, d)
  {
    HeldOneMore(k.node.five, BucketStart(first.now), BucketStart(c.now), BucketOf(BucketStart(c.now), ReadingOf(m)), d);
  }

  lemma FirstStepConserves(k: Kept, m: Measured, c: Call, d: Direction)
    requires c.sample.Some? && AllBefore(k.node.five, BucketStart(c.now))
    ensures Conserved(KeptStep(k, c.now, m), c, c, d)
  {
    assert HeldAfter(KeptStep(k, c.now, m).node.five, BucketStart(c.now), d) == map[];
  }

  lemma NextConserved(past: seq<Call>, prev: Call, c: Call, first: Call, d: Direction)
    requires Follows(prev, c) && c.sample.value.complete && Distinct(c.sample.value.totals)
    requires Total(c, d) - Total(prev, d) <= U64_MAX
    requires first.sample.Some? && BucketStart(first.now) < BucketStart(c.now)
    requires Conserved(KeptAfter(past + [prev]), first, prev, d)
    ensures Conserved(KeptAfter(past + [prev] + [c]), first, c, d)
  {
    OneMoreCall(past, prev);
    OneMoreCall(past + [prev], c);
    FollowerHoldsGrowth(Run(past), prev, c, d);
    var m := NodeMeasure(Run(past + [prev]).baselines, c.now, c.sample.value, c.deleted);
    StepConserves(KeptAfter(past + [prev]), m, prev, c, first, d);
  }

  lemma FirstConserved(past: seq<Call>, c: Call, d: Direction)
    requires c.sample.Some? && AllBefore(KeptAfter(past).node.five, BucketStart(c.now))
    ensures Conserved(KeptAfter(past + [c]), c, c, d)
  {
    OneMoreCall(past, c);
    FirstStepConserves(KeptAfter(past), NodeMeasure(Run(past).baselines, c.now, c.sample.value, c.deleted), c, d);
  }

  lemma {:induction false} SlotsIncrease(calls: seq<Call>, i: nat)
    requires Steady(calls) && 0 < i < |calls|
    ensures BucketStart(calls[0].now) < BucketStart(calls[i].now)
  {
    assert Follows(calls[i - 1], calls[i]);
    if i > 1 {
      SlotsIncrease(calls, i - 1);
    }
  }

  /**
   * Whatever came before, the node buckets that a run of samples in consecutive slots fills
   * after its first add up to what the counters grew by.
   */
  lemma {:induction false} BucketsConserveTraffic(before: seq<Call>, calls: seq<Call>, d: Direction)
    requires calls != [] && Steady(calls) && SlotsBefore(before, BucketStart(calls[0].now))
    requires forall i :: 0 < i < |calls| ==> Total(calls[i], d) - Total(calls[i - 1], d) <= U64_MAX
    ensures Conserved(KeptAfter(before + calls), calls[0], calls[|calls| - 1], d)
    decreases |calls|
  {
    if |calls| == 1 {
      KeptBefore(before, BucketStart(calls[0].now));
      FirstConserved(before, calls[0], d);
      assert calls == [calls[0]];
    } else {
      var rest, prev, c := calls[..|calls| - 2], calls[|calls| - 2], calls[|calls| - 1];
      Unfold(before, calls, rest, prev, c);
      PrefixIsSteady(calls, rest + [prev], d);
      BucketsConserveTraffic(before, rest + [prev], d);
      SlotsIncrease(calls, |calls| - 1);
      NextConserved(before + rest, prev, c, calls[0], d);
    }
  }

  lemma Unfold(before: seq<Call>, calls: seq<Call>, rest: seq<Call>, prev: Call, c: Call)
    requires |calls| >= 2
    requires rest == calls[..|calls| - 2] && prev == calls[|calls| - 2] && c == calls[|calls| - 1]
    ensures rest + [prev] == calls[..|calls| - 1] && (rest + [prev])[0] == calls[0]
    ensures before + (rest + [prev]) == before + rest + [prev]
    ensures before + calls == before + rest + [prev] + [c]
  {
  }

  lemma PrefixIsSteady(calls: seq<Call>, rest: seq<Call>, d: Direction)
    requires |calls| >= 2 && rest == calls[..|calls| - 1] && Steady(calls)
    requires forall i :: 0 < i < |calls| ==> Total(calls[i], d) - Total(calls[i - 1], d) <= U64_MAX
    ensures Steady(rest) && Follows(calls[|calls| - 2], calls[|calls| - 1])
    ensures forall i :: 0 < i < |rest| ==> Total(rest[i], d) - Total(rest[i - 1], d) <= U64_MAX
  {
    assert forall i :: 0 <= i < |rest| ==> rest[i] == calls[i];
  }
}
