/**
 * Reports of one user over several nodes, against those of records with nothing pruned
 * (src/node_history.rs).
 */
module TrafficMerged {
  import opened TrafficAggregate
  import opened TrafficAgreement
  import opened TrafficHistory
  import opened TrafficMarks
  import opened TrafficPrune
  import opened TrafficReport
  import opened TrafficRuns
  import opened TrafficSample
  import opened TrafficSeries
  import opened TrafficUnpruned
  import opened TrafficUserReports
  import opened TrafficUsers
  import opened Words

  // ----- when a pruned list hides a gap

  /** What pruning at `cut` leaves of a node's list. */
  ghost predicate IsCut(r: Source, cut: int, r': Source) {
    WellFormed(r) && WellFormed(r') && r'.active == r.active && ByAt(r'.buckets) == From(ByAt(r.buckets), cut)
  }

  /** A bucket at or before `at`. */
  predicate StartedBy(keys: set<int>, at: int) {
    exists t :: t in keys && t <= at
  }

  /** A bucket at or after `at`. */
  predicate Reaches(keys: set<int>, at: int) {
    exists t :: t in keys && t >= at
  }

  lemma EndsBound(bs: seq<Bucket>)
    requires Increasing(bs) && bs != []
    ensures bs[0].at in ByAt(bs) && bs[|bs| - 1].at in ByAt(bs)
    ensures forall t :: t in ByAt(bs) ==> bs[0].at <= t <= bs[|bs| - 1].at
  {
    ListsIffByAt(bs, ByAt(bs));
    forall t | t in ByAt(bs)
      ensures bs[0].at <= t <= bs[|bs| - 1].at
    {
      assert Present(bs, t);
      var i :| 0 <= i < |bs| && bs[i].at == t;
      assert i == 0 || bs[0].at < bs[i].at;
      assert i == |bs| - 1 || bs[i].at < bs[|bs| - 1].at;
    }
  }

  lemma ApplicableIff(r: Source, at: int, keys: set<int>)
    requires Increasing(r.buckets) && keys == ByAt(r.buckets).Keys
    ensures Applicable(r, at) <==> StartedBy(keys, at) && (r.active || Reaches(keys, at))
  {
    if r.buckets != [] {
      EndsBound(r.buckets);
      var first, last := r.buckets[0].at, r.buckets[|r.buckets| - 1].at;
      assert first in keys && last in keys;
    }
  }

  /** Only pruned buckets came before the slot, so the node no longer counts as started by then. */
  predicate LosesItsStart(r: Source, cut: int, at: int)
    requires Increasing(r.buckets)
  {
    StartIsCut(ByAt(r.buckets).Keys, r.active, cut, at)
  }

  predicate StartIsCut(keys: set<int>, active: bool, cut: int, at: int) {
    && (exists t :: t in keys && t < cut)
    && (forall t :: t in keys ==> !(cut <= t <= at))
    && (active || exists t :: t in keys && t > at)
  }

  lemma KeysChangeIff(keys: set<int>, keys': set<int>, active: bool, cut: int, at: int)
    requires cut <= at && at !in keys && forall t :: t in keys' <==> t in keys && t >= cut
    ensures StartedBy(keys', at) && (active || Reaches(keys', at)) <==>
            StartedBy(keys, at) && (active || Reaches(keys, at)) && !StartIsCut(keys, active, cut, at)
    ensures StartIsCut(keys, active, cut, at) ==> StartedBy(keys, at) && (active || Reaches(keys, at))
  {
    if t :| t in keys && cut <= t <= at {
      assert t in keys';
      assert StartedBy(keys', at) && StartedBy(keys, at) && !StartIsCut(keys, active, cut, at);
    } else {
      assert !StartedBy(keys', at);
      if t :| t in keys && t <= at {
        assert t < cut;
      }
    }
    ReachesAlike(keys, keys', cut, at);
  }

  lemma ReachesAlike(keys: set<int>, keys': set<int>, cut: int, at: int)
    requires cut <= at && at !in keys && forall t :: t in keys' <==> t in keys && t >= cut
    ensures Reaches(keys', at) <==> Reaches(keys, at)
    ensures Reaches(keys, at) <==> exists t :: t in keys && t > at
  {
    if t :| t in keys && t >= at {
      assert t in keys' && t > at;
    }
  }

  /** Pruning changes whether a node lacks a slot exactly when it takes all the node had before it. */
  lemma GapChangesIff(r: Source, cut: int, r': Source, at: int)
    requires IsCut(r, cut, r') && cut <= at
    ensures Has(r', at) == Has(r, at)
    ensures Lacks(r', at) <==> Lacks(r, at) && !LosesItsStart(r, cut, at)
    ensures LosesItsStart(r, cut, at) ==> Lacks(r, at)
  {
    var keys, keys' := ByAt(r.buckets).Keys, ByAt(r'.buckets).Keys;
    ApplicableIff(r, at, keys);
    ApplicableIff(r', at, keys');
    if at !in keys {
      KeysChangeIff(keys, keys', r.active, cut, at);
    } else {
      assert cut <= at <= at;
    }
  }

  /** Every node that lacks the slot loses its start to the prune, and nothing else is wrong with it. */
  predicate GapIsLost(rs: seq<Source>, cuts: seq<int>, at: int)
    requires AllWellFormed(rs) && |cuts| == |rs|
  {
    && AllComplete(Column(rs, at)) && SomeLacks(Column(rs, at))
    && forall i :: 0 <= i < |rs| && Lacks(rs[i], at) ==> LosesItsStart(rs[i], cuts[i], at)
  }

  ghost predicate AllCut(rs: seq<Source>, cuts: seq<int>, rs': seq<Source>) {
    |cuts| == |rs| == |rs'| && forall i :: 0 <= i < |rs| ==> IsCut(rs[i], cuts[i], rs'[i])
  }

  lemma {:induction false} ColumnAt(rs: seq<Source>, at: int)
    requires AllWellFormed(rs)
    ensures |Column(rs, at)| == |rs|
    ensures forall i :: 0 <= i < |rs| ==> Column(rs, at)[i] == CellOf(rs[i], at)
    decreases |rs|
  {
    if rs != [] {
      var rest := rs[..|rs| - 1];
      ColumnAt(rest, at);
      forall i | 0 <= i < |rs|
        ensures Column(rs, at)[i] == CellOf(rs[i], at)
      {
        assert i < |rest| ==> rest[i] == rs[i];
      }
    }
  }

  lemma {:induction false} CombinedByHas(a: seq<Cell>, b: seq<Cell>, d: Direction)
    requires |a| == |b| && forall i :: 0 <= i < |a| ==> a[i].has == b[i].has
    ensures Combined(a, d) == Combined(b, d)
    decreases |a|
  {
    if a != [] {
      CombinedByHas(a[..|a| - 1], b[..|b| - 1], d);
    }
  }

  lemma ColumnsHoldTheSame(rs: seq<Source>, cuts: seq<int>, rs': seq<Source>, at: int)
    requires AllCut(rs, cuts, rs') && forall i :: 0 <= i < |cuts| ==> cuts[i] <= at
    ensures AllWellFormed(rs) && AllWellFormed(rs')
    ensures |Column(rs', at)| == |Column(rs, at)| == |rs|
    ensures forall i :: 0 <= i < |rs| ==>
              && Column(rs', at)[i].has == Column(rs, at)[i].has
              && Column(rs, at)[i].lacks == Lacks(rs[i], at)
              && Column(rs', at)[i].lacks == (Lacks(rs[i], at) && !LosesItsStart(rs[i], cuts[i], at))
  {
    forall i | 0 <= i < |rs|
      ensures IsCut(rs[i], cuts[i], rs'[i])
    {
    }
    ColumnAt(rs, at);
    ColumnAt(rs', at);
    forall i | 0 <= i < |rs|
      ensures Has(rs'[i], at) == Has(rs[i], at)
      ensures Lacks(rs'[i], at) <==> Lacks(rs[i], at) && !LosesItsStart(rs[i], cuts[i], at)
    {
      GapChangesIff(rs[i], cuts[i], rs'[i], at);
    }
  }

  lemma ExactIsUnique(cs: seq<Cell>, at: int, a: Bucket, b: Bucket)
    requires Exact(cs, at, a) && Exact(cs, at, b)
    ensures a == b
  {
  }

  /** Two columns that hold the same aggregate differently exactly when only one of them has a gap. */
  lemma VerdictsDifferIff(cs: seq<Cell>, cs': seq<Cell>, at: int, a: Bucket, b: Bucket)
    requires |cs| == |cs'| && forall i :: 0 <= i < |cs| ==> cs[i].has == cs'[i].has
    requires Exact(cs, at, a) && Exact(cs', at, b)
    ensures AllComplete(cs) == AllComplete(cs')
    ensures a != b <==> AllComplete(cs) && SomeLacks(cs) != SomeLacks(cs')
  {
    CombinedByHas(cs, cs', Up);
    CombinedByHas(cs, cs', Down);
  }

  /**
   * Aggregating pruned lists instead of whole ones, each cut at its own node's time: the same
   * slots are there, and a slot past all the cuts shows something else exactly when every node
   * that lacks it loses its start to the prune.
   */
  lemma MergedSlotChangesIff(rs: seq<Source>, cuts: seq<int>, rs': seq<Source>, at: int,
                             m: map<int, Bucket>, m': map<int, Bucket>)
    requires AllCut(rs, cuts, rs') && forall i :: 0 <= i < |cuts| ==> cuts[i] <= at
    requires AllWellFormed(rs) && AllWellFormed(rs') && Aggregates(rs, m) && Aggregates(rs', m')
    ensures at in m <==> at in m'
    ensures at in m ==> (m[at] != m'[at] <==> GapIsLost(rs, cuts, at))
  {
    var cs, cs' := Column(rs, at), Column(rs', at);
    ColumnsHoldTheSame(rs, cuts, rs', at);
    SameHolders(cs, cs');
    if at in m {
      VerdictsDifferIff(cs, cs', at, m[at], m'[at]);
      GapsDifferIff(rs, cuts, at, cs, cs');
    }
  }

  lemma SameHolders(cs: seq<Cell>, cs': seq<Cell>)
    requires |cs| == |cs'| && forall i :: 0 <= i < |cs| ==> cs[i].has == cs'[i].has
    ensures SomeHas(cs) <==> SomeHas(cs')
  {
  }

  lemma GapsDifferIff(rs: seq<Source>, cuts: seq<int>, at: int, cs: seq<Cell>, cs': seq<Cell>)
    requires AllWellFormed(rs) && |cuts| == |rs| == |cs| == |cs'| && cs == Column(rs, at)
    requires forall i :: 0 <= i < |rs| ==>
               && cs[i].lacks == Lacks(rs[i], at)
               && cs'[i].lacks == (Lacks(rs[i], at) && !LosesItsStart(rs[i], cuts[i], at))
    ensures AllComplete(cs) && SomeLacks(cs) != SomeLacks(cs') <==> GapIsLost(rs, cuts, at)
  {
    if SomeLacks(cs') {
      var i :| 0 <= i < |cs'| && cs'[i].lacks;
      assert cs[i].lacks;
    }
  }

  /**
   * It can show: an active node whose only bucket is older than the cut lacks the slot that
   * another node has, until pruning makes it look as if it had not started.
   */
  lemma MergedPruningMayShow(early: int, cut: int, b: Bucket, m: map<int, Bucket>, m': map<int, Bucket>)
    requires early < cut <= b.at && Whole(b) && b.complete
    requires var other := Source([b], true);
             && AllWellFormed([Source([Incomplete(early)], true), other]) && AllWellFormed([Source([], true), other])
             && Aggregates([Source([Incomplete(early)], true), other], m) && Aggregates([Source([], true), other], m')
    ensures b.at in m && !m[b.at].complete && b.at in m' && m'[b.at].complete
  {
    var started, none, other := Source([Incomplete(early)], true), Source([], true), Source([b], true);
    assert ByAt(other.buckets)[b.at] == b;
    assert Lacks(started, b.at) && !Lacks(none, b.at) && Has(none, b.at).None?;
    PairColumn(started, other, b.at);
    PairColumn(none, other, b.at);
    var cs, cs' := Column([started, other], b.at), Column([none, other], b.at);
    assert cs[0].lacks && cs[1].has.Some? && cs'[1].has.Some?;
    assert SomeHas(cs) && SomeHas(cs') && SomeLacks(cs);
    assert !SomeLacks(cs') && AllComplete(cs');
  }

  lemma PairColumn(a: Source, b: Source, at: int)
    requires WellFormed(a) && WellFormed(b)
    ensures AllWellFormed([a, b]) && Column([a, b], at) == [CellOf(a, at), CellOf(b, at)]
  {
    SingleColumn(a, at);
    ColumnAppend([a], b, at);
    assert [a] + [b] == [a, b];
  }

  // ----- what that changes in a report

  /** `m` and `m'` aggregate the whole lists and the pruned ones, all cut at or before `from`. */
  ghost predicate PrunedAggregate(rs: seq<Source>, cuts: seq<int>, rs': seq<Source>,
                                  m: map<int, Bucket>, m': map<int, Bucket>, from: int)
  {
    && AllCut(rs, cuts, rs') && (forall i :: 0 <= i < |cuts| ==> cuts[i] <= from)
    && AllWellFormed(rs) && AllWellFormed(rs') && Aggregates(rs, m) && Aggregates(rs', m')
  }

  /** The slots or days whose gap is lost. */
  function Lost(rs: seq<Source>, cuts: seq<int>, m: map<int, Bucket>): set<int>
    requires AllWellFormed(rs) && |cuts| == |rs|
  {
    set at | at in m && GapIsLost(rs, cuts, at)
  }

  /** Where a gap is lost the whole lists show an incomplete bucket, elsewhere the same as the pruned ones. */
  lemma LostIsMarked(rs: seq<Source>, cuts: seq<int>, rs': seq<Source>, m: map<int, Bucket>,
                     m': map<int, Bucket>, from: int, at: int)
    requires PrunedAggregate(rs, cuts, rs', m, m', from) && from <= at
    ensures Lookup(m, at) == Lookup(Marked(m', Lost(rs, cuts, m)), at)
    ensures at in Lost(rs, cuts, m) ==> at in Erased(m', Lost(rs, cuts, m))
  {
    MergedSlotChangesIff(rs, cuts, rs', at, m, m');
    if at in Lost(rs, cuts, m) {
      assert Exact(Column(rs, at), at, m[at]) && Exact(Column(rs', at), at, m'[at]);
    }
  }

  lemma WholeIsMarked(rs: seq<Source>, cuts: seq<int>, rs': seq<Source>, m: map<int, Bucket>,
                      m': map<int, Bucket>, from: int)
    requires PrunedAggregate(rs, cuts, rs', m, m', from)
    ensures From(m, from) == From(Marked(m', Lost(rs, cuts, m)), from)
  {
    forall at | at >= from
      ensures Lookup(m, at) == Lookup(Marked(m', Lost(rs, cuts, m)), at)
    {
      LostIsMarked(rs, cuts, rs', m, m', from, at);
    }
    SameFrom(m, Marked(m', Lost(rs, cuts, m)), from);
  }

  lemma SameFrom(m: map<int, Bucket>, m': map<int, Bucket>, from: int)
    requires forall at :: at >= from ==> Lookup(m, at) == Lookup(m', at)
    ensures From(m, from) == From(m', from)
  {
    forall at | at >= from
      ensures at in m <==> at in m'
      ensures at in m ==> m[at] == m'[at]
    {
      assert Lookup(m, at) == Lookup(m', at);
    }
  }

  /**
   * A user's report over several nodes, each pruned at its own time, is the one that their whole
   * lists give if and only if none of the lost gaps shows in it.
   */
  lemma MergedReportChangesIff(fives: seq<Source>, fiveCuts: seq<int>, fives': seq<Source>,
                               dailies: seq<Source>, dailyCuts: seq<int>, dailies': seq<Source>,
                               whole: Series, pruned: Series, lastSample: Option<int>, window: Window, now: int)
    requires PrunedAggregate(fives, fiveCuts, fives', whole.five, pruned.five, FiveCutoff(now))
    requires PrunedAggregate(dailies, dailyCuts, dailies', whole.daily, pruned.daily, DailyCutoff(now))
    ensures BuildReport(pruned, lastSample, window, now) == BuildReport(whole, lastSample, window, now) <==>
            ReportHides(pruned, Lost(fives, fiveCuts, whole.five), Lost(dailies, dailyCuts, whole.daily), window,
                        FloorFive(now), IsStale(lastSample, now))
  {
    var slots, days := Lost(fives, fiveCuts, whole.five), Lost(dailies, dailyCuts, whole.daily);
    WholeIsMarked(fives, fiveCuts, fives', whole.five, pruned.five, FiveCutoff(now));
    WholeIsMarked(dailies, dailyCuts, dailies', whole.daily, pruned.daily, DailyCutoff(now));
    MarkedReportIff(whole, pruned, slots, days, lastSample, window, now);
  }

  /** A report needs no more of a record than a prune at its own time leaves. */
  lemma MarkedReportIff(whole: Series, pruned: Series, slots: set<int>, days: set<int>, lastSample: Option<int>,
                        window: Window, now: int)
    requires Restrict(whole, now) == Restrict(WithMarks(pruned, slots, days), now)
    ensures BuildReport(pruned, lastSample, window, now) == BuildReport(whole, lastSample, window, now) <==>
            ReportHides(pruned, slots, days, window, FloorFive(now), IsStale(lastSample, now))
  {
    RestrictionNeverShows(whole, now, lastSample, window, now);
    RestrictionNeverShows(WithMarks(pruned, slots, days), now, lastSample, window, now);
    MarksShowIff(pruned, slots, days, lastSample, window, now);
  }

  lemma LostAreErased(rs: seq<Source>, cuts: seq<int>, rs': seq<Source>, m: map<int, Bucket>,
                      m': map<int, Bucket>, from: int)
    requires PrunedAggregate(rs, cuts, rs', m, m', from)
    ensures forall at :: at in Lost(rs, cuts, m) && from <= at ==> at in Erased(m', Lost(rs, cuts, m))
  {
    forall at | at in Lost(rs, cuts, m) && from <= at
      ensures at in Erased(m', Lost(rs, cuts, m))
    {
      LostIsMarked(rs, cuts, rs', m, m', from, at);
    }
  }

  lemma AvoidAlike(slots: set<int>, slots': set<int>, days: set<int>, days': set<int>, window: Window, now: int,
                   stale: bool)
    requires slots' <= slots && forall at :: at in slots && FiveCutoff(now) <= at ==> at in slots'
    requires days' <= days && forall day :: day in days && DailyCutoff(now) <= day ==> day in days'
    ensures PointsAvoid(slots, days, window, FloorFive(now), stale) <==>
            PointsAvoid(slots', days', window, FloorFive(now), stale)
  {
    ReportsReadPastCutoffs(now, now);
  }

  /** Its points are, if and only if none of the slots or days they show loses its gap. */
  lemma MergedPointsChangeIff(fives: seq<Source>, fiveCuts: seq<int>, fives': seq<Source>,
                              dailies: seq<Source>, dailyCuts: seq<int>, dailies': seq<Source>,
                              whole: Series, pruned: Series, lastSample: Option<int>, window: Window, now: int)
    requires PrunedAggregate(fives, fiveCuts, fives', whole.five, pruned.five, FiveCutoff(now))
    requires PrunedAggregate(dailies, dailyCuts, dailies', whole.daily, pruned.daily, DailyCutoff(now))
    ensures SameReportPoints(BuildReport(pruned, lastSample, window, now),
                             BuildReport(whole, lastSample, window, now)) <==>
            PointsAvoid(Lost(fives, fiveCuts, whole.five), Lost(dailies, dailyCuts, whole.daily), window,
                        FloorFive(now), IsStale(lastSample, now))
  {
    var slots, days := Lost(fives, fiveCuts, whole.five), Lost(dailies, dailyCuts, whole.daily);
    WholeIsMarked(fives, fiveCuts, fives', whole.five, pruned.five, FiveCutoff(now));
    WholeIsMarked(dailies, dailyCuts, dailies', whole.daily, pruned.daily, DailyCutoff(now));
    MarkedPointsIff(whole, pruned, slots, days, lastSample, window, now);
    LostAreErased(fives, fiveCuts, fives', whole.five, pruned.five, FiveCutoff(now));
    LostAreErased(dailies, dailyCuts, dailies', whole.daily, pruned.daily, DailyCutoff(now));
    AvoidAlike(slots, Erased(pruned.five, slots), days, Erased(pruned.daily, days), window, now,
               IsStale(lastSample, now));
  }

  lemma MarkedPointsIff(whole: Series, pruned: Series, slots: set<int>, days: set<int>, lastSample: Option<int>,
                        window: Window, now: int)
    requires Restrict(whole, now) == Restrict(WithMarks(pruned, slots, days), now)
    ensures SameReportPoints(BuildReport(pruned, lastSample, window, now),
                             BuildReport(whole, lastSample, window, now)) <==>
            PointsAvoid(Erased(pruned.five, slots), Erased(pruned.daily, days), window, FloorFive(now),
                        IsStale(lastSample, now))
  {
    RestrictionNeverShows(whole, now, lastSample, window, now);
    RestrictionNeverShows(WithMarks(pruned, slots, days), now, lastSample, window, now);
    MarksShowInPointsIff(pruned, slots, days, lastSample, window, now);
  }

  // ----- records of whole runs, against never-pruned ones

  /**
   * `r'` is what pruning leaves of `r`: no other times, and past the cut the same buckets, except
   * that those which `r` holds incomplete may be complete or absent.
   */
  ghost predicate Remnant(r: Source, r': Source, cut: int) {
    && WellFormed(r) && WellFormed(r') && r'.active == r.active
    && ByAt(r'.buckets).Keys <= ByAt(r.buckets).Keys
    && forall t :: t >= cut && t in ByAt(r.buckets) ==> Survives(r, r', t)
  }

  predicate Survives(r: Source, r': Source, t: int)
    requires WellFormed(r) && WellFormed(r') && t in ByAt(r.buckets)
  {
    !ByAt(r.buckets)[t].complete || Lookup(ByAt(r'.buckets), t) == Some(ByAt(r.buckets)[t])
  }

  /** The node holds the slot incomplete, or lacks it. */
  predicate Spoils(r: Source, at: int)
    requires WellFormed(r)
  {
    Lacks(r, at) || (Has(r, at).Some? && !Has(r, at).value.complete)
  }

  lemma RemnantCell(r: Source, r': Source, cut: int, at: int)
    requires Remnant(r, r', cut) && cut <= at
    ensures Has(r', at).Some? ==> Has(r, at).Some?
    ensures !Spoils(r, at) ==> CellOf(r', at) == CellOf(r, at)
  {
    var keys, keys' := ByAt(r.buckets).Keys, ByAt(r'.buckets).Keys;
    ApplicableIff(r, at, keys);
    ApplicableIff(r', at, keys');
    if StartedBy(keys', at) {
      var t :| t in keys' && t <= at;
      assert t in keys;
    }
    if Reaches(keys', at) {
      var t :| t in keys' && t >= at;
      assert t in keys;
    }
    if at in keys {
      assert Survives(r, r', at);
    }
  }

  ghost predicate AllRemnants(rs: seq<Source>, rs': seq<Source>, cuts: seq<int>, from: int) {
    && |rs| == |rs'| == |cuts|
    && forall i :: 0 <= i < |rs| ==> Remnant(rs[i], rs'[i], cuts[i]) && cuts[i] <= from
  }

  predicate SomeSpoils(rs: seq<Source>, at: int)
    requires AllWellFormed(rs)
  {
    exists i :: 0 <= i < |rs| && Spoils(rs[i], at)
  }

  lemma SpoiledColumn(rs: seq<Source>, at: int)
    requires AllWellFormed(rs)
    ensures AllComplete(Column(rs, at)) && !SomeLacks(Column(rs, at)) <==> !SomeSpoils(rs, at)
  {
    ColumnAt(rs, at);
    var cs := Column(rs, at);
    forall i | 0 <= i < |rs|
      ensures Spoils(rs[i], at) <==> cs[i].lacks || (cs[i].has.Some? && !cs[i].has.value.complete)
    {
    }
    if SomeSpoils(rs, at) {
      var i :| 0 <= i < |rs| && Spoils(rs[i], at);
      assert cs[i].lacks || !cs[i].has.value.complete;
    }
  }

  /**
   * What the never-pruned lists give for a slot: incomplete when some node spoils it, otherwise
   * the same as the pruned ones.
   */
  lemma RemnantSlot(rs: seq<Source>, rs': seq<Source>, cuts: seq<int>, at: int, m: map<int, Bucket>,
                    m': map<int, Bucket>)
    requires AllRemnants(rs, rs', cuts, at)
    requires AllWellFormed(rs) && AllWellFormed(rs') && Aggregates(rs, m) && Aggregates(rs', m')
    ensures at in m' ==> at in m
    ensures at in m ==> if SomeSpoils(rs, at) then m[at] == Incomplete(at) else at in m' && m[at] == m'[at]
  {
    ColumnAt(rs, at);
    ColumnAt(rs', at);
    var cs, cs' := Column(rs, at), Column(rs', at);
    forall i | 0 <= i < |rs|
      ensures cs'[i].has.Some? ==> cs[i].has.Some?
      ensures !Spoils(rs[i], at) ==> cs'[i] == cs[i]
    {
      RemnantCell(rs[i], rs'[i], cuts[i], at);
    }
    if SomeHas(cs') {
      var i :| 0 <= i < |cs'| && cs'[i].has.Some?;
      assert cs[i].has.Some?;
    }
    SpoiledColumn(rs, at);
    if !SomeSpoils(rs, at) {
      assert cs == cs';
      if at in m {
        ExactIsUnique(cs, at, m[at], m'[at]);
      }
    }
  }

  function Spoiled(rs: seq<Source>, m: map<int, Bucket>): set<int>
    requires AllWellFormed(rs)
  {
    set at | at in m && SomeSpoils(rs, at)
  }

  lemma WholeIsSpoiled(rs: seq<Source>, rs': seq<Source>, cuts: seq<int>, m: map<int, Bucket>,
                       m': map<int, Bucket>, from: int)
    requires AllRemnants(rs, rs', cuts, from)
    requires AllWellFormed(rs) && AllWellFormed(rs') && Aggregates(rs, m) && Aggregates(rs', m')
    ensures From(m, from) == From(Marked(m', Spoiled(rs, m)), from)
  {
    forall at | at >= from
      ensures Lookup(m, at) == Lookup(Marked(m', Spoiled(rs, m)), at)
    {
      RemnantSlot(rs, rs', cuts, at, m, m');
    }
    SameFrom(m, Marked(m', Spoiled(rs, m)), from);
  }

  /** A node's two lists of a user. */
  datatype Lists = Lists(five: Source, daily: Source)

  function FivesOf(ls: seq<Lists>): seq<Source> {
    seq(|ls|, i requires 0 <= i < |ls| => ls[i].five)
  }

  function DailiesOf(ls: seq<Lists>): seq<Source> {
    seq(|ls|, i requires 0 <= i < |ls| => ls[i].daily)
  }

  /** The lists hold a user's series; without a record they are empty and inactive. */
  ghost predicate ListsOf(users: map<User, UserSeries>, u: User, l: Lists) {
    && WellFormed(l.five) && WellFormed(l.daily)
    && Series(ByAt(l.five.buckets), ByAt(l.daily.buckets)) == SeriesFor(users, u)
    && l.five.active == l.daily.active == Active(users, u)
  }

  lemma {:induction false} RunLeavesRemnants(calls: seq<Call>, u: User, all: Lists, left: Lists)
    requires Monotone(calls) && calls != []
    requires ListsOf(Unpruned(calls).users, u, all) && ListsOf(Run(calls).users, u, left)
    ensures Remnant(all.five, left.five, FiveCutoff(LastTime(calls)))
    ensures Remnant(all.daily, left.daily, DailyCutoff(LastTime(calls)))
  {
    var k, past := UserKept(calls, u), LastTime(calls);
    UserPruningOnlyRestricts(calls, u);
    UnprunedUserIsMarked(calls, u);
    MarkNone(k.five);
    RestLeavesRemnant(all.five, left.five, k.five, {}, FiveCutoff(past));
    RestLeavesRemnant(all.daily, left.daily, k.daily, LostDays(calls, Some(u)), DailyCutoff(past));
  }

  lemma RestLeavesRemnant(r: Source, r': Source, kept: map<int, Bucket>, lost: set<int>, cut: int)
    requires WellFormed(r) && WellFormed(r') && r'.active == r.active
    requires ByAt(r.buckets) == Marked(kept, lost) && ByAt(r'.buckets) == From(kept, cut)
    ensures Remnant(r, r', cut)
  {
  }

  /** Every node's lists of the user after its run, and those of its run with nothing ever pruned. */
  ghost predicate NodesRan(runs: seq<seq<Call>>, u: User, all: seq<Lists>, left: seq<Lists>, now: int) {
    && |runs| == |all| == |left|
    && forall i :: 0 <= i < |runs| ==> NodeRan(runs[i], u, all[i], left[i], now)
  }

  ghost predicate NodeRan(calls: seq<Call>, u: User, all: Lists, left: Lists, now: int) {
    && Monotone(calls) && calls != [] && LastTime(calls) <= now
    && ListsOf(Unpruned(calls).users, u, all) && ListsOf(Run(calls).users, u, left)
  }

  lemma {:induction false} NodesLeaveRemnants(runs: seq<seq<Call>>, u: User, all: seq<Lists>, left: seq<Lists>,
                                              now: int)
    returns (fiveCuts: seq<int>, dailyCuts: seq<int>)
    requires NodesRan(runs, u, all, left, now)
    ensures AllRemnants(FivesOf(all), FivesOf(left), fiveCuts, FiveCutoff(now))
    ensures AllRemnants(DailiesOf(all), DailiesOf(left), dailyCuts, DailyCutoff(now))
    ensures AllWellFormed(FivesOf(all)) && AllWellFormed(FivesOf(left))
    ensures AllWellFormed(DailiesOf(all)) && AllWellFormed(DailiesOf(left))
  {
    fiveCuts := seq(|runs|, i requires 0 <= i < |runs| => FiveCutoff(PrunedAt(runs[i])));
    dailyCuts := seq(|runs|, i requires 0 <= i < |runs| => DailyCutoff(PrunedAt(runs[i])));
    forall i | 0 <= i < |runs|
      ensures Remnant(all[i].five, left[i].five, fiveCuts[i]) && fiveCuts[i] <= FiveCutoff(now)
      ensures Remnant(all[i].daily, left[i].daily, dailyCuts[i]) && dailyCuts[i] <= DailyCutoff(now)
    {
      assert NodeRan(runs[i], u, all[i], left[i], now);
      RunLeavesRemnants(runs[i], u, all[i], left[i]);
      SlotsAndDaysGrow(LastTime(runs[i]), now);
    }
  }

  function PrunedAt(calls: seq<Call>): int {
    if calls == [] then 0 else LastTime(calls)
  }

  /** `s` is the aggregate of the lists. */
  ghost predicate Aggregated(ls: seq<Lists>, s: Series) {
    && AllWellFormed(FivesOf(ls)) && AllWellFormed(DailiesOf(ls))
    && Aggregates(FivesOf(ls), s.five) && Aggregates(DailiesOf(ls), s.daily)
  }

  /**
   * After every run of every node, a user's report over all of them is the one that records with
   * nothing ever pruned give if and only if it shows nothing of the slots and days that those
   * records spoil: held incomplete by a node, or lacking on it.
   */
  lemma {:induction false} MergedPruningShowsIff(runs: seq<seq<Call>>, u: User, all: seq<Lists>, left: seq<Lists>,
                                                 whole: Series, pruned: Series, lastSample: Option<int>,
                                                 window: Window, now: int)
    requires NodesRan(runs, u, all, left, now) && Aggregated(all, whole) && Aggregated(left, pruned)
    ensures BuildReport(pruned, lastSample, window, now) == BuildReport(whole, lastSample, window, now) <==>
            ReportHides(pruned, Spoiled(FivesOf(all), whole.five), Spoiled(DailiesOf(all), whole.daily), window,
                        FloorFive(now), IsStale(lastSample, now))
  {
    var fiveCuts, dailyCuts := NodesLeaveRemnants(runs, u, all, left, now);
    WholeIsSpoiled(FivesOf(all), FivesOf(left), fiveCuts, whole.five, pruned.five, FiveCutoff(now));
    WholeIsSpoiled(DailiesOf(all), DailiesOf(left), dailyCuts, whole.daily, pruned.daily, DailyCutoff(now));
    MarkedReportIff(whole, pruned, Spoiled(FivesOf(all), whole.five), Spoiled(DailiesOf(all), whole.daily),
                    lastSample, window, now);
  }

  /** Its points are, if and only if none of the slots or days they show is spoiled there and complete here. */
  lemma {:induction false} MergedPruningShowsInPointsIff(runs: seq<seq<Call>>, u: User, all: seq<Lists>,
                                                         left: seq<Lists>, whole: Series, pruned: Series,
                                                         lastSample: Option<int>, window: Window, now: int)
    requires NodesRan(runs, u, all, left, now) && Aggregated(all, whole) && Aggregated(left, pruned)
    ensures SameReportPoints(BuildReport(pruned, lastSample, window, now),
                             BuildReport(whole, lastSample, window, now)) <==>
            PointsAvoid(Erased(pruned.five, Spoiled(FivesOf(all), whole.five)),
                        Erased(pruned.daily, Spoiled(DailiesOf(all), whole.daily)), window, FloorFive(now),
                        IsStale(lastSample, now))
  {
    var fiveCuts, dailyCuts := NodesLeaveRemnants(runs, u, all, left, now);
    WholeIsSpoiled(FivesOf(all), FivesOf(left), fiveCuts, whole.five, pruned.five, FiveCutoff(now));
    WholeIsSpoiled(DailiesOf(all), DailiesOf(left), dailyCuts, whole.daily, pruned.daily, DailyCutoff(now));
    MarkedPointsIff(whole, pruned, Spoiled(FivesOf(all), whole.five), Spoiled(DailiesOf(all), whole.daily),
                    lastSample, window, now);
  }

  // ----- the sample time of a dropped record

  /** When the user last got a bucket: `last_sample_at` of its record. */
  function SampledAt(calls: seq<Call>, u: User): Option<int> {
    if calls == [] then None
    else
      var rest, c := calls[..|calls| - 1], calls[|calls| - 1];
      if c.sample.Some? && GetsBucket(Run(rest), c.now, c.sample.value, c.deleted, u) then Some(c.now)
      else SampledAt(rest, u)
  }

  predicate GetsBucket(h: History, now: int, s: Sample, deleted: set<User>, u: User) {
    || u in Touched(Charges(h.baselines, s.totals, now, deleted), s.unavailable, deleted)
    || (u in s.cycles && u !in deleted && Active(h.users, u))
  }

  lemma UserBucketsStay(k: Series, h: History, now: int, s: Sample, deleted: set<User>, u: User)
    ensures k.five.Keys <= UserStep(k, h, now, s, deleted, u).five.Keys
    ensures GetsBucket(h, now, s, deleted, u) ==> BucketStart(now) in UserStep(k, h, now, s, deleted, u).five
  {
  }

  lemma {:induction false} SampleIsHeld(calls: seq<Call>, u: User)
    ensures SampledAt(calls, u).Some? ==> BucketStart(SampledAt(calls, u).value) in UserKept(calls, u).five
    decreases |calls|
  {
    if calls != [] {
      var rest, c := calls[..|calls| - 1], calls[|calls| - 1];
      SampleIsHeld(rest, u);
      if c.sample.Some? {
        UserBucketsStay(UserKept(rest, u), Run(rest), c.now, c.sample.value, c.deleted, u);
      }
    }
  }

  /** A record is dropped long after its last sample, so that sample never keeps a report from being stale. */
  lemma DroppedWasStale(calls: seq<Call>, u: User, now: int)
    requires Monotone(calls) && calls != [] && LastTime(calls) <= now && u !in Run(calls).users
    ensures IsStale(SampledAt(calls, u), now)
  {
    UserPruningOnlyRestricts(calls, u);
    SampleIsHeld(calls, u);
    if SampledAt(calls, u).Some? {
      var start := BucketStart(SampledAt(calls, u).value);
      assert start !in From(UserKept(calls, u).five, FiveCutoff(LastTime(calls)));
      SlotsAndDaysGrow(LastTime(calls), now);
    }
  }

  // ----- a dropped record

  /** A record dropped because it is inactive and empty takes no part in an aggregate. */
  lemma DroppedRecordIsNeutral(rs: seq<Source>, m: map<int, Bucket>)
    requires AllWellFormed(rs)
    ensures AllWellFormed(rs + [Source([], false)])
    ensures Aggregates(rs + [Source([], false)], m) <==> Aggregates(rs, m)
  {
    var gone := Source([], false);
    forall at
      ensures AllWellFormed(rs + [gone])
      ensures SomeHas(Column(rs + [gone], at)) <==> SomeHas(Column(rs, at))
      ensures at in m ==> (Exact(Column(rs + [gone], at), at, m[at]) <==> Exact(Column(rs, at), at, m[at]))
    {
      ColumnAppend(rs, gone, at);
      EmptyCellIsNeutral(Column(rs, at), Column(rs + [gone], at));
    }
  }

  lemma EmptyCellIsNeutral(cs: seq<Cell>, more: seq<Cell>)
    requires more == cs + [Cell(None, false)]
    ensures SomeHas(more) <==> SomeHas(cs)
    ensures SomeLacks(more) <==> SomeLacks(cs)
    ensures AllComplete(more) <==> AllComplete(cs)
    ensures Combined(more, Up) == Combined(cs, Up) && Combined(more, Down) == Combined(cs, Down)
  {
    SplitLast(more, cs, Cell(None, false));
    assert more[..|cs|] == cs;
  }

  /** The latest sample time changes only if the dropped record had it, and staleness never. */
  lemma DroppedTimeIsStale(us: seq<UserRecord>, gone: UserRecord, last: Option<int>, last': Option<int>, now: int)
    requires IsLatest(us, last) && IsLatest(us + [gone], last') && IsStale(gone.lastSample, now)
    ensures IsStale(last, now) == IsStale(last', now)
    ensures last' != last ==> last'.Some? && last' == gone.lastSample && (last.Some? ==> last.value < last'.value)
  {
    var more := us + [gone];
    assert more[|us|] == gone && forall i :: 0 <= i < |us| ==> more[i] == us[i];
    if last'.Some? {
      var i :| 0 <= i < |more| && more[i].lastSample == last';
      if i < |us| {
        assert us[i].lastSample == last';
      }
    }
    if last.Some? {
      var i :| 0 <= i < |us| && us[i].lastSample == last;
      assert more[i].lastSample == last;
    }
  }

  /** So dropping an inactive, empty record changes no report, but it may change the sample time shown with it. */
  lemma DroppedRecordNeverShows(us: seq<UserRecord>, sampled: Option<int>, merged: Rollup, last: Option<int>,
                                merged': Rollup, last': Option<int>, window: Window, now: int)
    requires IsStale(sampled, now) && Merges(us, merged, last)
    requires Merges(us + [UserRecord(Rollup([], []), false, sampled)], merged', last')
    ensures BuildReport(SeriesOf(merged), last, window, now) == BuildReport(SeriesOf(merged'), last', window, now)
  {
    var gone := UserRecord(Rollup([], []), false, sampled);
    DroppedTimeIsStale(us, gone, last, last', now);
    assert Fives(us + [gone]) == Fives(us) + [Source([], false)];
    assert Dailies(us + [gone]) == Dailies(us) + [Source([], false)];
    DroppedRecordIsNeutral(Fives(us), ByAt(merged'.five));
    DroppedRecordIsNeutral(Dailies(us), ByAt(merged'.daily));
    AggregateIsUnique(Fives(us), ByAt(merged.five), ByAt(merged'.five));
    AggregateIsUnique(Dailies(us), ByAt(merged.daily), ByAt(merged'.daily));
  }

  lemma AggregateIsUnique(rs: seq<Source>, m: map<int, Bucket>, m': map<int, Bucket>)
    requires AllWellFormed(rs) && Aggregates(rs, m) && Aggregates(rs, m')
    ensures m == m'
  {
    forall at | at in m
      ensures at in m' && m[at] == m'[at]
    {
      ExactIsUnique(Column(rs, at), at, m[at], m'[at]);
    }
    forall at | at in m'
      ensures at in m
    {
      assert SomeHas(Column(rs, at));
    }
  }
}
