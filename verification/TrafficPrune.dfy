/** Retention of buckets: the time cut-off and the caps (src/node_history.rs). */
module TrafficPrune {
  import opened Collections
  import opened TrafficSample
  import opened TrafficSeries

  const WINDOW_SECS := 49 * 60 * 60
  const MAX_FIVE := 588
  const MAX_DAILY := 90

  /** The least start of a five-minute bucket that ends after the cut-off. */
  function FiveCutoff(now: int): int {
    now - WINDOW_SECS - BUCKET_SECS + 1
  }

  function DailyCutoff(now: int): int {
    DayOf(now) - 89
  }

  function From(m: map<int, Bucket>, least: int): map<int, Bucket> {
    map k | k in m && k >= least :: m[k]
  }

  function Above(keys: set<int>, k: int): set<int> {
    set j | j in keys && j > k
  }

  /** The newest `cap` entries. */
  function Newest(m: map<int, Bucket>, cap: nat): map<int, Bucket> {
    map k | k in m && |Above(m.Keys, k)| < cap :: m[k]
  }

  // ----- the loops

  /** Cutting a sorted list short from the front is a cut-off in time. */
  lemma SuffixIsFrom(bs: seq<Bucket>, c: nat, least: int, r: seq<Bucket>)
    requires Increasing(bs) && c <= |bs| && r == bs[c..]
    requires forall i :: 0 <= i < c ==> bs[i].at < least
    requires forall i :: c <= i < |bs| ==> bs[i].at >= least
    ensures Increasing(r) && ByAt(r) == From(ByAt(bs), least)
  {
    var m := ByAt(bs);
    ListsIffByAt(bs, m);
    SuffixLists(bs, m, c, least, r);
    ListsIffByAt(r, From(m, least));
  }

  lemma SuffixLists(bs: seq<Bucket>, m: map<int, Bucket>, c: nat, least: int, r: seq<Bucket>)
    requires Lists(bs, m) && c <= |bs| && r == bs[c..]
    requires forall i :: 0 <= i < c ==> bs[i].at < least
    requires forall i :: c <= i < |bs| ==> bs[i].at >= least
    ensures Lists(r, From(m, least))
  {
    forall k | k in From(m, least)
      ensures Present(r, k)
    {
      assert Present(bs, k);
      var j :| 0 <= j < |bs| && bs[j].at == k;
      assert r[j - c].at == k;
    }
  }

  lemma NoneKeptBefore(bs: seq<Bucket>, c: nat, n: nat, least: int)
    requires Increasing(bs) && c <= n < |bs| && bs[n].at < least
    requires forall i :: c <= i < n ==> bs[i].at >= least
    ensures c == n
  {
    var first := bs[c];
  }

  /** `retain`, on the time a bucket is filed under. */
  method Retain(bs: seq<Bucket>, least: int) returns (r: seq<Bucket>)
    requires Increasing(bs)
    ensures Increasing(r) && ByAt(r) == From(ByAt(bs), least)
  {
    r := [];
    ghost var c: nat := 0;
    for n := 0 to |bs|
      invariant c <= n && r == bs[c..n]
      invariant forall i :: 0 <= i < c ==> bs[i].at < least
      invariant forall i :: c <= i < n ==> bs[i].at >= least
    {
      if bs[n].at >= least {
        r := r + [bs[n]];
      } else {
        NoneKeptBefore(bs, c, n, least);
        c := n + 1;
      }
    }
    SuffixIsFrom(bs, c, least, r);
  }

  function Ats(bs: seq<Bucket>): set<int> {
    set i | 0 <= i < |bs| :: bs[i].at
  }

  lemma {:induction false} AtsCount(bs: seq<Bucket>, n: nat)
    requires Increasing(bs) && n <= |bs|
    ensures |Ats(bs[..n])| == n
  {
    if n > 0 {
      AtsCount(bs, n - 1);
      var rest, all := bs[..n - 1], bs[..n];
      assert forall i :: 0 <= i < n - 1 ==> all[i] == rest[i];
      assert all[n - 1] == bs[n - 1];
      assert Ats(all) == Ats(rest) + {bs[n - 1].at};
    }
  }

  lemma ByAtCount(bs: seq<Bucket>)
    requires Increasing(bs)
    ensures |ByAt(bs).Keys| == |bs|
  {
    AtsCount(bs, |bs|);
    TakeAll(bs);
    assert ByAt(bs).Keys == Ats(bs);
  }

  lemma AboveIsTail(bs: seq<Bucket>, i: nat)
    requires Increasing(bs) && i < |bs|
    ensures |Above(ByAt(bs).Keys, bs[i].at)| == |bs| - 1 - i
  {
    SuffixIsFrom(bs, i + 1, bs[i].at + 1, bs[i + 1..]);
    ByAtCount(bs[i + 1..]);
    assert Above(ByAt(bs).Keys, bs[i].at) == From(ByAt(bs), bs[i].at + 1).Keys;
  }

  lemma NewestIffLate(bs: seq<Bucket>, m: map<int, Bucket>, cap: nat, k: int)
    requires Increasing(bs) && 0 < cap <= |bs| && m == ByAt(bs) && k in m
    ensures |Above(m.Keys, k)| < cap <==> k >= bs[|bs| - cap].at
  {
    var j :| 0 <= j < |bs| && bs[j].at == k;
    AboveIsTail(bs, j);
  }

  lemma DropIsNewest(bs: seq<Bucket>, m: map<int, Bucket>, cap: nat)
    requires Increasing(bs) && 0 < cap <= |bs| && m == ByAt(bs)
    ensures Newest(m, cap) == From(m, bs[|bs| - cap].at)
  {
    forall k | k in m
      ensures |Above(m.Keys, k)| < cap <==> k >= bs[|bs| - cap].at
    {
      NewestIffLate(bs, m, cap, k);
    }
  }

  /** `drain` of whatever exceeds the cap, oldest first. */
  method KeepNewest(bs: seq<Bucket>, cap: nat) returns (r: seq<Bucket>)
    requires Increasing(bs) && cap > 0
    ensures Increasing(r) && ByAt(r) == Newest(ByAt(bs), cap)
  {
    if |bs| > cap {
      r := bs[|bs| - cap..];
      DropIsNewest(bs, ByAt(bs), cap);
      SuffixIsFrom(bs, |bs| - cap, bs[|bs| - cap].at, r);
    } else {
      ByAtCount(bs);
      CapKeepsAll(ByAt(bs), cap);
      r := bs;
    }
  }

  lemma CapKeepsAll(m: map<int, Bucket>, cap: nat)
    requires |m.Keys| <= cap
    ensures Newest(m, cap) == m
  {
    forall k | k in m
      ensures |Above(m.Keys, k)| < cap
    {
      SubsetCount(Above(m.Keys, k), m.Keys - {k});
    }
  }

  lemma {:induction false} SubsetCount(a: set<int>, b: set<int>)
    requires a <= b
    ensures |a| <= |b|
    decreases |b|
  {
    assert b == a + (b - a);
  }

  function PrunedSeries(s: Series, now: int): Series {
    Series(Newest(From(s.five, FiveCutoff(now)), MAX_FIVE), Newest(From(s.daily, DailyCutoff(now)), MAX_DAILY))
  }

  /** The bucket part of `prune`, for a node or a user. */
  method PruneRollup(r: Rollup, now: int) returns (r': Rollup)
    requires Sorted(r)
    ensures Sorted(r') && SeriesOf(r') == PrunedSeries(SeriesOf(r), now)
  {
    var five := Retain(r.five, FiveCutoff(now));
    five := KeepNewest(five, MAX_FIVE);
    var daily := Retain(r.daily, DailyCutoff(now));
    daily := KeepNewest(daily, MAX_DAILY);
    r' := Rollup(five, daily);
  }

  // ----- the caps never bite

  /** On the five-minute grid, ended by the current slot, and no day after today. */
  predicate Fits(s: Series, now: int) {
    && (forall k :: k in s.five ==> k % BUCKET_SECS == 0 && k + BUCKET_SECS <= FloorFive(now))
    && (forall d :: d in s.daily ==> d <= DayOf(now))
  }

  lemma {:induction false} RangeCount(keys: set<int>, lo: int, n: nat)
    requires forall k :: k in keys ==> lo <= k < lo + n
    ensures |keys| <= n
    decreases n
  {
    if n == 0 {
      if keys != {} {
        var k := Choose(keys);
      }
    } else {
      var last := lo + n - 1;
      RangeCount(keys - {last}, lo, n - 1);
      assert last !in keys ==> keys - {last} == keys;
    }
  }

  function Slots(keys: set<int>): set<int> {
    set k | k in keys :: k / BUCKET_SECS
  }

  lemma SlotsWithout(keys: set<int>, k: int)
    requires k in keys && forall j :: j in keys ==> j % BUCKET_SECS == 0
    ensures Slots(keys) == Slots(keys - {k}) + {k / BUCKET_SECS} && k / BUCKET_SECS !in Slots(keys - {k})
  {
    forall s | s in Slots(keys)
      ensures s in Slots(keys - {k}) + {k / BUCKET_SECS}
    {
      var j :| j in keys && s == j / BUCKET_SECS;
      assert j == k || j in keys - {k};
    }
  }

  lemma {:induction false} SlotsCount(keys: set<int>)
    requires forall k :: k in keys ==> k % BUCKET_SECS == 0
    ensures |Slots(keys)| == |keys|
    decreases |keys|
  {
    if keys != {} {
      var k := Choose(keys);
      SlotsCount(keys - {k});
      SlotsWithout(keys, k);
    }
  }

  lemma FiveFits(m: map<int, Bucket>, now: int)
    requires forall k :: k in m ==> k % BUCKET_SECS == 0 && k + BUCKET_SECS <= FloorFive(now) && k >= FiveCutoff(now)
    ensures |m.Keys| <= MAX_FIVE
  {
    var slots := Slots(m.Keys);
    SlotsCount(m.Keys);
    RangeCount(slots, FloorFive(now) / BUCKET_SECS - MAX_FIVE, MAX_FIVE);
  }

  /** With buckets on the grid and none from the future, the caps keep all that the cut-off keeps. */
  lemma CapsKeepEverything(s: Series, now: int)
    requires Fits(s, now)
    ensures PrunedSeries(s, now) == Series(From(s.five, FiveCutoff(now)), From(s.daily, DailyCutoff(now)))
  {
    var five, daily := From(s.five, FiveCutoff(now)), From(s.daily, DailyCutoff(now));
    FiveFits(five, now);
    CapKeepsAll(five, MAX_FIVE);
    RangeCount(daily.Keys, DailyCutoff(now), MAX_DAILY);
    CapKeepsAll(daily, MAX_DAILY);
  }
}
