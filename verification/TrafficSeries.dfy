/** Five-minute and daily bucket lists, kept sorted in place (src/node_history.rs). */
module TrafficSeries {
  import opened Collections
  import opened TrafficSample
  import opened Words

  /** A five-minute bucket is filed under its start in seconds, a daily one under its day. */
  datatype Bucket = Bucket(at: int, up: Option<U64>, down: Option<U64>, complete: bool)

  predicate Increasing(bs: seq<Bucket>) {
    forall i, j :: 0 <= i < j < |bs| ==> bs[i].at < bs[j].at
  }

  /** A sorted list, looked up by time. */
  function ByAt(bs: seq<Bucket>): map<int, Bucket>
    requires Increasing(bs)
  {
    map i | 0 <= i < |bs| :: bs[i].at := bs[i]
  }

  method Find(bs: seq<Bucket>, at: int) returns (i: nat)
    ensures i <= |bs| && (i < |bs| ==> bs[i].at == at)
    ensures i == |bs| ==> forall j :: 0 <= j < |bs| ==> bs[j].at != at
  {
    i := 0;
    while i < |bs| && bs[i].at != at
      invariant i <= |bs| && forall j :: 0 <= j < i ==> bs[j].at != at
    {
      i := i + 1;
    }
  }

  predicate Present(bs: seq<Bucket>, k: int) {
    exists i :: 0 <= i < |bs| && bs[i].at == k
  }

  /** `m` holds the buckets of `bs` and nothing else. */
  ghost predicate Lists(bs: seq<Bucket>, m: map<int, Bucket>) {
    && (forall i :: 0 <= i < |bs| ==> bs[i].at in m && m[bs[i].at] == bs[i])
    && forall k :: k in m ==> Present(bs, k)
  }

  lemma ListsIffByAt(bs: seq<Bucket>, m: map<int, Bucket>)
    requires Increasing(bs)
    ensures Lists(bs, m) <==> m == ByAt(bs)
  {
    if Lists(bs, m) {
      forall k | k in m
        ensures k in ByAt(bs) && ByAt(bs)[k] == m[k]
      {
        var i :| 0 <= i < |bs| && bs[i].at == k;
      }
    }
  }

  lemma ReplaceLists(bs: seq<Bucket>, m: map<int, Bucket>, i: nat, b: Bucket)
    requires Increasing(bs) && Lists(bs, m) && i < |bs| && bs[i].at == b.at
    ensures Increasing(bs[i := b]) && Lists(bs[i := b], m[b.at := b])
  {
    var r := bs[i := b];
    forall k | k in m[b.at := b]
      ensures Present(r, k)
    {
      assert Present(bs, k);
      var j :| 0 <= j < |bs| && bs[j].at == k;
      assert r[j].at == k;
    }
  }

  function Shifted(bs: seq<Bucket>, i: nat, b: Bucket, k: nat): Bucket
    requires i <= |bs| && k <= |bs|
  {
    if k < i then bs[k] else if k == i then b else bs[k - 1]
  }

  ghost predicate Inserted(bs: seq<Bucket>, i: nat, b: Bucket, r: seq<Bucket>) {
    && i <= |bs| && |r| == |bs| + 1
    && (forall k :: 0 <= k < |r| ==> r[k] == Shifted(bs, i, b, k))
    && (forall k :: 0 <= k < i ==> bs[k].at < b.at)
    && (forall k :: i <= k < |bs| ==> b.at < bs[k].at)
  }

  lemma InsertKeepsOrder(bs: seq<Bucket>, i: nat, b: Bucket, r: seq<Bucket>)
    requires Increasing(bs) && Inserted(bs, i, b, r)
    ensures Increasing(r)
  {
  }

  lemma InsertLists(bs: seq<Bucket>, m: map<int, Bucket>, i: nat, b: Bucket, r: seq<Bucket>)
    requires Lists(bs, m) && Inserted(bs, i, b, r)
    ensures Lists(r, m[b.at := b])
  {
    forall k | k in m[b.at := b]
      ensures Present(r, k)
    {
      if k == b.at {
        assert r[i].at == k;
      } else {
        assert Present(bs, k);
        var j :| 0 <= j < |bs| && bs[j].at == k;
        assert r[if j < i then j else j + 1].at == k;
      }
    }
  }

  lemma InsertedByConcatenation(bs: seq<Bucket>, i: nat, b: Bucket)
    requires i <= |bs|
    requires forall k :: 0 <= k < i ==> bs[k].at < b.at
    requires forall k :: i <= k < |bs| ==> b.at < bs[k].at
    ensures Inserted(bs, i, b, bs[..i] + [b] + bs[i..])
  {
  }

  /** The sort after an append: the new bucket moves down to its place. */
  method Place(bs: seq<Bucket>, b: Bucket) returns (r: seq<Bucket>)
    requires Increasing(bs) && forall j :: 0 <= j < |bs| ==> bs[j].at != b.at
    ensures Increasing(r) && ByAt(r) == ByAt(bs)[b.at := b]
  {
    var i := |bs|;
    while i > 0 && bs[i - 1].at > b.at
      invariant 0 <= i <= |bs| && forall k :: i <= k < |bs| ==> b.at < bs[k].at
    {
      i := i - 1;
    }
    r := bs[..i] + [b] + bs[i..];
    InsertedByConcatenation(bs, i, b);
    InsertKeepsOrder(bs, i, b, r);
    ListsIffByAt(bs, ByAt(bs));
    InsertLists(bs, ByAt(bs), i, b, r);
    ListsIffByAt(r, ByAt(bs)[b.at := b]);
  }

  /** `upsert_five_minute_bucket`: replace, or append and sort into place. */
  method Put(bs: seq<Bucket>, b: Bucket) returns (r: seq<Bucket>)
    requires Increasing(bs)
    ensures Increasing(r) && ByAt(r) == ByAt(bs)[b.at := b]
  {
    var found := Find(bs, b.at);
    if found < |bs| {
      ListsIffByAt(bs, ByAt(bs));
      ReplaceLists(bs, ByAt(bs), found, b);
      r := bs[found := b];
      ListsIffByAt(r, ByAt(bs)[b.at := b]);
    } else {
      r := Place(bs, b);
    }
  }

  method Get(bs: seq<Bucket>, at: int) returns (b: Option<Bucket>)
    requires Increasing(bs)
    ensures b == if at in ByAt(bs) then Some(ByAt(bs)[at]) else None
  {
    var i := Find(bs, at);
    ListsIffByAt(bs, ByAt(bs));
    if i < |bs| {
      b := Some(bs[i]);
    } else {
      assert !Present(bs, at);
      b := None;
    }
  }

  // ----- daily totals

  function Added(total: Option<U64>, value: Option<U64>): Option<U64> {
    if value.None? then total
    else Some(SatAdd(if total.Some? then total.value else 0, value.value))
  }

  /** A day's bucket after one more five-minute reading. */
  function AddedDaily(entry: Bucket, up: Option<U64>, down: Option<U64>, complete: bool): Bucket {
    if complete && entry.complete then entry.(up := Added(entry.up, up), down := Added(entry.down, down))
    else Bucket(entry.at, None, None, false)
  }

  function NewDay(day: int): Bucket {
    Bucket(day, None, None, true)
  }

  function Incomplete(at: int): Bucket {
    Bucket(at, None, None, false)
  }

  function DailyAfter(daily: map<int, Bucket>, day: int, up: Option<U64>, down: Option<U64>, complete: bool)
    : map<int, Bucket> {
    daily[day := AddedDaily(if day in daily then daily[day] else NewDay(day), up, down, complete)]
  }

  /** `update_daily_rollup`. */
  method UpdateDaily(bs: seq<Bucket>, day: int, up: Option<U64>, down: Option<U64>, complete: bool)
    returns (r: seq<Bucket>)
    requires Increasing(bs)
    ensures Increasing(r) && ByAt(r) == DailyAfter(ByAt(bs), day, up, down, complete)
  {
    var found := Get(bs, day);
    var entry := if found.Some? then found.value else NewDay(day);
    assert entry.at == day;
    r := Put(bs, AddedDaily(entry, up, down, complete));
  }

  function Marked(daily: map<int, Bucket>, gaps: set<int>): map<int, Bucket> {
    map d | d in daily.Keys + gaps :: if d in gaps then Incomplete(d) else daily[d]
  }

  lemma MarkNone(daily: map<int, Bucket>)
    ensures Marked(daily, {}) == daily
  {
  }

  lemma MarkOneMore(daily: map<int, Bucket>, gaps: set<int>, d: int)
    ensures Marked(daily, gaps)[d := Incomplete(d)] == Marked(daily, gaps + {d})
  {
  }

  /** `mark_daily_rollup_incomplete`, for each date of a gap. */
  method MarkIncomplete(bs: seq<Bucket>, gaps: set<int>) returns (r: seq<Bucket>)
    requires Increasing(bs)
    ensures Increasing(r) && ByAt(r) == Marked(ByAt(bs), gaps)
  {
    r := bs;
    var todo, done := gaps, {};
    MarkNone(ByAt(bs));
    while todo != {}
      invariant gaps == done + todo
      invariant Increasing(r) && ByAt(r) == Marked(ByAt(bs), done)
      decreases todo
    {
      var d := AnyOf(todo);
      MoveOne(gaps, done, todo, d);
      MarkOneMore(ByAt(bs), done, d);
      r := Put(r, Incomplete(d));
      todo, done := todo - {d}, done + {d};
    }
    AllMoved(gaps, done, todo);
  }

  // ----- one reading

  /** What a sample says about the bucket that has just ended. */
  datatype Reading = Missing | Reading(up: U64, down: U64)

  function ReadingOf(m: Measured): Reading {
    if m.complete && m.known then Reading(m.up, m.down) else Missing
  }

  function BucketOf(at: int, r: Reading): Bucket {
    if r.Reading? then Bucket(at, Some(r.up), Some(r.down), true) else Incomplete(at)
  }

  datatype Rollup = Rollup(five: seq<Bucket>, daily: seq<Bucket>)

  predicate Sorted(r: Rollup) {
    Increasing(r.five) && Increasing(r.daily)
  }

  /** A rollup, looked up by time. */
  datatype Series = Series(five: map<int, Bucket>, daily: map<int, Bucket>)

  const NO_SERIES := Series(map[], map[])

  function SeriesOf(r: Rollup): Series
    requires Sorted(r)
  {
    Series(ByAt(r.five), ByAt(r.daily))
  }

  function Noted(s: Series, start: int, r: Reading, gaps: set<int>): Series {
    var b := BucketOf(start, r);
    Series(s.five[start := b], Marked(DailyAfter(s.daily, DayOf(start), b.up, b.down, b.complete), gaps))
  }

  /** One reading: the five-minute bucket, its day, and the days a gap spoiled. */
  method Note(r: Rollup, start: int, reading: Reading, gaps: set<int>) returns (r': Rollup)
    requires Sorted(r)
    ensures Sorted(r') && SeriesOf(r') == Noted(SeriesOf(r), start, reading, gaps)
  {
    var b := BucketOf(start, reading);
    var five := Put(r.five, b);
    var daily := UpdateDaily(r.daily, DayOf(start), b.up, b.down, b.complete);
    daily := MarkIncomplete(daily, gaps);
    r' := Rollup(five, daily);
  }
}
