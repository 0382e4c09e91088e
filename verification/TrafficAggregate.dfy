/** Adding up the bucket lists of several nodes (src/node_history.rs). */
module TrafficAggregate {
  import opened Collections
  import opened TrafficAgreement
  import opened TrafficSample
  import opened TrafficSeries
  import opened Words

  /** One node's buckets of either kind; five-minute and daily lists are aggregated alike. */
  datatype Source = Source(buckets: seq<Bucket>, active: bool)

  predicate WellFormed(r: Source) {
    Increasing(r.buckets) && forall i :: 0 <= i < |r.buckets| ==> Whole(r.buckets[i])
  }

  predicate AllWellFormed(rs: seq<Source>) {
    forall i :: 0 <= i < |rs| ==> WellFormed(rs[i])
  }

  function Has(r: Source, at: int): Option<Bucket>
    requires Increasing(r.buckets)
  {
    if at in ByAt(r.buckets) then Some(ByAt(r.buckets)[at]) else None
  }

  /** `five_minute_bucket_is_applicable`, `daily_bucket_is_applicable`. */
  predicate Applicable(r: Source, at: int) {
    && r.buckets != [] && r.buckets[0].at <= at
    && (r.active || at <= r.buckets[|r.buckets| - 1].at)
  }

  predicate Lacks(r: Source, at: int)
    requires Increasing(r.buckets)
  {
    Applicable(r, at) && Has(r, at).None?
  }

  // ----- what the aggregate should be

  /** What one node says about one time: the bucket it holds, or that it should hold one. */
  datatype Cell = Cell(has: Option<Bucket>, lacks: bool)

  function CellOf(r: Source, at: int): Cell
    requires Increasing(r.buckets)
  {
    Cell(Has(r, at), Lacks(r, at))
  }

  function Column(rs: seq<Source>, at: int): seq<Cell>
    requires AllWellFormed(rs)
  {
    if rs == [] then [] else Column(rs[..|rs| - 1], at) + [CellOf(rs[|rs| - 1], at)]
  }

  predicate SomeHas(cs: seq<Cell>) {
    exists i :: 0 <= i < |cs| && cs[i].has.Some?
  }

  predicate SomeLacks(cs: seq<Cell>) {
    exists i :: 0 <= i < |cs| && cs[i].lacks
  }

  predicate AllComplete(cs: seq<Cell>) {
    forall i :: 0 <= i < |cs| && cs[i].has.Some? ==> cs[i].has.value.complete
  }

  function Share(c: Cell, d: Direction): nat {
    if c.has.Some? && Value(c.has.value, d).Some? then Value(c.has.value, d).value else 0
  }

  /** The values the nodes hold, added up. */
  function Combined(cs: seq<Cell>, d: Direction): nat {
    if cs == [] then 0 else Combined(cs[..|cs| - 1], d) + Share(cs[|cs| - 1], d)
  }

  /** The saturating sum. */
  predicate Totals(cs: seq<Cell>, b: Bucket) {
    b.up == Some(Min(Combined(cs, Up), U64_MAX)) && b.down == Some(Min(Combined(cs, Down), U64_MAX))
  }

  /** Exact or absent: the saturating sum when every holder is complete and nobody lacks it. */
  predicate Exact(cs: seq<Cell>, at: int, b: Bucket) {
    && b.at == at && Whole(b)
    && (b.complete <==> AllComplete(cs) && !SomeLacks(cs))
    && (b.complete ==> Totals(cs, b))
  }

  ghost predicate Aggregates(rs: seq<Source>, m: map<int, Bucket>)
    requires AllWellFormed(rs)
  {
    forall at :: (at in m <==> SomeHas(Column(rs, at))) && (at in m ==> Exact(Column(rs, at), at, m[at]))
  }

  // ----- joining buckets

  /** `add_required`. */
  function AddRequired(left: Option<U64>, right: Option<U64>): Option<U64> {
    if left.Some? && right.Some? then Some(SatAdd(left.value, right.value)) else None
  }

  function Join(entry: Bucket, b: Bucket): Bucket {
    var up, down := AddRequired(entry.up, b.up), AddRequired(entry.down, b.down);
    Bucket(entry.at, up, down, entry.complete && b.complete && up.Some? && down.Some?)
  }

  function JoinAny(entry: Option<Bucket>, b: Option<Bucket>): Option<Bucket> {
    if b.None? then entry else if entry.None? then b else Some(Join(entry.value, b.value))
  }

  function Lookup(m: map<int, Bucket>, at: int): Option<Bucket> {
    if at in m then Some(m[at]) else None
  }

  /** All the buckets at one time, joined in the order of the nodes. */
  function Joined(cs: seq<Cell>): Option<Bucket> {
    if cs == [] then None else JoinAny(Joined(cs[..|cs| - 1]), cs[|cs| - 1].has)
  }

  predicate Sound(cs: seq<Cell>, at: int) {
    forall i :: 0 <= i < |cs| && cs[i].has.Some? ==> cs[i].has.value.at == at && Whole(cs[i].has.value)
  }

  lemma SplitLast(cs: seq<Cell>, rest: seq<Cell>, last: Cell)
    requires cs == rest + [last]
    ensures SomeHas(cs) <==> SomeHas(rest) || last.has.Some?
    ensures SomeLacks(cs) <==> SomeLacks(rest) || last.lacks
    ensures AllComplete(cs) <==> AllComplete(rest) && (last.has.Some? ==> last.has.value.complete)
  {
    assert forall i :: 0 <= i < |rest| ==> rest[i] == cs[i];
    assert cs[|rest|] == last;
  }

  /** Joining in turn gives the sum, and is complete exactly when everything joined was. */
  lemma {:induction false} JoinedMeans(cs: seq<Cell>, at: int)
    requires Sound(cs, at)
    ensures Joined(cs).Some? <==> SomeHas(cs)
    ensures Joined(cs).None? ==> Combined(cs, Up) == 0 && Combined(cs, Down) == 0 && AllComplete(cs)
    ensures Joined(cs).Some? ==>
              var b := Joined(cs).value;
              b.at == at && Whole(b) && (b.complete <==> AllComplete(cs)) && (b.complete ==> Totals(cs, b))
    decreases |cs|
  {
    if cs != [] {
      var rest, last := cs[..|cs| - 1], cs[|cs| - 1];
      JoinedMeans(rest, at);
      SplitLast(cs, rest, last);
    }
  }

  lemma ColumnAppend(rs: seq<Source>, r: Source, at: int)
    requires AllWellFormed(rs) && WellFormed(r)
    ensures AllWellFormed(rs + [r]) && Column(rs + [r], at) == Column(rs, at) + [CellOf(r, at)]
  {
    assert (rs + [r])[..|rs|] == rs;
  }

  lemma JoinedAppend(cs: seq<Cell>, c: Cell)
    ensures Joined(cs + [c]) == JoinAny(Joined(cs), c.has)
  {
    assert (cs + [c])[..|cs|] == cs;
  }

  lemma {:induction false} ColumnIsSound(rs: seq<Source>, at: int)
    requires AllWellFormed(rs)
    ensures Sound(Column(rs, at), at)
    decreases |rs|
  {
    if rs != [] {
      ColumnIsSound(rs[..|rs| - 1], at);
      CellIsSound(rs[|rs| - 1], at);
    }
  }

  lemma CellIsSound(r: Source, at: int)
    requires WellFormed(r)
    ensures CellOf(r, at).has.Some? ==> CellOf(r, at).has.value.at == at && Whole(CellOf(r, at).has.value)
  {
  }

  // ----- the loops

  /** The buckets of one node, added to the map. */
  method AddSource(m: map<int, Bucket>, r: Source) returns (m': map<int, Bucket>)
    requires WellFormed(r)
    ensures forall at :: Lookup(m', at) == JoinAny(Lookup(m, at), Has(r, at))
  {
    m' := m;
    for j := 0 to |r.buckets|
      invariant forall at :: Lookup(m', at) == JoinAny(Lookup(m, at), HasAmong(r, j, at))
    {
      var b := r.buckets[j];
      OneMoreBucket(r, j);
      if b.at in m' {
        m' := m'[b.at := Join(m'[b.at], b)];
      } else {
        m' := m'[b.at := b];
      }
    }
    forall at
      ensures HasAmong(r, |r.buckets|, at) == Has(r, at)
    {
      AmongAll(r, at);
    }
  }

  /** What the first `n` buckets of a node hold. */
  ghost function HasAmong(r: Source, n: nat, at: int): Option<Bucket>
    requires n <= |r.buckets|
  {
    if n == 0 then None
    else if r.buckets[n - 1].at == at then Some(r.buckets[n - 1])
    else HasAmong(r, n - 1, at)
  }

  lemma {:induction false} AmongFirst(r: Source, n: nat, at: int)
    requires Increasing(r.buckets) && n <= |r.buckets|
    ensures HasAmong(r, n, at).Some? ==>
              exists i :: 0 <= i < n && r.buckets[i].at == at && HasAmong(r, n, at) == Some(r.buckets[i])
    ensures HasAmong(r, n, at).None? ==> forall i :: 0 <= i < n ==> r.buckets[i].at != at
  {
    if n > 0 && r.buckets[n - 1].at != at {
      AmongFirst(r, n - 1, at);
    }
  }

  lemma OneMoreBucket(r: Source, j: nat)
    requires Increasing(r.buckets) && j < |r.buckets|
    ensures HasAmong(r, j, r.buckets[j].at).None?
  {
    AmongFirst(r, j, r.buckets[j].at);
  }

  lemma AmongAll(r: Source, at: int)
    requires Increasing(r.buckets)
    ensures HasAmong(r, |r.buckets|, at) == Has(r, at)
  {
    AmongFirst(r, |r.buckets|, at);
  }

  lemma OneMoreSource(rs: seq<Source>, i: nat, at: int)
    requires AllWellFormed(rs) && i < |rs|
    ensures AllWellFormed(rs[..i]) && AllWellFormed(rs[..i + 1])
    ensures Column(rs[..i + 1], at) == Column(rs[..i], at) + [CellOf(rs[i], at)]
    ensures Joined(Column(rs[..i + 1], at)) == JoinAny(Joined(Column(rs[..i], at)), Has(rs[i], at))
  {
    TakeOneMore(rs, i);
    ColumnAppend(rs[..i], rs[i], at);
    JoinedAppend(Column(rs[..i], at), CellOf(rs[i], at));
  }

  method AddSources(rs: seq<Source>) returns (m: map<int, Bucket>)
    requires AllWellFormed(rs)
    ensures forall at :: Lookup(m, at) == Joined(Column(rs, at))
  {
    m := map[];
    for i := 0 to |rs|
      invariant AllWellFormed(rs[..i]) && forall at :: Lookup(m, at) == Joined(Column(rs[..i], at))
    {
      m := AddSource(m, rs[i]);
      forall at
        ensures AllWellFormed(rs[..i + 1])
        ensures Joined(Column(rs[..i + 1], at)) == JoinAny(Joined(Column(rs[..i], at)), Has(rs[i], at))
      {
        OneMoreSource(rs, i, at);
      }
    }
    TakeAll(rs);
  }

  method AnyLacks(rs: seq<Source>, at: int) returns (any: bool)
    requires AllWellFormed(rs)
    ensures any <==> SomeLacks(Column(rs, at))
  {
    any := false;
    for i := 0 to |rs|
      invariant AllWellFormed(rs[..i]) && (any <==> SomeLacks(Column(rs[..i], at)))
    {
      OneMoreSource(rs, i, at);
      SplitLast(Column(rs[..i + 1], at), Column(rs[..i], at), CellOf(rs[i], at));
      if Applicable(rs[i], at) {
        var found := Get(rs[i].buckets, at);
        any := any || found.None?;
      }
    }
    TakeAll(rs);
  }

  function GapCleared(rs: seq<Source>, at: int, b: Bucket): Bucket
    requires AllWellFormed(rs)
  {
    if SomeLacks(Column(rs, at)) then Bucket(b.at, None, None, false) else b
  }

  /** The second pass: a bucket that some applicable node lacks loses its values. */
  method ClearGaps(rs: seq<Source>, m: map<int, Bucket>) returns (m': map<int, Bucket>)
    requires AllWellFormed(rs)
    ensures m'.Keys == m.Keys
    ensures forall at :: at in m ==> m'[at] == GapCleared(rs, at, m[at])
  {
    m' := m;
    var todo, done := m.Keys, {};
    while todo != {}
      invariant m.Keys == done + todo && m'.Keys == m.Keys && done !! todo
      invariant forall at :: at in done ==> m'[at] == GapCleared(rs, at, m[at])
      invariant forall at :: at in todo ==> m'[at] == m[at]
      decreases todo
    {
      var at := AnyOf(todo);
      var gap := AnyLacks(rs, at);
      if gap {
        m' := m'[at := Bucket(m[at].at, None, None, false)];
      }
      MoveOne(m.Keys, done, todo, at);
      todo, done := todo - {at}, done + {at};
    }
    AllMoved(m.Keys, done, todo);
  }

  /** `aggregate_user_records`, for the five-minute or the daily lists. */
  method Aggregate(rs: seq<Source>) returns (m: map<int, Bucket>)
    requires AllWellFormed(rs)
    ensures Aggregates(rs, m)
  {
    var joined := AddSources(rs);
    m := ClearGaps(rs, joined);
    forall at
      ensures (at in m <==> SomeHas(Column(rs, at))) && (at in m ==> Exact(Column(rs, at), at, m[at]))
    {
      ColumnIsSound(rs, at);
      JoinedMeans(Column(rs, at), at);
      assert Lookup(joined, at) == Joined(Column(rs, at));
    }
  }

  // ----- the order of the nodes does not matter

  lemma {:induction false} CombinedSplits(a: seq<Cell>, b: seq<Cell>, d: Direction)
    ensures Combined(a + b, d) == Combined(a, d) + Combined(b, d)
    decreases |b|
  {
    if b == [] {
      assert a + b == a;
    } else {
      CombinedSplits(a, b[..|b| - 1], d);
      assert (a + b)[..|a + b| - 1] == a + b[..|b| - 1];
    }
  }

  lemma CombinedWithout(cs: seq<Cell>, i: nat, d: Direction)
    requires i < |cs|
    ensures Combined(cs, d) == Combined(cs[..i] + cs[i + 1..], d) + Share(cs[i], d)
  {
    TakeApart(cs, i);
    CombinedSplits(cs[..i] + [cs[i]], cs[i + 1..], d);
    CombinedSplits(cs[..i], [cs[i]], d);
    CombinedSplits(cs[..i], cs[i + 1..], d);
    var one := [cs[i]];
    assert Combined(one, d) == Combined(one[..0], d) + Share(one[0], d);
  }

  lemma {:induction false} CombinedIsOrderFree(a: seq<Cell>, b: seq<Cell>, d: Direction)
    requires multiset(a) == multiset(b)
    ensures Combined(a, d) == Combined(b, d)
    decreases |a|
  {
    if a == [] {
      assert |b| == |multiset(b)| == 0;
    } else {
      var n := |a| - 1;
      assert a[n] in multiset(b);
      var i :| 0 <= i < |b| && b[i] == a[n];
      CombinedWithout(b, i, d);
      RemoveSame(a, b, i);
      CombinedIsOrderFree(a[..n], b[..i] + b[i + 1..], d);
    }
  }

  lemma {:induction false} ColumnSplits(a: seq<Source>, b: seq<Source>, at: int)
    requires AllWellFormed(a) && AllWellFormed(b)
    ensures AllWellFormed(a + b) && Column(a + b, at) == Column(a, at) + Column(b, at)
    decreases |b|
  {
    if b == [] {
      assert a + b == a;
    } else {
      var rest, last := b[..|b| - 1], b[|b| - 1];
      ColumnSplits(a, rest, at);
      ColumnAppend(a + rest, last, at);
      AppendLast(a, b);
    }
  }

  lemma ColumnWithout(rs: seq<Source>, i: nat, at: int)
    requires AllWellFormed(rs) && i < |rs|
    ensures AllWellFormed(rs[..i] + rs[i + 1..])
    ensures multiset(Column(rs, at)) == multiset(Column(rs[..i] + rs[i + 1..], at)) + multiset{CellOf(rs[i], at)}
  {
    var front, back := rs[..i], rs[i + 1..];
    ColumnAppend(front, rs[i], at);
    ColumnSplits(front, back, at);
    ColumnSplits(front + [rs[i]], back, at);
    TakeApart(rs, i);
  }

  /** Reordering the nodes reorders each column. */
  lemma {:induction false} ColumnsReorder(a: seq<Source>, b: seq<Source>, at: int)
    requires AllWellFormed(a) && AllWellFormed(b) && multiset(a) == multiset(b)
    ensures multiset(Column(a, at)) == multiset(Column(b, at))
    decreases |a|
  {
    if a == [] {
      assert |b| == |multiset(b)| == 0;
    } else {
      var n := |a| - 1;
      assert a[n] in multiset(b);
      var i :| 0 <= i < |b| && b[i] == a[n];
      ColumnWithout(b, i, at);
      RemoveSame(a, b, i);
      ColumnsReorder(a[..n], b[..i] + b[i + 1..], at);
    }
  }

  lemma FlagsAreOrderFree(a: seq<Cell>, b: seq<Cell>)
    requires multiset(a) == multiset(b)
    ensures SomeHas(a) ==> SomeHas(b)
    ensures SomeLacks(a) ==> SomeLacks(b)
    ensures AllComplete(b) ==> AllComplete(a)
  {
    forall i | 0 <= i < |a|
      ensures exists j :: 0 <= j < |b| && b[j] == a[i]
    {
      assert a[i] in multiset(b);
    }
  }

  /** Aggregating the same nodes in another order gives the same buckets. */
  lemma AggregationIsOrderFree(a: seq<Source>, m: map<int, Bucket>, b: seq<Source>, n: map<int, Bucket>)
    requires AllWellFormed(a) && AllWellFormed(b) && multiset(a) == multiset(b)
    requires Aggregates(a, m) && Aggregates(b, n)
    ensures m == n
  {
    forall at
      ensures (at in m <==> at in n) && (at in m ==> m[at] == n[at])
    {
      var p, q := Column(a, at), Column(b, at);
      ColumnsReorder(a, b, at);
      FlagsAreOrderFree(p, q);
      FlagsAreOrderFree(q, p);
      CombinedIsOrderFree(p, q, Up);
      CombinedIsOrderFree(p, q, Down);
    }
  }
}
