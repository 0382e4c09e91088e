/** Daily totals agree with the five-minute buckets and with the older daily map (src/node_history.rs). */
module TrafficAgreement {
  import opened MapSum
  import opened TrafficHistory
  import opened TrafficRuns
  import opened TrafficSample
  import opened TrafficSeries
  import opened Words

  function Value(b: Bucket, d: Direction): Option<U64> {
    if d.Up? then b.up else b.down
  }

  /** Complete exactly when both values are there; otherwise neither is. */
  predicate Whole(b: Bucket) {
    (b.complete <==> b.up.Some?) && (b.complete <==> b.down.Some?)
  }

  /** The five-minute values recorded for a day. */
  function DayValues(five: map<int, Bucket>, day: int, d: Direction): map<int, nat> {
    map t | t in five && DayOf(t) == day && Value(five[t], d).Some? :: Value(five[t], d).value
  }

  ghost function DaySum(five: map<int, Bucket>, day: int, d: Direction): nat {
    SumOf(DayValues(five, day, d))
  }

  predicate DayComplete(five: map<int, Bucket>, day: int) {
    forall t :: t in five && DayOf(t) == day ==> five[t].complete
  }

  /** A day's bucket tells the truth about the five-minute buckets of that day. */
  ghost predicate DayAgrees(s: Series, day: int)
    requires day in s.daily
  {
    var b := s.daily[day];
    && Whole(b)
    && (b.complete ==>
          && DayComplete(s.five, day)
          && b.up == Some(Min(DaySum(s.five, day, Up), U64_MAX))
          && b.down == Some(Min(DaySum(s.five, day, Down), U64_MAX)))
  }

  ghost predicate Agreed(s: Series) {
    && (forall day :: day in s.daily ==> DayAgrees(s, day))
    && (forall t :: t in s.five ==> DayOf(t) in s.daily)
  }

  /** The older daily map holds the values of every complete day, and no day of its own. */
  predicate LegacyAgrees(k: Kept) {
    && (forall day :: day in k.legacy ==> day in k.node.daily)
    && (forall day :: day in k.node.daily && k.node.daily[day].complete && Whole(k.node.daily[day]) ==>
          && day in k.legacy
          && k.legacy[day] == Legacy(k.node.daily[day].up.value, k.node.daily[day].down.value))
  }

  // ----- one more reading

  lemma DaySumElsewhere(five: map<int, Bucket>, t: int, b: Bucket, day: int, d: Direction)
    requires t !in five && DayOf(t) != day
    ensures DaySum(five[t := b], day, d) == DaySum(five, day, d)
  {
    assert DayValues(five[t := b], day, d) == DayValues(five, day, d);
  }

  lemma DaySumGrows(five: map<int, Bucket>, t: int, b: Bucket, d: Direction)
    requires t !in five && Value(b, d).Some?
    ensures DaySum(five[t := b], DayOf(t), d) == DaySum(five, DayOf(t), d) + Value(b, d).value
  {
    var v := DayValues(five, DayOf(t), d);
    assert DayValues(five[t := b], DayOf(t), d) == v[t := Value(b, d).value];
    SumWith(v, t, Value(b, d).value);
  }

  lemma DaySumEmpty(five: map<int, Bucket>, day: int, d: Direction)
    requires forall t :: t in five ==> DayOf(t) != day
    ensures DaySum(five, day, d) == 0
  {
    assert DayValues(five, day, d) == map[];
  }

  lemma OtherDayAgrees(s: Series, start: int, r: Reading, gaps: set<int>, day: int)
    requires Agreed(s) && start !in s.five
    requires day in Noted(s, start, r, gaps).daily && day != DayOf(start)
    ensures DayAgrees(Noted(s, start, r, gaps), day)
  {
    var s' := Noted(s, start, r, gaps);
    if day !in gaps {
      assert s'.daily[day] == s.daily[day] && DayAgrees(s, day);
      DaySumElsewhere(s.five, start, s'.five[start], day, Up);
      DaySumElsewhere(s.five, start, s'.five[start], day, Down);
      assert forall t :: t in s.five ==> s'.five[t] == s.five[t];
    }
  }

  lemma SumsGrow(s: Series, start: int, r: Reading, gaps: set<int>)
    requires start !in s.five && r.Reading?
    ensures var five, five', day := s.five, Noted(s, start, r, gaps).five, DayOf(start);
            && DaySum(five', day, Up) == DaySum(five, day, Up) + r.up
            && DaySum(five', day, Down) == DaySum(five, day, Down) + r.down
            && (DayComplete(five, day) ==> DayComplete(five', day))
  {
    var b := BucketOf(start, r);
    DaySumGrows(s.five, start, b, Up);
    DaySumGrows(s.five, start, b, Down);
  }

  lemma KnownDayAgrees(s: Series, start: int, r: Reading, gaps: set<int>)
    requires Agreed(s) && start !in s.five && r.Reading? && DayOf(start) in s.daily && DayOf(start) !in gaps
    ensures DayAgrees(Noted(s, start, r, gaps), DayOf(start))
  {
    assert DayAgrees(s, DayOf(start));
    SumsGrow(s, start, r, gaps);
  }

  lemma NewDayAgrees(s: Series, start: int, r: Reading, gaps: set<int>)
    requires Agreed(s) && start !in s.five && r.Reading? && DayOf(start) !in s.daily && DayOf(start) !in gaps
    ensures DayAgrees(Noted(s, start, r, gaps), DayOf(start))
  {
    DaySumEmpty(s.five, DayOf(start), Up);
    DaySumEmpty(s.five, DayOf(start), Down);
    SumsGrow(s, start, r, gaps);
  }

  lemma SameDayAgrees(s: Series, start: int, r: Reading, gaps: set<int>)
    requires Agreed(s) && start !in s.five
    ensures DayOf(start) in Noted(s, start, r, gaps).daily
    ensures DayAgrees(Noted(s, start, r, gaps), DayOf(start))
  {
    if DayOf(start) !in gaps && r.Reading? {
      if DayOf(start) in s.daily {
        KnownDayAgrees(s, start, r, gaps);
      } else {
        NewDayAgrees(s, start, r, gaps);
      }
    }
  }

  /** A reading in a fresh slot, complete or not, with any gaps, keeps every day truthful. */
  lemma NotedAgrees(s: Series, start: int, r: Reading, gaps: set<int>)
    requires Agreed(s) && start !in s.five
    ensures Agreed(Noted(s, start, r, gaps))
  {
    var s' := Noted(s, start, r, gaps);
    forall day | day in s'.daily
      ensures DayAgrees(s', day)
    {
      if day == DayOf(start) {
        SameDayAgrees(s, start, r, gaps);
      } else {
        OtherDayAgrees(s, start, r, gaps, day);
      }
    }
  }

  lemma LegacyStepAgrees(k: Kept, now: int, m: Measured)
    requires Agreed(k.node) && LegacyAgrees(k)
    ensures LegacyAgrees(KeptStep(k, now, m))
  {
    var k' := KeptStep(k, now, m);
    forall day | day in k'.node.daily && k'.node.daily[day].complete && Whole(k'.node.daily[day])
      ensures day in k'.legacy
      ensures k'.legacy[day] == Legacy(k'.node.daily[day].up.value, k'.node.daily[day].down.value)
    {
      if day in k.node.daily {
        assert DayAgrees(k.node, day);
      }
    }
  }

  // ----- every run

  predicate SlotsBefore(calls: seq<Call>, bound: int) {
    forall i :: 0 <= i < |calls| && calls[i].sample.Some? ==> BucketStart(calls[i].now) < bound
  }

  lemma {:induction false} KeptBefore(calls: seq<Call>, bound: int)
    requires SlotsBefore(calls, bound)
    ensures forall t :: t in KeptAfter(calls).node.five ==> t < bound
    decreases |calls|
  {
    if calls != [] {
      KeptBefore(calls[..|calls| - 1], bound);
    }
  }

  lemma {:induction false} KeptAgrees(calls: seq<Call>)
    requires FreshSlots(calls)
    ensures Agreed(KeptAfter(calls).node) && LegacyAgrees(KeptAfter(calls))
    decreases |calls|
  {
    if calls != [] {
      var rest, c := calls[..|calls| - 1], calls[|calls| - 1];
      assert forall i :: 0 <= i < |rest| ==> rest[i] == calls[i];
      KeptAgrees(rest);
      if c.sample.Some? {
        KeptBefore(rest, BucketStart(c.now));
        var m := NodeMeasure(Run(rest).baselines, c.now, c.sample.value, c.deleted);
        NotedAgrees(KeptAfter(rest).node, BucketStart(c.now), ReadingOf(m), m.gapDates);
        LegacyStepAgrees(KeptAfter(rest), c.now, m);
      }
    }
  }

  /**
   * After every run from an empty record, whatever was pruned on the way: a daily bucket is
   * complete exactly when both its values are there, and a complete one holds the sum of the
   * five-minute values ever recorded for that day, as does the older daily map.
   */
  lemma DailyRollupAgrees(calls: seq<Call>, day: int)
    requires Monotone(calls) && FreshSlots(calls) && calls != [] && day in Run(calls).node.daily
    ensures Whole(Run(calls).node.daily[day])
    ensures Run(calls).node.daily[day].complete ==>
              var b, five, legacy := Run(calls).node.daily[day], KeptAfter(calls).node.five, Run(calls).legacy;
              && DayComplete(five, day)
              && b.up == Some(Min(DaySum(five, day, Up), U64_MAX))
              && b.down == Some(Min(DaySum(five, day, Down), U64_MAX))
              && day in legacy && legacy[day] == Legacy(b.up.value, b.down.value)
  {
    PruningOnlyRestricts(calls);
    KeptAgrees(calls);
    assert DayAgrees(KeptAfter(calls).node, day);
  }
}
