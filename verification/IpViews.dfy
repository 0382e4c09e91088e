/** Segments, per-minute series and per-IP minutes derived from the bitmaps (src/inbound_ip_usage.rs). */
module IpViews {
  import opened Collections
  import opened IpBitmap
  import opened IpUsage
  import opened IpUsageStore
  import opened Words

  // ----- segments

  /** Inclusive bounds, as offsets into the window. */
  datatype Segment = Segment(start: nat, end: nat)

  predicate Covers(s: Segment, i: int) {
    s.start <= i <= s.end
  }

  predicate Covered(segments: seq<Segment>, i: int) {
    exists k :: 0 <= k < |segments| && Covers(segments[k], i)
  }

  /** In order, within the first `n` flags, and with a gap between neighbours. */
  predicate Separate(segments: seq<Segment>, n: nat) {
    && (forall k :: 0 <= k < |segments| ==> segments[k].start <= segments[k].end < n)
    && (forall j, k :: 0 <= j < k < |segments| ==> segments[j].end + 1 < segments[k].start)
  }

  /** The maximal runs of true flags among the first `n`. */
  ghost predicate AreRuns(flags: seq<bool>, n: nat, segments: seq<Segment>)
    requires n <= |flags|
  {
    Separate(segments, n) && forall i :: 0 <= i < n ==> (flags[i] <==> Covered(segments, i))
  }

  lemma AppendRun(flags: seq<bool>, start: nat, n: nat, segments: seq<Segment>)
    requires start < n <= |flags| && AreRuns(flags, start, segments)
    requires forall i :: start <= i < n ==> flags[i]
    requires start > 0 ==> !flags[start - 1]
    ensures AreRuns(flags, n, segments + [Segment(start, n - 1)])
  {
    var more := segments + [Segment(start, n - 1)];
    if segments != [] {
      var last := segments[|segments| - 1];
      assert Covers(last, last.end);
      assert Covered(segments, last.end);
    }
    forall i | 0 <= i < n
      ensures flags[i] <==> Covered(more, i)
    {
      assert Covers(more[|segments|], i) <==> start <= i;
      if i < start {
        if k :| 0 <= k < |segments| && Covers(segments[k], i) {
          assert Covers(more[k], i);
        }
      }
    }
  }

  lemma SkipFalse(flags: seq<bool>, n: nat, segments: seq<Segment>)
    requires n < |flags| && AreRuns(flags, n, segments) && !flags[n]
    ensures AreRuns(flags, n + 1, segments)
  {
  }

  method BuildSegments(flags: seq<bool>) returns (segments: seq<Segment>)
    ensures AreRuns(flags, |flags|, segments)
  {
    segments := [];
    var startIndex: Option<nat> := None;
    for index := 0 to |flags|
      invariant startIndex.None? ==> AreRuns(flags, index, segments) && (index > 0 ==> !flags[index - 1])
      invariant startIndex.Some? ==>
                  && startIndex.value < index && AreRuns(flags, startIndex.value, segments)
                  && (forall i :: startIndex.value <= i < index ==> flags[i])
                  && (startIndex.value > 0 ==> !flags[startIndex.value - 1])
    {
      match startIndex
      case None =>
        if flags[index] {
          startIndex := Some(index);
        } else {
          SkipFalse(flags, index, segments);
        }
      case Some(start) =>
        if !flags[index] {
          AppendRun(flags, start, index, segments);
          segments := segments + [Segment(start, index - 1)];
          SkipFalse(flags, index, segments);
          startIndex := None;
        }
    }
    if startIndex.Some? {
      AppendRun(flags, startIndex.value, |flags|, segments);
      segments := segments + [Segment(startIndex.value, |flags| - 1)];
    }
  }

  /** What the last run of a run list says about the flags. */
  lemma LastRun(flags: seq<bool>, n: nat, a: seq<Segment>)
    requires n <= |flags| && AreRuns(flags, n, a) && a != []
    ensures var s := a[|a| - 1];
            && flags[s.end] && (forall i :: s.end < i < n ==> !flags[i])
            && (forall i :: s.start <= i <= s.end ==> flags[i])
            && (s.start > 0 ==> !flags[s.start - 1])
    ensures AreRuns(flags, a[|a| - 1].start, a[..|a| - 1])
  {
    var s, rest := a[|a| - 1], a[..|a| - 1];
    forall i | s.start <= i <= s.end
      ensures flags[i]
    {
      assert Covers(s, i) && Covered(a, i);
    }
    forall i | s.end < i < n
      ensures !flags[i]
    {
      assert !Covered(a, i);
    }
    forall i | 0 <= i < s.start
      ensures flags[i] <==> Covered(rest, i)
    {
      if k :| 0 <= k < |a| && Covers(a[k], i) {
        assert Covers(rest[k], i);
      }
      if k :| 0 <= k < |rest| && Covers(rest[k], i) {
        assert Covers(a[k], i);
      }
    }
    if s.start > 0 {
      assert !Covered(rest, s.start - 1);
    }
  }

  lemma NoRunsIffAllFalse(flags: seq<bool>, n: nat, a: seq<Segment>)
    requires n <= |flags| && AreRuns(flags, n, a)
    ensures a == [] <==> forall i :: 0 <= i < n ==> !flags[i]
  {
    if a != [] {
      LastRun(flags, n, a);
    }
  }

  /** The flags have only one list of maximal runs, so segments expand back to them. */
  lemma {:induction false} RunsAreUnique(flags: seq<bool>, n: nat, a: seq<Segment>, b: seq<Segment>)
    requires n <= |flags| && AreRuns(flags, n, a) && AreRuns(flags, n, b)
    ensures a == b
    decreases |a|
  {
    NoRunsIffAllFalse(flags, n, a);
    NoRunsIffAllFalse(flags, n, b);
    if a != [] {
      LastRun(flags, n, a);
      LastRun(flags, n, b);
      assert a[|a| - 1] == b[|b| - 1];
      RunsAreUnique(flags, a[|a| - 1].start, a[..|a| - 1], b[..|b| - 1]);
      assert a == a[..|a| - 1] + [a[|a| - 1]];
      assert b == b[..|b| - 1] + [b[|b| - 1]];
    }
  }

  // ----- merging window flags

  /** A record read for a lane or an IP. */
  datatype Visit<L> = Visit(owner: L, slot: Slot)

  /** Some visited record of `owner` is marked at offset `x`; `marks` gives each record's offsets. */
  ghost predicate Marks<L(!new)>(marks: map<Slot, set<nat>>, visits: set<Visit<L>>, owner: L, x: nat) {
    exists v :: v in visits && v.owner == owner && v.slot in marks && x in marks[v.slot]
  }

  /** `out` is the union of the visited records per owner, without labels that never appear. */
  ghost predicate Merged<L(!new)>(marks: map<Slot, set<nat>>, visits: set<Visit<L>>, len: nat, out: map<L, seq<bool>>) {
    && (forall l :: l in out ==> |out[l]| == len && exists x :: 0 <= x < len && out[l][x])
    && (forall l, x: nat :: x < len && Marks(marks, visits, l, x) ==> l in out)
    && (forall l, x: nat :: l in out && x < len ==> (out[l][x] <==> Marks(marks, visits, l, x)))
  }

  /** `union_flags`: flags beyond the shorter list stay as they are. */
  method UnionFlags(target: seq<bool>, source: seq<bool>) returns (r: seq<bool>)
    ensures |r| == |target| && forall x :: 0 <= x < |r| ==> (r[x] <==> target[x] || (x < |source| && source[x]))
  {
    r := target;
    var n := if |source| <= |target| then |source| else |target|;
    for i := 0 to n
      invariant |r| == |target|
      invariant forall x :: 0 <= x < |r| ==> (r[x] <==> target[x] || (x < i && source[x]))
    {
      r := r[i := r[i] || source[i]];
    }
  }

  method AddFlags<L(==,!new)>(out: map<L, seq<bool>>, owner: L, flags: seq<bool>, slot: Slot,
                              ghost marks: map<Slot, set<nat>>, ghost visits: set<Visit<L>>)
    returns (r: map<L, seq<bool>>)
    requires Merged(marks, visits, |flags|, out) && slot in marks
    requires exists x :: 0 <= x < |flags| && flags[x]
    requires forall x: nat :: x < |flags| ==> (flags[x] <==> x in marks[slot])
    ensures Merged(marks, visits + {Visit(owner, slot)}, |flags|, r)
  {
    var entry := if owner in out then out[owner] else seq(|flags|, _ => false);
    var merged := UnionFlags(entry, flags);
    r := out[owner := merged];
    MergeOne(out, owner, flags, slot, marks, visits, merged);
  }

  lemma MarksAfterOne<L(!new)>(marks: map<Slot, set<nat>>, visits: set<Visit<L>>, owner: L, slot: Slot, l: L, x: nat)
    requires slot in marks
    ensures Marks(marks, visits + {Visit(owner, slot)}, l, x) <==>
            Marks(marks, visits, l, x) || (l == owner && x in marks[slot])
  {
    var more := visits + {Visit(owner, slot)};
    if v :| v in visits && v.owner == l && v.slot in marks && x in marks[v.slot] {
      assert v in more;
    }
    if l == owner && x in marks[slot] {
      assert Visit(owner, slot) in more;
    }
  }

  lemma MergeOne<L(!new)>(out: map<L, seq<bool>>, owner: L, flags: seq<bool>, slot: Slot,
                          marks: map<Slot, set<nat>>, visits: set<Visit<L>>, merged: seq<bool>)
    requires Merged(marks, visits, |flags|, out) && slot in marks
    requires exists x :: 0 <= x < |flags| && flags[x]
    requires forall x: nat :: x < |flags| ==> (flags[x] <==> x in marks[slot])
    requires |merged| == |flags|
    requires forall x :: 0 <= x < |flags| ==> (merged[x] <==> (owner in out && out[owner][x]) || flags[x])
    ensures Merged(marks, visits + {Visit(owner, slot)}, |flags|, out[owner := merged])
  {
    var r, more := out[owner := merged], visits + {Visit(owner, slot)};
    forall l, x: nat
      ensures Marks(marks, more, l, x) <==> Marks(marks, visits, l, x) || (l == owner && x in marks[slot])
    {
      MarksAfterOne(marks, visits, owner, slot, l, x);
    }
    forall l, x: nat | l in r && x < |flags|
      ensures r[l][x] <==> Marks(marks, more, l, x)
    {
    }
    var x :| 0 <= x < |flags| && flags[x];
    assert merged[x];
  }

  // ----- counting

  /** The IPs present at offset `x`. */
  function PresentAt(byIp: map<Ip, seq<bool>>, ips: set<Ip>, x: nat): set<Ip>
    requires ips <= byIp.Keys && forall ip :: ip in byIp ==> x < |byIp[ip]|
  {
    set ip | ip in ips && byIp[ip][x]
  }

  /** The minutes of all `ips` among the first `n` offsets, added up. */
  ghost function TotalMinutes(byIp: map<Ip, seq<bool>>, ips: set<Ip>, n: nat): nat
    requires ips <= byIp.Keys && forall ip :: ip in byIp ==> n <= |byIp[ip]|
  {
    if ips == {} then 0
    else var ip := Choose(ips); Trues(byIp[ip][..n]) + TotalMinutes(byIp, ips - {ip}, n)
  }

  lemma {:induction false} NoMinutesYet(byIp: map<Ip, seq<bool>>, ips: set<Ip>)
    requires ips <= byIp.Keys
    ensures TotalMinutes(byIp, ips, 0) == 0
  {
    if ips != {} {
      NoMinutesYet(byIp, ips - {Choose(ips)});
    }
  }

  lemma {:induction false} OneMoreMinute(byIp: map<Ip, seq<bool>>, ips: set<Ip>, n: nat)
    requires ips <= byIp.Keys && forall ip :: ip in byIp ==> n < |byIp[ip]|
    ensures TotalMinutes(byIp, ips, n + 1) == TotalMinutes(byIp, ips, n) + |PresentAt(byIp, ips, n)|
  {
    if ips == {} {
      assert PresentAt(byIp, ips, n) == {};
    } else {
      var ip := Choose(ips);
      OneMoreMinute(byIp, ips - {ip}, n);
      TruesOneMore(byIp[ip], n);
      assert PresentAt(byIp, ips, n) ==
             PresentAt(byIp, ips - {ip}, n) + if byIp[ip][n] then {ip} else {};
    }
  }

  function SeriesTotal(series: seq<nat>): nat {
    if series == [] then 0 else SeriesTotal(series[..|series| - 1]) + series[|series| - 1]
  }

  /** Counting IPs per minute and minutes per IP counts the same pairs. */
  lemma {:induction false} SeriesAddsUp(byIp: map<Ip, seq<bool>>, series: seq<nat>)
    requires forall ip :: ip in byIp ==> |series| <= |byIp[ip]|
    requires forall x :: 0 <= x < |series| ==> series[x] == |PresentAt(byIp, byIp.Keys, x)|
    ensures SeriesTotal(series) == TotalMinutes(byIp, byIp.Keys, |series|)
    decreases |series|
  {
    if series == [] {
      NoMinutesYet(byIp, byIp.Keys);
    } else {
      SeriesAddsUp(byIp, series[..|series| - 1]);
      OneMoreMinute(byIp, byIp.Keys, |series| - 1);
    }
  }

  // ----- the window view

  datatype Listed = Listed(key: Key, endpointTag: string)

  /** The source joins the two with a bar, which no IP contains. */
  datatype Lane = Lane(endpointTag: string, ip: Ip)

  ghost predicate Shows(bitmap: Bitmap, startIndex: nat, x: nat) {
    startIndex + x in Marked(bitmap)
  }

  /** `extract_window_flags`. */
  method ExtractWindowFlags(bitmap: Bitmap, startIndex: nat, len: nat) returns (flags: seq<bool>)
    ensures |flags| == len && forall x: nat :: x < len ==> (flags[x] <==> Shows(bitmap, startIndex, x))
  {
    flags := [];
    for offset := 0 to len
      invariant |flags| == offset
      invariant forall x: nat :: x < offset ==> (flags[x] <==> Shows(bitmap, startIndex, x))
    {
      var present := TestBit(bitmap, startIndex + offset);
      flags := flags + [present];
    }
  }

  ghost function Offsets(bitmap: Bitmap, startIndex: nat, len: nat): set<nat> {
    set x: nat | x < len && Shows(bitmap, startIndex, x)
  }

  /** For every record, the offsets of the requested window it is marked at. */
  ghost function WindowMarks(records: map<Slot, Record>, startIndex: nat, len: nat): map<Slot, set<nat>> {
    map s | s in records :: Offsets(records[s].bitmap, startIndex, len)
  }

  /** One record, read for its IP and for its lane. */
  method VisitRecord(r: Record, slot: Slot, tag: string, startIndex: nat, len: nat,
                     byIp: map<Ip, seq<bool>>, lanes: map<Lane, seq<bool>>,
                     ghost marks: map<Slot, set<nat>>, ghost ipVisits: set<Visit<Ip>>,
                     ghost laneVisits: set<Visit<Lane>>)
    returns (byIp': map<Ip, seq<bool>>, lanes': map<Lane, seq<bool>>)
    requires Merged(marks, ipVisits, len, byIp) && Merged(marks, laneVisits, len, lanes)
    requires slot in marks && r.minutes == |Marked(r.bitmap)|
    requires marks[slot] == Offsets(r.bitmap, startIndex, len)
    ensures Merged(marks, ipVisits + {Visit(slot.ip, slot)}, len, byIp')
    ensures Merged(marks, laneVisits + {Visit(Lane(tag, slot.ip), slot)}, len, lanes')
  {
    byIp', lanes' := byIp, lanes;
    var flags := ExtractWindowFlags(r.bitmap, startIndex, len);
    NoneTrueIff(flags);
    if r.minutes == 0 || Trues(flags) == 0 {
      assert marks[slot] == {};
      UnmarkedVisit(marks, ipVisits, len, byIp, slot.ip, slot);
      UnmarkedVisit(marks, laneVisits, len, lanes, Lane(tag, slot.ip), slot);
    } else {
      byIp' := AddFlags(byIp, slot.ip, flags, slot, marks, ipVisits);
      lanes' := AddFlags(lanes, Lane(tag, slot.ip), flags, slot, marks, laneVisits);
    }
  }

  lemma UnmarkedVisit<L(!new)>(marks: map<Slot, set<nat>>, visits: set<Visit<L>>, len: nat, out: map<L, seq<bool>>,
                               owner: L, slot: Slot)
    requires Merged(marks, visits, len, out) && slot in marks && marks[slot] == {}
    ensures Merged(marks, visits + {Visit(owner, slot)}, len, out)
  {
    forall l, x: nat
      ensures Marks(marks, visits + {Visit(owner, slot)}, l, x) <==> Marks(marks, visits, l, x)
    {
      MarksAfterOne(marks, visits, owner, slot, l, x);
    }
  }

  ghost function IpVisits(slots: set<Slot>, listed: seq<Listed>): set<Visit<Ip>> {
    set m, s | m in listed && s in slots && s.key == m.key :: Visit(s.ip, s)
  }

  ghost function LaneVisits(slots: set<Slot>, listed: seq<Listed>): set<Visit<Lane>> {
    set m, s | m in listed && s in slots && s.key == m.key :: Visit(Lane(m.endpointTag, s.ip), s)
  }

  /** The records of one listed membership. */
  method VisitMember(records: map<Slot, Record>, m: Listed, startIndex: nat, len: nat,
                     byIp: map<Ip, seq<bool>>, lanes: map<Lane, seq<bool>>,
                     ghost marks: map<Slot, set<nat>>, ghost ipVisits: set<Visit<Ip>>,
                     ghost laneVisits: set<Visit<Lane>>)
    returns (byIp': map<Ip, seq<bool>>, lanes': map<Lane, seq<bool>>)
    requires Merged(marks, ipVisits, len, byIp) && Merged(marks, laneVisits, len, lanes)
    requires marks == WindowMarks(records, startIndex, len)
    requires forall s :: s in records ==> records[s].minutes == |Marked(records[s].bitmap)|
    ensures Merged(marks, ipVisits + IpVisits(records.Keys, [m]), len, byIp')
    ensures Merged(marks, laneVisits + LaneVisits(records.Keys, [m]), len, lanes')
  {
    byIp', lanes' := byIp, lanes;
    var todo := set s | s in records && s.key == m.key;
    ghost var done: set<Slot> := {};
    ghost var ips, tags := ipVisits, laneVisits;
    NoSlots(ips, tags, m);
    while todo != {}
      invariant todo <= records.Keys && forall s :: s in todo ==> s.key == m.key
      invariant done + todo == set s | s in records && s.key == m.key
      invariant Merged(marks, ips, len, byIp') && Merged(marks, tags, len, lanes')
      invariant ips == ipVisits + IpVisits(done, [m]) && tags == laneVisits + LaneVisits(done, [m])
      decreases todo
    {
      var s :| s in todo;
      byIp', lanes' := VisitRecord(records[s], s, m.endpointTag, startIndex, len, byIp', lanes', marks, ips, tags);
      OneMoreSlot(ipVisits, laneVisits, done, s, m);
      ips, tags := ips + {Visit(s.ip, s)}, tags + {Visit(Lane(m.endpointTag, s.ip), s)};
      done, todo := done + {s}, todo - {s};
    }
    OnlyItsOwnSlots(done, records.Keys, m);
  }

  lemma NoSlots(ips: set<Visit<Ip>>, tags: set<Visit<Lane>>, m: Listed)
    ensures ips == ips + IpVisits({}, [m]) && tags == tags + LaneVisits({}, [m])
  {
  }

  lemma OneMoreSlot(ips: set<Visit<Ip>>, tags: set<Visit<Lane>>, slots: set<Slot>, s: Slot, m: Listed)
    requires s.key == m.key
    ensures ips + IpVisits(slots + {s}, [m]) == ips + IpVisits(slots, [m]) + {Visit(s.ip, s)}
    ensures tags + LaneVisits(slots + {s}, [m]) == tags + LaneVisits(slots, [m]) + {Visit(Lane(m.endpointTag, s.ip), s)}
  {
    assert IpVisits(slots + {s}, [m]) == IpVisits(slots, [m]) + {Visit(s.ip, s)};
    assert LaneVisits(slots + {s}, [m]) == LaneVisits(slots, [m]) + {Visit(Lane(m.endpointTag, s.ip), s)};
  }

  lemma OnlyItsOwnSlots(own: set<Slot>, slots: set<Slot>, m: Listed)
    requires own == set s | s in slots && s.key == m.key
    ensures IpVisits(own, [m]) == IpVisits(slots, [m]) && LaneVisits(own, [m]) == LaneVisits(slots, [m])
  {
  }

  lemma OneMoreListed(slots: set<Slot>, listed: seq<Listed>, m: Listed)
    ensures IpVisits(slots, listed + [m]) == IpVisits(slots, listed) + IpVisits(slots, [m])
    ensures LaneVisits(slots, listed + [m]) == LaneVisits(slots, listed) + LaneVisits(slots, [m])
  {
  }

  /** Per-IP and per-lane flags over the last `len` minutes of the listed memberships. */
  method CollectFlags(records: map<Slot, Record>, listed: seq<Listed>, startIndex: nat, len: nat)
    returns (byIp: map<Ip, seq<bool>>, lanes: map<Lane, seq<bool>>)
    requires forall s :: s in records ==> records[s].minutes == |Marked(records[s].bitmap)|
    ensures Merged(WindowMarks(records, startIndex, len), IpVisits(records.Keys, listed), len, byIp)
    ensures Merged(WindowMarks(records, startIndex, len), LaneVisits(records.Keys, listed), len, lanes)
  {
    byIp, lanes := map[], map[];
    ghost var marks := WindowMarks(records, startIndex, len);
    ghost var ips, tags: set<Visit<Lane>> := {}, {};
    for i := 0 to |listed|
      invariant ips == IpVisits(records.Keys, listed[..i]) && tags == LaneVisits(records.Keys, listed[..i])
      invariant Merged(marks, ips, len, byIp) && Merged(marks, tags, len, lanes)
    {
      var m := listed[i];
      byIp, lanes := VisitMember(records, m, startIndex, len, byIp, lanes, marks, ips, tags);
      OneMoreListed(records.Keys, listed[..i], m);
      assert listed[..i + 1] == listed[..i] + [m];
      ips, tags := ips + IpVisits(records.Keys, [m]), tags + LaneVisits(records.Keys, [m]);
    }
    assert listed[..|listed|] == listed;
  }

  /** The IPs present at offset `x`, counted one by one. */
  method CountPresent(byIp: map<Ip, seq<bool>>, x: nat) returns (count: nat)
    requires forall ip :: ip in byIp ==> x < |byIp[ip]|
    ensures count == |PresentAt(byIp, byIp.Keys, x)|
  {
    count := 0;
    var todo, done := byIp.Keys, {};
    assert PresentAt(byIp, done, x) == {};
    while todo != {}
      invariant byIp.Keys == done + todo && done !! todo
      invariant count == |PresentAt(byIp, done, x)|
      decreases todo
    {
      var ip := AnyOf(todo);
      OneMorePresent(byIp, done, ip, x);
      if byIp[ip][x] {
        count := count + 1;
      }
      MoveOne(byIp.Keys, done, todo, ip);
      todo, done := todo - {ip}, done + {ip};
    }
    AllMoved(byIp.Keys, done, todo);
  }

  lemma OneMorePresent(byIp: map<Ip, seq<bool>>, ips: set<Ip>, ip: Ip, x: nat)
    requires ips <= byIp.Keys && ip in byIp && ip !in ips && forall i :: i in byIp ==> x < |byIp[i]|
    ensures |PresentAt(byIp, ips + {ip}, x)| == |PresentAt(byIp, ips, x)| + if byIp[ip][x] then 1 else 0
  {
    assert PresentAt(byIp, ips + {ip}, x) == PresentAt(byIp, ips, x) + if byIp[ip][x] then {ip} else {};
  }

  method BuildSeries(byIp: map<Ip, seq<bool>>, len: nat) returns (series: seq<nat>)
    requires forall ip :: ip in byIp ==> |byIp[ip]| == len
    ensures |series| == len
    ensures forall x :: 0 <= x < len ==> series[x] == |PresentAt(byIp, byIp.Keys, x)|
  {
    series := [];
    for index := 0 to len
      invariant |series| == index
      invariant forall x :: 0 <= x < index ==> series[x] == |PresentAt(byIp, byIp.Keys, x)|
    {
      var count := CountPresent(byIp, index);
      series := series + [count];
    }
  }

  method BuildTimeline(lanes: map<Lane, seq<bool>>, len: nat) returns (timeline: map<Lane, seq<Segment>>)
    requires forall l :: l in lanes ==> |lanes[l]| == len
    ensures timeline.Keys == lanes.Keys
    ensures forall l :: l in lanes ==> AreRuns(lanes[l], len, timeline[l])
  {
    timeline := map[];
    var todo := lanes.Keys;
    while todo != {}
      invariant todo <= lanes.Keys && timeline.Keys == lanes.Keys - todo
      invariant forall l :: l in timeline ==> AreRuns(lanes[l], len, timeline[l])
      decreases todo
    {
      var lane :| lane in todo;
      var segments := BuildSegments(lanes[lane]);
      timeline := timeline[lane := segments];
      todo := todo - {lane};
    }
  }

  /** `ip` was seen by a listed membership at offset `x` of the `len` minutes ending at `latest`. */
  ghost predicate SeenByListed(slots: map<Slot, Seen>, listed: seq<Listed>, latest: int, len: nat, ip: Ip, x: nat) {
    exists m :: m in listed && SeenAt(slots, Slot(m.key, ip), latest - (len - 1 - x))
  }

  ghost predicate SeenOnLane(slots: map<Slot, Seen>, listed: seq<Listed>, latest: int, len: nat, lane: Lane, x: nat) {
    exists m :: m in listed && m.endpointTag == lane.endpointTag
                && SeenAt(slots, Slot(m.key, lane.ip), latest - (len - 1 - x))
  }

  /** The IPs seen in the window, each with its flags. */
  ghost predicate IpsMatch(slots: map<Slot, Seen>, listed: seq<Listed>, latest: int, len: nat,
                           byIp: map<Ip, seq<bool>>)
  {
    && (forall ip :: ip in byIp ==> |byIp[ip]| == len && exists x :: 0 <= x < len && byIp[ip][x])
    && (forall ip, x: nat :: ip in byIp && x < len ==>
          (byIp[ip][x] <==> SeenByListed(slots, listed, latest, len, ip, x)))
    && (forall ip, x: nat :: x < len && SeenByListed(slots, listed, latest, len, ip, x) ==> ip in byIp)
  }

  /** The lanes seen in the window, each with the maximal runs of the minutes it was seen at. */
  ghost predicate LanesMatch(slots: map<Slot, Seen>, listed: seq<Listed>, latest: int, len: nat,
                             timeline: map<Lane, seq<Segment>>) {
    && (forall l :: l in timeline ==> timeline[l] != [] && Separate(timeline[l], len))
    && (forall l, x: nat :: l in timeline && x < len ==>
          (Covered(timeline[l], x) <==> SeenOnLane(slots, listed, latest, len, l, x)))
    && (forall l, x: nat :: x < len && SeenOnLane(slots, listed, latest, len, l, x) ==> l in timeline)
  }

  /** The IPs seen at each minute, counted. */
  ghost predicate SeriesMatches(byIp: map<Ip, seq<bool>>, len: nat, series: seq<nat>) {
    && |series| == len && (forall ip :: ip in byIp ==> |byIp[ip]| == len)
    && forall x :: 0 <= x < len ==> series[x] == |PresentAt(byIp, byIp.Keys, x)|
  }

  /** The whole view, over the sets of minutes the bitmaps stand for. */
  method BuildWindowView(records: map<Slot, Record>, listed: seq<Listed>, len: nat,
                         ghost slots: map<Slot, Seen>, ghost latest: int)
    returns (byIp: map<Ip, seq<bool>>, series: seq<nat>, timeline: map<Lane, seq<Segment>>)
    requires len <= WINDOW && AllStand(records, slots, latest)
    ensures IpsMatch(slots, listed, latest, len, byIp)
    ensures SeriesMatches(byIp, len, series) && SeriesTotal(series) == TotalMinutes(byIp, byIp.Keys, len)
    ensures LanesMatch(slots, listed, latest, len, timeline)
  {
    ghost var marks := WindowMarks(records, WINDOW - len, len);
    var lanes;
    CountsStand(records, slots, latest);
    byIp, lanes := CollectFlags(records, listed, WINDOW - len, len);
    IpFlagsMatch(records, listed, len, slots, latest, marks, byIp);
    series := BuildSeries(byIp, len);
    SeriesAddsUp(byIp, series);
    timeline := BuildTimeline(lanes, len);
    LaneRunsMatch(records, listed, len, slots, latest, marks, lanes, timeline);
  }

  lemma CountsStand(records: map<Slot, Record>, slots: map<Slot, Seen>, latest: int)
    requires AllStand(records, slots, latest)
    ensures forall s :: s in records ==> records[s].minutes == |Marked(records[s].bitmap)|
  {
  }

  lemma IpFlagsMatch(records: map<Slot, Record>, listed: seq<Listed>, len: nat, slots: map<Slot, Seen>, latest: int,
                     marks: map<Slot, set<nat>>, byIp: map<Ip, seq<bool>>)
    requires len <= WINDOW && AllStand(records, slots, latest) && marks == WindowMarks(records, WINDOW - len, len)
    requires Merged(marks, IpVisits(records.Keys, listed), len, byIp)
    ensures IpsMatch(slots, listed, latest, len, byIp)
  {
    forall ip, x: nat | x < len
      ensures Marks(marks, IpVisits(records.Keys, listed), ip, x) <==> SeenByListed(slots, listed, latest, len, ip, x)
    {
      IpMarksAreSeen(records, listed, len, slots, latest, marks, ip, x);
    }
    MergedMatches(marks, IpVisits(records.Keys, listed), len, byIp, slots, listed, latest);
  }

  lemma MergedMatches(marks: map<Slot, set<nat>>, visits: set<Visit<Ip>>, len: nat, byIp: map<Ip, seq<bool>>,
                      slots: map<Slot, Seen>, listed: seq<Listed>, latest: int)
    requires Merged(marks, visits, len, byIp)
    requires forall ip, x: nat :: x < len ==>
               (Marks(marks, visits, ip, x) <==> SeenByListed(slots, listed, latest, len, ip, x))
    ensures IpsMatch(slots, listed, latest, len, byIp)
  {
  }

  lemma LaneRunsMatch(records: map<Slot, Record>, listed: seq<Listed>, len: nat, slots: map<Slot, Seen>, latest: int,
                      marks: map<Slot, set<nat>>, lanes: map<Lane, seq<bool>>, timeline: map<Lane, seq<Segment>>)
    requires len <= WINDOW && AllStand(records, slots, latest) && marks == WindowMarks(records, WINDOW - len, len)
    requires Merged(marks, LaneVisits(records.Keys, listed), len, lanes) && timeline.Keys == lanes.Keys
    requires forall l :: l in lanes ==> AreRuns(lanes[l], len, timeline[l])
    ensures LanesMatch(slots, listed, latest, len, timeline)
  {
    LanesAreRuns(marks, LaneVisits(records.Keys, listed), len, lanes, timeline);
    forall lane, x: nat | x < len
      ensures Marks(marks, LaneVisits(records.Keys, listed), lane, x) <==>
              SeenOnLane(slots, listed, latest, len, lane, x)
    {
      LaneMarksAreSeen(records, listed, len, slots, latest, marks, lane, x);
    }
  }

  lemma LanesAreRuns(marks: map<Slot, set<nat>>, visits: set<Visit<Lane>>, len: nat, lanes: map<Lane, seq<bool>>,
                     timeline: map<Lane, seq<Segment>>)
    requires Merged(marks, visits, len, lanes) && timeline.Keys == lanes.Keys
    requires forall l :: l in lanes ==> AreRuns(lanes[l], len, timeline[l])
    ensures forall l :: l in timeline ==> timeline[l] != [] && Separate(timeline[l], len)
    ensures forall l, x: nat :: l in timeline && x < len ==> (Covered(timeline[l], x) <==> Marks(marks, visits, l, x))
    ensures forall l, x: nat :: x < len && Marks(marks, visits, l, x) ==> l in timeline
  {
    forall l | l in timeline
      ensures timeline[l] != []
    {
      NoRunsIffAllFalse(lanes[l], len, timeline[l]);
    }
  }

  lemma MarkIsSeen(records: map<Slot, Record>, len: nat, slots: map<Slot, Seen>, latest: int,
                   marks: map<Slot, set<nat>>, s: Slot, x: nat)
    requires len <= WINDOW && AllStand(records, slots, latest) && marks == WindowMarks(records, WINDOW - len, len)
    requires x < len
    ensures s in marks && x in marks[s] <==> SeenAt(slots, s, latest - (len - 1 - x))
  {
    if s in records {
      assert Stands(records[s], slots[s], latest);
      MinuteOfMark(Marked(records[s].bitmap), latest, WINDOW - len + x);
    }
  }

  lemma IpMarksAreSeen(records: map<Slot, Record>, listed: seq<Listed>, len: nat, slots: map<Slot, Seen>, latest: int,
                       marks: map<Slot, set<nat>>, ip: Ip, x: nat)
    requires len <= WINDOW && AllStand(records, slots, latest) && marks == WindowMarks(records, WINDOW - len, len)
    requires x < len
    ensures Marks(marks, IpVisits(records.Keys, listed), ip, x) <==> SeenByListed(slots, listed, latest, len, ip, x)
  {
    forall s
      ensures s in marks && x in marks[s] <==> SeenAt(slots, s, latest - (len - 1 - x))
    {
      MarkIsSeen(records, len, slots, latest, marks, s, x);
    }
    if m :| m in listed && SeenAt(slots, Slot(m.key, ip), latest - (len - 1 - x)) {
      assert Visit(ip, Slot(m.key, ip)) in IpVisits(records.Keys, listed);
    }
  }

  lemma LaneMarksAreSeen(records: map<Slot, Record>, listed: seq<Listed>, len: nat, slots: map<Slot, Seen>, latest: int,
                         marks: map<Slot, set<nat>>, lane: Lane, x: nat)
    requires len <= WINDOW && AllStand(records, slots, latest) && marks == WindowMarks(records, WINDOW - len, len)
    requires x < len
    ensures Marks(marks, LaneVisits(records.Keys, listed), lane, x) <==>
            SeenOnLane(slots, listed, latest, len, lane, x)
  {
    forall s
      ensures s in marks && x in marks[s] <==> SeenAt(slots, s, latest - (len - 1 - x))
    {
      MarkIsSeen(records, len, slots, latest, marks, s, x);
    }
    if m :| m in listed && m.endpointTag == lane.endpointTag
            && SeenAt(slots, Slot(m.key, lane.ip), latest - (len - 1 - x)) {
      assert Visit(lane, Slot(m.key, lane.ip)) in LaneVisits(records.Keys, listed);
    }
  }
}
