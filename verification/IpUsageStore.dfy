/** The persisted bitmaps and the loops that update them in place (src/inbound_ip_usage.rs). */
module IpUsageStore {
  import opened IpBitmap
  import opened IpUsage
  import opened Words

  datatype Record = Record(bitmap: Bitmap, minutes: U32, first: Option<int>, last: Option<int>, geo: Geo)

  // ----- what the bitmaps stand for

  /** Bit `i` stands for the minute `latest - (WINDOW - 1 - i)`. */
  function Minutes(marks: set<nat>, latest: int): set<int> {
    set i | i in marks :: latest - (WINDOW - 1 - i)
  }

  /** Full length, `minutes` the number of set bits, and the set bits the minutes of `s`. */
  ghost predicate Stands(r: Record, s: Seen, latest: int) {
    && |r.bitmap| == BYTES && r.minutes == |Marked(r.bitmap)|
    && s == Seen(Minutes(Marked(r.bitmap), latest), r.first, r.last, r.geo)
  }

  ghost predicate AllStand(records: map<Slot, Record>, slots: map<Slot, Seen>, latest: int) {
    && records.Keys == slots.Keys
    && forall s {:trigger records[s]} :: s in records ==>
         records[s].minutes > 0 && Stands(records[s], slots[s], latest)
  }

  // ----- one record

  lemma KeptIsRecent(marks: set<nat>, latest: int, shift: nat)
    requires forall i :: i in marks ==> i < WINDOW
    ensures Minutes(Kept(marks, shift), latest + shift) == Recent(Minutes(marks, latest), latest + shift)
  {
    var a, b := Minutes(Kept(marks, shift), latest + shift), Recent(Minutes(marks, latest), latest + shift);
    forall t | t in a
      ensures t in b
    {
      var j :| j in Kept(marks, shift) && t == latest + shift - (WINDOW - 1 - j);
      assert j + shift in marks && t == latest - (WINDOW - 1 - (j + shift));
    }
    forall t | t in b
      ensures t in a
    {
      var i :| i in marks && t == latest - (WINDOW - 1 - i);
      assert i - shift in Kept(marks, shift);
    }
  }

  lemma EmptyMinutes(marks: set<nat>, latest: int)
    ensures Minutes(marks, latest) == {} <==> marks == {}
  {
    if i :| i in marks {
      assert latest - (WINDOW - 1 - i) in Minutes(marks, latest);
    }
  }

  lemma MinutesInWindow(marks: set<nat>, latest: int)
    requires forall i :: i in marks ==> i < WINDOW
    ensures forall t :: t in Minutes(marks, latest) ==> latest - WINDOW < t <= latest
  {
  }

  /** A record in use holds a minute, and only minutes of the window. */
  lemma StandsInWindow(r: Record, s: Seen, latest: int)
    requires Stands(r, s, latest)
    ensures r.minutes == 0 <==> s.minutes == {}
    ensures forall t :: t in s.minutes ==> latest - WINDOW < t <= latest
  {
    MarkedCount(r.bitmap);
    EmptyMinutes(Marked(r.bitmap), latest);
    MinutesInWindow(Marked(r.bitmap), latest);
  }

  lemma NormalizedIsFull(b: Bitmap)
    requires |b| == BYTES
    ensures Normalized(b) == b
  {
  }

  lemma ShiftedMinutes(before: set<nat>, after: set<nat>, shift: nat, latest: int)
    requires forall i :: i in before ==> i < WINDOW
    requires forall i :: i in after ==> i < WINDOW
    requires after == Kept(before, shift)
    ensures Minutes(after, latest + shift) == Recent(Minutes(before, latest), latest + shift)
    ensures |after| <= WINDOW
    ensures |after| == 0 <==> Recent(Minutes(before, latest), latest + shift) == {}
  {
    SubsetOfPrefix(after, WINDOW);
    KeptIsRecent(before, latest, shift);
    EmptyMinutes(after, latest + shift);
  }

  method ShiftRecord(r: Record, shift: nat, ghost s: Seen, ghost latest: int) returns (out: Record)
    requires Stands(r, s, latest)
    ensures Stands(out, RecentSeen(s, latest + shift), latest + shift)
    ensures out.minutes == 0 <==> Recent(s.minutes, latest + shift) == {}
  {
    NormalizedIsFull(r.bitmap);
    var bitmap := ShiftBitmap(r.bitmap, shift);
    MarkedCount(r.bitmap);
    MarkedCount(bitmap);
    ShiftedMinutes(Marked(r.bitmap), Marked(bitmap), shift, latest);
    out := r.(bitmap := bitmap, minutes := CountBits(bitmap));
  }

  method SurvivesShift(r: Record, shift: nat, ghost s: Seen, ghost latest: int) returns (any: bool)
    requires Stands(r, s, latest)
    ensures any <==> Recent(s.minutes, latest + shift) != {}
  {
    any := BitmapHasAnyBitAfterShift(r.bitmap, shift);
    MarkedCount(r.bitmap);
    SurvivorsAreRecent(Marked(r.bitmap), shift, latest);
  }

  lemma SurvivorsAreRecent(marks: set<nat>, shift: nat, latest: int)
    requires forall i :: i in marks ==> i < WINDOW
    ensures (shift < WINDOW && exists i :: i in marks && shift <= i) <==>
            Recent(Minutes(marks, latest), latest + shift) != {}
  {
    KeptIsRecent(marks, latest, shift);
    EmptyMinutes(Kept(marks, shift), latest + shift);
    if i :| i in marks && shift <= i {
      assert i - shift in Kept(marks, shift);
    }
  }

  // ----- advancing

  /** `out` holds the slid records of the slots done so far, without the lapsed ones. */
  ghost predicate Slid(slots: map<Slot, Seen>, out: map<Slot, Record>, todo: set<Slot>, horizon: int) {
    && (forall s :: s in out ==> s in slots && s !in todo && out[s].minutes > 0 &&
                                 Stands(out[s], RecentSeen(slots[s], horizon), horizon))
    && (forall s :: s in slots && s !in todo ==> (s in out <==> Recent(slots[s].minutes, horizon) != {}))
  }

  lemma SlideOne(slots: map<Slot, Seen>, out: map<Slot, Record>, todo: set<Slot>, horizon: int, s: Slot, r: Record)
    requires Slid(slots, out, todo, horizon) && s in todo && s in slots
    requires Stands(r, RecentSeen(slots[s], horizon), horizon)
    requires r.minutes == 0 <==> Recent(slots[s].minutes, horizon) == {}
    ensures Slid(slots, if r.minutes != 0 then out[s := r] else out, todo - {s}, horizon)
  {
  }

  lemma SlidAllStand(slots: map<Slot, Seen>, out: map<Slot, Record>, todo: set<Slot>, horizon: int)
    requires Slid(slots, out, todo, horizon) && todo == {}
    ensures AllStand(out, RecentSlots(slots, horizon), horizon)
  {
  }

  method ShiftRecords(records: map<Slot, Record>, shift: nat, ghost slots: map<Slot, Seen>,
                      ghost latest: int, ghost horizon: int)
    returns (out: map<Slot, Record>)
    requires AllStand(records, slots, latest) && horizon == latest + shift
    ensures AllStand(out, RecentSlots(slots, horizon), horizon)
  {
    out := map[];
    var todo := records.Keys;
    while todo != {}
      invariant todo <= records.Keys && Slid(slots, out, todo, horizon)
      decreases todo
    {
      var s :| s in todo;
      var record := ShiftRecord(records[s], shift, slots[s], latest);
      SlideOne(slots, out, todo, horizon, s, record);
      if record.minutes != 0 {
        out := out[s := record];
      }
      todo := todo - {s};
    }
    SlidAllStand(slots, out, todo, horizon);
  }

  lemma AdvanceByNothing(records: map<Slot, Record>, slots: map<Slot, Seen>, latest: int)
    requires AllStand(records, slots, latest)
    ensures RecentSlots(slots, latest) == slots
  {
    forall s | s in slots
      ensures Recent(slots[s].minutes, latest) == slots[s].minutes != {}
    {
      StandsInWindow(records[s], slots[s], latest);
    }
  }

  lemma AdvanceByWindow(records: map<Slot, Record>, slots: map<Slot, Seen>, latest: int, minute: int)
    requires AllStand(records, slots, latest) && minute >= latest + WINDOW
    ensures RecentSlots(slots, minute) == map[]
  {
    forall s | s in slots
      ensures Recent(slots[s].minutes, minute) == {}
    {
      StandsInWindow(records[s], slots[s], latest);
    }
  }

  method AdvanceRecords(records: map<Slot, Record>, previous: int, minute: int, ghost slots: map<Slot, Seen>,
                        ghost now: int)
    returns (out: map<Slot, Record>)
    requires AllStand(records, slots, previous) && now == Max(previous, minute)
    ensures AllStand(out, RecentSlots(slots, now), now)
  {
    var shift := minute - previous;
    if shift <= 0 {
      AdvanceByNothing(records, slots, previous);
      out := records;
    } else if shift >= WINDOW {
      AdvanceByWindow(records, slots, previous, minute);
      out := map[];
    } else {
      out := ShiftRecords(records, shift, slots, previous, now);
    }
  }

  // ----- known locations

  /** `out` is what the offers done so far make known; they come first in key order. */
  ghost predicate KnownSoFar(slots: map<Slot, Seen>, offers: set<Slot>, todo: set<Slot>, out: map<Ip, Geo>)
    requires offers <= slots.Keys
  {
    && (forall s, t :: s in offers && s !in todo && t in todo ==> s.key <= t.key)
    && IsKnownGeo(slots, offers - todo, out)
  }

  lemma LeadsAfterOne(done: set<Slot>, s: Slot, t: Slot)
    requires s !in done && forall x :: x in done ==> x.key <= s.key
    ensures Leads(done + {s}, t) <==> Leads(done, t) || (t == s && !HasLeader(done, s.ip))
  {
    if t == s && !HasLeader(done, s.ip) {
      forall x | x in done + {s} && x.ip == s.ip
        ensures s.key <= x.key
      {
        if x in done {
          LeaderExists(done, x);
        }
      }
    }
  }

  /** The next slot in key order only fills in a location still unknown. */
  lemma KnownAfterOne(slots: map<Slot, Seen>, done: set<Slot>, s: Slot, out: map<Ip, Geo>, next: map<Ip, Geo>)
    requires s !in done && done + {s} <= slots.Keys && forall x :: x in done ==> x.key <= s.key
    requires IsKnownGeo(slots, done, out)
    requires next == if s.ip !in out then out[s.ip := slots[s].geo] else out
    ensures IsKnownGeo(slots, done + {s}, next)
  {
    assert s.ip in out <==> HasLeader(done, s.ip);
    forall t
      ensures Leads(done + {s}, t) <==> Leads(done, t) || (t == s && s.ip !in out)
    {
      LeadsAfterOne(done, s, t);
    }
    forall ip | ip in next
      ensures HasLeader(done + {s}, ip)
    {
      if ip in out {
        assert Leads(done + {s}, LeaderOf(done, ip));
      } else {
        assert Leads(done + {s}, s);
      }
    }
  }

  /** The next slot in key order. */
  method FirstSlot(todo: set<Slot>) returns (s: Slot)
    requires todo != {}
    ensures s in todo && forall t :: t in todo ==> s.key <= t.key
  {
    s :| s in todo;
    var rest := todo - {s};
    while rest != {}
      invariant rest <= todo && s in todo
      invariant forall t :: t in todo && t !in rest ==> s.key <= t.key
      decreases rest
    {
      var t :| t in rest;
      if t.key < s.key {
        s := t;
      }
      rest := rest - {t};
    }
  }

  method AddKnownGeo(r: Record, ip: Ip, shift: nat, known: map<Ip, Geo>, ghost s: Seen, ghost latest: int)
    returns (out: map<Ip, Geo>)
    requires Stands(r, s, latest)
    ensures out == if OffersGeo(s, latest + shift) && ip !in known then known[ip := s.geo] else known
  {
    out := known;
    if r.geo != NO_GEO {
      var survives := SurvivesShift(r, shift, s, latest);
      if survives && ip !in out {
        out := out[ip := r.geo];
      }
    }
  }

  lemma OneLessToDo(slots: map<Slot, Seen>, offers: set<Slot>, todo: set<Slot>, s: Slot,
                    out: map<Ip, Geo>, next: map<Ip, Geo>)
    requires offers <= slots.Keys && KnownSoFar(slots, offers, todo, out)
    requires s in todo && s in slots && forall t :: t in todo ==> s.key <= t.key
    requires next == if s in offers && s.ip !in out then out[s.ip := slots[s].geo] else out
    ensures KnownSoFar(slots, offers, todo - {s}, next)
  {
    var done := offers - todo;
    if s in offers {
      KnownAfterOne(slots, done, s, out, next);
      assert offers - (todo - {s}) == done + {s};
    } else {
      assert offers - (todo - {s}) == done;
    }
  }

  method CollectKnownGeo(records: map<Slot, Record>, shift: nat, ghost slots: map<Slot, Seen>,
                         ghost latest: int, ghost horizon: int)
    returns (out: map<Ip, Geo>)
    requires AllStand(records, slots, latest) && horizon == latest + shift
    ensures out == KnownGeo(slots, horizon)
  {
    out := map[];
    var todo := records.Keys;
    ghost var offers := Offering(slots, horizon);
    assert offers - todo == {};
    while todo != {}
      invariant todo <= records.Keys && KnownSoFar(slots, offers, todo, out)
      decreases todo
    {
      var s := FirstSlot(todo);
      var next := AddKnownGeo(records[s], s.ip, shift, out, slots[s], latest);
      OneLessToDo(slots, offers, todo, s, out, next);
      out := next;
      todo := todo - {s};
    }
    AllKnown(slots, todo, horizon, out);
  }

  lemma AllKnown(slots: map<Slot, Seen>, todo: set<Slot>, horizon: int, out: map<Ip, Geo>)
    requires todo == {} && KnownSoFar(slots, Offering(slots, horizon), todo, out)
    ensures out == KnownGeo(slots, horizon)
  {
    assert Offering(slots, horizon) - todo == Offering(slots, horizon);
    KnownGeoIs(slots, horizon, out);
  }

  method KnownForCall(c: Call, records: map<Slot, Record>, ghost slots: map<Slot, Seen>, ghost latest: int)
    returns (known: map<Ip, Geo>)
    requires AllStand(records, slots, latest)
    ensures known == KnownAtStart(c, Usage(Some(latest), slots))
  {
    known := map[];
    if c.reuse {
      known := CollectKnownGeo(records, 0, slots, latest, latest);
    }
  }

  // ----- sampling

  function Fresh(): Record {
    Record(Zeros(BYTES), 0, None, None, NO_GEO)
  }

  lemma FreshIsEmpty(latest: int)
    ensures Stands(Fresh(), Seen({}, None, None, NO_GEO), latest)
  {
    ZerosUnmarked(Zeros(BYTES));
  }

  lemma NewestBit(marks: set<nat>, latest: int)
    ensures Minutes(marks + {WINDOW - 1}, latest) == Minutes(marks, latest) + {latest}
    ensures WINDOW - 1 in marks ==> latest in Minutes(marks, latest)
  {
    assert WINDOW - 1 in marks ==> latest - (WINDOW - 1 - (WINDOW - 1)) in Minutes(marks, latest);
    assert latest - (WINDOW - 1 - (WINDOW - 1)) in Minutes(marks + {WINDOW - 1}, latest);
  }

  /** Marks the newest minute and counts it unless it was already marked. */
  method MarkNewest(r: Record, ghost s: Seen, ghost latest: int) returns (out: Record)
    requires Stands(r, s, latest)
    ensures Stands(out, s.(minutes := s.minutes + {latest}), latest) && out.minutes > 0
  {
    var bitmap := Normalized(r.bitmap);
    NormalizedIsFull(r.bitmap);
    MarkedCount(bitmap);
    NewestBit(Marked(bitmap), latest);
    var present := TestBit(bitmap, WINDOW - 1);
    out := r;
    if present {
      assert s.minutes + {latest} == s.minutes;
    } else {
      var marked := PutBit(bitmap, WINDOW - 1, true);
      MarkedCount(marked);
      SubsetOfPrefix(Marked(marked), WINDOW);
      out := r.(bitmap := marked, minutes := r.minutes + 1);
    }
  }

  method TouchRecord(c: Call, known: map<Ip, Geo>, ip: Ip, r: Record, ghost s: Seen, ghost latest: int)
    returns (out: Record, learned: map<Ip, Geo>)
    requires Stands(r, s, latest)
    ensures out.minutes > 0 && Stands(out, Touched(c, known, latest, ip, s), latest)
    ensures learned == Learned(c, known, ip, s)
  {
    learned := known;
    StandsInWindow(r, s, latest);
    var wasEmpty := r.minutes == 0;
    out := MarkNewest(r, s, latest);
    if wasEmpty || out.first.None? {
      out := out.(first := Some(c.minute));
    }
    out := out.(last := Some(c.minute));
    if out.geo == NO_GEO {
      if c.reuse && ip in known {
        out := out.(geo := known[ip]);
      } else {
        var geo := c.lookup(ip);
        if geo != out.geo {
          out := out.(geo := geo);
          learned := known[ip := geo];
        }
      }
    }
  }

  lemma AllStandAfter(records: map<Slot, Record>, slots: map<Slot, Seen>, latest: int, s: Slot, r: Record, x: Seen)
    requires AllStand(records, slots, latest) && r.minutes > 0 && Stands(r, x, latest)
    ensures AllStand(records[s := r], slots[s := x], latest)
  {
  }

  /** One iteration of the inner loop. */
  method Visit(c: Call, known: map<Ip, Geo>, records: map<Slot, Record>, s: Slot,
               ghost slots: map<Slot, Seen>, ghost latest: int)
    returns (out: map<Slot, Record>, learned: map<Ip, Geo>)
    requires AllStand(records, slots, latest)
    ensures AllStand(out, Visited(c, latest, Progress(slots, known), s).slots, latest)
    ensures learned == Visited(c, latest, Progress(slots, known), s).known
  {
    FreshIsEmpty(latest);
    var record := if s in records then records[s] else Fresh();
    ghost var seen := SeenIn(slots, s);
    record, learned := TouchRecord(c, known, s.ip, record, seen, latest);
    AllStandAfter(records, slots, latest, s, record, Touched(c, known, latest, s.ip, seen));
    out := records[s := record];
  }

  method VisitAll(c: Call, known: map<Ip, Geo>, records: map<Slot, Record>,
                  ghost slots: map<Slot, Seen>, ghost latest: int)
    returns (out: map<Slot, Record>)
    requires AllStand(records, slots, latest)
    ensures AllStand(out, AfterVisits(c, latest, Progress(slots, known), |c.visits|).slots, latest)
  {
    out := records;
    var learned := known;
    ghost var start := Progress(slots, known);
    ghost var p := start;
    for i := 0 to |c.visits|
      invariant AllStand(out, p.slots, latest)
      invariant learned == p.known && p == AfterVisits(c, latest, start, i)
    {
      out, learned := Visit(c, learned, out, c.visits[i], p.slots, latest);
      p := Visited(c, latest, p, c.visits[i]);
    }
  }

  class InboundIpUsage {
    var latest: Option<int>
    var records: map<Slot, Record>
    /** The sets of minutes the bitmaps stand for. */
    ghost var view: Usage

    ghost predicate Valid()
      reads this
    {
      && view.latest == latest
      && (if latest.Some? then AllStand(records, view.slots, latest.value)
          else records == map[] && view.slots == map[])
    }

    constructor ()
      ensures Valid() && view == EMPTY
    {
      latest, records, view := None, map[], EMPTY;
    }

    method AdvanceToMinute(minute: int)
      requires Valid()
      modifies this
      ensures Valid() && view == Advanced(old(view), minute)
    {
      ghost var u := view;
      if latest.None? {
        latest := Some(minute);
      } else {
        var previous := latest.value;
        records := AdvanceRecords(records, previous, minute, u.slots, Later(latest, minute));
        if minute > previous {
          latest := Some(minute);
        }
      }
      view := Advanced(u, minute);
    }

    method RecordMinuteSamples(c: Call)
      requires Valid()
      modifies this
      ensures Valid() && view == Recorded(old(view), c)
    {
      ghost var u := view;
      AdvanceToMinute(c.minute);
      ghost var a := view;
      var known := KnownForCall(c, records, a.slots, a.latest.value);
      records := VisitAll(c, known, records, a.slots, a.latest.value);
      view := Recorded(u, c);
    }

    /** A whole run of calls. */
    method RecordAll(calls: seq<Call>)
      requires Valid()
      modifies this
      ensures Valid() && view == Run(old(view), calls)
    {
      for i := 0 to |calls|
        invariant Valid() && view == Run(old(view), calls[..i])
      {
        RecordMinuteSamples(calls[i]);
        assert calls[..i + 1][..i] == calls[..i];
      }
      assert calls[..|calls|] == calls;
    }

    /** Bit `i` of a record is set exactly when that minute is in the set it stands for. */
    lemma BitMeansMinute(s: Slot, i: nat)
      requires Valid() && s in records && i < WINDOW
      ensures latest.Some? && s in view.slots
      ensures GetBit(records[s].bitmap, i) <==>
              latest.value - (WINDOW - 1 - i) in view.slots[s].minutes
      ensures records[s].minutes == CountBits(records[s].bitmap) == |view.slots[s].minutes|
    {
      var bitmap := records[s].bitmap;
      MarkedIffBit(bitmap, i);
      MarkedCount(bitmap);
      MinuteOfMark(Marked(bitmap), latest.value, i);
      MinutesCount(Marked(bitmap), latest.value);
    }
  }

  lemma MinuteOfMark(marks: set<nat>, latest: int, i: nat)
    ensures i in marks <==> latest - (WINDOW - 1 - i) in Minutes(marks, latest)
  {
  }

  lemma MinutesWithout(marks: set<nat>, latest: int, i: nat)
    requires i in marks
    ensures Minutes(marks - {i}, latest) == Minutes(marks, latest) - {latest - (WINDOW - 1 - i)}
  {
    forall j | j in marks && j != i
      ensures latest - (WINDOW - 1 - j) in Minutes(marks - {i}, latest)
    {
      assert j in marks - {i};
    }
  }

  lemma {:induction false} MinutesCount(marks: set<nat>, latest: int)
    ensures |Minutes(marks, latest)| == |marks|
  {
    if marks != {} {
      var i :| i in marks;
      MinutesCount(marks - {i}, latest);
      MinutesWithout(marks, latest, i);
      assert latest - (WINDOW - 1 - i) in Minutes(marks, latest);
    }
  }
}
