/**
 * Inbound IP usage, as sets of absolute minutes: what the sliding bitmaps stand for
 * (src/inbound_ip_usage.rs). Minutes are whole minutes since the epoch.
 *
 * The source nests a map of IPs in a map of memberships and drops a membership with its last
 * IP; here the two levels are one map over (membership key, IP) pairs. A membership key is
 * represented by its rank in the string order, which is the order the source iterates in.
 */
module IpUsage {
  import opened Collections
  import opened IpBitmap
  import opened Words

  type Key = nat
  type Ip = string

  datatype Slot = Slot(key: Key, ip: Ip)

  datatype Geo = Geo(country: string, region: string, city: string, operator: string)

  const NO_GEO := Geo("", "", "", "")

  /**
   * One call of `record_minute_samples`: the membership and IP pairs in the order its two
   * nested loops visit them. IPs are already parsed and normalised.
   */
  datatype Call = Call(minute: int, visits: seq<Slot>, lookup: Ip -> Geo, reuse: bool)

  datatype Seen = Seen(minutes: set<int>, first: Option<int>, last: Option<int>, geo: Geo)

  datatype Usage = Usage(latest: Option<int>, slots: map<Slot, Seen>)

  const EMPTY := Usage(None, map[])

  // ----- sliding the window

  function Later(latest: Option<int>, minute: int): int {
    if latest.Some? then Max(latest.value, minute) else minute
  }

  /** The minutes a window ending at `latest` still holds. */
  function Recent(minutes: set<int>, latest: int): set<int> {
    set t | t in minutes && t > latest - WINDOW
  }

  function RecentSeen(s: Seen, latest: int): Seen {
    s.(minutes := Recent(s.minutes, latest))
  }

  /** Forget what slid out of the window, and every record left empty by that. */
  function RecentSlots(slots: map<Slot, Seen>, latest: int): map<Slot, Seen> {
    map s | s in slots && Recent(slots[s].minutes, latest) != {} :: RecentSeen(slots[s], latest)
  }

  function Advanced(u: Usage, minute: int): Usage {
    var now := Later(u.latest, minute);
    Usage(Some(now), RecentSlots(u.slots, now))
  }

  // ----- known locations

  /** The record has a location and will still be there at `horizon`. */
  predicate OffersGeo(s: Seen, horizon: int) {
    s.geo != NO_GEO && Recent(s.minutes, horizon) != {}
  }

  function Offering(slots: map<Slot, Seen>, horizon: int): set<Slot> {
    set s | s in slots && OffersGeo(slots[s], horizon)
  }

  /** In `offers`, `s` is the first slot in key order for its IP. */
  ghost predicate Leads(offers: set<Slot>, s: Slot) {
    s in offers && forall t :: t in offers && t.ip == s.ip ==> s.key <= t.key
  }

  ghost predicate HasLeader(offers: set<Slot>, ip: Ip) {
    exists s :: Leads(offers, s) && s.ip == ip
  }

  /** Each IP has the location of its leader. */
  ghost predicate IsKnownGeo(slots: map<Slot, Seen>, offers: set<Slot>, known: map<Ip, Geo>)
    requires offers <= slots.Keys
  {
    && (forall s :: Leads(offers, s) ==> s.ip in known && known[s.ip] == slots[s].geo)
    && (forall ip :: ip in known ==> HasLeader(offers, ip))
  }

  lemma {:induction false} LeaderExists(offers: set<Slot>, s: Slot)
    requires s in offers
    ensures HasLeader(offers, s.ip)
    decreases s.key
  {
    if t :| t in offers && t.ip == s.ip && t.key < s.key {
      LeaderExists(offers, t);
    } else {
      assert Leads(offers, s);
    }
  }

  ghost function LeaderOf(offers: set<Slot>, ip: Ip): (s: Slot)
    requires HasLeader(offers, ip)
    ensures Leads(offers, s) && s.ip == ip
  {
    var s :| Leads(offers, s) && s.ip == ip;
    s
  }

  lemma LeadersAgree(offers: set<Slot>, s: Slot, t: Slot)
    requires Leads(offers, s) && Leads(offers, t) && s.ip == t.ip
    ensures s == t
  {
  }

  lemma KnownGeoExists(slots: map<Slot, Seen>, offers: set<Slot>)
    requires offers <= slots.Keys
    ensures exists known :: IsKnownGeo(slots, offers, known)
  {
    var ips := set s | s in offers && Leads(offers, s) :: s.ip;
    var known := map ip | ip in ips :: slots[LeaderOf(offers, ip)].geo;
    forall s | Leads(offers, s)
      ensures s.ip in known && known[s.ip] == slots[s].geo
    {
      assert s.ip in ips;
      LeadersAgree(offers, s, LeaderOf(offers, s.ip));
    }
    assert IsKnownGeo(slots, offers, known);
  }

  lemma KnownGeoIsUnique(slots: map<Slot, Seen>, offers: set<Slot>, a: map<Ip, Geo>, b: map<Ip, Geo>)
    requires offers <= slots.Keys && IsKnownGeo(slots, offers, a) && IsKnownGeo(slots, offers, b)
    ensures a == b
  {
  }

  /** `collect_known_geo_by_ip_surviving_shift`: the first membership in key order wins. */
  ghost function KnownGeo(slots: map<Slot, Seen>, horizon: int): map<Ip, Geo> {
    KnownGeoExists(slots, Offering(slots, horizon));
    var known :| IsKnownGeo(slots, Offering(slots, horizon), known);
    known
  }

  lemma KnownGeoIs(slots: map<Slot, Seen>, horizon: int, known: map<Ip, Geo>)
    ensures IsKnownGeo(slots, Offering(slots, horizon), known) <==> known == KnownGeo(slots, horizon)
  {
    KnownGeoExists(slots, Offering(slots, horizon));
    if IsKnownGeo(slots, Offering(slots, horizon), known) {
      KnownGeoIsUnique(slots, Offering(slots, horizon), known, KnownGeo(slots, horizon));
    }
  }

  // ----- recording a sample

  function FoundGeo(c: Call, known: map<Ip, Geo>, ip: Ip, current: Geo): Geo {
    if current != NO_GEO then current
    else if c.reuse && ip in known then known[ip]
    else c.lookup(ip)
  }

  /** The record after seeing its IP at minute `now`. */
  function Touched(c: Call, known: map<Ip, Geo>, now: int, ip: Ip, s: Seen): Seen {
    Seen(s.minutes + {now},
         if s.minutes == {} || s.first.None? then Some(c.minute) else s.first,
         Some(c.minute),
         FoundGeo(c, known, ip, s.geo))
  }

  /** A location looked up for `ip` is reused by the later visits of the call. */
  function Learned(c: Call, known: map<Ip, Geo>, ip: Ip, s: Seen): map<Ip, Geo> {
    if s.geo == NO_GEO && !(c.reuse && ip in known) && c.lookup(ip) != NO_GEO
    then known[ip := c.lookup(ip)] else known
  }

  datatype Progress = Progress(slots: map<Slot, Seen>, known: map<Ip, Geo>)

  function SeenIn(slots: map<Slot, Seen>, s: Slot): Seen {
    if s in slots then slots[s] else Seen({}, None, None, NO_GEO)
  }

  function Visited(c: Call, now: int, p: Progress, s: Slot): Progress {
    var seen := SeenIn(p.slots, s);
    Progress(p.slots[s := Touched(c, p.known, now, s.ip, seen)], Learned(c, p.known, s.ip, seen))
  }

  function AfterVisits(c: Call, now: int, p: Progress, n: nat): Progress
    requires n <= |c.visits|
  {
    if n == 0 then p else Visited(c, now, AfterVisits(c, now, p, n - 1), c.visits[n - 1])
  }

  ghost function KnownAtStart(c: Call, a: Usage): map<Ip, Geo>
    requires a.latest.Some?
  {
    if c.reuse then KnownGeo(a.slots, a.latest.value) else map[]
  }

  ghost function Recorded(u: Usage, c: Call): Usage {
    var a := Advanced(u, c.minute);
    var start := Progress(a.slots, KnownAtStart(c, a));
    Usage(a.latest, AfterVisits(c, a.latest.value, start, |c.visits|).slots)
  }

  ghost function Run(u: Usage, calls: seq<Call>): Usage {
    if calls == [] then u else Recorded(Run(u, calls[..|calls| - 1]), calls[|calls| - 1])
  }

  // ----- what is held after any run

  ghost predicate SeenAt(slots: map<Slot, Seen>, s: Slot, t: int) {
    s in slots && t in slots[s].minutes
  }

  /** The minute a call is filed under: the clock never runs the window backwards. */
  function FiledUnder(calls: seq<Call>): int
    requires calls != []
  {
    var rest := calls[..|calls| - 1];
    if rest == [] then calls[0].minute else Max(FiledUnder(rest), calls[|calls| - 1].minute)
  }

  /** Some call filed under minute `t` sampled this IP for this membership. */
  predicate Observed(calls: seq<Call>, s: Slot, t: int) {
    calls != [] &&
    var rest, c := calls[..|calls| - 1], calls[|calls| - 1];
    (Observed(rest, s, t) || (t == FiledUnder(calls) && s in c.visits))
  }

  predicate NoEmpty(slots: map<Slot, Seen>) {
    forall s :: s in slots ==> slots[s].minutes != {}
  }

  lemma AdvancedSeenAt(u: Usage, minute: int, s: Slot, t: int)
    ensures SeenAt(Advanced(u, minute).slots, s, t) <==>
            SeenAt(u.slots, s, t) && t > Later(u.latest, minute) - WINDOW
  {
    var now := Later(u.latest, minute);
    if SeenAt(u.slots, s, t) && t > now - WINDOW {
      assert t in Recent(u.slots[s].minutes, now);
    }
  }

  lemma {:induction false} AfterVisitsSeenAt(c: Call, now: int, p: Progress, n: nat, s: Slot, t: int)
    requires n <= |c.visits|
    ensures SeenAt(AfterVisits(c, now, p, n).slots, s, t) <==>
            SeenAt(p.slots, s, t) || (t == now && s in c.visits[..n])
  {
    if n > 0 {
      AfterVisitsSeenAt(c, now, p, n - 1, s, t);
      assert c.visits[..n] == c.visits[..n - 1] + [c.visits[n - 1]];
    }
  }

  lemma {:induction false} AfterVisitsNoEmpty(c: Call, now: int, p: Progress, n: nat)
    requires n <= |c.visits| && NoEmpty(p.slots)
    ensures NoEmpty(AfterVisits(c, now, p, n).slots)
  {
    if n > 0 {
      AfterVisitsNoEmpty(c, now, p, n - 1);
    }
  }

  lemma {:induction false} RunLatest(calls: seq<Call>)
    requires calls != []
    ensures Run(EMPTY, calls).latest == Some(FiledUnder(calls))
  {
    if |calls| > 1 {
      RunLatest(calls[..|calls| - 1]);
    }
  }

  /**
   * After any run from the empty state, an IP is recorded for a membership at minute `t`
   * exactly when some call filed under `t` sampled it and `t` is still in the window.
   */
  lemma {:induction false} RunHoldsTheWindow(calls: seq<Call>, s: Slot, t: int)
    ensures SeenAt(Run(EMPTY, calls).slots, s, t) <==>
            Observed(calls, s, t) && t > FiledUnder(calls) - WINDOW
  {
    if calls != [] {
      var rest, c := calls[..|calls| - 1], calls[|calls| - 1];
      RunHoldsTheWindow(rest, s, t);
      var u := Run(EMPTY, rest);
      RunLatest(calls);
      if rest != [] {
        RunLatest(rest);
      }
      var a := Advanced(u, c.minute);
      AdvancedSeenAt(u, c.minute, s, t);
      var start := Progress(a.slots, KnownAtStart(c, a));
      AfterVisitsSeenAt(c, a.latest.value, start, |c.visits|, s, t);
      assert c.visits[..|c.visits|] == c.visits;
    }
  }

  /** With minutes that never go back, a call is filed under its own minute. */
  lemma {:induction false} FiledUnderOwnMinute(calls: seq<Call>)
    requires calls != []
    requires forall i, j :: 0 <= i < j < |calls| ==> calls[i].minute <= calls[j].minute
    ensures FiledUnder(calls) == calls[|calls| - 1].minute
  {
    if |calls| > 1 {
      FiledUnderOwnMinute(calls[..|calls| - 1]);
    }
  }

  lemma RunNoEmpty(calls: seq<Call>)
    ensures NoEmpty(Run(EMPTY, calls).slots)
  {
    if calls != [] {
      var c := calls[|calls| - 1];
      var a := Advanced(Run(EMPTY, calls[..|calls| - 1]), c.minute);
      AfterVisitsNoEmpty(c, a.latest.value, Progress(a.slots, KnownAtStart(c, a)), |c.visits|);
    }
  }

  /** A record exists exactly when it holds a minute. */
  lemma RecordsAreNotEmpty(calls: seq<Call>, s: Slot)
    ensures s in Run(EMPTY, calls).slots <==> exists t :: SeenAt(Run(EMPTY, calls).slots, s, t)
  {
    RunNoEmpty(calls);
    var slots := Run(EMPTY, calls).slots;
    if s in slots {
      var t :| t in slots[s].minutes;
      assert SeenAt(slots, s, t);
    }
  }

  // ----- first and last seen

  /** What a call writes into the records it visits: its own minute, under the minute it is filed at. */
  datatype Filing = Filing(written: int, filed: int)

  /** The last call of a run that visited the record. */
  function LastFiling(calls: seq<Call>, s: Slot): Option<Filing> {
    if calls == [] then None
    else if s in calls[|calls| - 1].visits then Some(Filing(calls[|calls| - 1].minute, FiledUnder(calls)))
    else LastFiling(calls[..|calls| - 1], s)
  }

  predicate IsNewest(minutes: set<int>, minute: int) {
    minute in minutes && forall t :: t in minutes ==> t <= minute
  }

  predicate NoLaterThan(first: Option<int>, minutes: set<int>) {
    first.Some? && forall t :: t in minutes ==> first.value <= t
  }

  predicate SeenTimes(s: Seen, v: Filing) {
    && NoLaterThan(s.first, s.minutes) && s.last == Some(v.written)
    && v.written <= v.filed && IsNewest(s.minutes, v.filed)
  }

  lemma RecentKeepsTimes(s: Seen, v: Filing, now: int)
    requires SeenTimes(s, v) && Recent(s.minutes, now) != {}
    ensures SeenTimes(RecentSeen(s, now), v)
  {
    var t := Choose(Recent(s.minutes, now));
    assert t <= v.filed;
  }

  lemma TouchedTimes(c: Call, known: map<Ip, Geo>, now: int, ip: Ip, s: Seen)
    requires c.minute <= now && (s.minutes == {} || NoLaterThan(s.first, s.minutes))
    requires forall t :: t in s.minutes ==> t <= now
    ensures SeenTimes(Touched(c, known, now, ip, s), Filing(c.minute, now))
  {
    var r := Touched(c, known, now, ip, s);
    forall t | t in r.minutes
      ensures r.first.value <= t <= now
    {
      if s.minutes != {} {
        var x := Choose(s.minutes);
        assert s.first.value <= x <= now;
      }
    }
  }

  /** The visits of a call set the times of the records they touch and leave the others alone. */
  lemma {:induction false} VisitsSetTimes(c: Call, now: int, p: Progress, n: nat, s: Slot)
    requires n <= |c.visits| && c.minute <= now
    requires s in p.slots ==> NoLaterThan(p.slots[s].first, p.slots[s].minutes)
    requires s in p.slots ==> forall t :: t in p.slots[s].minutes ==> t <= now
    ensures var slots := AfterVisits(c, now, p, n).slots;
            if s in c.visits[..n] then s in slots && SeenTimes(slots[s], Filing(c.minute, now))
            else SeenIn(slots, s) == SeenIn(p.slots, s) && (s in slots <==> s in p.slots)
  {
    if n > 0 {
      VisitsSetTimes(c, now, p, n - 1, s);
      TakeOneMore(c.visits, n - 1);
      var before := AfterVisits(c, now, p, n - 1);
      if s == c.visits[n - 1] {
        TouchedTimes(c, before.known, now, s.ip, SeenIn(before.slots, s));
      }
    }
  }

  lemma FiledNoEarlier(calls: seq<Call>)
    requires calls != []
    ensures FiledUnder(calls) >= calls[|calls| - 1].minute
    ensures |calls| > 1 ==> FiledUnder(calls) >= FiledUnder(calls[..|calls| - 1])
  {
  }

  ghost predicate TimesHold(calls: seq<Call>, s: Slot) {
    var slots, v := Run(EMPTY, calls).slots, LastFiling(calls, s);
    s in slots ==> v.Some? && SeenTimes(slots[s], v.value) && v.value.filed <= FiledUnder(calls)
  }

  /**
   * After any run, whether minutes go back or not: a record's first-seen time is no later than
   * any minute it holds, its last-seen time is the minute of the last call that visited it, and
   * the newest minute it holds is the one that call was filed under.
   */
  lemma {:induction false} SeenTimesAfterRun(calls: seq<Call>, s: Slot)
    requires calls != []
    ensures TimesHold(calls, s)
    decreases |calls|
  {
    var rest, c := calls[..|calls| - 1], calls[|calls| - 1];
    var u := Run(EMPTY, rest);
    var a := Advanced(u, c.minute);
    RunLatest(calls);
    FiledNoEarlier(calls);
    if rest != [] {
      SeenTimesAfterRun(rest, s);
      RunLatest(rest);
      if s in a.slots {
        RecentKeepsTimes(u.slots[s], LastFiling(rest, s).value, a.latest.value);
      }
    }
    VisitsSetTimes(c, a.latest.value, Progress(a.slots, KnownAtStart(c, a)), |c.visits|, s);
    TakeAll(c.visits);
  }

  /** So the last-seen time is the newest minute held exactly when that call was filed under its own minute. */
  lemma SeenTimesAreTrueIff(calls: seq<Call>, s: Slot)
    requires calls != [] && s in Run(EMPTY, calls).slots
    ensures var seen, v := Run(EMPTY, calls).slots[s], LastFiling(calls, s);
            && v.Some? && NoLaterThan(seen.first, seen.minutes) && seen.last == Some(v.value.written)
            && (IsNewest(seen.minutes, seen.last.value) <==> v.value.written == v.value.filed)
  {
    SeenTimesAfterRun(calls, s);
  }

  /** A call whose minute has gone back writes that minute over a newer one that the record holds. */
  lemma SeenTimesMayLie(calls: seq<Call>, s: Slot)
    requires |calls| == 2 && calls[1].minute < calls[0].minute && s in calls[1].visits
    ensures s in Run(EMPTY, calls).slots
    ensures var seen := Run(EMPTY, calls).slots[s];
            seen.last == Some(calls[1].minute) && IsNewest(seen.minutes, calls[0].minute)
  {
    assert calls[..1][0] == calls[0] && calls[..1][..0] == [];
    assert FiledUnder(calls) == calls[0].minute;
    RunHoldsTheWindow(calls, s, calls[0].minute);
    SeenTimesAfterRun(calls, s);
  }

  lemma {:induction false} VisitsFiledUnderOwnMinute(calls: seq<Call>, s: Slot)
    requires forall i, j :: 0 <= i < j < |calls| ==> calls[i].minute <= calls[j].minute
    ensures LastFiling(calls, s).Some? ==> LastFiling(calls, s).value.written == LastFiling(calls, s).value.filed
    decreases |calls|
  {
    if calls != [] {
      FiledUnderOwnMinute(calls);
      VisitsFiledUnderOwnMinute(calls[..|calls| - 1], s);
    }
  }

  /** In particular it always is when minutes never go back. */
  lemma SeenTimesAreTrue(calls: seq<Call>, s: Slot)
    requires s in Run(EMPTY, calls).slots
    requires forall i, j :: 0 <= i < j < |calls| ==> calls[i].minute <= calls[j].minute
    ensures var seen := Run(EMPTY, calls).slots[s];
            NoLaterThan(seen.first, seen.minutes) && seen.last.Some? && IsNewest(seen.minutes, seen.last.value)
  {
    SeenTimesAreTrueIff(calls, s);
    VisitsFiledUnderOwnMinute(calls, s);
  }

  // ----- predict, then advance

  lemma OfferingCommutes(slots: map<Slot, Seen>, now: int)
    ensures Offering(slots, now) == Offering(RecentSlots(slots, now), now)
  {
    var after := RecentSlots(slots, now);
    forall t | t in slots
      ensures OffersGeo(slots[t], now) <==> t in after && OffersGeo(after[t], now)
    {
      assert Recent(Recent(slots[t].minutes, now), now) == Recent(slots[t].minutes, now);
    }
  }

  /**
   * The locations predicted for a future minute before advancing are the locations known
   * after advancing to it, whatever the distance, including none and a whole window.
   */
  lemma PredictThenAdvance(u: Usage, minute: int)
    ensures var now := Later(u.latest, minute);
            KnownGeo(u.slots, now) == KnownGeo(Advanced(u, minute).slots, now)
  {
    var now := Later(u.latest, minute);
    var after := RecentSlots(u.slots, now);
    var known := KnownGeo(u.slots, now);
    OfferingCommutes(u.slots, now);
    KnownGeoIs(u.slots, now, known);
    KnownGeoIs(after, now, known);
  }
}
