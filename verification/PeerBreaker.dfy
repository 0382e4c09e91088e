/**
 * The per-peer circuit breaker of the control-plane mesh and its timed, concurrent use
 * (src/control_plane_mesh.rs). Instants and durations are milliseconds.
 */
module PeerBreaker {
  import opened Words

  const FAILURES_BEFORE_OPEN: U8 := 3
  const BACKOFF: seq<nat> := [30_000, 60_000, 120_000, 240_000, 300_000]
  const SHORTEST_BACKOFF: nat := 30_000
  const LONGEST_BUDGET: nat := 5_000

  datatype Decision = Attempt | Probe | SkipOpen | Disabled

  datatype BreakerState = Closed | Open

  datatype Circuit = Circuit(failures: U8, openCount: U64, retryAt: Option<int>, halfOpen: bool)

  const IDLE := Circuit(0, 0, None, false)

  // ----- one circuit, as a value

  function Asked(c: Circuit, now: int): (Circuit, Decision) {
    match c.retryAt
    case None => (c, Attempt)
    case Some(at) =>
      if now < at || c.halfOpen then (c, SkipOpen) else (c.(halfOpen := true), Probe)
  }

  function Released(c: Circuit): Circuit {
    c.(halfOpen := false)
  }

  function Failed(c: Circuit, now: int): Circuit {
    var failures := Min(c.failures + 1, 255);
    if failures < FAILURES_BEFORE_OPEN then c.(failures := failures, halfOpen := false)
    else
      Circuit(failures, SatAdd(c.openCount, 1), Some(now + BACKOFF[Min(c.openCount, 4)]), false)
  }

  /** Each failure in a row waits at least as long as the one before, between 30 s and 5 min. */
  lemma WaitsNeverShrink(c: Circuit, now: int, later: int)
    requires Failed(c, now).retryAt.Some? && c.failures + 1 >= FAILURES_BEFORE_OPEN
    ensures var again := Failed(Failed(c, now), later);
            && again.retryAt.Some?
            && SHORTEST_BACKOFF <= Failed(c, now).retryAt.value - now <= again.retryAt.value - later <= 300_000
  {
    var i, j := Min(c.openCount, 4), Min(Failed(c, now).openCount, 4);
    assert i <= j && BACKOFF[i] <= BACKOFF[j];
  }

  /** A third of the total budget, clamped to [500 ms, 5 s]. */
  function MeshAttemptBudget(total: nat): (r: nat)
    ensures 500 <= r <= LONGEST_BUDGET
  {
    Max(500, Min(total / 3, LONGEST_BUDGET))
  }

  // ----- the locked map of circuits

  class PeerCircuitBreakers {
    var peers: map<string, Circuit>

    ghost function At(peer: string): Circuit
      reads this
    {
      CircuitOf(peers, peer)
    }

    constructor ()
      ensures forall p :: At(p) == IDLE
    {
      peers := map[];
    }

    method BeforeAttempt(peer: string, enabled: bool, now: int) returns (d: Decision)
      modifies this
      ensures !enabled ==> d == Disabled && peers == old(peers)
      ensures enabled ==> (At(peer), d) == Asked(old(At(peer)), now)
      ensures forall p :: p != peer ==> At(p) == old(At(p))
    {
      if !enabled {
        return Disabled;
      }
      var circuit := if peer in peers then peers[peer] else IDLE;
      match circuit.retryAt
      case None =>
        d := Attempt;
      case Some(at) =>
        if now < at || circuit.halfOpen {
          d := SkipOpen;
        } else {
          circuit := circuit.(halfOpen := true);
          d := Probe;
        }
      peers := peers[peer := circuit];
    }

    method RecordSuccess(peer: string) returns (s: BreakerState)
      modifies this
      ensures s == Closed && At(peer) == IDLE
      ensures forall p :: p != peer ==> At(p) == old(At(p))
    {
      peers := peers[peer := IDLE];
      s := Closed;
    }

    method ReleaseHalfOpenProbe(peer: string)
      modifies this
      ensures At(peer) == Released(old(At(peer)))
      ensures forall p :: p != peer ==> At(p) == old(At(p))
    {
      if peer in peers {
        peers := peers[peer := peers[peer].(halfOpen := false)];
      }
    }

    method RecordRetryableFailure(peer: string, now: int) returns (s: BreakerState)
      modifies this
      ensures At(peer) == Failed(old(At(peer)), now)
      ensures s == Open <==> At(peer).failures >= FAILURES_BEFORE_OPEN
      ensures forall p :: p != peer ==> At(p) == old(At(p))
    {
      var circuit := if peer in peers then peers[peer] else IDLE;
      circuit := circuit.(halfOpen := false, failures := Min(circuit.failures + 1, 255));
      if circuit.failures < FAILURES_BEFORE_OPEN {
        s := Closed;
      } else {
        var backoff := BACKOFF[Min(circuit.openCount, |BACKOFF| - 1)];
        circuit := circuit.(openCount := SatAdd(circuit.openCount, 1), retryAt := Some(now + backoff));
        s := Open;
      }
      peers := peers[peer := circuit];
    }
  }

  function CircuitOf(peers: map<string, Circuit>, peer: string): Circuit {
    if peer in peers then peers[peer] else IDLE
  }

  // ----- every interleaving of requests with the clock

  /** A granted attempt or probe that has not reported yet. */
  datatype Flight = Flight(peer: string, probe: bool, start: int, budget: nat)

  datatype System = System(now: int, peers: map<string, Circuit>, flights: map<nat, Flight>)

  datatype Report = Success | Failure | Release

  /**
   * `Abandon` is a request that returns after its grant without reporting, as happens when
   * the mesh base URL does not join or the caller drops the future.
   */
  datatype Event =
    | Tick(to: int)
    | Ask(peer: string, id: nat, totalBudget: nat)
    | Answer(id: nat, report: Report)
    | Abandon(id: nat)

  const START := System(0, map[], map[])

  function Reported(c: Circuit, report: Report, now: int): Circuit {
    match report
    case Success => IDLE
    case Failure => Failed(c, now)
    case Release => Released(c)
  }

  /** Time passes only while no request in flight outlives its budget. */
  predicate Enabled(s: System, e: Event) {
    match e
    case Tick(to) =>
      s.now <= to && forall id :: id in s.flights ==> to <= s.flights[id].start + s.flights[id].budget
    case Ask(_, id, _) => id !in s.flights
    case Answer(id, _) => id in s.flights
    case Abandon(id) => id in s.flights
  }

  function DecisionFor(s: System, peer: string): Decision {
    Asked(CircuitOf(s.peers, peer), s.now).1
  }

  function Step(s: System, e: Event): System
    requires Enabled(s, e)
  {
    match e
    case Tick(to) => s.(now := to)
    case Ask(peer, id, totalBudget) =>
      var (c, d) := Asked(CircuitOf(s.peers, peer), s.now);
      s.(peers := s.peers[peer := c],
         flights := if d == SkipOpen then s.flights
                    else s.flights[id := Flight(peer, d == Probe, s.now, MeshAttemptBudget(totalBudget))])
    case Answer(id, report) =>
      var peer := s.flights[id].peer;
      s.(peers := s.peers[peer := Reported(CircuitOf(s.peers, peer), report, s.now)],
         flights := s.flights - {id})
    case Abandon(id) => s.(flights := s.flights - {id})
  }

  predicate CanRun(s: System, es: seq<Event>)
    decreases |es|
  {
    es == [] || (Enabled(s, es[0]) && CanRun(Step(s, es[0]), es[1..]))
  }

  function Run(s: System, es: seq<Event>): System
    requires CanRun(s, es)
    decreases |es|
  {
    if es == [] then s else Run(Step(s, es[0]), es[1..])
  }

  // ----- safety

  predicate AtMostOneProbe(s: System) {
    forall i, j ::
      (i in s.flights && j in s.flights && s.flights[i].probe && s.flights[j].probe &&
       s.flights[i].peer == s.flights[j].peer) ==> i == j
  }

  /** Open exactly from the third failure on, and then with a retry time. */
  predicate ThresholdsAgree(c: Circuit) {
    && (c.retryAt.Some? <==> c.failures >= FAILURES_BEFORE_OPEN)
    && (c.retryAt.Some? <==> c.openCount >= 1)
  }

  /** What one request in flight knows about its own circuit. */
  predicate FlightInv(now: int, c: Circuit, f: Flight) {
    && f.start <= now <= f.start + f.budget && f.budget <= LONGEST_BUDGET
    && (f.probe ==> c.halfOpen && c.retryAt.Some? && c.retryAt.value <= f.start)
    && (!f.probe && c.retryAt.Some? ==> f.start + SHORTEST_BACKOFF <= c.retryAt.value)
  }

  ghost predicate ThresholdsInv(s: System) {
    forall p :: ThresholdsAgree(CircuitOf(s.peers, p))
  }

  predicate FlightsInv(s: System) {
    forall i :: i in s.flights ==> FlightInv(s.now, CircuitOf(s.peers, s.flights[i].peer), s.flights[i])
  }

  /** A probe is alone on its circuit. */
  predicate ProbesAlone(s: System) {
    forall i, j ::
      (i in s.flights && j in s.flights && s.flights[i].probe && s.flights[i].peer == s.flights[j].peer) ==> i == j
  }

  ghost predicate Inv(s: System) {
    ThresholdsInv(s) && FlightsInv(s) && ProbesAlone(s)
  }

  lemma StepKeepsThresholds(s: System, e: Event)
    requires ThresholdsInv(s) && Enabled(s, e)
    ensures ThresholdsInv(Step(s, e))
  {
    forall p
      ensures ThresholdsAgree(CircuitOf(Step(s, e).peers, p))
    {
      assert ThresholdsAgree(CircuitOf(s.peers, p));
    }
  }

  lemma StepKeepsFlight(s: System, e: Event, i: nat)
    requires FlightsInv(s) && ProbesAlone(s) && Enabled(s, e) && i in s.flights && i in Step(s, e).flights
    ensures FlightInv(Step(s, e).now, CircuitOf(Step(s, e).peers, s.flights[i].peer), s.flights[i])
  {
    assert FlightInv(s.now, CircuitOf(s.peers, s.flights[i].peer), s.flights[i]);
    if e.Answer? {
      assert FlightInv(s.now, CircuitOf(s.peers, s.flights[e.id].peer), s.flights[e.id]);
    }
  }

  lemma StepKeepsFlights(s: System, e: Event)
    requires FlightsInv(s) && ProbesAlone(s) && Enabled(s, e)
    ensures FlightsInv(Step(s, e))
  {
    var s' := Step(s, e);
    forall i | i in s'.flights
      ensures FlightInv(s'.now, CircuitOf(s'.peers, s'.flights[i].peer), s'.flights[i])
    {
      if i in s.flights {
        StepKeepsFlight(s, e, i);
      }
    }
  }

  lemma StepKeepsProbesAlone(s: System, e: Event)
    requires FlightsInv(s) && ProbesAlone(s) && Enabled(s, e)
    ensures ProbesAlone(Step(s, e))
  {
    if e.Ask? && DecisionFor(s, e.peer) != SkipOpen {
      forall i | i in s.flights && s.flights[i].peer == e.peer
        ensures !s.flights[i].probe && DecisionFor(s, e.peer) != Probe
      {
        assert FlightInv(s.now, CircuitOf(s.peers, e.peer), s.flights[i]);
      }
    }
  }

  lemma StepKeepsInv(s: System, e: Event)
    requires Inv(s) && Enabled(s, e)
    ensures Inv(Step(s, e))
  {
    StepKeepsThresholds(s, e);
    StepKeepsFlights(s, e);
    StepKeepsProbesAlone(s, e);
  }

  /**
   * Timed safety: whatever the interleaving of grants, reports, abandoned requests and time,
   * no two probes to one peer are in flight, and the three marks of an open circuit agree.
   */
  lemma {:induction false} ProbesAreExclusive(s: System, es: seq<Event>)
    requires Inv(s) && CanRun(s, es)
    ensures Inv(Run(s, es)) && AtMostOneProbe(Run(s, es))
    ensures forall p :: ThresholdsAgree(CircuitOf(Run(s, es).peers, p))
    decreases |es|
  {
    if es != [] {
      StepKeepsInv(s, es[0]);
      ProbesAreExclusive(Step(s, es[0]), es[1..]);
    }
  }

  lemma EveryRunIsSafe(es: seq<Event>)
    requires CanRun(START, es)
    ensures AtMostOneProbe(Run(START, es))
    ensures forall p :: ThresholdsAgree(CircuitOf(Run(START, es).peers, p))
  {
    ProbesAreExclusive(START, es);
  }

  // ----- the half-open flag

  predicate HasProbe(s: System, peer: string) {
    exists i :: i in s.flights && s.flights[i].peer == peer && s.flights[i].probe
  }

  ghost predicate FlagsAreProbes(s: System) {
    forall p :: CircuitOf(s.peers, p).halfOpen <==> HasProbe(s, p)
  }

  /** The event drops a probe without a report. */
  predicate DropsProbe(s: System, e: Event)
    requires Enabled(s, e)
  {
    e.Abandon? && s.flights[e.id].probe
  }

  /** Every probe of the run that ends, ends with a report; dropped attempts do not matter. */
  predicate ProbesReport(s: System, es: seq<Event>)
    requires CanRun(s, es)
    decreases |es|
  {
    es == [] || (!DropsProbe(s, es[0]) && ProbesReport(Step(s, es[0]), es[1..]))
  }

  /** A probe in flight has its circuit's flag, and outlives every event but its own. */
  lemma ProbeStays(s: System, e: Event, i: nat)
    requires Inv(s) && Enabled(s, e) && i in s.flights && s.flights[i].probe
    ensures CircuitOf(s.peers, s.flights[i].peer).halfOpen
    ensures !((e.Answer? || e.Abandon?) && e.id == i) ==>
              && i in Step(s, e).flights && Step(s, e).flights[i] == s.flights[i]
              && CircuitOf(Step(s, e).peers, s.flights[i].peer).halfOpen
  {
    assert FlightInv(s.now, CircuitOf(s.peers, s.flights[i].peer), s.flights[i]);
    if e.Answer? && e.id != i {
      assert s.flights[e.id].peer != s.flights[i].peer;
    }
  }

  lemma StepKeepsFlag(s: System, e: Event, p: string)
    requires Inv(s) && Enabled(s, e) && !DropsProbe(s, e)
    requires CircuitOf(s.peers, p).halfOpen <==> HasProbe(s, p)
    ensures CircuitOf(Step(s, e).peers, p).halfOpen <==> HasProbe(Step(s, e), p)
  {
    var s' := Step(s, e);
    if i :| i in s.flights && s.flights[i].peer == p && s.flights[i].probe {
      ProbeStays(s, e, i);
      if e.Answer? && e.id == i {
        forall j | j in s'.flights && s'.flights[j].peer == p && s'.flights[j].probe
          ensures j == i
        {
          assert j in s.flights;
        }
        assert !HasProbe(s', p);
      } else {
        assert s'.flights[i].probe;
      }
    } else if e.Ask? && e.peer == p && DecisionFor(s, p) == Probe {
      assert s'.flights[e.id].probe;
    }
  }

  lemma StepKeepsFlags(s: System, e: Event)
    requires Inv(s) && FlagsAreProbes(s) && Enabled(s, e) && !DropsProbe(s, e)
    ensures FlagsAreProbes(Step(s, e))
  {
    forall p
      ensures CircuitOf(Step(s, e).peers, p).halfOpen <==> HasProbe(Step(s, e), p)
    {
      StepKeepsFlag(s, e, p);
    }
  }

  predicate Wedged(s: System, peer: string) {
    && CircuitOf(s.peers, peer).halfOpen
    && CircuitOf(s.peers, peer).retryAt.Some? && CircuitOf(s.peers, peer).retryAt.value <= s.now
    && forall i :: i in s.flights ==> s.flights[i].peer != peer
  }

  lemma StepKeepsWedged(s: System, e: Event, peer: string)
    requires Wedged(s, peer) && Enabled(s, e)
    ensures Wedged(Step(s, e), peer)
  {
  }

  /** A probe dropped without a report blocks its peer for good. */
  lemma {:induction false} AbandonedProbeBlocksPeer(s: System, es: seq<Event>, peer: string)
    requires Wedged(s, peer) && CanRun(s, es)
    ensures Wedged(Run(s, es), peer) && DecisionFor(Run(s, es), peer) == SkipOpen
    decreases |es|
  {
    if es != [] {
      StepKeepsWedged(s, es[0], peer);
      AbandonedProbeBlocksPeer(Step(s, es[0]), es[1..], peer);
    }
  }

  lemma AbandoningAProbeWedges(s: System, id: nat)
    requires Inv(s) && id in s.flights && s.flights[id].probe
    ensures Wedged(Step(s, Abandon(id)), s.flights[id].peer)
  {
    assert FlightInv(s.now, CircuitOf(s.peers, s.flights[id].peer), s.flights[id]);
  }

  lemma WedgedHasNoProbe(s: System, peer: string)
    requires Wedged(s, peer)
    ensures !HasProbe(s, peer) && !FlagsAreProbes(s) && !ProbedWhenDue(s, peer)
  {
  }

  lemma {:induction false} DroppedProbeLeavesWedge(s: System, es: seq<Event>) returns (peer: string)
    requires Inv(s) && CanRun(s, es) && !ProbesReport(s, es)
    ensures Wedged(Run(s, es), peer)
    decreases |es|
  {
    if DropsProbe(s, es[0]) {
      peer := s.flights[es[0].id].peer;
      AbandoningAProbeWedges(s, es[0].id);
      AbandonedProbeBlocksPeer(Step(s, es[0]), es[1..], peer);
    } else {
      StepKeepsInv(s, es[0]);
      peer := DroppedProbeLeavesWedge(Step(s, es[0]), es[1..]);
    }
  }

  lemma {:induction false} ReportsKeepFlags(s: System, es: seq<Event>)
    requires Inv(s) && FlagsAreProbes(s) && CanRun(s, es) && ProbesReport(s, es)
    ensures FlagsAreProbes(Run(s, es))
    decreases |es|
  {
    if es != [] {
      StepKeepsInv(s, es[0]);
      StepKeepsFlags(s, es[0]);
      ReportsKeepFlags(Step(s, es[0]), es[1..]);
    }
  }

  /**
   * At the end of a run the flag of every peer is set exactly while a probe to it is in flight,
   * if and only if no probe was dropped without a report on the way.
   */
  lemma FlagsAreExactIff(es: seq<Event>)
    requires CanRun(START, es)
    ensures FlagsAreProbes(Run(START, es)) <==> ProbesReport(START, es)
  {
    if ProbesReport(START, es) {
      ReportsKeepFlags(START, es);
    } else {
      var peer := DroppedProbeLeavesWedge(START, es);
      WedgedHasNoProbe(Run(START, es), peer);
    }
  }

  /** A peer whose wait is over gets a probe exactly when none is in flight. */
  predicate ProbedWhenDue(s: System, peer: string) {
    var c := CircuitOf(s.peers, peer);
    c.retryAt.Some? && c.retryAt.value <= s.now ==> (DecisionFor(s, peer) == Probe <==> !HasProbe(s, peer))
  }

  ghost predicate AllProbedWhenDue(s: System) {
    forall peer {:trigger HasProbe(s, peer)} :: ProbedWhenDue(s, peer)
  }

  lemma ExactFlagProbes(s: System, peer: string)
    requires FlagsAreProbes(s)
    ensures ProbedWhenDue(s, peer)
  {
    assert CircuitOf(s.peers, peer).halfOpen <==> HasProbe(s, peer);
  }

  /** Every peer is probed again once its wait is over, if and only if no probe was dropped. */
  lemma PeersAreProbedIff(es: seq<Event>)
    requires CanRun(START, es)
    ensures AllProbedWhenDue(Run(START, es)) <==> ProbesReport(START, es)
  {
    if ProbesReport(START, es) {
      ReportsKeepFlags(START, es);
      forall peer
        ensures ProbedWhenDue(Run(START, es), peer)
      {
        ExactFlagProbes(Run(START, es), peer);
      }
    } else {
      var peer := DroppedProbeLeavesWedge(START, es);
      WedgedHasNoProbe(Run(START, es), peer);
      assert !AllProbedWhenDue(Run(START, es));
    }
  }

  // ----- a run that drops a probe

  lemma OneEventFirst(s: System, e: Event, es: seq<Event>)
    requires Enabled(s, e) && CanRun(Step(s, e), es)
    ensures CanRun(s, [e] + es) && Run(s, [e] + es) == Run(Step(s, e), es)
  {
    assert ([e] + es)[1..] == es;
  }

  function Failing(peer: string, c: Circuit): System {
    System(0, map[peer := c], map[])
  }

  /** One attempt that fails in a transport error. */
  lemma FailOnce(s: System, c: Circuit, peer: string)
    requires s.now == 0 && s.flights == map[] && CircuitOf(s.peers, peer) == c && c.retryAt.None?
    requires s.peers.Keys <= {peer}
    ensures Enabled(s, Ask(peer, 0, 15_000)) && Enabled(Step(s, Ask(peer, 0, 15_000)), Answer(0, Failure))
    ensures Step(Step(s, Ask(peer, 0, 15_000)), Answer(0, Failure)) == Failing(peer, Failed(c, 0))
  {
    var s' := Step(Step(s, Ask(peer, 0, 15_000)), Answer(0, Failure));
    assert s'.peers == map[peer := Failed(c, 0)];
    assert s'.flights == map[];
  }

  /** After three failures and the wait, a probe is granted and dropped. */
  lemma DropAfterWait(peer: string) returns (es: seq<Event>)
    ensures var s := Failing(peer, Circuit(3, 1, Some(30_000), false));
            CanRun(s, es) && Wedged(Run(s, es), peer)
  {
    var s := Failing(peer, Circuit(3, 1, Some(30_000), false));
    var s1 := Step(s, Tick(30_000));
    var s2 := Step(s1, Ask(peer, 0, 15_000));
    assert s2.flights[0].probe && s2.flights[0].peer == peer;
    var s3 := Step(s2, Abandon(0));
    assert s3.flights == map[];
    assert Wedged(s3, peer);
    OneEventFirst(s2, Abandon(0), []);
    OneEventFirst(s1, Ask(peer, 0, 15_000), [Abandon(0)] + []);
    OneEventFirst(s, Tick(30_000), [Ask(peer, 0, 15_000)] + ([Abandon(0)] + []));
    es := [Tick(30_000)] + ([Ask(peer, 0, 15_000)] + ([Abandon(0)] + []));
  }

  lemma FailFirst(s: System, c: Circuit, peer: string, rest: seq<Event>) returns (es: seq<Event>)
    requires s.now == 0 && s.flights == map[] && CircuitOf(s.peers, peer) == c && c.retryAt.None?
    requires s.peers.Keys <= {peer} && CanRun(Failing(peer, Failed(c, 0)), rest)
    ensures CanRun(s, es) && Run(s, es) == Run(Failing(peer, Failed(c, 0)), rest)
  {
    FailOnce(s, c, peer);
    OneEventFirst(Step(s, Ask(peer, 0, 15_000)), Answer(0, Failure), rest);
    OneEventFirst(s, Ask(peer, 0, 15_000), [Answer(0, Failure)] + rest);
    es := [Ask(peer, 0, 15_000)] + ([Answer(0, Failure)] + rest);
  }

  /** From the start: three transport failures, the wait, a probe that is dropped, a blocked peer. */
  lemma DroppedProbeWedgesPeer(peer: string) returns (es: seq<Event>)
    ensures CanRun(START, es) && Wedged(Run(START, es), peer) && !ProbesReport(START, es)
  {
    var one, two, three := Circuit(1, 0, None, false), Circuit(2, 0, None, false), Circuit(3, 1, Some(30_000), false);
    assert Failed(IDLE, 0) == one && Failed(one, 0) == two && Failed(two, 0) == three;
    es := DropAfterWait(peer);
    es := FailFirst(Failing(peer, two), two, peer, es);
    es := FailFirst(Failing(peer, one), one, peer, es);
    es := FailFirst(START, IDLE, peer, es);
    FlagsAreExactIff(es);
    WedgedHasNoProbe(Run(START, es), peer);
  }
}
